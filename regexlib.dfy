/**
 * The part of Go's `regexp` package the surfacer options use: compiling a
 * pattern (which may fail) and matching a compiled expression against a string.
 * The regular-expression engine itself is not modelled: it is a parameter,
 * `RegexEngine`, that says which patterns compile and what each one matches.
 * The one pattern the options know concretely is the default latency pattern.
 */
module RegexLib {
  import opened Wrappers

  /** An opaque regular-expression library: its syntax check and its matcher. */
  datatype RegexEngine = RegexEngine(compiles: string -> bool, matches: (string, string) -> bool)

  /** A compiled expression (`*regexp.Regexp`): its source and what it matches. */
  datatype Regex = Regex(pattern: string, accepts: string -> bool)

  /** The error `regexp.Compile` reports, identified by the offending pattern. */
  datatype CompileError = SyntaxError(pattern: string)

  /** `re` is what `eng` yields for `pattern`: same source, same matches. */
  ghost predicate CompiledFrom(eng: RegexEngine, re: Regex, pattern: string)
  {
    re.pattern == pattern && forall s :: re.accepts(s) == eng.matches(pattern, s)
  }

  /** `regexp.Compile`: fails exactly on the patterns the engine rejects. */
  function Compile(eng: RegexEngine, pattern: string): (r: Result<Regex, CompileError>)
    ensures r.Ok? <==> eng.compiles(pattern)
    ensures r.Ok? ==> CompiledFrom(eng, r.value, pattern)
    ensures r.Err? ==> r.error == SyntaxError(pattern)
  {
    if eng.compiles(pattern) then Ok(Regex(pattern, s => eng.matches(pattern, s)))
    else Err(SyntaxError(pattern))
  }

  /** The process-wide default latency pattern. */
  const DefaultLatencyPattern: string := "^(.*_|)latency$"

  /**
   * The language of `^(.*_|)latency$` under Go's semantics, stated by where
   * "latency" starts: either at the very beginning, or right after a '_' that
   * ends a prefix without newlines (Go's `.` does not match '\n', and without
   * the `m` flag `^` and `$` anchor at the ends of the whole text).
   */
  ghost predicate InDefaultLatencyLanguage(s: string)
  {
    exists k :: 0 <= k <= |s| && s[k..] == "latency" &&
      (k == 0 || (s[k - 1] == '_' && '\n' !in s[..k]))
  }

  /** A direct decision procedure for the default latency pattern. */
  function MatchDefaultLatency(s: string): bool
  {
    s == "latency" ||
    (|s| >= 8 && s[|s| - 8..] == "_latency" && '\n' !in s[..|s| - 8])
  }

  /** Every string the decision procedure accepts is in the pattern's language. */
  lemma MatchDefaultLatencySound(s: string)
    requires MatchDefaultLatency(s)
    ensures InDefaultLatencyLanguage(s)
  {
    if s == "latency" {
      assert s[0..] == "latency";
    } else {
      var k := |s| - 7;
      var tail := s[|s| - 8..];
      assert tail == "_latency";
      assert s[k..] == tail[1..];
      assert s[k - 1] == tail[0];
      assert s[..k] == s[..|s| - 8] + [s[k - 1]];
    }
  }

  /** Every string in the pattern's language is accepted by the decision procedure. */
  lemma MatchDefaultLatencyComplete(s: string)
    requires InDefaultLatencyLanguage(s)
    ensures MatchDefaultLatency(s)
  {
    var k :| 0 <= k <= |s| && s[k..] == "latency" &&
      (k == 0 || (s[k - 1] == '_' && '\n' !in s[..k]));
    assert |s[k..]| == 7;
    if k == 0 {
      assert s == s[0..];
    } else {
      assert s[|s| - 8..] == [s[k - 1]] + s[k..];
      assert s[..|s| - 8] == s[..k][..k - 1];
      assert forall c :: c in s[..|s| - 8] ==> c in s[..k];
    }
  }

  /** The decision procedure accepts exactly the pattern's language. */
  lemma DefaultLatencyMatchIsPatternLanguage(s: string)
    ensures MatchDefaultLatency(s) <==> InDefaultLatencyLanguage(s)
  {
    if MatchDefaultLatency(s) { MatchDefaultLatencySound(s); }
    if InDefaultLatencyLanguage(s) { MatchDefaultLatencyComplete(s); }
  }

  /** The compiled default latency expression (`defaultLatencyMetricRe`). */
  const DefaultLatencyMetricRe: Regex := Regex(DefaultLatencyPattern, MatchDefaultLatency)

  /** An engine whose treatment of the default pattern is Go's. */
  ghost predicate KnowsDefaultLatencyPattern(eng: RegexEngine)
  {
    eng.compiles(DefaultLatencyPattern) &&
    forall s :: eng.matches(DefaultLatencyPattern, s) == MatchDefaultLatency(s)
  }
}
