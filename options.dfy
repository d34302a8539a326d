/**
 * The options every surfacer consults before exporting metrics: label
 * filters, metric-name filters, latency-metric classification and the
 * failure-metric policy, built once from a `SurfacerDef` and read-only
 * afterwards. A nil `*Options` receiver is `None` here.
 */
module SurfacerOptions {
  import opened Wrappers
  import opened RegexLib
  import opened Metrics
  import opened SurfacerConfig

  /* ---------------------------------------------------------------------
   * Label filters
   * ------------------------------------------------------------------- */

  /** Matches events carrying label `key`, and, when `value` is not "", with that value. */
  datatype LabelFilter = LabelFilter(key: string, value: string) {

    /** The events this filter selects. A filter with an empty key selects none. */
    predicate Matches(em: EventMetrics)
    {
      key != "" && key in em.LabelsKeys() && (value == "" || value == em.Label(key))
    }
  }

  /**
   * `labelFilter.matchEventMetrics`: scans the event's label keys; at the first
   * key equal to the filter's, the filter matches when it has no value, and
   * otherwise when its value is the event's value for that key.
   */
  method MatchEventMetrics(lf: LabelFilter, em: EventMetrics) returns (b: bool)
    ensures lf.key == "" ==> !b
    ensures b == lf.Matches(em)
  {
    if lf.key != "" {
      var keys := em.LabelsKeys();
      for i := 0 to |keys|
        invariant forall j :: 0 <= j < i ==> keys[j] != lf.key
      {
        var lKey := keys[i];
        if lf.key != lKey {
          continue;
        }
        if lf.value == "" {
          return true;
        }
        return lf.value == em.Label(lKey);
      }
    }
    return false;
  }

  /** Some filter in `filters` selects `em`. */
  predicate AnyMatches(filters: seq<LabelFilter>, em: EventMetrics)
  {
    exists i :: 0 <= i < |filters| && filters[i].Matches(em)
  }

  /* ---------------------------------------------------------------------
   * Parsing label-filter configuration
   * ------------------------------------------------------------------- */

  /** Why building the options failed. */
  datatype BuildError =
    | ServeMuxNotConfigured
    | KeyRequired(value: string)        // a filter value was given without a key
    | InvalidNamePattern(pattern: string)
    | InvalidLatencyPattern(pattern: string)

  /** A rule that names a value but no key: the one malformed rule. */
  predicate ValueWithoutKey(c: LabelFilterConfig)
  {
    c.value != "" && c.key == ""
  }

  /** No rule in `configs` is malformed. */
  predicate AllWellFormed(configs: seq<LabelFilterConfig>)
  {
    forall i :: 0 <= i < |configs| ==> !ValueWithoutKey(configs[i])
  }

  /** `filters` holds one filter per rule, in order, key and value copied. */
  ghost predicate CopiedFrom(filters: seq<LabelFilter>, configs: seq<LabelFilterConfig>)
  {
    |filters| == |configs| &&
    forall i :: 0 <= i < |configs| ==>
      filters[i].key == configs[i].key && filters[i].value == configs[i].value
  }

  /** `e` names the value of the first malformed rule in `configs`. */
  ghost predicate ReportsFirstMalformed(configs: seq<LabelFilterConfig>, e: BuildError)
  {
    exists i :: 0 <= i < |configs| && ValueWithoutKey(configs[i]) &&
      (forall j :: 0 <= j < i ==> !ValueWithoutKey(configs[j])) &&
      e == KeyRequired(configs[i].value)
  }

  /**
   * `parseMetricsFilter`: turns the rules into filters, one per rule in input
   * order, and stops at the first rule that gives a value without a key.
   */
  method ParseMetricsFilter(configs: seq<LabelFilterConfig>)
    returns (r: Result<seq<LabelFilter>, BuildError>)
    ensures r.Ok? <==> AllWellFormed(configs)
    ensures r.Ok? ==> CopiedFrom(r.value, configs)
    ensures r.Err? ==> ReportsFirstMalformed(configs, r.error)
  {
    var filters: seq<LabelFilter> := [];
    for i := 0 to |configs|
      invariant forall j :: 0 <= j < i ==> !ValueWithoutKey(configs[j])
      invariant |filters| == i
      invariant forall j :: 0 <= j < i ==>
        filters[j].key == configs[j].key && filters[j].value == configs[j].value
    {
      var c := configs[i];
      var lf := LabelFilter(c.key, c.value);
      if lf.value != "" && lf.key == "" {
        assert ValueWithoutKey(configs[i]);
        return Err(KeyRequired(c.value));
      }
      filters := filters + [lf];
    }
    return Ok(filters);
  }

  /* ---------------------------------------------------------------------
   * The options snapshot and its queries
   * ------------------------------------------------------------------- */

  datatype Options = Options(
    metricsBufferSize: int,
    hasServeMux: bool,
    allowLabelFilters: seq<LabelFilter>,
    ignoreLabelFilters: seq<LabelFilter>,
    allowMetricName: Option<Regex>,
    ignoreMetricName: Option<Regex>,
    latencyMetricRe: Regex,
    addFailureMetric: bool)

  /** The event-level admission rule: ignore filters first, then allow filters. */
  predicate Admits(opts: Options, em: EventMetrics)
  {
    !AnyMatches(opts.ignoreLabelFilters, em) &&
    (|opts.allowLabelFilters| == 0 || AnyMatches(opts.allowLabelFilters, em))
  }

  /**
   * `Options.AllowEventMetrics`: a nil receiver allows everything; otherwise an
   * event is rejected as soon as an ignore filter matches, allowed when there
   * are no allow filters, and else allowed iff some allow filter matches.
   */
  method AllowEventMetrics(opts: Option<Options>, em: EventMetrics) returns (b: bool)
    ensures opts.None? ==> b
    ensures opts.Some? ==> (b <==> Admits(opts.value, em))
    ensures opts.Some? && AnyMatches(opts.value.ignoreLabelFilters, em) ==> !b
    ensures opts.Some? && opts.value.ignoreLabelFilters == [] && opts.value.allowLabelFilters == [] ==> b
  {
    if opts.None? {
      return true;
    }
    var o := opts.value;

    for i := 0 to |o.ignoreLabelFilters|
      invariant forall j :: 0 <= j < i ==> !o.ignoreLabelFilters[j].Matches(em)
    {
      var m := MatchEventMetrics(o.ignoreLabelFilters[i], em);
      if m {
        return false;
      }
    }

    if |o.allowLabelFilters| == 0 {
      return true;
    }

    for i := 0 to |o.allowLabelFilters|
      invariant forall j :: 0 <= j < i ==> !o.allowLabelFilters[j].Matches(em)
    {
      var m := MatchEventMetrics(o.allowLabelFilters[i], em);
      if m {
        return true;
      }
    }
    return false;
  }

  /** An optional ignore pattern rejects `name` only when it is set and matches. */
  predicate IgnoredByName(ignore: Option<Regex>, name: string)
  {
    ignore.Some? && ignore.value.accepts(name)
  }

  /** An optional allow pattern admits `name` when it is unset or matches. */
  predicate PermittedByName(allow: Option<Regex>, name: string)
  {
    allow.None? || allow.value.accepts(name)
  }

  /**
   * `Options.AllowMetric`: a nil receiver allows every name; otherwise a name
   * passes iff the ignore pattern does not reject it and the allow pattern
   * admits it, so an ignore match wins over an allow match.
   */
  function AllowMetric(opts: Option<Options>, metricName: string): (r: bool)
    ensures opts.None? ==> r
    ensures opts.Some? ==>
      (r <==> !IgnoredByName(opts.value.ignoreMetricName, metricName) &&
              PermittedByName(opts.value.allowMetricName, metricName))
  {
    if opts.None? then true
    else if opts.value.ignoreMetricName.Some? && opts.value.ignoreMetricName.value.accepts(metricName) then false
    else if opts.value.allowMetricName.None? then true
    else opts.value.allowMetricName.value.accepts(metricName)
  }

  /**
   * `Options.IsLatencyMetric`: a nil receiver classifies by the default
   * pattern `^(.*_|)latency$`; a snapshot classifies by its own pattern only.
   */
  function IsLatencyMetric(opts: Option<Options>, metricName: string): (r: bool)
    ensures opts.None? ==> (r <==> InDefaultLatencyLanguage(metricName))
    ensures opts.Some? ==> r == opts.value.latencyMetricRe.accepts(metricName)
  {
    DefaultLatencyMatchIsPatternLanguage(metricName);
    if opts.None? then DefaultLatencyMetricRe.accepts(metricName)
    else opts.value.latencyMetricRe.accepts(metricName)
  }

  /** The default pattern's classification of a few names. */
  lemma DefaultLatencyExamples()
    ensures IsLatencyMetric(None, "latency")
    ensures IsLatencyMetric(None, "request_latency")
    ensures !IsLatencyMetric(None, "latency_count")
    ensures !IsLatencyMetric(None, "foo")
    ensures !IsLatencyMetric(None, "a\nb_latency")
  {
    var s := "request_latency";
    assert s[|s| - 8..] == "_latency";
    assert s[..|s| - 8] == "request";
    var t := "a\nb_latency";
    assert t[..|t| - 8] == "a\nb";
  }

  /**
   * A snapshot configured with the default pattern classifies names as a nil
   * receiver does, given an engine that implements that pattern as Go does.
   */
  lemma ConfiguredDefaultAgreesWithNil(eng: RegexEngine, o: Options, metricName: string)
    requires KnowsDefaultLatencyPattern(eng)
    requires CompiledFrom(eng, o.latencyMetricRe, DefaultLatencyPattern)
    ensures IsLatencyMetric(Some(o), metricName) == IsLatencyMetric(None, metricName)
  {
  }

  /* ---------------------------------------------------------------------
   * Building the options
   * ------------------------------------------------------------------- */

  /** Surfacer types whose failure metric is off unless configured on. */
  predicate DefaultDisablesFailureMetric(t: SurfacerType)
  {
    t == File || t == Pubsub
  }

  /**
   * The `AddFailureMetric` derivation: the configured flag (false when unset),
   * turned on when the flag is unset and the surfacer type does not disable it.
   */
  function DeriveAddFailureMetric(configured: Option<bool>, t: SurfacerType): (r: bool)
    ensures configured.Some? ==> r == configured.value
    ensures configured.None? ==> (r <==> t != File && t != Pubsub)
  {
    var flag := if configured.Some? then configured.value else false;
    if configured.None? && !DefaultDisablesFailureMetric(t) then true else flag
  }

  /** An optional name pattern is acceptable: unset (""), or one that compiles. */
  predicate NamePatternCompiles(eng: RegexEngine, pattern: string)
  {
    pattern == "" || eng.compiles(pattern)
  }

  /** `re` is what an optional name pattern builds: nothing for "", else its compilation. */
  ghost predicate NameRegexFrom(eng: RegexEngine, re: Option<Regex>, pattern: string)
  {
    (pattern == "" <==> re.None?) && (re.Some? ==> CompiledFrom(eng, re.value, pattern))
  }

  /** Building succeeds exactly when every check along the way passes. */
  predicate BuildSucceeds(sdef: SurfacerDef, ignoreInit: bool, serveMuxConfigured: bool, eng: RegexEngine)
  {
    (serveMuxConfigured || ignoreInit) &&
    AllWellFormed(sdef.allowMetricsWithLabel) &&
    AllWellFormed(sdef.ignoreMetricsWithLabel) &&
    NamePatternCompiles(eng, sdef.allowMetricsWithName) &&
    NamePatternCompiles(eng, sdef.ignoreMetricsWithName) &&
    eng.compiles(sdef.latencyMetricPattern)
  }

  /**
   * `buildOptions`: validates the configuration and assembles the snapshot,
   * returning the first error met. `serveMuxConfigured` stands for the
   * process-wide HTTP ServeMux being set; `eng` is the regular-expression
   * library.
   */
  method BuildOptions(sdef: SurfacerDef, ignoreInit: bool, serveMuxConfigured: bool, eng: RegexEngine)
    returns (r: Result<Options, BuildError>)
    ensures r.Ok? <==> BuildSucceeds(sdef, ignoreInit, serveMuxConfigured, eng)
    // which error is reported, in the order the checks run
    ensures !serveMuxConfigured && !ignoreInit ==> r.Err? && r.error == ServeMuxNotConfigured
    ensures (serveMuxConfigured || ignoreInit) && !AllWellFormed(sdef.allowMetricsWithLabel) ==>
      r.Err? && ReportsFirstMalformed(sdef.allowMetricsWithLabel, r.error)
    ensures ((serveMuxConfigured || ignoreInit) && AllWellFormed(sdef.allowMetricsWithLabel) &&
             !AllWellFormed(sdef.ignoreMetricsWithLabel)) ==>
      r.Err? && ReportsFirstMalformed(sdef.ignoreMetricsWithLabel, r.error)
    ensures ((serveMuxConfigured || ignoreInit) && AllWellFormed(sdef.allowMetricsWithLabel) &&
             AllWellFormed(sdef.ignoreMetricsWithLabel) &&
             !NamePatternCompiles(eng, sdef.allowMetricsWithName)) ==>
      r.Err? && r.error == InvalidNamePattern(sdef.allowMetricsWithName)
    ensures ((serveMuxConfigured || ignoreInit) && AllWellFormed(sdef.allowMetricsWithLabel) &&
             AllWellFormed(sdef.ignoreMetricsWithLabel) &&
             NamePatternCompiles(eng, sdef.allowMetricsWithName) &&
             !NamePatternCompiles(eng, sdef.ignoreMetricsWithName)) ==>
      r.Err? && r.error == InvalidNamePattern(sdef.ignoreMetricsWithName)
    ensures ((serveMuxConfigured || ignoreInit) && AllWellFormed(sdef.allowMetricsWithLabel) &&
             AllWellFormed(sdef.ignoreMetricsWithLabel) &&
             NamePatternCompiles(eng, sdef.allowMetricsWithName) &&
             NamePatternCompiles(eng, sdef.ignoreMetricsWithName) &&
             !eng.compiles(sdef.latencyMetricPattern)) ==>
      r.Err? && r.error == InvalidLatencyPattern(sdef.latencyMetricPattern)
    // what a successful build holds
    ensures r.Ok? ==> r.value.metricsBufferSize == sdef.metricsBufferSize
    ensures r.Ok? ==> r.value.hasServeMux == serveMuxConfigured
    ensures r.Ok? ==> CopiedFrom(r.value.allowLabelFilters, sdef.allowMetricsWithLabel)
    ensures r.Ok? ==> CopiedFrom(r.value.ignoreLabelFilters, sdef.ignoreMetricsWithLabel)
    ensures r.Ok? ==> NameRegexFrom(eng, r.value.allowMetricName, sdef.allowMetricsWithName)
    ensures r.Ok? ==> NameRegexFrom(eng, r.value.ignoreMetricName, sdef.ignoreMetricsWithName)
    ensures r.Ok? ==> CompiledFrom(eng, r.value.latencyMetricRe, sdef.latencyMetricPattern)
    ensures r.Ok? && sdef.addFailureMetric.Some? ==> r.value.addFailureMetric == sdef.addFailureMetric.value
    ensures r.Ok? && sdef.addFailureMetric.None? ==>
      (r.value.addFailureMetric <==> !DefaultDisablesFailureMetric(sdef.surfacerType))
  {
    var metricsBufferSize := sdef.metricsBufferSize;

    if !serveMuxConfigured && !ignoreInit {
      return Err(ServeMuxNotConfigured);
    }
    var hasServeMux := serveMuxConfigured;

    var allowParsed := ParseMetricsFilter(sdef.allowMetricsWithLabel);
    if allowParsed.Err? {
      return Err(allowParsed.error);
    }
    var allowLabelFilters := allowParsed.value;

    var ignoreParsed := ParseMetricsFilter(sdef.ignoreMetricsWithLabel);
    if ignoreParsed.Err? {
      return Err(ignoreParsed.error);
    }
    var ignoreLabelFilters := ignoreParsed.value;

    var allowMetricName: Option<Regex> := None;
    if sdef.allowMetricsWithName != "" {
      var compiled := Compile(eng, sdef.allowMetricsWithName);
      if compiled.Err? {
        return Err(InvalidNamePattern(compiled.error.pattern));
      }
      allowMetricName := Some(compiled.value);
    }

    var ignoreMetricName: Option<Regex> := None;
    if sdef.ignoreMetricsWithName != "" {
      var compiled := Compile(eng, sdef.ignoreMetricsWithName);
      if compiled.Err? {
        return Err(InvalidNamePattern(compiled.error.pattern));
      }
      ignoreMetricName := Some(compiled.value);
    }

    var addFailureMetric := DeriveAddFailureMetric(sdef.addFailureMetric, sdef.surfacerType);

    var latency := Compile(eng, sdef.latencyMetricPattern);
    if latency.Err? {
      return Err(InvalidLatencyPattern(sdef.latencyMetricPattern));
    }

    return Ok(Options(metricsBufferSize, hasServeMux, allowLabelFilters, ignoreLabelFilters,
                      allowMetricName, ignoreMetricName, latency.value, addFailureMetric));
  }
}
