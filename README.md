# Surfacer metric-admission options (cloudprober)

This project models the options that every cloudprober surfacer consults before it
exports metrics (`surfacers/internal/common/options/options.go`):

- **label filters**: a `{key, value}` rule selects events that carry label `key`, and, when
  `value` is set, only those where that label has that value;
- **parsing** of label-filter rules, which rejects a value given without a key;
- the immutable **`Options` snapshot** and its three queries:
  - `AllowEventMetrics`: ignore filters first, then allow filters, where an empty allow
    list admits everything;
  - `AllowMetric`: the ignore name pattern first, then the optional allow name pattern;
  - `IsLatencyMetric`: the snapshot's latency pattern, or the default `^(.*_|)latency$`;
- **`buildOptions`**, which validates a `SurfacerDef`, stops at the first error and
  derives the `AddFailureMetric` default from the surfacer type.

A nil `*Options` receiver is `None` of `Option<Options>`. With `None` every gate allows,
and latency classification uses the default pattern.

Modules:

- `Wrappers` (`wrappers.dfy`): the `Option` and `Result` datatypes.
- `RegexLib` (`regexlib.dfy`): the regular-expression library.
  - It is an explicit parameter `RegexEngine`: which patterns compile, and what each
    pattern matches.
  - A compiled `Regex` carries its pattern and its matcher.
  - `Compile` fails exactly on the patterns the engine rejects.
  - The default latency pattern is modelled concretely for every string. Go's `.` does not
    match a newline, so a newline before the `_latency` suffix prevents a match.
  - `InDefaultLatencyLanguage` describes the pattern's language by where "latency"
    starts. It is proved equal to the direct check `MatchDefaultLatency`.
- `Metrics` (`metrics.dfy`): the part of `metrics.EventMetrics` that the options read.
  - Its labels are a sequence of key/value pairs.
  - `LabelsKeys` gives the keys in order.
  - `Label(k)` gives the value of the first pair named `k`, or "" when there is none.
- `SurfacerConfig` (`config.dfy`): `SurfacerDef` and `LabelFilter` as plain records.
  - An unset string reads as "", and only `add_failure_metric` is optional.
  - The surfacer type is `File`, `Pubsub` or any other type.
- `SurfacerOptions` (`options.dfy`): the filters, the snapshot, its queries and the builder.
  - The source's scanning loops (`matchEventMetrics`, `AllowEventMetrics`,
    `parseMetricsFilter`) are methods with loops. They are proved against the predicates
    `LabelFilter.Matches`, `AnyMatches` and `Admits`.
  - `AllowMetric` and `IsLatencyMetric` are functions.
  - `buildOptions` is a method with the source's early returns.

## Model

| member | source | states |
|---|---|---|
| `Metrics.EventMetrics.Label` | surfacers/internal/common/options/options.go:46 | an absent label reads as ""; otherwise the value is that of the first pair carrying the key |
| `RegexLib.Compile` | surfacers/internal/common/options/options.go:171-174 | compiling succeeds iff the engine accepts the pattern; the compiled expression has that pattern and matches exactly what the engine matches for it; a failure names the pattern |
| `RegexLib.DefaultLatencyMatchIsPatternLanguage` | surfacers/internal/common/options/options.go:35 | the direct check (the name is "latency", or it ends in "_latency" after a newline-free prefix) accepts exactly the language of the default latency pattern |
| `SurfacerOptions.MatchEventMetrics` | surfacers/internal/common/options/options.go:37-50 | a filter with an empty key never matches; otherwise it matches iff the event has the key and either the filter's value is empty or it equals the event's value for that key |
| `SurfacerOptions.ParseMetricsFilter` | surfacers/internal/common/options/options.go:52-69 | fails iff some rule has a value but no key, and then reports the value of the first such rule; on success it returns one filter per rule, in input order, with key and value copied |
| `SurfacerOptions.AllowEventMetrics` | surfacers/internal/common/options/options.go:94-118 | with no snapshot it allows; otherwise it allows iff no ignore filter matches and either the allow list is empty or some allow filter matches; an ignore match rejects even when an allow filter also matches; with both lists empty it allows every event |
| `SurfacerOptions.AllowMetric` | surfacers/internal/common/options/options.go:121-135 | with no snapshot it allows; otherwise a name passes iff it is not matched by a set ignore pattern and it is matched by the allow pattern or none is set, so an ignore match wins |
| `SurfacerOptions.IsLatencyMetric` | surfacers/internal/common/options/options.go:137-142 | with no snapshot the name is classified by the language of the default pattern; with a snapshot it is classified by the snapshot's own compiled pattern |
| `SurfacerOptions.DefaultLatencyExamples` | surfacers/internal/common/options/options.go:138-140 | with no snapshot, "latency" and "request_latency" are latency metrics, while "latency_count", "foo" and a name with a newline before "_latency" are not |
| `SurfacerOptions.ConfiguredDefaultAgreesWithNil` | surfacers/internal/common/options/options.go:137-142 | a snapshot whose latency pattern is the default compiled by an engine that implements it as Go does classifies every name as the nil receiver does |
| `SurfacerOptions.DeriveAddFailureMetric` | surfacers/internal/common/options/options.go:184-191 | an explicitly configured flag is kept as is; an unset flag yields true unless the surfacer type is FILE or PUBSUB, which yield false |
| `SurfacerOptions.BuildOptions` | surfacers/internal/common/options/options.go:145-200 | succeeds iff the ServeMux is set or initialisation is ignored, both rule lists parse, each non-empty name pattern compiles and the latency pattern compiles. Otherwise it reports the first failing check in source order. On success the buffer size is copied, the filters are copied from the rules, an empty name pattern leaves its regex absent and a non-empty one is compiled, the latency pattern is compiled, and the failure-metric flag follows the derivation |

## Left out

- Go's `regexp` compilation and matching are not modelled. The engine is a parameter, and
  only the default latency pattern is concrete.
- The error texts of `regexp.Compile` and of `fmt.Errorf` are not modelled. Each error says
  which check failed and carries the offending pattern or value.
- `runconfig.DefaultHTTPServeMux` and the `*http.ServeMux` are HTTP plumbing. They are
  reduced to the boolean `serveMuxConfigured` given to the builder and stored as
  `hasServeMux`.
- The `Logger` and the stored `Config` pointer are passive references with no logic, so the
  snapshot leaves them out.
- `BuildOptionsFromConfig` and `BuildOptionsForTest` (options.go:203-217) are thin
  wrappers. They call the builder with `ignoreInit` false and true, and the test variant
  panics on error.
- The protobuf definitions (`surfacers/proto`) are not part of this model.
  - Getters on a nil message and nil entries in the rule lists are not modelled.
  - The buffer size is an unbounded integer. Its conversion to Go's `int` is not modelled.
- `metrics.EventMetrics` is not part of this model beyond its label keys and values.
  - When the same key appears twice, `Label` returns the first value. Both the source's
    scan and the model's predicate compare against `Label`, whatever it returns.
- An `Options` written by hand with a nil `latencyMetricRe` makes `IsLatencyMetric` panic
  in the source. In the model every snapshot has a latency regex.
- `SurfacerOptions.ConfiguredDefaultAgreesWithNil`: the source compiles the default pattern
  with the same library, and the model can only state this assumption about the engine
  (`KnowsDefaultLatencyPattern`).
