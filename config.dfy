/**
 * The configuration messages the surfacer options are built from
 * (`SurfacerDef` and `LabelFilter` of the surfacers' protocol buffers), as
 * plain records. An unset string field reads as "", as protobuf getters do;
 * the one field whose presence matters, `add_failure_metric`, is an Option.
 */
module SurfacerConfig {
  import opened Wrappers

  /** The surfacer kinds; only FILE and PUBSUB are singled out by the options. */
  datatype SurfacerType = File | Pubsub | Other(name: string)

  /** One `{key, value}` label-filter rule as configured. */
  datatype LabelFilterConfig = LabelFilterConfig(key: string, value: string)

  datatype SurfacerDef = SurfacerDef(
    surfacerType: SurfacerType,
    metricsBufferSize: int,
    allowMetricsWithLabel: seq<LabelFilterConfig>,
    ignoreMetricsWithLabel: seq<LabelFilterConfig>,
    allowMetricsWithName: string,
    ignoreMetricsWithName: string,
    latencyMetricPattern: string,
    addFailureMetric: Option<bool>)
}
