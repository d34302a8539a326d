/**
 * The view of a metrics event (`metrics.EventMetrics`) that the surfacer
 * options read: its labels, as key/value pairs in insertion order.
 */
module Metrics {

  datatype LabelPair = LabelPair(key: string, value: string)

  datatype EventMetrics = EventMetrics(labels: seq<LabelPair>) {

    /** The label keys in order (`LabelsKeys`). */
    function LabelsKeys(): (keys: seq<string>)
      ensures |keys| == |labels|
      ensures forall i :: 0 <= i < |labels| ==> keys[i] == labels[i].key
    {
      seq(|labels|, i requires 0 <= i < |labels| => labels[i].key)
    }

    /** The value of label `key` (`Label`); "" when the event has no such label. */
    function Label(key: string): (v: string)
      ensures key !in LabelsKeys() ==> v == ""
      ensures forall i :: FirstWithKey(labels, key, i) ==> v == labels[i].value
    {
      LookupLabel(labels, key)
    }
  }

  /** `i` is the position of the first pair named `key` in `labels`. */
  ghost predicate FirstWithKey(labels: seq<LabelPair>, key: string, i: int)
  {
    0 <= i < |labels| && labels[i].key == key &&
    forall j :: 0 <= j < i ==> labels[j].key != key
  }

  /** The value of the first pair named `key` in `labels`, or "" when there is none. */
  function LookupLabel(labels: seq<LabelPair>, key: string): (v: string)
    ensures (forall i :: 0 <= i < |labels| ==> labels[i].key != key) ==> v == ""
    ensures forall i :: FirstWithKey(labels, key, i) ==> v == labels[i].value
  {
    if |labels| == 0 then ""
    else if labels[0].key == key then labels[0].value
    else LookupLabel(labels[1..], key)
  }
}
