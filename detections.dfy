// The record the inference service returns for each object it finds
// (lib/api.ts). The renderers only read it.
module Detections {

  /** An axis-aligned box `[x1, y1, x2, y2]` in source-image pixels. */
  datatype BBox = BBox(x1: real, y1: real, x2: real, y2: real)

  /** One labelled object instance: its class label, the service's confidence and its box. */
  datatype Detection = Detection(className: string, confidence: real, bbox: BBox)

  /** The class labels of `ds`, in input order. */
  function Labels(ds: seq<Detection>): seq<string>
  {
    seq(|ds|, i requires 0 <= i < |ds| => ds[i].className)
  }

  /** Appending a detection appends its label. */
  lemma LabelsSnoc(ds: seq<Detection>, d: Detection)
    ensures Labels(ds + [d]) == Labels(ds) + [d.className]
  {
  }
}
