/**
 * The save handler's payload: each display-space box is mapped back to
 * original-image pixel bounds by dividing by the scale ratio and rounding.
 */
module Export {
  import opened Numeric
  import opened Annotations

  /** One entry of the exported `boxes` list, in original-image pixels. */
  datatype ExportedBox = ExportedBox(xMin: int, yMin: int, xMax: int, yMax: int, labelName: string)

  /** The JSON object handed to the download, and the download's file name. */
  datatype AnnotationFile = AnnotationFile(
    imageFilename: string,
    imageWidth: nat,
    imageHeight: nat,
    boxes: seq<ExportedBox>,
    labels: seq<Label>,
    downloadName: string)

  /** `Math.round(d / ratio)`: a display coordinate in original pixels. */
  function ToOriginal(d: real, ratio: real): (n: int)
    requires ratio > 0.0
    ensures d / ratio - 0.5 < n as real <= d / ratio + 0.5
  {
    Round(d / ratio)
  }

  /** Division by a positive ratio keeps order. */
  lemma DivideMonotone(a: real, b: real, ratio: real)
    requires ratio > 0.0 && a <= b
    ensures a / ratio <= b / ratio
  {
    assert b / ratio - a / ratio == (b - a) / ratio;
  }

  /** A span of non-negative length keeps its ends ordered in original pixels. */
  lemma SpanStaysOrdered(start: real, length: real, ratio: real)
    requires ratio > 0.0
    ensures length >= 0.0 ==> ToOriginal(start, ratio) <= ToOriginal(start + length, ratio)
  {
    if length >= 0.0 {
      DivideMonotone(start, start + length, ratio);
      RoundMonotone(start / ratio, (start + length) / ratio);
    }
  }

  /**
   * The exported bounds of one box. They are ordered whenever the box has
   * no negative size, and each is `Math.round` of the exact unscaled
   * coordinate (within half an original pixel, halves rounded up).
   */
  function ExportBox(b: Box, ratio: real): (e: ExportedBox)
    requires ratio > 0.0
    ensures b.width >= 0.0 ==> e.xMin <= e.xMax
    ensures b.height >= 0.0 ==> e.yMin <= e.yMax
    ensures b.x / ratio - 0.5 < e.xMin as real <= b.x / ratio + 0.5
    ensures (b.x + b.width) / ratio - 0.5 < e.xMax as real <= (b.x + b.width) / ratio + 0.5
    ensures b.y / ratio - 0.5 < e.yMin as real <= b.y / ratio + 0.5
    ensures (b.y + b.height) / ratio - 0.5 < e.yMax as real <= (b.y + b.height) / ratio + 0.5
    ensures e.labelName == b.labelName
  {
    SpanStaysOrdered(b.x, b.width, ratio);
    SpanStaysOrdered(b.y, b.height, ratio);
    ExportedBox(
      ToOriginal(b.x, ratio), ToOriginal(b.y, ratio),
      ToOriginal(b.x + b.width, ratio), ToOriginal(b.y + b.height, ratio),
      b.labelName)
  }

  /** `boxes.map(...)`: one exported entry per box, in the same order. */
  function ExportAll(boxes: seq<Box>, ratio: real): (es: seq<ExportedBox>)
    requires ratio > 0.0
    ensures |es| == |boxes|
    ensures forall k :: 0 <= k < |boxes| ==> es[k] == ExportBox(boxes[k], ratio)
  {
    if boxes == [] then [] else [ExportBox(boxes[0], ratio)] + ExportAll(boxes[1..], ratio)
  }

  /** Every drawn box exports with `x_min <= x_max` and `y_min <= y_max`. */
  lemma ExportAllOrdered(boxes: seq<Box>, ratio: real)
    requires ratio > 0.0 && AllDrawn(boxes)
    ensures forall k :: 0 <= k < |boxes| ==>
      ExportAll(boxes, ratio)[k].xMin <= ExportAll(boxes, ratio)[k].xMax
      && ExportAll(boxes, ratio)[k].yMin <= ExportAll(boxes, ratio)[k].yMax
  {
  }

  /**
   * Scaling an exported coordinate back to the display lands within half a
   * display pixel of where it started: the display-original round trip is
   * lossless up to rounding.
   */
  lemma RoundTripWithinHalfPixel(d: real, ratio: real)
    requires 0.0 < ratio <= 1.0
    ensures Abs(ToOriginal(d, ratio) as real * ratio - d) <= ratio / 2.0 <= 0.5
  {
    ScaledErrorBound(ToOriginal(d, ratio) as real, d, ratio);
  }

  /** A value within half a unit of `d / ratio` is within `ratio / 2` of `d` once scaled. */
  lemma ScaledErrorBound(o: real, d: real, ratio: real)
    requires ratio > 0.0 && -0.5 <= o - d / ratio <= 0.5
    ensures Abs(o * ratio - d) <= ratio / 2.0
  {
    var e := o - d / ratio;
    assert o * ratio - d == e * ratio by {
      assert (d / ratio) * ratio == d;
    }
    assert -(ratio / 2.0) <= e * ratio <= ratio / 2.0;
  }

  /** At ratio 1 an integral display coordinate exports unchanged. */
  lemma UnscaledExportIsExact(n: int)
    ensures ToOriginal(n as real, 1.0) == n
  {
    RoundOfInteger(n);
  }
}
