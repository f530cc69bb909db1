/**
 * The scale ratio computed when an image finishes decoding: the image is
 * shrunk, preserving its aspect ratio, until it fits a 640 x 480 canvas;
 * an image that already fits is shown at its own size.
 */
module Scaling {
  import opened Numeric

  const MaxWidth: nat := 640
  const MaxHeight: nat := 480

  datatype Size = Size(width: int, height: int)

  predicate Fits(w: nat, h: nat)
  {
    w <= MaxWidth && h <= MaxHeight
  }

  /**
   * The ratio between displayed and original size. An oversized image gets
   * `min(640 / w, 480 / h)`; a zero dimension makes its JavaScript quotient
   * `Infinity`, so `Math.min` then picks the other quotient.
   */
  function ScaleRatio(w: nat, h: nat): (r: real)
    ensures 0.0 < r <= 1.0
    ensures r == 1.0 <==> Fits(w, h)
    ensures w as real * r <= MaxWidth as real && h as real * r <= MaxHeight as real
    ensures !Fits(w, h) ==> w as real * r == MaxWidth as real || h as real * r == MaxHeight as real
  {
    if Fits(w, h) then 1.0
    else if w == 0 then MaxHeight as real / h as real
    else if h == 0 then MaxWidth as real / w as real
    else Min(MaxWidth as real / w as real, MaxHeight as real / h as real)
  }

  /** No larger ratio at most 1 keeps both dimensions inside the canvas. */
  lemma ScaleRatioIsLargest(w: nat, h: nat, s: real)
    requires 0.0 < s <= 1.0
    requires w as real * s <= MaxWidth as real && h as real * s <= MaxHeight as real
    ensures s <= ScaleRatio(w, h)
  {
    var r := ScaleRatio(w, h);
    if !Fits(w, h) {
      if w as real * r == MaxWidth as real {
        assert w as real * s <= w as real * r;
        assert w > 0;
      } else {
        assert h as real * s <= h as real * r;
        assert h > 0;
      }
    }
  }

  /**
   * The canvas size `Math.round(w * ratio)` x `Math.round(h * ratio)`: each
   * dimension is the rounding of the exactly scaled one, so the aspect
   * ratio is kept up to half a pixel.
   */
  function DisplaySize(w: nat, h: nat): (d: Size)
    ensures 0 <= d.width <= MaxWidth && 0 <= d.height <= MaxHeight
    ensures Fits(w, h) ==> d == Size(w, h)
    ensures var r := ScaleRatio(w, h);
      && w as real * r - 0.5 < d.width as real <= w as real * r + 0.5
      && h as real * r - 0.5 < d.height as real <= h as real * r + 0.5
  {
    var r := ScaleRatio(w, h);
    var sw, sh := w as real * r, h as real * r;
    RoundAtMost(sw, MaxWidth);
    RoundAtMost(sh, MaxHeight);
    RoundAtLeast(sw, 0);
    RoundAtLeast(sh, 0);
    UnscaledWhenFits(w, h);
    Size(Round(sw), Round(sh))
  }

  /** An image that fits is drawn at its own size. */
  lemma UnscaledWhenFits(w: nat, h: nat)
    ensures Fits(w, h) ==> Round(w as real * ScaleRatio(w, h)) == w && Round(h as real * ScaleRatio(w, h)) == h
  {
    if Fits(w, h) {
      assert ScaleRatio(w, h) == 1.0;
      RoundOfInteger(w);
      RoundOfInteger(h);
    }
  }

  /** A 1000 x 500 image is shown at ratio 0.64 on a 640 x 320 canvas. */
  lemma WideImageExample()
    ensures ScaleRatio(1000, 500) == 0.64
    ensures DisplaySize(1000, 500) == Size(640, 320)
  {
    assert Min(640.0 / 1000.0, 480.0 / 500.0) == 0.64;
    RoundOfInteger(640);
    RoundOfInteger(320);
    assert 1000.0 * 0.64 == 640.0 && 500.0 * 0.64 == 320.0;
  }
}
