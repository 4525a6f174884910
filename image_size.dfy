/** The base image's natural size and the stage scale that fits it into the
    fixed 1000 x 800 canvas without ever enlarging it (`useImageSize`). */
module ImageSize {
  import opened Common

  const CanvasMaxWidth: real := 1000.0
  const CanvasMaxHeight: real := 800.0

  /** `Math.min(1000 / w, 800 / h, 1)`. A zero extent divides to +Infinity in
      JavaScript and so never wins the minimum; that term is left out here. */
  function FitScale(w: nat, h: nat): (r: real)
    ensures 0.0 < r <= 1.0
    ensures w > 0 ==> r * (w as real) <= CanvasMaxWidth
    ensures h > 0 ==> r * (h as real) <= CanvasMaxHeight
    ensures r == 1.0 <==> w as real <= CanvasMaxWidth && h as real <= CanvasMaxHeight
  {
    var sx := if w == 0 then 1.0 else MinReal(CanvasMaxWidth / w as real, 1.0);
    var sy := if h == 0 then 1.0 else MinReal(CanvasMaxHeight / h as real, 1.0);
    FitScaleBounds(w, h, sx, sy);
    MinReal(sx, sy)
  }

  lemma FitScaleBounds(w: nat, h: nat, sx: real, sy: real)
    requires sx == if w == 0 then 1.0 else MinReal(CanvasMaxWidth / w as real, 1.0)
    requires sy == if h == 0 then 1.0 else MinReal(CanvasMaxHeight / h as real, 1.0)
    ensures 0.0 < sx <= 1.0 && 0.0 < sy <= 1.0
    ensures w > 0 ==> sx * (w as real) <= CanvasMaxWidth
    ensures h > 0 ==> sy * (h as real) <= CanvasMaxHeight
    ensures sx == 1.0 <==> w as real <= CanvasMaxWidth
    ensures sy == 1.0 <==> h as real <= CanvasMaxHeight
  {
    if w > 0 {
      var q := CanvasMaxWidth / w as real;
      assert q * (w as real) == CanvasMaxWidth;
      assert q < 1.0 <==> CanvasMaxWidth < w as real;
    }
    if h > 0 {
      var q := CanvasMaxHeight / h as real;
      assert q * (h as real) == CanvasMaxHeight;
      assert q < 1.0 <==> CanvasMaxHeight < h as real;
    }
  }

  /** The fitted image fills the canvas on at least one axis unless it already
      fits unscaled: the scale is the largest that fits. */
  lemma FitScaleIsLargest(w: nat, h: nat)
    ensures var r := FitScale(w, h);
      r == 1.0 || r * (w as real) == CanvasMaxWidth || r * (h as real) == CanvasMaxHeight
  {
    var r := FitScale(w, h);
    if w > 0 && r == CanvasMaxWidth / w as real {
      assert r * (w as real) == CanvasMaxWidth;
    } else if h > 0 && r == CanvasMaxHeight / h as real {
      assert r * (h as real) == CanvasMaxHeight;
    }
  }

  /** A 2000 x 1000 image is shown at half size; 500 x 400 at full size. */
  lemma FitScaleExamples()
    ensures FitScale(2000, 1000) == 0.5
    ensures FitScale(500, 400) == 1.0
    ensures FitScale(0, 0) == 1.0
  {
  }

  /** What the effect knows about the base image. */
  datatype BaseImage = NoImage | Loading | Loaded(naturalWidth: nat, naturalHeight: nat)

  datatype Sizing = Sizing(width: nat, height: nat, scale: real)

  const Unsized := Sizing(0, 0, 1.0)

  /** The effect's outcome: sizes and scale from a loaded image, the reset
      values with no image, and no change while the image is still loading. */
  function Sized(s: Sizing, img: BaseImage): (r: Sizing)
    ensures img.NoImage? ==> r == Unsized
    ensures img.Loading? ==> r == s
    ensures img.Loaded? ==> r.width == img.naturalWidth && r.height == img.naturalHeight
    ensures img.Loaded? ==> r.scale == FitScale(img.naturalWidth, img.naturalHeight)
    ensures img.Loaded? ==> 0.0 < r.scale <= 1.0
  {
    match img
    case NoImage => Unsized
    case Loading => s
    case Loaded(w, h) => Sizing(w, h, FitScale(w, h))
  }

  /** Whatever happens, the stage scale stays in (0, 1]. */
  lemma ScaleStaysInRange(s: Sizing, img: BaseImage)
    requires 0.0 < s.scale <= 1.0
    ensures 0.0 < Sized(s, img).scale <= 1.0
  {
  }
}
