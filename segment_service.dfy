/** The segmentation endpoint (`segment_image` in app.py): request checks,
    then, for every boolean mask the generator returns, the tightest box
    around its true pixels and an RGBA cut-out of the image over that box whose
    alpha is opaque exactly on the mask. */
module SegmentService {
  import opened Common

  newtype byte = x: int | 0 <= x < 256

  datatype Rgb = Rgb(r: byte, g: byte, b: byte)
  datatype Rgba = Rgba(r: byte, g: byte, b: byte, a: byte)

  /** A 2-D array as rows of equal length (`array[row][column]`). */
  predicate Rectangular<T>(g: seq<seq<T>>) {
    forall i :: 0 <= i < |g| ==> |g[i]| == |g[0]|
  }

  function Width<T>(g: seq<seq<T>>): nat {
    if |g| == 0 then 0 else |g[0]|
  }

  /** The mask has the image's height and width. */
  predicate SameShape<S, T>(m: seq<seq<S>>, img: seq<seq<T>>) {
    |m| == |img| && forall i :: 0 <= i < |m| ==> |m[i]| == |img[i]|
  }

  predicate HasObject(m: seq<seq<bool>>) {
    exists i, j :: 0 <= i < |m| && 0 <= j < |m[i]| && m[i][j]
  }

  // ---------------------------------------------------------------------------
  // Bounding box

  /** `np.any(segmentation, axis=1)`: which rows contain a true pixel. */
  function RowFlags(m: seq<seq<bool>>): (r: seq<bool>)
    ensures |r| == |m|
    ensures forall i :: 0 <= i < |m| ==> (r[i] <==> true in m[i])
  {
    seq(|m|, i requires 0 <= i < |m| => true in m[i])
  }

  /** `np.any(segmentation, axis=0)`: which columns contain a true pixel. */
  function ColumnFlags(m: seq<seq<bool>>): (r: seq<bool>)
    requires Rectangular(m)
    ensures |r| == Width(m)
    ensures forall j :: 0 <= j < Width(m) ==> (r[j] <==> exists i :: 0 <= i < |m| && m[i][j])
  {
    seq(Width(m), j requires 0 <= j < Width(m) => exists i :: 0 <= i < |m| && m[i][j])
  }

  /** `np.where(flags)[0][0]`. */
  function FirstTrue(s: seq<bool>): (r: nat)
    requires true in s
    ensures r < |s| && s[r]
    ensures forall k :: 0 <= k < r ==> !s[k]
  {
    if s[0] then 0
    else
      assert true in s[1..];
      1 + FirstTrue(s[1..])
  }

  /** `np.where(flags)[0][-1]`. */
  function LastTrue(s: seq<bool>): (r: nat)
    requires true in s
    ensures r < |s| && s[r]
    ensures forall k :: r < k < |s| ==> !s[k]
  {
    if s[|s| - 1] then |s| - 1
    else
      assert true in s[..|s| - 1];
      LastTrue(s[..|s| - 1])
  }

  /** A crop window: column and row of its top-left pixel and its size. */
  datatype Box = Box(offsetX: nat, offsetY: nat, width: nat, height: nat)

  /** The mask's bounding box, or nothing for a mask without true pixels. */
  function BoundingBox(m: seq<seq<bool>>): (r: Option<Box>)
    requires Rectangular(m)
    ensures r.Some? ==> r.value.width >= 1 && r.value.height >= 1
    ensures r.Some? ==> r.value.offsetY + r.value.height <= |m| && r.value.offsetX + r.value.width <= Width(m)
  {
    var rows := RowFlags(m);
    var cols := ColumnFlags(m);
    if !(true in rows) || !(true in cols) then None
    else
      var yMin, yMax := FirstTrue(rows), LastTrue(rows);
      var xMin, xMax := FirstTrue(cols), LastTrue(cols);
      Some(Box(xMin, yMin, xMax - xMin + 1, yMax - yMin + 1))
  }

  /** A mask is skipped exactly when it has no true pixel. */
  lemma BoundingBoxNoneIffEmpty(m: seq<seq<bool>>)
    requires Rectangular(m)
    ensures BoundingBox(m).None? <==> !HasObject(m)
  {
    var rows := RowFlags(m);
    var cols := ColumnFlags(m);
    if HasObject(m) {
      var i, j :| 0 <= i < |m| && 0 <= j < |m[i]| && m[i][j];
      assert rows[i];
      assert cols[j];
    } else {
      forall i | 0 <= i < |rows| ensures !rows[i] {
        forall j | 0 <= j < |m[i]| ensures !m[i][j] {
        }
      }
    }
  }

  /** Every true pixel lies inside the box. */
  lemma BoundingBoxContains(m: seq<seq<bool>>)
    requires Rectangular(m) && BoundingBox(m).Some?
    ensures var b := BoundingBox(m).value;
      forall i, j :: 0 <= i < |m| && 0 <= j < |m[i]| && m[i][j] ==>
        b.offsetY <= i < b.offsetY + b.height && b.offsetX <= j < b.offsetX + b.width
  {
    var rows := RowFlags(m);
    var cols := ColumnFlags(m);
    var b := BoundingBox(m).value;
    forall i, j | 0 <= i < |m| && 0 <= j < |m[i]| && m[i][j]
      ensures b.offsetY <= i < b.offsetY + b.height && b.offsetX <= j < b.offsetX + b.width
    {
      assert rows[i];
      assert cols[j];
    }
  }

  /** The box is tight: each of its four edges touches a true pixel. */
  lemma BoundingBoxEdgesTouch(m: seq<seq<bool>>)
    requires Rectangular(m) && BoundingBox(m).Some?
    ensures var b := BoundingBox(m).value;
      && (true in m[b.offsetY]) && (true in m[b.offsetY + b.height - 1])
      && (exists i :: 0 <= i < |m| && m[i][b.offsetX])
      && (exists i :: 0 <= i < |m| && m[i][b.offsetX + b.width - 1])
  {
    var rows := RowFlags(m);
    var cols := ColumnFlags(m);
    var b := BoundingBox(m).value;
    assert rows[b.offsetY] && rows[b.offsetY + b.height - 1];
    assert cols[b.offsetX] && cols[b.offsetX + b.width - 1];
  }

  // ---------------------------------------------------------------------------
  // Cut-out

  /** The RGB window under the box with `mask * 255` as alpha. */
  function CutoutPixels(img: seq<seq<Rgb>>, m: seq<seq<bool>>, b: Box): (r: seq<seq<Rgba>>)
    requires SameShape(m, img) && Rectangular(m)
    requires b.offsetY + b.height <= |m| && b.offsetX + b.width <= Width(m)
    ensures |r| == b.height && forall u :: 0 <= u < b.height ==> |r[u]| == b.width
    ensures forall u, v :: 0 <= u < b.height && 0 <= v < b.width ==>
      var p := img[b.offsetY + u][b.offsetX + v];
      && (r[u][v].a == 255 <==> m[b.offsetY + u][b.offsetX + v])
      && (r[u][v].a == 0 <==> !m[b.offsetY + u][b.offsetX + v])
      && r[u][v].r == p.r && r[u][v].g == p.g && r[u][v].b == p.b
  {
    seq(b.height, u requires 0 <= u < b.height =>
      seq(b.width, v requires 0 <= v < b.width =>
        var p := img[b.offsetY + u][b.offsetX + v];
        Rgba(p.r, p.g, p.b, if m[b.offsetY + u][b.offsetX + v] then 255 else 0)))
  }

  /** One entry of the response: the cut-out (PNG-encoded as a data URL in
      the response) with its offset and size on the original image. */
  datatype CutoutEntry = CutoutEntry(pixels: seq<seq<Rgba>>, offsetX: nat, offsetY: nat, width: nat, height: nat)

  /** The entries one mask contributes: none when it is empty, else one. */
  function EntriesFor(img: seq<seq<Rgb>>, m: seq<seq<bool>>): (r: seq<CutoutEntry>)
    requires SameShape(m, img) && Rectangular(m)
    ensures |r| <= 1
    ensures |r| == 1 <==> HasObject(m)
  {
    BoundingBoxNoneIffEmpty(m);
    match BoundingBox(m)
    case None => []
    case Some(b) => [CutoutEntry(CutoutPixels(img, m, b), b.offsetX, b.offsetY, b.width, b.height)]
  }

  /** The cut-out contains the whole object: every true pixel of the mask
      lies in the box and is opaque in the cut-out, at its position relative to
      the box, with the image's colour. */
  lemma CutoutKeepsObject(img: seq<seq<Rgb>>, m: seq<seq<bool>>)
    requires SameShape(m, img) && Rectangular(m) && HasObject(m)
    ensures BoundingBox(m).Some?
    ensures var b := BoundingBox(m).value; var px := CutoutPixels(img, m, b);
      forall i, j :: 0 <= i < |m| && 0 <= j < |m[i]| && m[i][j] ==>
        && b.offsetY <= i < b.offsetY + b.height && b.offsetX <= j < b.offsetX + b.width
        && px[i - b.offsetY][j - b.offsetX] == Rgba(img[i][j].r, img[i][j].g, img[i][j].b, 255)
  {
    BoundingBoxNoneIffEmpty(m);
    BoundingBoxContains(m);
    WindowKeepsPixels(img, m, BoundingBox(m).value);
  }

  /** Any window holding every true pixel keeps them all, opaque and in
      their colour. */
  lemma WindowKeepsPixels(img: seq<seq<Rgb>>, m: seq<seq<bool>>, b: Box)
    requires SameShape(m, img) && Rectangular(m)
    requires b.offsetY + b.height <= |m| && b.offsetX + b.width <= Width(m)
    requires forall i, j :: 0 <= i < |m| && 0 <= j < |m[i]| && m[i][j] ==>
      b.offsetY <= i < b.offsetY + b.height && b.offsetX <= j < b.offsetX + b.width
    ensures var px := CutoutPixels(img, m, b);
      forall i, j :: 0 <= i < |m| && 0 <= j < |m[i]| && m[i][j] ==>
        px[i - b.offsetY][j - b.offsetX] == Rgba(img[i][j].r, img[i][j].g, img[i][j].b, 255)
  {
    var px := CutoutPixels(img, m, b);
    forall i, j | 0 <= i < |m| && 0 <= j < |m[i]| && m[i][j]
      ensures px[i - b.offsetY][j - b.offsetX] == Rgba(img[i][j].r, img[i][j].g, img[i][j].b, 255)
    {
      var u, v := i - b.offsetY, j - b.offsetX;
      assert b.offsetY + u == i && b.offsetX + v == j;
      assert px[u][v].a == 255;
    }
  }

  // ---------------------------------------------------------------------------
  // The request

  /** All the entries for a list of masks, in order. */
  function Cutouts(img: seq<seq<Rgb>>, masks: seq<seq<seq<bool>>>): seq<CutoutEntry>
    requires MasksFit(img, masks)
  {
    if |masks| == 0 then []
    else Cutouts(img, masks[..|masks| - 1]) + EntriesFor(img, masks[|masks| - 1])
  }

  predicate MasksFit(img: seq<seq<Rgb>>, masks: seq<seq<seq<bool>>>) {
    forall k :: 0 <= k < |masks| ==> SameShape(masks[k], img) && Rectangular(masks[k])
  }

  lemma MasksFitPrefix(img: seq<seq<Rgb>>, masks: seq<seq<seq<bool>>>, n: nat)
    requires MasksFit(img, masks) && n <= |masks|
    ensures MasksFit(img, masks[..n])
  {
    forall k | 0 <= k < n ensures SameShape(masks[..n][k], img) && Rectangular(masks[..n][k]) {
      assert masks[..n][k] == masks[k];
    }
  }

  /** One more mask extends the entries by that mask's own entries. */
  lemma CutoutsStep(img: seq<seq<Rgb>>, masks: seq<seq<seq<bool>>>, k: nat)
    requires MasksFit(img, masks) && k < |masks|
    ensures MasksFit(img, masks[..k]) && MasksFit(img, masks[..k + 1])
    ensures Cutouts(img, masks[..k + 1]) == Cutouts(img, masks[..k]) + EntriesFor(img, masks[k])
  {
    MasksFitPrefix(img, masks, k);
    MasksFitPrefix(img, masks, k + 1);
    assert masks[..k + 1][..k] == masks[..k];
  }

  /** The masks that have an object, in their original order. */
  function Objects(masks: seq<seq<seq<bool>>>): seq<seq<seq<bool>>>
    requires forall k :: 0 <= k < |masks| ==> Rectangular(masks[k])
  {
    if |masks| == 0 then []
    else Objects(masks[..|masks| - 1]) + (if HasObject(masks[|masks| - 1]) then [masks[|masks| - 1]] else [])
  }

  /** The response lists exactly one entry per mask with an object, in the
      masks' order, each computed from its own mask. */
  lemma {:induction false} OneEntryPerObject(img: seq<seq<Rgb>>, masks: seq<seq<seq<bool>>>)
    requires MasksFit(img, masks)
    ensures var objs := Objects(masks); var es := Cutouts(img, masks);
      && MasksFit(img, objs)
      && |es| == |objs|
      && forall k :: 0 <= k < |objs| ==> [es[k]] == EntriesFor(img, objs[k])
  {
    if |masks| > 0 {
      var init := masks[..|masks| - 1];
      var last := masks[|masks| - 1];
      MasksFitPrefix(img, masks, |masks| - 1);
      OneEntryPerObject(img, init);
      var objs0, es0 := Objects(init), Cutouts(img, init);
      var more := if HasObject(last) then [last] else [];
      var extra := EntriesFor(img, last);
      assert Objects(masks) == objs0 + more;
      assert Cutouts(img, masks) == es0 + extra;
      AppendFits(img, objs0, more);
      AppendMatched(img, objs0, es0, more, extra);
    }
  }

  /** Appending fitting masks to fitting masks keeps them fitting. */
  lemma AppendFits(img: seq<seq<Rgb>>, objs: seq<seq<seq<bool>>>, more: seq<seq<seq<bool>>>)
    requires MasksFit(img, objs) && MasksFit(img, more)
    ensures MasksFit(img, objs + more)
  {
    var o := objs + more;
    forall k | 0 <= k < |o| ensures SameShape(o[k], img) && Rectangular(o[k]) {
      if k < |objs| { assert o[k] == objs[k]; } else { assert o[k] == more[k - |objs|]; }
    }
  }

  /** Appending a matched pair of zero-or-one items keeps lists matched. */
  lemma AppendMatched(img: seq<seq<Rgb>>, objs: seq<seq<seq<bool>>>, es: seq<CutoutEntry>,
                      more: seq<seq<seq<bool>>>, extra: seq<CutoutEntry>)
    requires MasksFit(img, objs) && MasksFit(img, more) && MasksFit(img, objs + more)
    requires |es| == |objs| && |more| <= 1
    requires forall k :: 0 <= k < |objs| ==> [es[k]] == EntriesFor(img, objs[k])
    requires |more| == 1 ==> |extra| == 1 && [extra[0]] == EntriesFor(img, more[0])
    requires |more| == 0 ==> extra == []
    ensures |es + extra| == |objs + more|
    ensures forall k :: 0 <= k < |objs + more| ==> [(es + extra)[k]] == EntriesFor(img, (objs + more)[k])
  {
    var o, e := objs + more, es + extra;
    forall k | 0 <= k < |o| ensures [e[k]] == EntriesFor(img, o[k]) {
      if k < |objs| {
        assert o[k] == objs[k] && e[k] == es[k];
      } else {
        assert o[k] == more[0] && e[k] == extra[0];
      }
    }
  }

  /** The endpoint's answer: the mask list, or an HTTP error status. */
  datatype Response = Masks(entries: seq<CutoutEntry>) | HttpError(status: int)

  const ServiceUnavailable := 503
  const BadRequest := 400
  const InternalError := 500

  predicate IsImageType(contentType: Option<string>) {
    contentType.Some? && |contentType.value| >= 6 && contentType.value[..6] == "image/"
  }

  /** `segment_image`. `modelLoaded` says whether the model file was found at
      start-up; `decoded` is the upload read and converted to RGB (absent when
      that raised) and `generated` the generator's masks (absent when it
      raised). */
  method SegmentImage(modelLoaded: bool, contentType: Option<string>,
                      decoded: Option<seq<seq<Rgb>>>, generated: Option<seq<seq<seq<bool>>>>)
    returns (resp: Response)
    requires decoded.Some? && generated.Some? ==> MasksFit(decoded.value, generated.value)
    ensures !modelLoaded ==> resp == HttpError(ServiceUnavailable)
    ensures modelLoaded && !IsImageType(contentType) ==> resp == HttpError(BadRequest)
    ensures modelLoaded && IsImageType(contentType) && (decoded.None? || generated.None?) ==>
      resp == HttpError(InternalError)
    ensures modelLoaded && IsImageType(contentType) && decoded.Some? && generated.Some? ==>
      resp == Masks(Cutouts(decoded.value, generated.value))
  {
    if !modelLoaded {
      return HttpError(ServiceUnavailable);
    }
    if contentType.None? || !(|contentType.value| >= 6 && contentType.value[..6] == "image/") {
      return HttpError(BadRequest);
    }
    if decoded.None? || generated.None? {
      return HttpError(InternalError);
    }
    var img, masks := decoded.value, generated.value;
    var entries: seq<CutoutEntry> := [];
    var k := 0;
    while k < |masks|
      invariant 0 <= k <= |masks|
      invariant MasksFit(img, masks[..k])
      invariant entries == Cutouts(img, masks[..k])
    {
      var m := masks[k];
      CutoutsStep(img, masks, k);
      var box := BoundingBox(m);
      if box.Some? {
        var b := box.value;
        entries := entries + [CutoutEntry(CutoutPixels(img, m, b), b.offsetX, b.offsetY, b.width, b.height)];
      }
      k := k + 1;
    }
    assert masks[..k] == masks;
    return Masks(entries);
  }
}
