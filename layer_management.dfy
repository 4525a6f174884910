/** The layer store of `useLayerManagement`: the layer records, the raw
    segmentation results beside them, the primary index and the multi-select
    list, and the operations that click, hide, delete, scale, rotate, merge
    and clear. */
module LayerManagement {
  import opened Common

  /** One segmentation result as the back end returns it, or a bare image
      string (the older response format the code still accepts). */
  datatype MaskRecord =
    | Cutout(image: string, offsetX: real, offsetY: real, width: real, height: real)
    | LegacyImage(dataUrl: string)

  /** A layer's `src`: an image URL, or the whole result record when the
      record's image is the empty string (`maskData.image || maskData`). */
  datatype Source = Url(url: string) | WholeRecord(record: MaskRecord)

  /** A layer record. `name`, `scaleX`, `scaleY` and `rotation` are absent on
      a merged layer, which is why they are optional here. */
  datatype Layer = Layer(
    id: int,
    name: Option<string>,
    src: Source,
    visible: bool,
    x: real,
    y: real,
    width: real,
    height: real,
    scaleX: Option<real>,
    scaleY: Option<real>,
    rotation: Option<real>)

  /** Selection: `selectedLayerIndex` (primary, owns the transformer) and
      `selectedLayers` (multi-select, used by merge). */
  datatype Selection = Selection(primary: Option<int>, multi: seq<int>)

  const NoSelection := Selection(None, [])

  const MinScale: real := 0.1
  const MaxScale: real := 3.0

  // ---------------------------------------------------------------------------
  // JavaScript defaults for missing or falsy fields

  /** `layer.scaleX || 1`: missing or zero reads as 1. */
  function ScaleOrOne(v: Option<real>): (r: real)
    ensures r != 0.0
    ensures v.None? || v.value == 0.0 ==> r == 1.0
    ensures v.Some? && v.value != 0.0 ==> r == v.value
  {
    if v.None? || v.value == 0.0 then 1.0 else v.value
  }

  /** `layer.rotation || 0`. */
  function RotationOrZero(v: Option<real>): (r: real)
    ensures v.Some? ==> r == v.value
    ensures v.None? ==> r == 0.0
  {
    if v.None? then 0.0 else v.value
  }

  /** `layer.width || imageSize.width`: zero reads as the image extent. */
  function ExtentOr(v: real, fallback: real): (r: real)
    ensures v != 0.0 ==> r == v
    ensures v == 0.0 ==> r == fallback
  {
    if v == 0.0 then fallback else v
  }

  // ---------------------------------------------------------------------------
  // Selection

  /** Every entry of `s` is an index into a list of length `n`. */
  predicate InRange(s: seq<int>, n: int) {
    forall i :: 0 <= i < |s| ==> 0 <= s[i] < n
  }

  /** `handleLayerClick`. */
  function Clicked(sel: Selection, index: int, ctrl: bool): (r: Selection)
    ensures !ctrl ==> r == Selection(Some(index), [index])
    ensures ctrl ==> (index in r.multi <==> index !in sel.multi)
    ensures ctrl ==> forall j :: j != index ==> (j in r.multi <==> j in sel.multi)
    ensures ctrl && index !in sel.multi ==> r.multi == sel.multi + [index]
    ensures r.primary == None <==> ctrl && index in sel.multi && |sel.multi| == 1
    ensures r.primary != None ==> r.primary == Some(index)
    ensures Distinct(sel.multi) ==> Distinct(r.multi)
  {
    if ctrl then
      if index in sel.multi then
        Selection(if |sel.multi| == 1 then None else Some(index), Remove(sel.multi, index))
      else
        Selection(Some(index), sel.multi + [index])
    else Selection(Some(index), [index])
  }

  /** Where index `i` ends up once layer `k` below or at it is deleted. */
  function Shifted(i: int, k: int): int {
    if i > k then i - 1 else i
  }

  /** The index just above `j`. */
  function Next(j: int): int {
    j + 1
  }

  /** The multi-select list after deleting layer `k`: `k` dropped, every index
      above it moved down by one, order kept. */
  function Reindexed(multi: seq<int>, k: int): (r: seq<int>)
    ensures forall j :: j in r ==> (j < k && j in multi) || (j >= k && Next(j) in multi)
    ensures forall i :: i in multi && i != k ==> Shifted(i, k) in r
  {
    if |multi| == 0 then []
    else
      var rest := Reindexed(multi[1..], k);
      assert forall j :: j in multi <==> j == multi[0] || j in multi[1..];
      if multi[0] == k then rest
      else [Shifted(multi[0], k)] + rest
  }

  lemma {:induction false} ReindexedDistinct(multi: seq<int>, k: int)
    requires Distinct(multi)
    ensures Distinct(Reindexed(multi, k))
  {
    if |multi| > 0 {
      var tail := multi[1..];
      assert Distinct(tail) by {
        forall i, j | 0 <= i < j < |tail| ensures tail[i] != tail[j] {
          assert tail[i] == multi[i + 1] && tail[j] == multi[j + 1];
        }
      }
      assert multi[0] !in tail by {
        forall j | 0 <= j < |tail| ensures tail[j] != multi[0] {
          assert tail[j] == multi[j + 1];
        }
      }
      ReindexedDistinct(tail, k);
      var r := Reindexed(multi, k);
      var rest := Reindexed(tail, k);
      if multi[0] != k {
        var moved := Shifted(multi[0], k);
        if multi[0] > k {
          assert Next(moved) == multi[0];
        } else {
          assert moved == multi[0] && moved < k;
        }
        assert moved !in rest;
        assert r == [moved] + rest;
        assert forall i :: 1 <= i < |r| ==> r[i] == rest[i - 1];
      }
    }
  }

  /** Deleting an existing layer keeps every remaining index in range. */
  lemma ReindexedInRange(multi: seq<int>, k: int, n: int)
    requires 0 <= k < n
    ensures InRange(multi, n) ==> InRange(Reindexed(multi, k), n - 1)
  {
    var r := Reindexed(multi, k);
    forall i | 0 <= i < |r| && InRange(multi, n) ensures 0 <= r[i] < n - 1 {
      assert r[i] in r;
    }
  }

  /** Dropping entries keeps every remaining index in range. */
  lemma RemoveInRange(s: seq<int>, x: int, n: int)
    ensures InRange(s, n) ==> InRange(Remove(s, x), n)
  {
    var r := Remove(s, x);
    forall i | 0 <= i < |r| && InRange(s, n) ensures 0 <= r[i] < n {
      assert r[i] in r;
      assert r[i] in s;
      var j :| 0 <= j < |s| && s[j] == r[i];
    }
  }

  /** The example of deletion: removing index 1 from `{1, 3, 4}` yields `{2, 3}`. */
  lemma ReindexExample()
    ensures Reindexed([1, 3, 4], 1) == [2, 3]
  {
    assert [1, 3, 4][1..] == [3, 4];
    assert [3, 4][1..] == [4];
    assert [4][1..] == [];
  }

  /** `deleteLayer`'s selection update: the primary index is cleared when it
      was the deleted one and otherwise left as it was. */
  function SelectionAfterDelete(sel: Selection, k: int): (r: Selection)
    ensures r.primary == if sel.primary == Some(k) then None else sel.primary
    ensures forall j :: j in r.multi ==> (j < k && j in sel.multi) || (j >= k && Next(j) in sel.multi)
    ensures forall i :: i in sel.multi && i != k ==> Shifted(i, k) in r.multi
    ensures Distinct(sel.multi) ==> Distinct(r.multi)
  {
    var multi := Reindexed(sel.multi, k);
    assert Distinct(sel.multi) ==> Distinct(multi) by {
      if Distinct(sel.multi) {
        ReindexedDistinct(sel.multi, k);
      }
    }
    Selection(if sel.primary == Some(k) then None else sel.primary, multi)
  }

  // ---------------------------------------------------------------------------
  // Single-layer updates

  /** `toggleLayerVisible`. */
  function VisibilityToggled(layers: seq<Layer>, i: int): (r: seq<Layer>)
    ensures |r| == |layers|
    ensures forall j :: 0 <= j < |r| && j != i ==> r[j] == layers[j]
    ensures 0 <= i < |r| ==> r[i] == layers[i].(visible := !layers[i].visible)
  {
    seq(|layers|, j requires 0 <= j < |layers| =>
      if j == i then layers[j].(visible := !layers[j].visible) else layers[j])
  }

  /** Toggling the same layer twice restores the list. */
  lemma ToggleTwiceRestores(layers: seq<Layer>, i: int)
    ensures VisibilityToggled(VisibilityToggled(layers, i), i) == layers
  {
  }

  /** `Math.max(0.1, Math.min(3, v))`. */
  function ClampScale(v: real): (r: real)
    ensures MinScale <= r <= MaxScale
    ensures MinScale <= v <= MaxScale ==> r == v
    ensures v < MinScale ==> r == MinScale
    ensures v > MaxScale ==> r == MaxScale
  {
    MaxReal(MinScale, MinReal(MaxScale, v))
  }

  /** `scaleLayer`: both axes become clamp(current + delta). */
  function Scaled(layers: seq<Layer>, i: int, delta: real): (r: seq<Layer>)
    requires 0 <= i < |layers|
    ensures |r| == |layers|
    ensures forall j :: 0 <= j < |r| && j != i ==> r[j] == layers[j]
    ensures r[i] == layers[i].(scaleX := r[i].scaleX, scaleY := r[i].scaleY)
    ensures r[i].scaleX == Some(ClampScale(ScaleOrOne(layers[i].scaleX) + delta))
    ensures r[i].scaleY == Some(ClampScale(ScaleOrOne(layers[i].scaleY) + delta))
  {
    var l := layers[i];
    layers[i := l.(scaleX := Some(ClampScale(ScaleOrOne(l.scaleX) + delta)),
                   scaleY := Some(ClampScale(ScaleOrOne(l.scaleY) + delta)))]
  }

  /** Applying the scale step `n` times to one scale value. */
  function ScaleSteps(v: real, delta: real, n: nat): real
    decreases n
  {
    if n == 0 then v else ScaleSteps(ClampScale(v + delta), delta, n - 1)
  }

  /** Enough positive steps always end exactly at the upper bound. */
  lemma {:induction false} ScaleStepsReachMax(v: real, delta: real, n: nat)
    requires MinScale <= v <= MaxScale && delta > 0.0
    requires (n as real) * delta >= MaxScale - v
    ensures ScaleSteps(v, delta, n) == MaxScale
    decreases n
  {
    if n == 0 {
      assert v == MaxScale;
    } else {
      var v' := ClampScale(v + delta);
      assert ((n - 1) as real) * delta == (n as real) * delta - delta;
      if v + delta >= MaxScale {
        assert v' == MaxScale;
        ScaleStepsReachMax(v', delta, n - 1);
      } else {
        assert v' == v + delta;
        ScaleStepsReachMax(v', delta, n - 1);
      }
    }
  }

  /** Enough negative steps always end exactly at the lower bound. */
  lemma {:induction false} ScaleStepsReachMin(v: real, delta: real, n: nat)
    requires MinScale <= v <= MaxScale && delta < 0.0
    requires (n as real) * delta <= MinScale - v
    ensures ScaleSteps(v, delta, n) == MinScale
    decreases n
  {
    if n == 0 {
      assert v == MinScale;
    } else {
      var v' := ClampScale(v + delta);
      assert ((n - 1) as real) * delta == (n as real) * delta - delta;
      if v + delta <= MinScale {
        assert v' == MinScale;
        ScaleStepsReachMin(v', delta, n - 1);
      } else {
        assert v' == v + delta;
        ScaleStepsReachMin(v', delta, n - 1);
      }
    }
  }

  /** Forty steps of +0.1 from 1 stop at 3; forty of -0.1 stop at 0.1. */
  lemma FortyScaleSteps()
    ensures ScaleSteps(1.0, 0.1, 40) == MaxScale
    ensures ScaleSteps(1.0, -0.1, 40) == MinScale
  {
    ScaleStepsReachMax(1.0, 0.1, 40);
    ScaleStepsReachMin(1.0, -0.1, 40);
  }

  /** JavaScript's `a % 360`: the quotient is truncated toward zero, so the
      remainder takes the sign of `a`. */
  function Remainder360(a: real): (r: real)
    ensures -360.0 < r < 360.0
    ensures a >= 0.0 ==> r >= 0.0
    ensures a <= 0.0 ==> r <= 0.0
    ensures ((a - r) / 360.0).Floor as real == (a - r) / 360.0
    ensures -360.0 < a < 360.0 ==> r == a
  {
    var q := a / 360.0;
    var t := if q >= 0.0 then q.Floor else -((-q).Floor);
    a - (t as real) * 360.0
  }

  /** `rotateLayer`. */
  function Rotated(layers: seq<Layer>, i: int, delta: real): (r: seq<Layer>)
    requires 0 <= i < |layers|
    ensures |r| == |layers|
    ensures forall j :: 0 <= j < |r| && j != i ==> r[j] == layers[j]
    ensures r[i] == layers[i].(rotation := Some(Remainder360(RotationOrZero(layers[i].rotation) + delta)))
  {
    var l := layers[i];
    layers[i := l.(rotation := Some(Remainder360(RotationOrZero(l.rotation) + delta)))]
  }

  /** `handleTransformEnd`, with the node's read-back values as parameters. */
  function Transformed(layers: seq<Layer>, i: int, x: real, y: real, sx: real, sy: real, rot: real): (r: seq<Layer>)
    requires 0 <= i < |layers|
    ensures |r| == |layers|
    ensures forall j :: 0 <= j < |r| && j != i ==> r[j] == layers[j]
    ensures r[i] == layers[i].(x := x, y := y, scaleX := Some(sx), scaleY := Some(sy), rotation := Some(rot))
  {
    layers[i := layers[i].(x := x, y := y, scaleX := Some(sx), scaleY := Some(sy), rotation := Some(rot))]
  }

  // ---------------------------------------------------------------------------
  // Merge: bounds and list surgery

  function MinOf(s: seq<real>): (r: real)
    requires |s| > 0
    ensures forall i :: 0 <= i < |s| ==> r <= s[i]
    ensures r in s
  {
    if |s| == 1 then s[0] else MinReal(s[0], MinOf(s[1..]))
  }

  function MaxOf(s: seq<real>): (r: real)
    requires |s| > 0
    ensures forall i :: 0 <= i < |s| ==> r >= s[i]
    ensures r in s
  {
    if |s| == 1 then s[0] else MaxReal(s[0], MaxOf(s[1..]))
  }

  datatype Bounds = Bounds(minX: real, minY: real, maxX: real, maxY: real)

  function Right(l: Layer, imageWidth: real): real {
    l.x + ExtentOr(l.width, imageWidth)
  }

  function Bottom(l: Layer, imageHeight: real): real {
    l.y + ExtentOr(l.height, imageHeight)
  }

  /** The union box of the selected layers, from position and stored size
      only (rotation and scale are not taken into account). */
  function MergeBounds(layers: seq<Layer>, sel: seq<int>, imageWidth: real, imageHeight: real): Bounds
    requires |sel| > 0 && InRange(sel, |layers|)
  {
    Bounds(MinOf(Lefts(layers, sel)), MinOf(Tops(layers, sel)),
           MaxOf(Rights(layers, sel, imageWidth)), MaxOf(Bottoms(layers, sel, imageHeight)))
  }

  function Lefts(layers: seq<Layer>, sel: seq<int>): (r: seq<real>)
    requires InRange(sel, |layers|)
    ensures |r| == |sel| && forall k :: 0 <= k < |sel| ==> r[k] == layers[sel[k]].x
  {
    seq(|sel|, k requires 0 <= k < |sel| => layers[sel[k]].x)
  }

  function Tops(layers: seq<Layer>, sel: seq<int>): (r: seq<real>)
    requires InRange(sel, |layers|)
    ensures |r| == |sel| && forall k :: 0 <= k < |sel| ==> r[k] == layers[sel[k]].y
  {
    seq(|sel|, k requires 0 <= k < |sel| => layers[sel[k]].y)
  }

  function Rights(layers: seq<Layer>, sel: seq<int>, imageWidth: real): (r: seq<real>)
    requires InRange(sel, |layers|)
    ensures |r| == |sel| && forall k :: 0 <= k < |sel| ==> r[k] == Right(layers[sel[k]], imageWidth)
  {
    seq(|sel|, k requires 0 <= k < |sel| => Right(layers[sel[k]], imageWidth))
  }

  function Bottoms(layers: seq<Layer>, sel: seq<int>, imageHeight: real): (r: seq<real>)
    requires InRange(sel, |layers|)
    ensures |r| == |sel| && forall k :: 0 <= k < |sel| ==> r[k] == Bottom(layers[sel[k]], imageHeight)
  {
    seq(|sel|, k requires 0 <= k < |sel| => Bottom(layers[sel[k]], imageHeight))
  }

  /** The merge box contains every selected layer's box, and each of its four
      edges is attained by some selected layer. */
  lemma MergeBoundsTight(layers: seq<Layer>, sel: seq<int>, imageWidth: real, imageHeight: real)
    requires |sel| > 0 && InRange(sel, |layers|)
    ensures var b := MergeBounds(layers, sel, imageWidth, imageHeight);
      && (forall k :: 0 <= k < |sel| ==>
            b.minX <= layers[sel[k]].x && b.minY <= layers[sel[k]].y &&
            Right(layers[sel[k]], imageWidth) <= b.maxX && Bottom(layers[sel[k]], imageHeight) <= b.maxY)
      && (exists k :: 0 <= k < |sel| && layers[sel[k]].x == b.minX)
      && (exists k :: 0 <= k < |sel| && layers[sel[k]].y == b.minY)
      && (exists k :: 0 <= k < |sel| && Right(layers[sel[k]], imageWidth) == b.maxX)
      && (exists k :: 0 <= k < |sel| && Bottom(layers[sel[k]], imageHeight) == b.maxY)
  {
    var b := MergeBounds(layers, sel, imageWidth, imageHeight);
    var xs, ys := Lefts(layers, sel), Tops(layers, sel);
    var rs, bs := Rights(layers, sel, imageWidth), Bottoms(layers, sel, imageHeight);
    assert b.minX in xs && b.minY in ys && b.maxX in rs && b.maxY in bs;
  }

  /** `list.filter((_, i) => !selected.includes(i))`, for the list starting
      at index `from`. */
  function Unselected<T>(s: seq<T>, sel: seq<int>, from: int): (r: seq<T>)
    ensures |r| <= |s|
    decreases |s|
  {
    if |s| == 0 then []
    else (if from in sel then [] else [s[0]]) + Unselected(s[1..], sel, from + 1)
  }

  /** How many entries of `sel` lie in `[lo, hi)`. */
  function CountIn(sel: seq<int>, lo: int, hi: int): nat {
    if |sel| == 0 then 0
    else (if lo <= sel[0] < hi then 1 else 0) + CountIn(sel[1..], lo, hi)
  }

  lemma {:induction false} CountInEmptyRange(sel: seq<int>, lo: int)
    ensures CountIn(sel, lo, lo) == 0
  {
    if |sel| > 0 {
      CountInEmptyRange(sel[1..], lo);
    }
  }

  lemma {:induction false} CountInAll(sel: seq<int>, n: int)
    requires InRange(sel, n)
    ensures CountIn(sel, 0, n) == |sel|
  {
    if |sel| > 0 {
      assert InRange(sel[1..], n) by {
        forall i | 0 <= i < |sel[1..]| ensures 0 <= sel[1..][i] < n {
          assert sel[1..][i] == sel[i + 1];
        }
      }
      CountInAll(sel[1..], n);
    }
  }

  lemma {:induction false} CountInSplit(sel: seq<int>, lo: int, hi: int)
    requires lo < hi && Distinct(sel)
    ensures CountIn(sel, lo, hi) == (if lo in sel then 1 else 0) + CountIn(sel[..], lo + 1, hi)
  {
    if |sel| > 0 {
      var tail := sel[1..];
      assert Distinct(tail) by {
        forall i, j | 0 <= i < j < |tail| ensures tail[i] != tail[j] {
          assert tail[i] == sel[i + 1] && tail[j] == sel[j + 1];
        }
      }
      assert sel[0] !in tail by {
        forall j | 0 <= j < |tail| ensures tail[j] != sel[0] {
          assert tail[j] == sel[j + 1];
        }
      }
      assert forall j :: j in sel <==> j == sel[0] || j in tail;
      CountInSplit(tail, lo, hi);
      assert sel[..] == sel;
      assert tail[..] == tail;
    }
  }

  lemma {:induction false} UnselectedLength<T>(s: seq<T>, sel: seq<int>, from: int)
    requires Distinct(sel)
    ensures |Unselected(s, sel, from)| == |s| - CountIn(sel, from, from + |s|)
    decreases |s|
  {
    if |s| == 0 {
      CountInEmptyRange(sel, from);
    } else {
      CountInSplit(sel, from, from + |s|);
      assert sel[..] == sel;
      UnselectedLength(s[1..], sel, from + 1);
    }
  }

  /** Merging k distinct, in-range layers out of n leaves n - k + 1 layers. */
  lemma MergedLength<T>(s: seq<T>, sel: seq<int>)
    requires Distinct(sel) && InRange(sel, |s|)
    ensures |Unselected(s, sel, 0)| == |s| - |sel|
  {
    UnselectedLength(s, sel, 0);
    CountInAll(sel, |s|);
  }

  /** Store contents touched by merge. */
  datatype MergeState = MergeState(layers: seq<Layer>, masks: seq<MaskRecord>, selection: Selection)

  /** The merged layer: placed at the union box's corner with the box's size,
      visible, with no name, scale or rotation (they are baked into the image). */
  function MergedLayer(b: Bounds, id: int, url: string): Layer {
    Layer(id, None, Url(url), true, b.minX, b.minY, b.maxX - b.minX, b.maxY - b.minY, None, None, None)
  }

  /** `unshift`: `x` in front of `s`. */
  function Prepended<T>(x: T, s: seq<T>): (r: seq<T>)
    ensures |r| == |s| + 1 && r[0] == x && r[1..] == s
  {
    [x] + s
  }

  /** Merge does its work when at least two layers are selected, every
      selected index names a layer, and every selected image loaded. */
  predicate MergeApplies(st: MergeState, loaded: bool) {
    |st.selection.multi| >= 2 && loaded && InRange(st.selection.multi, |st.layers|)
  }

  /** `mergeLayers`, apart from the pixel compositing: `loaded` says whether
      every selected layer's image loaded, `url` is the composite's data URL
      and `now` the id taken from the clock. */
  function Merged(st: MergeState, loaded: bool, imageWidth: real, imageHeight: real, now: int, url: string): (r: MergeState)
    ensures !MergeApplies(st, loaded) ==> r == st
    ensures MergeApplies(st, loaded) ==>
      var b := MergeBounds(st.layers, st.selection.multi, imageWidth, imageHeight);
      && r.selection == Selection(Some(0), [0]) && |r.layers| > 0 && |r.masks| > 0
      && r.layers[0] == MergedLayer(b, now, url)
      && r.masks[0] == Cutout(url, b.minX, b.minY, b.maxX - b.minX, b.maxY - b.minY)
      && r.layers[1..] == Unselected(st.layers, st.selection.multi, 0)
      && r.masks[1..] == Unselected(st.masks, st.selection.multi, 0)
  {
    var sel := st.selection.multi;
    if |sel| < 2 || !loaded || !InRange(sel, |st.layers|) then st
    else
      var b := MergeBounds(st.layers, sel, imageWidth, imageHeight);
      var merged := MergedLayer(b, now, url);
      var record := Cutout(url, b.minX, b.minY, b.maxX - b.minX, b.maxY - b.minY);
      MergeState(Prepended(merged, Unselected(st.layers, sel, 0)),
                 Prepended(record, Unselected(st.masks, sel, 0)),
                 Selection(Some(0), [0]))
  }

  /** A successful merge of a valid selection: n - k + 1 layers, the merged one
      first, spanning exactly the union box of the selected layers; the merged
      record goes first among the results, describing the same box, so layers
      and results stay in step. */
  lemma MergeResult(st: MergeState, imageWidth: real, imageHeight: real, now: int, url: string)
    requires |st.selection.multi| >= 2 && Distinct(st.selection.multi)
    requires InRange(st.selection.multi, |st.layers|)
    ensures var r := Merged(st, true, imageWidth, imageHeight, now, url);
      var b := MergeBounds(st.layers, st.selection.multi, imageWidth, imageHeight);
      && |r.layers| == |st.layers| - |st.selection.multi| + 1
      && r.layers[0] == MergedLayer(b, now, url)
      && r.layers[1..] == Unselected(st.layers, st.selection.multi, 0)
      && r.masks[0] == Cutout(url, b.minX, b.minY, b.maxX - b.minX, b.maxY - b.minY)
      && (|st.masks| == |st.layers| ==> |r.masks| == |r.layers|)
      && r.selection == Selection(Some(0), [0])
  {
    var r := Merged(st, true, imageWidth, imageHeight, now, url);
    assert MergeApplies(st, true);
    assert |r.layers| == 1 + |r.layers[1..]|;
    MergedLength(st.layers, st.selection.multi);
    if |st.masks| == |st.layers| {
      assert |r.masks| == 1 + |r.masks[1..]|;
      MergedLength(st.masks, st.selection.multi);
    }
  }

  // ---------------------------------------------------------------------------
  // The store as a whole

  datatype StoreState = StoreState(
    layers: seq<Layer>,
    masks: seq<MaskRecord>,
    selection: Selection,
    hovered: Option<int>,
    itemRefs: nat)

  /** The multi-select list names distinct, existing layers. */
  predicate WellSelected(st: StoreState) {
    Distinct(st.selection.multi) && InRange(st.selection.multi, |st.layers|)
  }

  /** `deleteLayer`. */
  function Deleted(st: StoreState, k: int): (r: StoreState)
    requires 0 <= k < |st.layers|
    ensures r.layers == st.layers[..k] + st.layers[k + 1..]
    ensures r.masks == Without(st.masks, k)
    ensures WellSelected(st) ==> WellSelected(r)
  {
    ReindexedInRange(st.selection.multi, k, |st.layers|);
    st.(layers := Without(st.layers, k), masks := Without(st.masks, k),
        selection := SelectionAfterDelete(st.selection, k))
  }

  /** As written, deletion does not shift the primary index: deleting a layer
      below the primary one leaves it naming a different layer, or none. */
  lemma DeleteKeepsPrimaryUnshifted(l: Layer)
    ensures var st := StoreState([l, l, l], [], Selection(Some(2), [2]), None, 3);
      var r := Deleted(st, 0);
      r.selection.primary == Some(2) && r.selection.multi == [1] && |r.layers| == 2
  {
    var r := Deleted(StoreState([l, l, l], [], Selection(Some(2), [2]), None, 3), 0);
    assert 1 in r.selection.multi;
    assert forall j :: j in r.selection.multi ==> j == 1;
    assert Distinct(r.selection.multi);
    assert r.selection.multi == [1] by {
      assert Reindexed([2], 0) == [1];
    }
  }

  class LayerStore {
    var layers: seq<Layer>
    var segmentedMasks: seq<MaskRecord>
    var selectedLayerIndex: Option<int>
    var selectedLayers: seq<int>
    var hoveredLayerIndex: Option<int>
    var layerItemRefCount: nat

    function Snapshot(): StoreState
      reads this
    {
      StoreState(layers, segmentedMasks, Selection(selectedLayerIndex, selectedLayers),
                 hoveredLayerIndex, layerItemRefCount)
    }

    predicate Valid()
      reads this
    {
      WellSelected(Snapshot())
    }

    constructor ()
      ensures Valid() && Snapshot() == StoreState([], [], NoSelection, None, 0)
    {
      layers, segmentedMasks := [], [];
      selectedLayerIndex, selectedLayers, hoveredLayerIndex := None, [], None;
      layerItemRefCount := 0;
    }

    method LayerClick(index: int, ctrl: bool)
      requires Valid() && 0 <= index < |layers|
      modifies this
      ensures Valid()
      ensures Snapshot() == old(Snapshot()).(selection := Clicked(old(Snapshot()).selection, index, ctrl))
    {
      selectedLayerIndex := Some(index);
      if ctrl {
        if index in selectedLayers {
          var wasSole := |selectedLayers| == 1;
          RemoveInRange(selectedLayers, index, |layers|);
          selectedLayers := Remove(selectedLayers, index);
          if wasSole {
            selectedLayerIndex := None;
          }
        } else {
          selectedLayers := selectedLayers + [index];
        }
      } else {
        selectedLayers := [index];
      }
    }

    method Deselect()
      requires Valid()
      modifies this
      ensures Valid()
      ensures Snapshot() == old(Snapshot()).(selection := NoSelection)
    {
      selectedLayerIndex := None;
      selectedLayers := [];
    }

    method TransformEnd(index: int, nodeBound: bool, x: real, y: real, sx: real, sy: real, rot: real)
      requires Valid() && 0 <= index < |layers|
      modifies this
      ensures Valid()
      ensures !nodeBound ==> Snapshot() == old(Snapshot())
      ensures nodeBound ==> Snapshot() == old(Snapshot()).(layers := Transformed(old(layers), index, x, y, sx, sy, rot))
    {
      if !nodeBound {
        return;
      }
      layers := layers[index := layers[index].(x := x, y := y, scaleX := Some(sx), scaleY := Some(sy), rotation := Some(rot))];
    }

    method ToggleLayerVisible(index: int)
      requires Valid()
      modifies this
      ensures Valid()
      ensures Snapshot() == old(Snapshot()).(layers := VisibilityToggled(old(layers), index))
    {
      layers := VisibilityToggled(layers, index);
    }

    method DeleteLayer(index: int)
      requires Valid() && 0 <= index < |layers|
      modifies this
      ensures Valid()
      ensures Snapshot() == Deleted(old(Snapshot()), index)
    {
      ghost var before := Snapshot();
      layers := Without(layers, index);
      segmentedMasks := Without(segmentedMasks, index);
      if selectedLayerIndex == Some(index) {
        selectedLayerIndex := None;
      }
      selectedLayers := Reindexed(selectedLayers, index);
      assert Snapshot() == Deleted(before, index);
    }

    method ScaleLayer(index: int, delta: real)
      requires Valid() && 0 <= index < |layers|
      modifies this
      ensures Valid()
      ensures Snapshot() == old(Snapshot()).(layers := Scaled(old(layers), index, delta))
    {
      var l := layers[index];
      var sx := ClampScale(ScaleOrOne(l.scaleX) + delta);
      var sy := ClampScale(ScaleOrOne(l.scaleY) + delta);
      layers := layers[index := l.(scaleX := Some(sx), scaleY := Some(sy))];
    }

    method RotateLayer(index: int, delta: real)
      requires Valid() && 0 <= index < |layers|
      modifies this
      ensures Valid()
      ensures Snapshot() == old(Snapshot()).(layers := Rotated(old(layers), index, delta))
    {
      var l := layers[index];
      layers := layers[index := l.(rotation := Some(Remainder360(RotationOrZero(l.rotation) + delta)))];
    }

    method MergeLayers(loaded: bool, imageWidth: real, imageHeight: real, now: int, url: string)
      requires Valid()
      modifies this
      ensures Valid()
      ensures var m := Merged(MergeState(old(layers), old(segmentedMasks), old(Snapshot()).selection),
                              loaded, imageWidth, imageHeight, now, url);
        Snapshot() == old(Snapshot()).(layers := m.layers, masks := m.masks, selection := m.selection)
    {
      // Image loading and the canvas compositing are outside the model; the
      // list surgery is the function's.
      var m := Merged(MergeState(layers, segmentedMasks, Selection(selectedLayerIndex, selectedLayers)),
                      loaded, imageWidth, imageHeight, now, url);
      layers, segmentedMasks := m.layers, m.masks;
      selectedLayerIndex, selectedLayers := m.selection.primary, m.selection.multi;
    }

    method LayerMouseEnter(index: int)
      requires Valid()
      modifies this
      ensures Valid()
      ensures Snapshot() == old(Snapshot()).(hovered := Some(index))
    {
      hoveredLayerIndex := Some(index);
    }

    method LayerMouseLeave()
      requires Valid()
      modifies this
      ensures Valid()
      ensures Snapshot() == old(Snapshot()).(hovered := None)
    {
      hoveredLayerIndex := None;
    }

    method ClearLayers()
      requires Valid()
      modifies this
      ensures Valid()
      ensures Snapshot() == StoreState([], old(segmentedMasks), NoSelection, None, 0)
    {
      layers := [];
      selectedLayerIndex, selectedLayers, hoveredLayerIndex := None, [], None;
      layerItemRefCount := 0;
    }
  }
}
