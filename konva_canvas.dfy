/** The canvas's selection rules (KonvaCanvas.jsx): which layer is drawn as
    selected and bound to the transformer, when the transformer is shown, and
    the transformer's minimum-size rule for resizes. */
module KonvaCanvas {
  import opened Common
  import opened LayerManagement

  /** The smallest width and height, in stage pixels, a resize may produce. */
  const MinBoxSize: real := 5.0

  /** The box the transformer proposes or keeps during a resize. */
  datatype TransformBox = TransformBox(x: real, y: real, width: real, height: real, rotation: real)

  predicate LargeEnough(b: TransformBox) {
    Abs(b.width) >= MinBoxSize && Abs(b.height) >= MinBoxSize
  }

  /** `boundBoxFunc`: a proposal narrower or lower than the minimum is
      refused and the previous box kept. */
  function BoundBox(oldBox: TransformBox, newBox: TransformBox): (r: TransformBox)
    ensures r == oldBox || r == newBox
    ensures LargeEnough(newBox) ==> r == newBox
    ensures !LargeEnough(newBox) ==> r == oldBox
  {
    if Abs(newBox.width) < MinBoxSize || Abs(newBox.height) < MinBoxSize then oldBox else newBox
  }

  /** One resize never takes a box below the minimum size. */
  lemma BoundBoxKeepsMinimum(oldBox: TransformBox, newBox: TransformBox)
    requires LargeEnough(oldBox)
    ensures LargeEnough(BoundBox(oldBox, newBox))
  {
  }

  /** The box after a drag of the resize handles proposing each of `proposals`
      in turn. */
  function Resized(start: TransformBox, proposals: seq<TransformBox>): TransformBox
    decreases |proposals|
  {
    if |proposals| == 0 then start
    else Resized(BoundBox(start, proposals[0]), proposals[1..])
  }

  /** However many resizes follow, a box that starts large enough stays so,
      and the final box is the start or one of the proposals. */
  lemma {:induction false} ResizesKeepMinimum(start: TransformBox, proposals: seq<TransformBox>)
    requires LargeEnough(start)
    ensures LargeEnough(Resized(start, proposals))
    ensures Resized(start, proposals) == start || Resized(start, proposals) in proposals
    decreases |proposals|
  {
    if |proposals| > 0 {
      var next := BoundBox(start, proposals[0]);
      BoundBoxKeepsMinimum(start, proposals[0]);
      ResizesKeepMinimum(next, proposals[1..]);
      var r := Resized(start, proposals);
      assert r == next || r in proposals[1..];
      if r in proposals[1..] {
        var k :| 0 <= k < |proposals[1..]| && proposals[1..][k] == r;
        assert proposals[k + 1] == r;
      }
    }
  }

  /** The transformer is mounted only for a single selected layer. */
  function TransformerShown(sel: Selection): (shown: bool)
    ensures shown <==> sel.primary.Some? && |sel.multi| == 1
  {
    sel.primary != None && |sel.multi| == 1
  }

  /** The `isSelected` prop a layer receives. */
  function SelectedStyled(sel: Selection, index: int): (styled: bool)
    ensures styled <==> sel.primary == Some(index)
  {
    var isSelected := sel.primary == Some(index) || index in sel.multi;
    isSelected && sel.primary == Some(index)
  }

  /** Whether a layer receives the transformer's node ref. */
  function HoldsTransformerRef(sel: Selection, index: int): (holds: bool)
    ensures holds <==> sel.primary == Some(index)
  {
    sel.primary == Some(index)
  }

  /** Membership in the multi-selection alone neither styles a layer as
      selected nor binds it to the transformer, and at most one layer is
      styled. */
  lemma OnlyPrimaryIsStyled(sel: Selection, i: int, j: int)
    ensures i in sel.multi && sel.primary != Some(i) ==> !SelectedStyled(sel, i) && !HoldsTransformerRef(sel, i)
    ensures i != j ==> !(SelectedStyled(sel, i) && SelectedStyled(sel, j))
  {
  }

  /** A plain click always brings up the transformer on the clicked layer;
      Ctrl-clicking a second layer into the selection takes it away. */
  lemma ClickShowsTransformer(sel: Selection, i: int, j: int)
    ensures TransformerShown(Clicked(sel, i, false))
    ensures HoldsTransformerRef(Clicked(sel, i, false), i)
    ensures i != j ==> !TransformerShown(Clicked(Clicked(sel, i, false), j, true))
  {
    var s1 := Clicked(sel, i, false);
    if i != j {
      assert s1.multi == [i];
      assert Clicked(s1, j, true).multi == [i, j];
    }
  }
}
