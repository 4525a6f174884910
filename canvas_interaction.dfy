/** Pointer handling on the canvas (`useCanvasInteraction`): pressing a layer
    arms a drag, moving the pointer more than five pixels on either axis turns
    it into a real drag that moves the layer with the pointer, and releasing
    without having dragged puts the layer back where it was. */
module CanvasInteraction {
  import opened Common
  import opened LayerManagement

  /** Distance in stage pixels, per axis, that a press must travel before it
      counts as a drag. */
  const DragThreshold: real := 5.0

  /** The drag bookkeeping: the dragged layer's index and the four refs. */
  datatype DragState = DragState(
    dragging: Option<int>,
    dragStart: Point,
    layerStart: Point,
    offset: Point,
    isDragging: bool)

  const Origin := Point(0.0, 0.0)
  const Idle := DragState(None, Origin, Origin, Origin, false)

  /** The drag state together with the layer list it moves. */
  datatype Interaction = Interaction(drag: DragState, layers: seq<Layer>)

  /** Did the pointer leave the threshold box around the press point? */
  predicate BeyondThreshold(start: Point, p: Point) {
    Abs(p.x - start.x) > DragThreshold || Abs(p.y - start.y) > DragThreshold
  }

  /** Layer `i` placed at `p`, everything else as it was. */
  function PlacedAt(layers: seq<Layer>, i: int, p: Point): (r: seq<Layer>)
    requires 0 <= i < |layers|
    ensures |r| == |layers|
    ensures r[i].x == p.x && r[i].y == p.y
    ensures r[i] == layers[i].(x := p.x, y := p.y)
    ensures forall j :: 0 <= j < |r| && j != i ==> r[j] == layers[j]
  {
    layers[i := layers[i].(x := p.x, y := p.y)]
  }

  /** `handleLayerPointerDown`: any button but the primary one is ignored;
      otherwise the press point, the layer's position and the pointer's offset
      from it in layer space are recorded. `button` is absent when the event
      carries no native event. */
  function PointerDown(d: DragState, index: int, button: Option<int>, pointer: Point, layerPos: Point, scale: real): (r: DragState)
    requires scale > 0.0
    ensures button.Some? && button.value != 0 ==> r == d
    ensures button.None? || button.value == 0 ==>
      && r.dragging == Some(index) && !r.isDragging
      && r.dragStart == pointer && r.layerStart == layerPos
      && r.offset.x + layerPos.x == pointer.x / scale
      && r.offset.y + layerPos.y == pointer.y / scale
  {
    if button.Some? && button.value != 0 then d
    else DragState(Some(index), pointer, layerPos,
                   Point(pointer.x / scale - layerPos.x, pointer.y / scale - layerPos.y), false)
  }

  /** `handleStagePointerUp`: a press that never became a drag puts the layer
      back at its starting position; either way the drag state is reset. */
  function PointerUp(s: Interaction): (r: Interaction)
    ensures s.drag.dragging.None? ==> r == s
    ensures s.drag.dragging.Some? ==> r.drag == Idle
    ensures |r.layers| == |s.layers|
    ensures s.drag.isDragging ==> r.layers == s.layers
    ensures s.drag.dragging.Some? && !s.drag.isDragging && 0 <= s.drag.dragging.value < |s.layers| ==>
      r.layers == PlacedAt(s.layers, s.drag.dragging.value, s.drag.layerStart)
  {
    match s.drag.dragging
    case None => s
    case Some(i) =>
      var layers := if !s.drag.isDragging && 0 <= i < |s.layers|
                    then PlacedAt(s.layers, i, s.drag.layerStart) else s.layers;
      Interaction(Idle, layers)
  }

  /** The move event reports the primary button held, or no button mask. */
  predicate Held(buttons: Option<int>) {
    buttons.None? || buttons.value == 1
  }

  /** The stage has a pointer position and the armed index names a layer. */
  predicate Reaches(s: Interaction, pointer: Option<Point>) {
    pointer.Some? && s.drag.dragging.Some? && 0 <= s.drag.dragging.value < |s.layers|
  }

  /** `handleStagePointerMove`. `buttons` is the native event's pressed-button
      mask when it has one; `pointer` is absent when the stage has no pointer
      position. */
  function PointerMove(s: Interaction, buttons: Option<int>, pointer: Option<Point>, scale: real): (r: Interaction)
    requires scale > 0.0
    ensures s.drag.dragging.None? ==> r == s
    ensures s.drag.dragging.Some? && buttons.Some? && buttons.value != 1 ==> r == PointerUp(s)
    ensures s.drag.dragging.Some? && Held(buttons) && !Reaches(s, pointer) ==> r == s
    ensures Held(buttons) && Reaches(s, pointer) && !BeyondThreshold(s.drag.dragStart, pointer.value) ==> r == s
    ensures Held(buttons) && Reaches(s, pointer) && BeyondThreshold(s.drag.dragStart, pointer.value) ==>
      && r.drag == s.drag.(isDragging := true)
      && r.layers == PlacedAt(s.layers, s.drag.dragging.value,
                              Point(pointer.value.x / scale - s.drag.offset.x, pointer.value.y / scale - s.drag.offset.y))
    ensures |r.layers| == |s.layers|
  {
    match s.drag.dragging
    case None => s
    case Some(i) =>
      if buttons.Some? && buttons.value != 1 then PointerUp(s)
      else if pointer.None? then s
      else if !(0 <= i < |s.layers|) then s
      else
        var p := pointer.value;
        if BeyondThreshold(s.drag.dragStart, p) then
          var target := Point(p.x / scale - s.drag.offset.x, p.y / scale - s.drag.offset.y);
          Interaction(s.drag.(isDragging := true), PlacedAt(s.layers, i, target))
        else s
  }

  /** `handleStageClick`: whether the deselect callback runs. */
  function StageClick(d: DragState, clickedOnEmpty: bool, hasDeselect: bool): (deselect: bool)
    ensures deselect <==> d.dragging.None? && clickedOnEmpty && hasDeselect
  {
    if d.dragging.Some? then false else clickedOnEmpty && hasDeselect
  }

  // ---------------------------------------------------------------------------
  // Properties

  /** A move with the primary button held (or with no button information). */
  function HeldMove(s: Interaction, pointer: Point, scale: real): Interaction
    requires scale > 0.0
  {
    PointerMove(s, Some(1), Some(pointer), scale)
  }

  /** The first move past the threshold puts the layer where it started plus
      the pointer's travel divided by the stage scale: the layer does not jump
      to the pointer. */
  lemma DragDoesNotJump(layers: seq<Layer>, i: int, start: Point, p: Point, scale: real)
    requires 0 <= i < |layers| && scale > 0.0
    requires BeyondThreshold(start, p)
    ensures var layerPos := Point(layers[i].x, layers[i].y);
      var d := PointerDown(Idle, i, Some(0), start, layerPos, scale);
      var r := HeldMove(Interaction(d, layers), p, scale);
      && r.drag.isDragging
      && r.layers[i].x == layers[i].x + (p.x - start.x) / scale
      && r.layers[i].y == layers[i].y + (p.y - start.y) / scale
      && (forall j :: 0 <= j < |layers| && j != i ==> r.layers[j] == layers[j])
  {
    var layerPos := Point(layers[i].x, layers[i].y);
    var d := PointerDown(Idle, i, Some(0), start, layerPos, scale);
    assert p.x / scale - (start.x / scale - layers[i].x) == layers[i].x + (p.x - start.x) / scale;
    assert p.y / scale - (start.y / scale - layers[i].y) == layers[i].y + (p.y - start.y) / scale;
  }

  /** A move that stays within the threshold box changes nothing. */
  lemma SmallMoveChangesNothing(s: Interaction, p: Point, scale: real)
    requires scale > 0.0 && s.drag.dragging.Some?
    requires !BeyondThreshold(s.drag.dragStart, p)
    ensures HeldMove(s, p, scale) == s
  {
  }

  /** Once a press has become a drag it stays one, on the same layer, until
      the button is released. (The layer moves only while the pointer is
      outside the threshold box around the press point: `SmallMoveChangesNothing`
      holds for a drag in progress too.) */
  lemma DragIsSticky(s: Interaction, p: Point, scale: real)
    requires scale > 0.0 && s.drag.dragging.Some? && s.drag.isDragging
    ensures HeldMove(s, p, scale).drag.isDragging
    ensures HeldMove(s, p, scale).drag.dragging == s.drag.dragging
  {
  }

  /** The recorded offset is the press point in layer space minus the layer's
      start position, for the stage scale in force. */
  predicate OffsetConsistent(d: DragState, scale: real)
    requires scale > 0.0
  {
    d.offset == Point(d.dragStart.x / scale - d.layerStart.x, d.dragStart.y / scale - d.layerStart.y)
  }

  /** A press records a consistent offset; an ignored press keeps one. */
  lemma PointerDownConsistent(d: DragState, index: int, button: Option<int>, pointer: Point, layerPos: Point, scale: real)
    requires scale > 0.0
    ensures button.None? || button.value == 0 ==> OffsetConsistent(PointerDown(d, index, button, pointer, layerPos, scale), scale)
    ensures OffsetConsistent(d, scale) ==> OffsetConsistent(PointerDown(d, index, button, pointer, layerPos, scale), scale)
  {
  }

  /** Moves and releases keep the offset consistent (a release resets all
      refs to the origin, which is consistent too). */
  lemma MoveKeepsConsistent(s: Interaction, buttons: Option<int>, pointer: Option<Point>, scale: real)
    requires scale > 0.0 && OffsetConsistent(s.drag, scale)
    ensures OffsetConsistent(PointerMove(s, buttons, pointer, scale).drag, scale)
    ensures OffsetConsistent(PointerUp(s).drag, scale)
  {
    assert 0.0 / scale == 0.0;
  }

  /** From any armed state whose offset is consistent (every state reached by
      presses, moves and releases: `PointerDownConsistent`,
      `MoveKeepsConsistent`), a held move outside the threshold box puts the
      armed layer at its start position plus the pointer's travel divided by
      the scale, and leaves every other layer alone; the press is now a drag. */
  lemma DragFollowsPointer(s: Interaction, p: Point, scale: real)
    requires scale > 0.0 && s.drag.dragging.Some? && 0 <= s.drag.dragging.value < |s.layers|
    requires OffsetConsistent(s.drag, scale)
    requires BeyondThreshold(s.drag.dragStart, p)
    ensures var i, r := s.drag.dragging.value, HeldMove(s, p, scale);
      && r.drag.isDragging && r.drag.dragging == s.drag.dragging
      && r.layers[i].x == s.drag.layerStart.x + (p.x - s.drag.dragStart.x) / scale
      && r.layers[i].y == s.drag.layerStart.y + (p.y - s.drag.dragStart.y) / scale
      && |r.layers| == |s.layers|
      && (forall j :: 0 <= j < |s.layers| && j != i ==> r.layers[j] == s.layers[j])
  {
    var d := s.drag;
    assert p.x / scale - (d.dragStart.x / scale - d.layerStart.x) == d.layerStart.x + (p.x - d.dragStart.x) / scale;
    assert p.y / scale - (d.dragStart.y / scale - d.layerStart.y) == d.layerStart.y + (p.y - d.dragStart.y) / scale;
  }

  /** The pointer positions of a sequence of held moves. */
  function HeldMoves(s: Interaction, ps: seq<Point>, scale: real): Interaction
    requires scale > 0.0
    decreases |ps|
  {
    if |ps| == 0 then s else HeldMoves(HeldMove(s, ps[0], scale), ps[1..], scale)
  }

  /** Held moves that all stay within the threshold box leave everything as
      it was. */
  lemma {:induction false} SmallMovesChangeNothing(s: Interaction, ps: seq<Point>, scale: real)
    requires scale > 0.0 && s.drag.dragging.Some?
    requires forall k :: 0 <= k < |ps| ==> !BeyondThreshold(s.drag.dragStart, ps[k])
    ensures HeldMoves(s, ps, scale) == s
    decreases |ps|
  {
    if |ps| > 0 {
      SmallMoveChangesNothing(s, ps[0], scale);
      assert forall k :: 0 <= k < |ps[1..]| ==> ps[1..][k] == ps[k + 1];
      SmallMovesChangeNothing(s, ps[1..], scale);
    }
  }

  /** A click on a layer (press, any number of small moves, release) leaves
      the layer list exactly as it was, and the drag state idle. */
  lemma ClickLeavesLayersInPlace(layers: seq<Layer>, i: int, start: Point, ps: seq<Point>, scale: real)
    requires 0 <= i < |layers| && scale > 0.0
    requires forall k :: 0 <= k < |ps| ==> !BeyondThreshold(start, ps[k])
    ensures var layerPos := Point(layers[i].x, layers[i].y);
      var d := PointerDown(Idle, i, Some(0), start, layerPos, scale);
      PointerUp(HeldMoves(Interaction(d, layers), ps, scale)) == Interaction(Idle, layers)
  {
    var layerPos := Point(layers[i].x, layers[i].y);
    var d := PointerDown(Idle, i, Some(0), start, layerPos, scale);
    SmallMovesChangeNothing(Interaction(d, layers), ps, scale);
    assert PlacedAt(layers, i, layerPos) == layers;
  }

  /** A move seen with the primary button no longer held ends the drag as a
      release would. */
  lemma ReleasedButtonEndsDrag(s: Interaction, buttons: int, p: Option<Point>, scale: real)
    requires scale > 0.0 && s.drag.dragging.Some? && buttons != 1
    ensures PointerMove(s, Some(buttons), p, scale).drag == Idle
  {
  }

  /** Clicking the stage while a drag is armed never deselects. */
  lemma NoDeselectWhileDragging(d: DragState, clickedOnEmpty: bool, hasDeselect: bool)
    requires d.dragging.Some?
    ensures !StageClick(d, clickedOnEmpty, hasDeselect)
  {
  }

  // ---------------------------------------------------------------------------
  // The hook's state

  class DragController {
    var draggingLayerIndex: Option<int>
    var dragStartPos: Point
    var layerStartPos: Point
    var dragOffset: Point
    var isDragging: bool

    function Snapshot(): DragState
      reads this
    {
      DragState(draggingLayerIndex, dragStartPos, layerStartPos, dragOffset, isDragging)
    }

    constructor ()
      ensures Snapshot() == Idle
    {
      draggingLayerIndex := None;
      dragStartPos, layerStartPos, dragOffset := Origin, Origin, Origin;
      isDragging := false;
    }

    method LayerPointerDown(index: int, button: Option<int>, pointer: Point, layerPos: Point, scale: real)
      requires scale > 0.0
      modifies this
      ensures Snapshot() == PointerDown(old(Snapshot()), index, button, pointer, layerPos, scale)
    {
      if button.Some? && button.value != 0 {
        return;
      }
      draggingLayerIndex := Some(index);
      dragStartPos := pointer;
      layerStartPos := layerPos;
      isDragging := false;
      dragOffset := Point(pointer.x / scale - layerPos.x, pointer.y / scale - layerPos.y);
    }

    method StagePointerUp(store: LayerStore)
      requires store.Valid()
      modifies this, store
      ensures store.Valid()
      ensures var r := PointerUp(Interaction(old(Snapshot()), old(store.layers)));
        Snapshot() == r.drag && store.Snapshot() == old(store.Snapshot()).(layers := r.layers)
    {
      if draggingLayerIndex.None? {
        return;
      }
      var i := draggingLayerIndex.value;
      if !isDragging && 0 <= i < |store.layers| {
        store.layers := PlacedAt(store.layers, i, layerStartPos);
      }
      draggingLayerIndex := None;
      dragStartPos, layerStartPos, dragOffset := Origin, Origin, Origin;
      isDragging := false;
    }

    method StagePointerMove(store: LayerStore, buttons: Option<int>, pointer: Option<Point>, scale: real)
      requires store.Valid() && scale > 0.0
      modifies this, store
      ensures store.Valid()
      ensures var r := PointerMove(Interaction(old(Snapshot()), old(store.layers)), buttons, pointer, scale);
        Snapshot() == r.drag && store.Snapshot() == old(store.Snapshot()).(layers := r.layers)
    {
      if draggingLayerIndex.None? {
        return;
      }
      if buttons.Some? && buttons.value != 1 {
        StagePointerUp(store);
        return;
      }
      if pointer.None? {
        return;
      }
      var i := draggingLayerIndex.value;
      if !(0 <= i < |store.layers|) {
        return;
      }
      var p := pointer.value;
      if BeyondThreshold(dragStartPos, p) {
        isDragging := true;
        var target := Point(p.x / scale - dragOffset.x, p.y / scale - dragOffset.y);
        store.layers := PlacedAt(store.layers, i, target);
      }
    }

    method StageClicked(store: LayerStore, clickedOnEmpty: bool, hasDeselect: bool)
      requires store.Valid()
      modifies store
      ensures store.Valid()
      ensures StageClick(Snapshot(), clickedOnEmpty, hasDeselect) ==>
        store.Snapshot() == old(store.Snapshot()).(selection := NoSelection)
      ensures !StageClick(Snapshot(), clickedOnEmpty, hasDeselect) ==>
        store.Snapshot() == old(store.Snapshot())
    {
      if draggingLayerIndex.Some? {
        return;
      }
      if clickedOnEmpty && hasDeselect {
        store.Deselect();
      }
    }
  }
}
