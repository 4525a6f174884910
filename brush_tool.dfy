/** The selection-tool state machine of `useBrushTool`: brush, polygon and
    rectangle drawing under the normal / add / subtract modes, the committed
    path buffers, and the list of paths that confirm hands to the rasteriser. */
module BrushTool {
  import opened Common

  datatype Tool = Brush | Polygon | Rectangle
  datatype Mode = Normal | Add | Subtract

  /** Which committed buffer `handleRemovePath` addresses: 'main', 'add' or 'subtract'. */
  datatype PathKind = Main | AddList | SubtractList

  /** The committed selection: the primary path (`brushPath`), the add paths
      and the subtract paths. */
  datatype Committed = Committed(primary: Path, adds: seq<Path>, subtracts: seq<Path>)

  /** Everything the hook keeps between events. `engaged` is `isBrushMode`. */
  datatype ToolState = ToolState(
    engaged: bool,
    tool: Tool,
    mode: Mode,
    committed: Committed,
    current: Path,
    polygon: Path,
    closed: bool,
    rectStart: Option<Point>,
    rectEnd: Option<Point>,
    drawingRect: bool)

  /** One entry of the list that confirm rasterises: the tool tag decides
      between a stroke ('brush') and a filled closed outline. */
  datatype DrawItem = DrawItem(kind: Tool, path: Path)

  /** What `getCurrentDrawingPaths` reports for on-top rendering. */
  datatype Preview =
    | BrushPreview(path: Path, mode: Mode)
    | PolygonPreview(points: Path)
    | RectanglePreview(start: Point, end: Point, drawing: bool)

  /** What confirm does: report `{masks: []}` without a request, or rasterise
      and send the collected paths. */
  datatype ConfirmOutcome = NoMasks | Rasterize(items: seq<DrawItem>)

  const Empty := Committed([], [], [])

  const Initial := ToolState(false, Brush, Normal, Empty, [], [], false, None, None, false)

  /** Auto-close radius of the polygon tool, squared (distance < 15). */
  const CloseRadiusSquared: real := 225.0

  // ---------------------------------------------------------------------------
  // Committed paths

  /** `paths.filter(p => p && p.length > 0)`. */
  function NonEmpty(ps: seq<Path>): (r: seq<Path>)
    ensures |r| <= |ps|
  {
    if |ps| == 0 then []
    else (if |ps[0]| > 0 then [ps[0]] else []) + NonEmpty(ps[1..])
  }

  lemma {:induction false} NonEmptyMembers(ps: seq<Path>)
    ensures forall p :: p in NonEmpty(ps) <==> p in ps && |p| > 0
  {
    if |ps| > 0 {
      NonEmptyMembers(ps[1..]);
      assert forall p :: p in ps <==> p == ps[0] || p in ps[1..];
    }
  }

  lemma {:induction false} NonEmptyAppend(a: seq<Path>, b: seq<Path>)
    ensures NonEmpty(a + b) == NonEmpty(a) + NonEmpty(b)
  {
    if |a| == 0 {
      assert a + b == b;
    } else {
      assert (a + b)[1..] == a[1..] + b;
      NonEmptyAppend(a[1..], b);
    }
  }

  /** The selected region as confirm sees it: the primary path, then each add
      path, empty paths dropped. */
  function Region(c: Committed): seq<Path> {
    NonEmpty([c.primary] + c.adds)
  }

  /** `erasePathFromExisting`: the code erases everything, whatever the
      erasing path and the existing paths are. */
  function EraseFromExisting(erase: Path, existing: seq<Path>): Path {
    []
  }

  /** The commit rule shared by path completion and rectangle end. */
  function Commit(mode: Mode, c: Committed, path: Path): (r: Committed)
    requires |path| > 0
    ensures r.subtracts == match mode
      case Normal => []
      case Add => c.subtracts
      case Subtract => c.subtracts + [path]
    ensures mode == Normal ==> r.primary == path && r.adds == []
    ensures mode == Add ==> r.primary == (if |c.primary| == 0 then path else c.primary)
    ensures mode == Add ==> r.adds == (if |c.primary| == 0 then c.adds else c.adds + [path])
    ensures mode == Subtract ==> r.adds == (if |Region(c)| > 0 then [] else c.adds)
    ensures mode == Subtract ==> r.primary == (if |Region(c)| > 0 then [] else c.primary)
  {
    match mode
    case Normal => Committed(path, [], [])
    case Add =>
      if |c.primary| == 0 then c.(primary := path)
      else c.(adds := c.adds + [path])
    case Subtract =>
      var existing := NonEmpty([c.primary] + c.adds);
      // Either way the code replaces the primary path by what the erasure
      // left (the erased path if non-empty, else []), i.e. by `erased`.
      var kept :=
        if |existing| > 0 then Committed(EraseFromExisting(path, existing), [], c.subtracts)
        else c;
      kept.(subtracts := kept.subtracts + [path])
  }

  /** In add mode the new path joins the region (as a multiset: a path that
      becomes the primary goes in front of left-over add paths). */
  lemma CommitAddJoinsRegion(c: Committed, path: Path)
    requires |path| > 0
    ensures multiset(Region(Commit(Add, c, path))) == multiset(Region(c)) + multiset{path}
  {
    var r := Commit(Add, c, path);
    if |c.primary| == 0 {
      assert r.primary == path && r.adds == c.adds;
      NonEmptyAppend([path], c.adds);
      NonEmptyAppend([c.primary], c.adds);
      assert NonEmpty([path]) == [path];
      assert NonEmpty([c.primary]) == [];
      assert Region(r) == [path] + NonEmpty(c.adds);
      assert Region(c) == NonEmpty(c.adds);
    } else {
      CommitAddAppends(c, path);
    }
  }

  /** Once a primary path exists (or nothing is selected), add mode appends
      the new path to the end of the region. */
  lemma CommitAddAppends(c: Committed, path: Path)
    requires |path| > 0
    requires |c.primary| > 0 || Region(c) == []
    ensures Region(Commit(Add, c, path)) == Region(c) + [path]
  {
    var r := Commit(Add, c, path);
    assert NonEmpty([path]) == [path];
    if |c.primary| == 0 {
      assert r.primary == path && r.adds == c.adds;
      NonEmptyAppend([path], c.adds);
      NonEmptyAppend([c.primary], c.adds);
      assert NonEmpty([c.primary]) == [];
      assert NonEmpty(c.adds) == [];
    } else {
      assert r.primary == c.primary && r.adds == c.adds + [path];
      assert [c.primary] + (c.adds + [path]) == ([c.primary] + c.adds) + [path];
      NonEmptyAppend([c.primary] + c.adds, [path]);
    }
  }

  /** Normal mode leaves exactly the new path selected; subtract mode leaves
      nothing selected, whatever was there before. */
  lemma CommitRegion(mode: Mode, c: Committed, path: Path)
    requires |path| > 0
    ensures mode == Normal ==> Region(Commit(mode, c, path)) == [path]
    ensures mode == Subtract ==> Region(Commit(mode, c, path)) == []
  {
    var r := Commit(mode, c, path);
    if mode == Normal {
      assert [r.primary] + r.adds == [path];
    } else if mode == Subtract && |Region(c)| > 0 {
      assert [r.primary] + r.adds == [[]];
    }
  }

  /** Committing each path of `ps` in turn under one mode. */
  function CommitAll(mode: Mode, c: Committed, ps: seq<Path>): Committed
    requires forall p :: p in ps ==> |p| > 0
    decreases |ps|
  {
    if |ps| == 0 then c else CommitAll(mode, Commit(mode, c, ps[0]), ps[1..])
  }

  /** Starting from an empty selection, add mode keeps every path, in the
      order drawn: the first becomes the primary path, the others add paths. */
  lemma {:induction false} AddModeKeepsEveryPath(c: Committed, ps: seq<Path>)
    requires forall p :: p in ps ==> |p| > 0
    requires |c.primary| > 0 || Region(c) == []
    ensures Region(CommitAll(Add, c, ps)) == Region(c) + ps
    decreases |ps|
  {
    if |ps| > 0 {
      var c' := Commit(Add, c, ps[0]);
      CommitAddAppends(c, ps[0]);
      assert |c'.primary| > 0;
      AddModeKeepsEveryPath(c', ps[1..]);
      assert [ps[0]] + ps[1..] == ps;
      assert Region(c) + [ps[0]] + ps[1..] == Region(c) + ([ps[0]] + ps[1..]);
    }
  }

  // ---------------------------------------------------------------------------
  // Transitions

  /** `handlePathComplete`. */
  function Completed(s: ToolState): (r: ToolState)
    ensures |s.current| == 0 ==> r == s
    ensures |s.current| > 0 ==> r == s.(committed := Commit(s.mode, s.committed, s.current), current := [])
    ensures r.current == [] || r == s
  {
    if |s.current| == 0 then s
    else s.(committed := Commit(s.mode, s.committed, s.current), current := [])
  }

  /** `setBrushModeType`: a pending non-empty path is committed under the old
      mode before the mode changes. */
  function ModeSet(s: ToolState, m: Mode): (r: ToolState)
    ensures r.mode == m && r.current == []
    ensures r.committed == if |s.current| > 0 then Commit(s.mode, s.committed, s.current) else s.committed
    ensures r.engaged == s.engaged && r.tool == s.tool && r.polygon == s.polygon && r.closed == s.closed
    ensures r.rectStart == s.rectStart && r.rectEnd == s.rectEnd && r.drawingRect == s.drawingRect
  {
    var s1 := if |s.current| > 0 then Completed(s) else s;
    s1.(mode := m)
  }

  /** `setToolTypeType`: discards every in-progress drawing, keeps the
      committed paths and the mode. */
  function ToolSet(s: ToolState, t: Tool): (r: ToolState)
    ensures r.tool == t && r.committed == s.committed && r.mode == s.mode && r.engaged == s.engaged
    ensures r.current == [] && r.polygon == [] && !r.closed
    ensures r.rectStart == None && r.rectEnd == None && !r.drawingRect
  {
    s.(tool := t, current := [], polygon := [], closed := false,
       rectStart := None, rectEnd := None, drawingRect := false)
  }

  /** `handleRemovePath`: drops the primary path, or the add / subtract path at
      `index` (an index outside the list, or none at all, changes nothing). */
  function PathRemoved(s: ToolState, kind: PathKind, index: Option<int>): (r: ToolState)
    ensures r == s.(committed := r.committed)
    ensures r.committed.primary == if kind == Main then [] else s.committed.primary
    ensures r.committed.adds ==
      if kind == AddList && index.Some? then Without(s.committed.adds, index.value) else s.committed.adds
    ensures r.committed.subtracts ==
      if kind == SubtractList && index.Some? then Without(s.committed.subtracts, index.value) else s.committed.subtracts
  {
    var c := s.committed;
    match kind
    case Main => s.(committed := c.(primary := []))
    case AddList =>
      if index.Some? then s.(committed := c.(adds := Without(c.adds, index.value))) else s
    case SubtractList =>
      if index.Some? then s.(committed := c.(subtracts := Without(c.subtracts, index.value))) else s
  }

  function SquaredDistance(a: Point, b: Point): real {
    (a.x - b.x) * (a.x - b.x) + (a.y - b.y) * (a.y - b.y)
  }

  /** `handlePolygonPointAdd`. */
  function PolygonClicked(s: ToolState, p: Point): (r: ToolState)
    ensures r == s.(polygon := r.polygon, closed := r.closed)
    ensures s.closed ==> r.polygon == [p] && !r.closed
    ensures !s.closed ==> r.polygon == s.polygon + [p]
    ensures !s.closed ==> (r.closed <==> |r.polygon| >= 3 && SquaredDistance(p, r.polygon[0]) < CloseRadiusSquared)
  {
    if s.closed then s.(polygon := [p], closed := false)
    else
      var points := s.polygon + [p];
      if |points| >= 3 && SquaredDistance(p, points[0]) < CloseRadiusSquared then
        s.(polygon := points, closed := true)
      else s.(polygon := points)
  }

  /** A polygon of three vertices whose fourth click lands within the radius
      of vertex 0 closes, and the closing vertex stays in the list. */
  lemma FourthClickNearStartCloses(s: ToolState, p: Point)
    requires !s.closed && |s.polygon| == 3
    requires SquaredDistance(p, s.polygon[0]) < CloseRadiusSquared
    ensures PolygonClicked(s, p).closed
    ensures PolygonClicked(s, p).polygon == s.polygon + [p]
  {
    assert (s.polygon + [p])[0] == s.polygon[0];
  }

  /** After a close, the next click starts a new open polygon. */
  lemma ClickAfterCloseRestarts(s: ToolState, p: Point, q: Point)
    requires s.closed
    ensures var r := PolygonClicked(PolygonClicked(s, p), q);
      r.polygon == [p, q] && !r.closed
  {
  }

  /** The four corners of the axis-aligned rectangle spanned by `a` and `b`. */
  function Corners(a: Point, b: Point): (r: Path)
    ensures |r| == 4 && r[0] == a && r[2] == b
    ensures r[0].y == r[1].y && r[1].x == r[2].x && r[2].y == r[3].y && r[3].x == r[0].x
  {
    [Point(a.x, a.y), Point(b.x, a.y), Point(b.x, b.y), Point(a.x, b.y)]
  }

  /** `handleRectangleStart`. */
  function RectangleStarted(s: ToolState, p: Point): ToolState {
    s.(rectStart := Some(p), rectEnd := Some(p), drawingRect := true)
  }

  /** `handleRectangleUpdate`: ignored unless a rectangle is being drawn. */
  function RectangleUpdated(s: ToolState, p: Point): ToolState {
    if s.drawingRect then s.(rectEnd := Some(p)) else s
  }

  /** `handleRectangleEnd`: without a start point nothing happens; otherwise
      the rectangle's corners are committed under the current mode and the
      start and end corners are kept for display. */
  function RectangleEnded(s: ToolState, p: Point): ToolState {
    match s.rectStart
    case None => s
    case Some(start) =>
      s.(rectEnd := Some(p), drawingRect := false,
         committed := Commit(s.mode, s.committed, Corners(start, p)))
  }

  /** A rectangle dragged from `a` over `q` to `b` replaces the selection
      with its four corners in normal mode, leaves nothing selected in
      subtract mode, and keeps both corners for display. */
  lemma RectangleDragSelects(s: ToolState, a: Point, q: Point, b: Point)
    requires s.mode != Add
    ensures var r := RectangleEnded(RectangleUpdated(RectangleStarted(s, a), q), b);
      && (s.mode == Normal ==> Region(r.committed) == [Corners(a, b)])
      && (s.mode == Subtract ==> Region(r.committed) == [])
      && r.rectStart == Some(a) && r.rectEnd == Some(b) && !r.drawingRect
      && r.tool == s.tool && r.mode == s.mode && r.current == s.current
  {
    var s1 := RectangleUpdated(RectangleStarted(s, a), q);
    assert s1.rectStart == Some(a) && s1.committed == s.committed;
    CommitRegion(s.mode, s.committed, Corners(a, b));
  }

  /** `handleBrushPathUpdate`. */
  function CurrentPathSet(s: ToolState, path: Path): ToolState {
    s.(current := path)
  }

  /** The effect on a newly loaded base image: engage the tool in normal mode. */
  function ImageLoaded(s: ToolState): ToolState {
    s.(engaged := true, mode := Normal)
  }

  /** The effect on non-empty segmentation results: disengage and clear every
      buffer; the tool choice is kept. */
  function SegmentationArrived(s: ToolState): (r: ToolState)
    ensures !r.engaged && r.mode == Normal && r.tool == s.tool
    ensures r.committed == Empty && r.current == [] && r.polygon == [] && !r.closed
    ensures r.rectStart == None && r.rectEnd == None && !r.drawingRect
  {
    ToolState(false, s.tool, Normal, Empty, [], [], false, None, None, false)
  }

  // ---------------------------------------------------------------------------
  // Queries

  /** `getCurrentDrawingPaths`: the in-progress drawing of the current tool. */
  function CurrentDrawingPaths(s: ToolState): (r: seq<Preview>)
    ensures |r| <= 1
  {
    (if s.tool == Brush && |s.current| > 0 then [BrushPreview(s.current, s.mode)] else [])
    + (if s.tool == Polygon && |s.polygon| > 0 && !s.closed then [PolygonPreview(s.polygon)] else [])
    + (if s.tool == Rectangle && s.rectStart.Some? && s.rectEnd.Some?
       then [RectanglePreview(s.rectStart.value, s.rectEnd.value, s.drawingRect)] else [])
  }

  /** `hasCurrentDrawing`. */
  function HasCurrentDrawing(s: ToolState): (r: bool)
    ensures r <==> |CurrentDrawingPaths(s)| > 0
  {
    if s.tool == Brush && |s.current| > 0 then true
    else if s.tool == Polygon && |s.polygon| > 0 && !s.closed then true
    else if s.tool == Rectangle && s.rectStart.Some? && s.rectEnd.Some? then true
    else false
  }

  /** Step 1 of confirm: at most one in-progress item, chosen by the tool. */
  function InProgress(s: ToolState): (r: seq<DrawItem>)
    ensures |r| <= 1
    ensures |r| == 1 ==> r[0].kind == s.tool && |r[0].path| > 0
    ensures s.tool == Brush ==> (|r| == 1 <==> |s.current| > 0)
    ensures s.tool == Polygon ==> (|r| == 1 <==> s.closed && |s.polygon| >= 3)
    ensures s.tool == Rectangle ==> (|r| == 1 <==> s.rectStart.Some? && s.rectEnd.Some?)
  {
    if s.tool == Brush && |s.current| > 0 then [DrawItem(Brush, s.current)]
    else if s.tool == Polygon && |s.polygon| >= 3 && s.closed then [DrawItem(Polygon, s.polygon)]
    else if s.tool == Rectangle && s.rectStart.Some? && s.rectEnd.Some? then
      [DrawItem(Rectangle, Corners(s.rectStart.value, s.rectEnd.value))]
    else []
  }

  /** What confirm sends as in progress against what is previewed: the brush
      sends the previewed stroke and the rectangle the corners of the previewed
      rectangle, exactly when there is a preview; a polygon is previewed only
      while open and sent only once closed, so never both. */
  lemma InProgressMatchesPreview(s: ToolState)
    ensures s.tool != Polygon ==> (|InProgress(s)| == 1 <==> HasCurrentDrawing(s))
    ensures s.tool == Brush && HasCurrentDrawing(s) ==>
      CurrentDrawingPaths(s) == [BrushPreview(s.current, s.mode)] && InProgress(s)[0].path == s.current
    ensures s.tool == Rectangle && HasCurrentDrawing(s) ==>
      var pv := CurrentDrawingPaths(s)[0];
      pv.RectanglePreview? && InProgress(s)[0].path == Corners(pv.start, pv.end)
    ensures s.tool == Polygon ==> !(|InProgress(s)| == 1 && HasCurrentDrawing(s))
    ensures s.tool == Polygon ==> (HasCurrentDrawing(s) <==> |s.polygon| > 0 && !s.closed)
  {
  }

  /** Committed paths are handed over as brush strokes, whatever tool drew them. */
  function AsStrokes(ps: seq<Path>): (r: seq<DrawItem>)
    ensures |r| == |ps|
    ensures forall i :: 0 <= i < |ps| ==> r[i] == DrawItem(Brush, ps[i])
  {
    seq(|ps|, i requires 0 <= i < |ps| => DrawItem(Brush, ps[i]))
  }

  lemma AsStrokesAppend(a: seq<Path>, b: seq<Path>)
    ensures AsStrokes(a + b) == AsStrokes(a) + AsStrokes(b)
  {
  }

  /** Filtering and tagging one more path. */
  lemma StrokesStep(ps: seq<Path>, p: Path)
    ensures AsStrokes(NonEmpty(ps + [p])) ==
      AsStrokes(NonEmpty(ps)) + (if |p| > 0 then [DrawItem(Brush, p)] else [])
  {
    NonEmptyAppend(ps, [p]);
    assert [p][1..] == [];
    assert NonEmpty([p]) == (if |p| > 0 then [p] else []);
    AsStrokesAppend(NonEmpty(ps), NonEmpty([p]));
  }

  /** The list confirm rasterises: the in-progress item, then the selected
      region in order. Subtract paths take no part. */
  function Collected(s: ToolState): seq<DrawItem> {
    InProgress(s) + AsStrokes(Region(s.committed))
  }

  /** The confirm button's enabling condition (the `hasBrushPath` prop). */
  predicate HasSelectionPath(s: ToolState) {
    || |s.committed.primary| > 0
    || |s.current| > 0
    || |s.committed.adds| > 0
    || |s.polygon| > 0
    || (s.rectStart.Some? && s.rectEnd.Some?)
  }

  /** `handleConfirmBrush` up to the rasterisation step. */
  function Confirm(hasFile: bool, width: nat, height: nat, s: ToolState): (r: ConfirmOutcome)
    ensures r.Rasterize? ==> hasFile && width > 0 && height > 0
    ensures r.Rasterize? ==> r.items == Collected(s) && |r.items| > 0
    ensures r.NoMasks? <==> !hasFile || width == 0 || height == 0 || Collected(s) == []
  {
    if !hasFile || width == 0 || height == 0 then NoMasks
    else
      var items := Collected(s);
      if |items| == 0 then NoMasks else Rasterize(items)
  }

  /** Switching tool discards whatever was being drawn: nothing is previewed
      and nothing in progress would be sent. */
  lemma ToolSwitchDiscardsDrawing(s: ToolState, t: Tool)
    ensures !HasCurrentDrawing(ToolSet(s, t)) && InProgress(ToolSet(s, t)) == []
  {
  }

  /** New segmentation results leave nothing to send and hide the confirm
      button. */
  lemma SegmentationClearsSelection(s: ToolState)
    ensures Collected(SegmentationArrived(s)) == [] && !HasSelectionPath(SegmentationArrived(s))
  {
  }

  /** Whatever the subtract paths are, confirm sends the same list. */
  lemma ConfirmIgnoresSubtractPaths(hasFile: bool, width: nat, height: nat, s: ToolState, subtracts: seq<Path>)
    ensures Confirm(hasFile, width, height, s.(committed := s.committed.(subtracts := subtracts)))
         == Confirm(hasFile, width, height, s)
  {
    assert Region(s.committed.(subtracts := subtracts)) == Region(s.committed);
  }

  /** Whenever confirm would rasterise something, the confirm button is
      enabled. */
  lemma ConfirmImpliesButtonShown(hasFile: bool, width: nat, height: nat, s: ToolState)
    requires Confirm(hasFile, width, height, s).Rasterize?
    ensures HasSelectionPath(s)
  {
    var c := s.committed;
    if |Region(c)| > 0 && |c.primary| == 0 {
      NonEmptyAppend([c.primary], c.adds);
      assert NonEmpty([c.primary]) == [];
      assert |c.adds| > 0;
    }
  }

  /** The converse fails: an open polygon enables the button, yet confirm
      finds nothing to send. */
  lemma ButtonShownWithoutPaths(p: Point)
    ensures var s := Initial.(engaged := true, tool := Polygon, polygon := [p]);
      HasSelectionPath(s) && Confirm(true, 1, 1, s) == NoMasks
  {
    var s := Initial.(engaged := true, tool := Polygon, polygon := [p]);
    assert Region(s.committed) == [];
  }

  /** A rectangle finished in normal mode and confirmed with the rectangle
      tool still active is sent twice: once as the in-progress rectangle and
      once as the committed primary path, tagged as a stroke. */
  lemma FinishedRectangleSentTwice(s: ToolState, p: Point)
    requires s.tool == Rectangle && s.mode == Normal && s.rectStart.Some?
    ensures var corners := Corners(s.rectStart.value, p);
      Collected(RectangleEnded(s, p)) == [DrawItem(Rectangle, corners), DrawItem(Brush, corners)]
  {
    var corners := Corners(s.rectStart.value, p);
    assert Region(RectangleEnded(s, p).committed) == [corners];
  }

  // ---------------------------------------------------------------------------
  // The hook's state, updated in place by its handlers

  class BrushToolState {
    var isBrushMode: bool
    var toolType: Tool
    var brushMode: Mode
    var brushPath: Path
    var addPaths: seq<Path>
    var subtractPaths: seq<Path>
    var currentPath: Path
    var polygonPoints: Path
    var isPolygonClosed: bool
    var rectangleStart: Option<Point>
    var rectangleEnd: Option<Point>
    var isDrawingRectangle: bool

    function Snapshot(): ToolState
      reads this
    {
      ToolState(isBrushMode, toolType, brushMode, Committed(brushPath, addPaths, subtractPaths),
                currentPath, polygonPoints, isPolygonClosed, rectangleStart, rectangleEnd,
                isDrawingRectangle)
    }

    constructor ()
      ensures Snapshot() == Initial
    {
      isBrushMode, toolType, brushMode := false, Brush, Normal;
      brushPath, addPaths, subtractPaths := [], [], [];
      currentPath, polygonPoints, isPolygonClosed := [], [], false;
      rectangleStart, rectangleEnd, isDrawingRectangle := None, None, false;
    }

    /** Commits `path` into the three committed buffers under the current mode. */
    method CommitPath(path: Path)
      requires |path| > 0
      modifies this
      ensures Snapshot() == old(Snapshot()).(committed := Commit(brushMode, old(Snapshot()).committed, path))
    {
      if brushMode == Normal {
        brushPath, addPaths, subtractPaths := path, [], [];
      } else if brushMode == Add {
        if |brushPath| == 0 {
          brushPath := path;
        } else {
          addPaths := addPaths + [path];
        }
      } else {
        var existing := NonEmpty([brushPath] + addPaths);
        if |existing| > 0 {
          var erased := EraseFromExisting(path, existing);
          brushPath, addPaths := erased, [];
        }
        subtractPaths := subtractPaths + [path];
      }
    }

    method CompletePath()
      modifies this
      ensures Snapshot() == Completed(old(Snapshot()))
    {
      var path := currentPath;
      if |path| == 0 {
        return;
      }
      CommitPath(path);
      currentPath := [];
    }

    method SetBrushMode(mode: Mode)
      modifies this
      ensures Snapshot() == ModeSet(old(Snapshot()), mode)
    {
      if |currentPath| > 0 {
        CompletePath();
      }
      brushMode := mode;
    }

    method SetToolType(tool: Tool)
      modifies this
      ensures Snapshot() == ToolSet(old(Snapshot()), tool)
    {
      toolType, currentPath, polygonPoints := tool, [], [];
      isPolygonClosed, rectangleStart, rectangleEnd, isDrawingRectangle := false, None, None, false;
      assert Snapshot() == ToolState(isBrushMode, tool, brushMode, old(Snapshot()).committed, [], [], false, None, None, false);
    }

    method RemovePath(kind: PathKind, index: Option<int>)
      modifies this
      ensures Snapshot() == PathRemoved(old(Snapshot()), kind, index)
    {
      if kind == Main {
        brushPath := [];
      } else if kind == AddList && index.Some? {
        addPaths := Without(addPaths, index.value);
      } else if kind == SubtractList && index.Some? {
        subtractPaths := Without(subtractPaths, index.value);
      }
    }

    method AddPolygonPoint(p: Point)
      modifies this
      ensures Snapshot() == PolygonClicked(old(Snapshot()), p)
    {
      if isPolygonClosed {
        isPolygonClosed := false;
        polygonPoints := [p];
        return;
      }
      var points := polygonPoints + [p];
      if |points| >= 3 && SquaredDistance(p, points[0]) < CloseRadiusSquared {
        isPolygonClosed := true;
      }
      polygonPoints := points;
    }

    method StartRectangle(p: Point)
      modifies this
      ensures Snapshot() == RectangleStarted(old(Snapshot()), p)
    {
      rectangleStart, rectangleEnd := Some(p), Some(p);
      isDrawingRectangle := true;
    }

    method UpdateRectangle(p: Point)
      modifies this
      ensures Snapshot() == RectangleUpdated(old(Snapshot()), p)
    {
      if isDrawingRectangle {
        rectangleEnd := Some(p);
      }
    }

    method EndRectangle(p: Point)
      modifies this
      ensures Snapshot() == RectangleEnded(old(Snapshot()), p)
    {
      if rectangleStart.Some? {
        var start := rectangleStart.value;
        rectangleEnd := Some(p);
        isDrawingRectangle := false;
        CommitPath(Corners(start, p));
      }
    }

    method UpdateBrushPath(path: Path)
      modifies this
      ensures Snapshot() == CurrentPathSet(old(Snapshot()), path)
    {
      currentPath := path;
    }

    method OnBaseImage()
      modifies this
      ensures Snapshot() == ImageLoaded(old(Snapshot()))
    {
      isBrushMode := true;
      brushMode := Normal;
    }

    method OnSegmentedMasks()
      modifies this
      ensures Snapshot() == SegmentationArrived(old(Snapshot()))
    {
      isBrushMode, brushMode := false, Normal;
      brushPath, addPaths, subtractPaths, currentPath, polygonPoints := [], [], [], [], [];
      isPolygonClosed, rectangleStart, rectangleEnd, isDrawingRectangle := false, None, None, false;
      assert Snapshot() == ToolState(false, toolType, Normal, Empty, [], [], false, None, None, false);
    }

    /** Step 1 of confirm: the in-progress item of the current tool, if any. */
    method InProgressItems() returns (items: seq<DrawItem>)
      ensures items == InProgress(Snapshot())
    {
      items := [];
      if toolType == Brush && |currentPath| > 0 {
        items := items + [DrawItem(Brush, currentPath)];
      } else if toolType == Polygon && |polygonPoints| >= 3 && isPolygonClosed {
        items := items + [DrawItem(Polygon, polygonPoints)];
      } else if toolType == Rectangle && rectangleStart.Some? && rectangleEnd.Some? {
        items := items + [DrawItem(Rectangle, Corners(rectangleStart.value, rectangleEnd.value))];
      }
    }

    /** Step 2 of confirm: the primary path, then every non-empty add path,
        pushed one by one. */
    method CommittedItems() returns (items: seq<DrawItem>)
      ensures items == AsStrokes(Region(Committed(brushPath, addPaths, subtractPaths)))
    {
      var primary, adds := brushPath, addPaths;
      items := if |primary| > 0 then [DrawItem(Brush, primary)] else [];
      StrokesStep([], primary);
      var i := 0;
      while i < |adds|
        invariant 0 <= i <= |adds|
        invariant items == AsStrokes(NonEmpty([primary] + adds[..i]))
      {
        var path := adds[i];
        assert [primary] + adds[..i + 1] == ([primary] + adds[..i]) + [path];
        StrokesStep([primary] + adds[..i], path);
        if |path| > 0 {
          items := items + [DrawItem(Brush, path)];
        }
        i := i + 1;
      }
      assert adds[..i] == adds;
    }

    /** Steps 1 and 2 of confirm: the list of paths to rasterise. */
    method CollectPaths() returns (items: seq<DrawItem>)
      ensures items == Collected(Snapshot())
    {
      var head := InProgressItems();
      var tail := CommittedItems();
      items := head + tail;
    }

    method ConfirmBrush(hasFile: bool, width: nat, height: nat) returns (outcome: ConfirmOutcome)
      ensures outcome == Confirm(hasFile, width, height, Snapshot())
    {
      if !hasFile || width == 0 || height == 0 {
        return NoMasks;
      }
      var items := CollectPaths();
      if |items| == 0 {
        return NoMasks;
      }
      outcome := Rasterize(items);
    }
  }
}
