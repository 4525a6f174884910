# layout_cut in Dafny

A model of the interactive core of layout_cut, a web tool that cuts a photo
into layers. The user uploads an image. They mark regions with a brush,
polygon or rectangle tool, and the back end segments the image into objects.
Each object becomes a layer that can be selected, dragged, resized, scaled,
rotated, hidden, deleted and merged on a Konva canvas.

One Dafny module per source file of the core:

| module | file | form |
|---|---|---|
| `Common` | — | shared `Option`, `Point`, index-filter helpers |
| `BrushTool` | `layout_cut/src/components/BrushTool.jsx` | state datatype + transition functions + class `BrushToolState` |
| `LayerManagement` | `layout_cut/src/hooks/useLayerManagement.js` | layer records, selection, pure list operations + class `LayerStore` |
| `CanvasInteraction` | `layout_cut/src/hooks/useCanvasInteraction.js` | drag state machine + class `DragController` |
| `LayerInitialization` | `layout_cut/src/hooks/useLayerInitialization.js` | layer construction + class `Workflow` |
| `ImageSize` | `layout_cut/src/hooks/useImageSize.js` | pure functions (the hook only computes) |
| `SegmentService` | `app.py` | pure bounding-box and cut-out functions + method `SegmentImage` |
| `KonvaCanvas` | `layout_cut/src/components/Canvas/KonvaCanvas.jsx` | transformer and selection-styling rules |

Each stateful hook is written in three parts:
- a datatype with the hook's state;
- a pure function per handler giving the new state;
- a class whose fields are the hook's `useState` and `useRef` variables. Each
  method updates the fields in place and promises
  `Snapshot() == Transition(old(Snapshot()), ...)`.

The lemmas are stated about the pure functions, so they hold for the class as
well.

JavaScript value rules are written out:
- `scaleX || 1` treats a missing or zero scale as 1.
- `rotation || 0` treats a missing rotation as 0.
- `width || imageSize.width` treats a zero width as the image width.
- `%` truncates its quotient toward zero (`Remainder360`).
- `Math.min(1000 / w, 800 / h, 1)` with `w == 0` divides to +Infinity, which
  never wins the minimum.

Where the source's own comments and names suggest one behaviour and the
code does another, the model follows the code:
- Subtract mode does not erase only the paths a stroke crosses.
  `erasePathFromExisting` always returns `[]`, so any subtract stroke clears
  the whole selected region (`CommitRegion`).
- A polygon that auto-closes is not committed to `brushPath`. It is only sent
  by confirm while the polygon tool is still active.
- Confirm tags committed paths as `'brush'` strokes, whatever tool drew them.
  A rectangle finished in normal mode is sent twice
  (`FinishedRectangleSentTwice`).
- Deleting a layer does not shift the primary selection index. Only the
  multi-select list is re-indexed (`DeleteKeepsPrimaryUnshifted`).
- The merged layer's bounds come from each layer's position and stored size
  only. Rotation and scale are ignored (`MergeBoundsTight`).

## Model

| member | source | states |
|---|---|---|
| `Common.Without` | layout_cut/src/hooks/useLayerManagement.js:113 | filtering out index `k` keeps every other element in order, and changes nothing when `k` is out of range |
| `Common.Remove` | layout_cut/src/hooks/useLayerManagement.js:53 | filtering out a value keeps exactly the other values, never lengthens the list, and keeps it duplicate-free |
| `BrushTool.NonEmptyMembers` | layout_cut/src/components/BrushTool.jsx:98 | the non-empty filter keeps exactly the non-empty paths |
| `BrushTool.Commit` | layout_cut/src/components/BrushTool.jsx:77-112 | normal mode replaces the selection by the path and clears the subtract list; add mode fills an empty primary path or else appends to the add paths; subtract mode clears primary and add paths when any region exists, and always records the path |
| `BrushTool.CommitAddJoinsRegion` | layout_cut/src/components/BrushTool.jsx:82-95 | in add mode the selected region gains exactly the new path (as a multiset) |
| `BrushTool.CommitAddAppends` | layout_cut/src/components/BrushTool.jsx:86-95 | once a primary path exists (or nothing is selected), add mode appends the path to the end of the region |
| `BrushTool.CommitRegion` | layout_cut/src/components/BrushTool.jsx:77-111 | after a commit, normal mode leaves exactly the new path selected and subtract mode leaves nothing selected |
| `BrushTool.AddModeKeepsEveryPath` | layout_cut/src/components/BrushTool.jsx:82-95 | any number of add-mode commits from an empty selection leave every path selected, in drawing order |
| `BrushTool.Completed` | layout_cut/src/components/BrushTool.jsx:73-116 | an empty current path changes nothing; otherwise the path is committed under the current mode and the current path cleared |
| `BrushTool.ModeSet` | layout_cut/src/components/BrushTool.jsx:119-126 | a pending path is committed under the old mode before the mode changes; the current path empties; the tool, the drawing flag and the polygon and rectangle drawings are untouched |
| `BrushTool.ToolSet` | layout_cut/src/components/BrushTool.jsx:129-140 | switching tool discards the current path, polygon and rectangle and keeps the committed paths and mode |
| `BrushTool.ToolSwitchDiscardsDrawing` | layout_cut/src/components/BrushTool.jsx:129-140 | after a tool switch nothing is previewed and nothing in progress would be sent |
| `BrushTool.PathRemoved` | layout_cut/src/components/BrushTool.jsx:143-151 | 'main' clears the primary path; 'add'/'subtract' with an index drop that entry; without an index nothing changes |
| `BrushTool.PolygonClicked` | layout_cut/src/components/BrushTool.jsx:154-180 | a click after a close starts a new polygon; otherwise the point is appended and the polygon closes iff it has 3+ points and the click is within 15 of the first |
| `BrushTool.FourthClickNearStartCloses` | layout_cut/src/components/BrushTool.jsx:162-175 | a fourth click near vertex 0 closes the polygon and keeps the click as a vertex |
| `BrushTool.ClickAfterCloseRestarts` | layout_cut/src/components/BrushTool.jsx:157-160 | two clicks after a close leave an open two-point polygon |
| `BrushTool.Corners` | layout_cut/src/components/BrushTool.jsx:204-209 | the rectangle path has four axis-aligned corners starting at the press point, with the release point opposite |
| `BrushTool.RectangleDragSelects` | layout_cut/src/components/BrushTool.jsx:183-245 | a start–update–end drag selects exactly its corners in normal mode, nothing in subtract mode, and keeps both corners for display |
| `BrushTool.SegmentationArrived` | layout_cut/src/components/BrushTool.jsx:30-46 | segmentation results disengage the tool, clear every buffer and reset the mode, keeping the tool choice |
| `BrushTool.SegmentationClearsSelection` | layout_cut/src/components/BrushTool.jsx:30-46 | after segmentation results nothing would be sent and the confirm button is disabled |
| `BrushTool.CurrentDrawingPaths` | layout_cut/src/components/BrushTool.jsx:260-292 | at most one in-progress preview exists, since the tool picks the branch |
| `BrushTool.HasCurrentDrawing` | layout_cut/src/components/BrushTool.jsx:298-303 | true iff `getCurrentDrawingPaths` is non-empty |
| `BrushTool.InProgressMatchesPreview` | layout_cut/src/components/BrushTool.jsx:260-333 | brush and rectangle send exactly the previewed item (the rectangle as the corners of its preview); a polygon is previewed only while open and sent only once closed, never both |
| `BrushTool.InProgress` | layout_cut/src/components/BrushTool.jsx:318-333 | at most one in-progress item, tagged with the current tool, with a non-empty path; the brush sends one iff a stroke is pending, the rectangle iff both corners are set, the polygon only once closed with at least three points |
| `BrushTool.AsStrokes` | layout_cut/src/components/BrushTool.jsx:336-345 | committed paths are handed over one-to-one, in order, as `'brush'` strokes |
| `BrushTool.StrokesStep` | layout_cut/src/components/BrushTool.jsx:340-344 | one more path adds one stroke when non-empty and none otherwise |
| `BrushTool.Confirm` | layout_cut/src/components/BrushTool.jsx:305-353 | rasterises iff a file and a non-zero size exist and the collected list is non-empty, and then sends exactly that list |
| `BrushTool.ConfirmIgnoresSubtractPaths` | layout_cut/src/components/BrushTool.jsx:316-345 | the subtract paths never affect what confirm sends |
| `BrushTool.ConfirmImpliesButtonShown` | layout_cut/src/App.jsx:429 | whenever confirm would send something, the confirm button is enabled |
| `BrushTool.ButtonShownWithoutPaths` | layout_cut/src/App.jsx:429 | the converse fails: an open polygon enables the button while confirm sends nothing |
| `BrushTool.FinishedRectangleSentTwice` | layout_cut/src/components/BrushTool.jsx:319-337 | a rectangle finished in normal mode is sent as the in-progress rectangle and again as the primary stroke |
| `BrushTool.BrushToolState.CommitPath` | layout_cut/src/components/BrushTool.jsx:77-112 | the three buffers become `Commit` of the old ones; nothing else changes |
| `BrushTool.BrushToolState.CompletePath` | layout_cut/src/components/BrushTool.jsx:73-116 | new state is `Completed` of the old |
| `BrushTool.BrushToolState.SetBrushMode` | layout_cut/src/components/BrushTool.jsx:119-126 | new state is `ModeSet` of the old |
| `BrushTool.BrushToolState.SetToolType` | layout_cut/src/components/BrushTool.jsx:129-140 | new state is `ToolSet` of the old |
| `BrushTool.BrushToolState.RemovePath` | layout_cut/src/components/BrushTool.jsx:143-151 | new state is `PathRemoved` of the old |
| `BrushTool.BrushToolState.AddPolygonPoint` | layout_cut/src/components/BrushTool.jsx:154-180 | new state is `PolygonClicked` of the old |
| `BrushTool.BrushToolState.StartRectangle` | layout_cut/src/components/BrushTool.jsx:183-187 | both corners become the press point and drawing starts |
| `BrushTool.BrushToolState.UpdateRectangle` | layout_cut/src/components/BrushTool.jsx:190-194 | the end corner follows the pointer only while drawing |
| `BrushTool.BrushToolState.EndRectangle` | layout_cut/src/components/BrushTool.jsx:197-245 | without a start nothing happens; otherwise the corners are committed under the mode and kept for display |
| `BrushTool.BrushToolState.UpdateBrushPath` | layout_cut/src/components/BrushTool.jsx:53-56 | the current path is replaced; nothing else changes |
| `BrushTool.BrushToolState.OnBaseImage` | layout_cut/src/components/BrushTool.jsx:22-27 | a loaded image engages the tool in normal mode |
| `BrushTool.BrushToolState.OnSegmentedMasks` | layout_cut/src/components/BrushTool.jsx:30-46 | new state is `SegmentationArrived` of the old |
| `BrushTool.BrushToolState.InProgressItems` | layout_cut/src/components/BrushTool.jsx:318-333 | returns `InProgress` of the current state |
| `BrushTool.BrushToolState.CommittedItems` | layout_cut/src/components/BrushTool.jsx:336-345 | the loop returns the selected region as strokes, in order |
| `BrushTool.BrushToolState.CollectPaths` | layout_cut/src/components/BrushTool.jsx:316-345 | returns `Collected` of the current state |
| `BrushTool.BrushToolState.ConfirmBrush` | layout_cut/src/components/BrushTool.jsx:305-353 | returns `Confirm` of the current state |
| `LayerManagement.ScaleOrOne` | layout_cut/src/hooks/useLayerManagement.js:124-125 | a missing or zero scale reads as 1; any other value is kept |
| `LayerManagement.RotationOrZero` | layout_cut/src/hooks/useLayerManagement.js:140 | a missing rotation reads as 0 |
| `LayerManagement.ExtentOr` | layout_cut/src/hooks/useLayerManagement.js:184-185 | a zero extent reads as the image's extent |
| `LayerManagement.Clicked` | layout_cut/src/hooks/useLayerManagement.js:43-67 | a plain click selects exactly the layer; a ctrl-click toggles its membership, appends when new, clears the primary index iff it removed the sole entry, and keeps the list duplicate-free |
| `LayerManagement.Reindexed` | layout_cut/src/hooks/useLayerManagement.js:118 | after deleting `k`, every surviving index appears shifted down when above `k`, and nothing else appears |
| `LayerManagement.ReindexedDistinct` | layout_cut/src/hooks/useLayerManagement.js:118 | re-indexing keeps the list duplicate-free |
| `LayerManagement.ReindexedInRange` | layout_cut/src/hooks/useLayerManagement.js:118 | re-indexing after deleting an existing layer keeps every index inside the shorter list |
| `LayerManagement.RemoveInRange` | layout_cut/src/hooks/useLayerManagement.js:53 | filtering keeps indices in range |
| `LayerManagement.ReindexExample` | layout_cut/src/hooks/useLayerManagement.js:118 | deleting layer 1 turns selection `[1, 3, 4]` into `[2, 3]` |
| `LayerManagement.SelectionAfterDelete` | layout_cut/src/hooks/useLayerManagement.js:115-118 | the primary index is cleared only when it was the deleted layer; the list is re-indexed |
| `LayerManagement.VisibilityToggled` | layout_cut/src/hooks/useLayerManagement.js:106-110 | flips the visibility of layer `i` only |
| `LayerManagement.ToggleTwiceRestores` | layout_cut/src/hooks/useLayerManagement.js:106-110 | toggling twice restores the list |
| `LayerManagement.ClampScale` | layout_cut/src/hooks/useLayerManagement.js:126-127 | the result lies in [0.1, 3], is the input when already inside, and the nearer bound otherwise |
| `LayerManagement.Scaled` | layout_cut/src/hooks/useLayerManagement.js:122-135 | both axes of layer `i` become clamp(current-or-1 + delta); other layers and fields are unchanged |
| `LayerManagement.ScaleStepsReachMax` | layout_cut/src/hooks/useLayerManagement.js:126-127 | enough positive steps end exactly at 3 |
| `LayerManagement.ScaleStepsReachMin` | layout_cut/src/hooks/useLayerManagement.js:126-127 | enough negative steps end exactly at 0.1 |
| `LayerManagement.FortyScaleSteps` | layout_cut/src/hooks/useLayerManagement.js:122-135 | forty steps of ±0.1 from 1 stop at 3 and at 0.1 |
| `LayerManagement.Remainder360` | layout_cut/src/hooks/useLayerManagement.js:141 | the result lies strictly between -360 and 360, has the dividend's sign, differs from it by a whole multiple of 360, and is the input when already in range |
| `LayerManagement.Rotated` | layout_cut/src/hooks/useLayerManagement.js:138-148 | layer `i`'s rotation becomes (current-or-0 + delta) % 360; nothing else changes |
| `LayerManagement.Transformed` | layout_cut/src/hooks/useLayerManagement.js:76-104 | layer `i` takes the node's position, scales and rotation; nothing else changes |
| `LayerManagement.MinOf` | layout_cut/src/hooks/useLayerManagement.js:182-183 | `Math.min` of a non-empty list is a member below every element |
| `LayerManagement.MaxOf` | layout_cut/src/hooks/useLayerManagement.js:184-185 | `Math.max` of a non-empty list is a member above every element |
| `LayerManagement.MergeBoundsTight` | layout_cut/src/hooks/useLayerManagement.js:182-187 | the merge box contains every selected layer's box, and each edge is attained by some selected layer |
| `LayerManagement.UnselectedLength` | layout_cut/src/hooks/useLayerManagement.js:238 | filtering out selected indices removes exactly the selected positions in range |
| `LayerManagement.MergedLength` | layout_cut/src/hooks/useLayerManagement.js:238 | filtering out k distinct in-range indices leaves n - k entries |
| `LayerManagement.Merged` | layout_cut/src/hooks/useLayerManagement.js:150-270 | fewer than two selected layers, a failed load or a selected index outside the list changes nothing; otherwise the merged layer and record go first, the unselected ones follow in order, and the selection becomes layer 0 |
| `LayerManagement.MergeResult` | layout_cut/src/hooks/useLayerManagement.js:238-269 | a successful merge of k layers out of n leaves n - k + 1 layers, the merged one first and spanning the union box; the merged result record describes the same box, and layers and results stay the same length |
| `LayerManagement.Deleted` | layout_cut/src/hooks/useLayerManagement.js:112-119 | deleting drops layer and record `k` and keeps a well-formed selection well formed |
| `LayerManagement.DeleteKeepsPrimaryUnshifted` | layout_cut/src/hooks/useLayerManagement.js:115-117 | deleting a layer below the primary one leaves the primary index unshifted while the list is shifted |
| `LayerManagement.LayerStore.LayerClick` | layout_cut/src/hooks/useLayerManagement.js:43-67 | the selection becomes `Clicked` of the old one, keeping the store valid |
| `LayerManagement.LayerStore.Deselect` | layout_cut/src/hooks/useLayerManagement.js:70-73 | clears both selection fields |
| `LayerManagement.LayerStore.TransformEnd` | layout_cut/src/hooks/useLayerManagement.js:76-104 | without a bound node nothing changes; otherwise the layers become `Transformed` |
| `LayerManagement.LayerStore.ToggleLayerVisible` | layout_cut/src/hooks/useLayerManagement.js:106-110 | the layers become `VisibilityToggled` |
| `LayerManagement.LayerStore.DeleteLayer` | layout_cut/src/hooks/useLayerManagement.js:112-119 | the store becomes `Deleted` of the old store and stays valid |
| `LayerManagement.LayerStore.ScaleLayer` | layout_cut/src/hooks/useLayerManagement.js:122-135 | the layers become `Scaled` |
| `LayerManagement.LayerStore.RotateLayer` | layout_cut/src/hooks/useLayerManagement.js:138-148 | the layers become `Rotated` |
| `LayerManagement.LayerStore.MergeLayers` | layout_cut/src/hooks/useLayerManagement.js:150-270 | layers, records and selection become those of `Merged`; the store stays valid |
| `LayerManagement.LayerStore.LayerMouseEnter` | layout_cut/src/hooks/useLayerManagement.js:273-275 | sets the hovered index |
| `LayerManagement.LayerStore.LayerMouseLeave` | layout_cut/src/hooks/useLayerManagement.js:278-280 | clears the hovered index |
| `LayerManagement.LayerStore.ClearLayers` | layout_cut/src/hooks/useLayerManagement.js:283-289 | empties layers, selection, hover and item refs, and keeps the segmentation records |
| `CanvasInteraction.PointerDown` | layout_cut/src/hooks/useCanvasInteraction.js:14-40 | a non-primary button is ignored; otherwise the layer is armed, not yet dragging, and the offset is the pointer in layer space minus the layer position |
| `CanvasInteraction.PointerUp` | layout_cut/src/hooks/useCanvasInteraction.js:89-114 | resets the drag state; a real drag keeps the layers, an armed press that never became a drag puts its layer back at its start position, and the list length never changes |
| `CanvasInteraction.PointerMove` | layout_cut/src/hooks/useCanvasInteraction.js:43-86 | nothing happens without an armed layer; a released button acts as pointer-up; a missing pointer or an armed index outside the list changes nothing; a held move within the threshold changes nothing; beyond it the drag starts and the armed layer alone is placed at pointer / scale - offset |
| `CanvasInteraction.StageClick` | layout_cut/src/hooks/useCanvasInteraction.js:117-125 | deselects iff no drag is armed, the click hit the stage and a callback exists |
| `CanvasInteraction.DragDoesNotJump` | layout_cut/src/hooks/useCanvasInteraction.js:72-83 | the first move past the threshold moves the layer by the pointer's travel divided by the scale, and nothing else |
| `CanvasInteraction.SmallMoveChangesNothing` | layout_cut/src/hooks/useCanvasInteraction.js:62-67 | a move within the threshold changes nothing |
| `CanvasInteraction.DragIsSticky` | layout_cut/src/hooks/useCanvasInteraction.js:67-70 | once dragging, held moves keep dragging the same layer |
| `CanvasInteraction.PointerDownConsistent` | layout_cut/src/hooks/useCanvasInteraction.js:32-36 | a primary press records an offset consistent with its press point and layer start; an ignored press keeps a consistent one |
| `CanvasInteraction.MoveKeepsConsistent` | layout_cut/src/hooks/useCanvasInteraction.js:43-114 | moves and releases keep the recorded offset consistent |
| `CanvasInteraction.DragFollowsPointer` | layout_cut/src/hooks/useCanvasInteraction.js:72-84 | from a consistent armed state, a held move beyond the threshold puts the armed layer at its start plus the pointer's travel divided by the scale, dragging the same layer, and leaves every other layer alone |
| `CanvasInteraction.SmallMovesChangeNothing` | layout_cut/src/hooks/useCanvasInteraction.js:62-67 | any number of held moves within the threshold change nothing |
| `CanvasInteraction.ClickLeavesLayersInPlace` | layout_cut/src/hooks/useCanvasInteraction.js:97-106 | press, small moves and release leave the layers exactly as they were and the drag idle |
| `CanvasInteraction.ReleasedButtonEndsDrag` | layout_cut/src/hooks/useCanvasInteraction.js:46-50 | a move without the primary button held ends the drag |
| `CanvasInteraction.NoDeselectWhileDragging` | layout_cut/src/hooks/useCanvasInteraction.js:118-119 | a stage click never deselects while a drag is armed |
| `CanvasInteraction.DragController.LayerPointerDown` | layout_cut/src/hooks/useCanvasInteraction.js:14-40 | the refs become `PointerDown` of the old ones |
| `CanvasInteraction.DragController.StagePointerUp` | layout_cut/src/hooks/useCanvasInteraction.js:89-114 | refs and layers become `PointerUp` of the old ones; the store stays valid |
| `CanvasInteraction.DragController.StagePointerMove` | layout_cut/src/hooks/useCanvasInteraction.js:43-86 | refs and layers become `PointerMove` of the old ones; the store stays valid |
| `CanvasInteraction.DragController.StageClicked` | layout_cut/src/hooks/useCanvasInteraction.js:117-125 | the store's selection is cleared exactly when `StageClick` says so, and is otherwise unchanged |
| `LayerInitialization.DecimalString` | layout_cut/src/hooks/useLayerInitialization.js:21 | the number is written as digits with no leading zero |
| `LayerInitialization.DecimalRoundTrip` | layout_cut/src/hooks/useLayerInitialization.js:21 | reading the digits back gives the number |
| `LayerInitialization.DecimalInjective` | layout_cut/src/hooks/useLayerInitialization.js:21 | different numbers are written differently |
| `LayerInitialization.SourceOf` | layout_cut/src/hooks/useLayerInitialization.js:22 | a record's non-empty image is the source, an empty one makes the record itself the source, and a bare string is used as is |
| `LayerInitialization.InitialLayers` | layout_cut/src/hooks/useLayerInitialization.js:19-31 | one layer per record, in order |
| `LayerInitialization.InitialLayersMatchCutouts` | layout_cut/src/hooks/useLayerInitialization.js:19-31 | each layer has its position as id, is visible, unscaled and unrotated; a cut-out's layer sits at its offsets, with its size where non-zero and the image's size where zero; a plain image covers the whole image from the origin |
| `LayerInitialization.InitialNamesDistinct` | layout_cut/src/hooks/useLayerInitialization.js:21 | no two new layers share a name |
| `LayerInitialization.WithStep` | layout_cut/src/hooks/useLayerInitialization.js:41-46 | the step is present afterwards, nothing else is added, and no duplicate is created |
| `LayerInitialization.WithStepIdempotent` | layout_cut/src/hooks/useLayerInitialization.js:41-46 | marking a step twice equals marking it once |
| `LayerInitialization.Initialized` | layout_cut/src/hooks/useLayerInitialization.js:15-50 | nothing happens unless results exist, the step is 2 and no request runs; otherwise layers are built, selection and hover cleared, the step becomes 3 and item refs sized to the layers |
| `LayerInitialization.InitializationRunsOnce` | layout_cut/src/hooks/useLayerInitialization.js:16 | re-running the effect after it fired changes nothing |
| `LayerInitialization.InitializedWellSelected` | layout_cut/src/hooks/useLayerInitialization.js:34-37 | the store stays well formed, with as many layers and item refs as records |
| `LayerInitialization.Workflow.InitializeLayers` | layout_cut/src/hooks/useLayerInitialization.js:15-50 | store and workflow become `Initialized` of the old ones |
| `ImageSize.FitScale` | layout_cut/src/hooks/useImageSize.js:19-24 | the scale is in (0, 1], the scaled image fits 1000 x 800, and the scale is 1 iff the image already fits |
| `ImageSize.FitScaleBounds` | layout_cut/src/hooks/useImageSize.js:22-24 | each per-axis ratio is in (0, 1] and fits its axis |
| `ImageSize.FitScaleIsLargest` | layout_cut/src/hooks/useImageSize.js:24 | the scale is 1 or fills the canvas exactly on one axis |
| `ImageSize.FitScaleExamples` | layout_cut/src/hooks/useImageSize.js:19-24 | 2000 x 1000 gives 0.5, 500 x 400 gives 1, 0 x 0 gives 1 |
| `ImageSize.Sized` | layout_cut/src/hooks/useImageSize.js:10-33 | no image resets to 0 x 0 at scale 1; a loading image changes nothing; a loaded one sets its natural size and the fit scale `FitScale` of that size, which lies in (0, 1] |
| `ImageSize.ScaleStaysInRange` | layout_cut/src/hooks/useImageSize.js:10-33 | the stage scale never leaves (0, 1] |
| `SegmentService.RowFlags` | app.py:84 | row `i` is flagged iff it holds a true pixel |
| `SegmentService.ColumnFlags` | app.py:85 | column `j` is flagged iff some row has a true pixel there |
| `SegmentService.FirstTrue` | app.py:92-93 | the first flagged index |
| `SegmentService.LastTrue` | app.py:92-93 | the last flagged index |
| `SegmentService.BoundingBox` | app.py:84-101 | a present box is non-empty and lies inside the mask |
| `SegmentService.BoundingBoxNoneIffEmpty` | app.py:87-89 | a mask is skipped iff it has no true pixel |
| `SegmentService.BoundingBoxContains` | app.py:92-101 | every true pixel lies inside the box |
| `SegmentService.BoundingBoxEdgesTouch` | app.py:92-101 | each edge of the box touches a true pixel |
| `SegmentService.CutoutPixels` | app.py:104-113 | the cut-out has the box's size, the image's colours, and alpha 255 exactly on the mask and 0 elsewhere |
| `SegmentService.EntriesFor` | app.py:79-132 | a mask contributes one entry iff it has an object |
| `SegmentService.CutoutKeepsObject` | app.py:104-113 | every pixel of the object is in the cut-out, opaque and in its colour |
| `SegmentService.WindowKeepsPixels` | app.py:104-113 | any window holding all true pixels keeps them opaque and in their colour |
| `SegmentService.OneEntryPerObject` | app.py:78-134 | the response has exactly one entry per mask with an object, in order, each from its own mask |
| `SegmentService.SegmentImage` | app.py:59-138 | returns 503 without a model, then 400 for a non-image upload, then 500 when decoding or generation fails, else the cut-outs of all masks |
| `KonvaCanvas.BoundBox` | layout_cut/src/components/Canvas/KonvaCanvas.jsx:80-86 | a proposal narrower or lower than 5 is refused and the old box kept |
| `KonvaCanvas.BoundBoxKeepsMinimum` | layout_cut/src/components/Canvas/KonvaCanvas.jsx:80-86 | one resize never takes a large-enough box below the minimum |
| `KonvaCanvas.ResizesKeepMinimum` | layout_cut/src/components/Canvas/KonvaCanvas.jsx:80-86 | any number of resizes keep the box at least 5 x 5, ending at the start or at some proposal |
| `KonvaCanvas.TransformerShown` | layout_cut/src/components/Canvas/KonvaCanvas.jsx:77 | the transformer shows iff there is a primary index and exactly one selected layer |
| `KonvaCanvas.SelectedStyled` | layout_cut/src/components/Canvas/KonvaCanvas.jsx:57-64 | a layer is styled as selected iff it is the primary index |
| `KonvaCanvas.HoldsTransformerRef` | layout_cut/src/components/Canvas/KonvaCanvas.jsx:65 | only the primary layer is bound to the transformer |
| `KonvaCanvas.OnlyPrimaryIsStyled` | layout_cut/src/components/Canvas/KonvaCanvas.jsx:57-65 | membership in the multi-selection alone neither styles nor binds a layer, and at most one layer is styled |
| `KonvaCanvas.ClickShowsTransformer` | layout_cut/src/components/Canvas/KonvaCanvas.jsx:77 | a plain click shows the transformer on the clicked layer; ctrl-clicking a second layer hides it |

## Left out

- Rasterising the selection on a canvas and posting it to `/segment-with-mask` (BrushTool.jsx lines 355-420). `Confirm` stops at the list of paths that would be drawn.
- `hoverPoint`, `brushSize`, the cursor style and the `currentPathRef` mirror. None of them affects which paths are committed or sent.
- `mergePaths` (BrushTool.jsx lines 59-64). No handler calls it.
- React scheduling: StrictMode double-invoking state updaters, and batching of setState calls. Each handler is modelled as one atomic update of the state it reads.
- The polygon close test compares squared distances with 225 instead of `Math.sqrt(...) < 15`. Both are the same test on exact reals. Floating-point rounding is not modelled; all coordinates are exact reals.
- Image loading, canvas compositing, `toDataURL` and the sort of the merged indices in `mergeLayers`. `Merged` takes whether loading succeeded and the data URL as parameters. The merge canvas's pixel size is not modelled.
- `Date.now()` for the merged layer's id is a parameter.
- LayerManagement.LayerStore.TransformEnd: the Konva node's read-back values are parameters, and the method requires an in-range index. Out of range, the source would write a partial record.
- LayerManagement.LayerStore.DeleteLayer, ScaleLayer and RotateLayer require an index of an existing layer, which is what the layer list and canvas pass. An out-of-range index would make scaling and rotating throw, and deletion filter nothing.
- CanvasInteraction.DragController.StagePointerUp: for an armed index outside the list, the source writes a partial record at that index. The model leaves the list unchanged; the index always names a listed layer when armed.
- The effects that scroll the selected layer into view and clean up item refs (useLayerManagement.js lines 16-40), and the Transformer's node binding and re-layout (KonvaCanvas.jsx).
- SegmentService.SegmentImage requires every generated mask to have the image's shape. The generator guarantees this; the model does not re-derive it.
- Reading the upload and converting it to RGB, the SAM model and its loading at start-up, PNG and base64 encoding, CORS, and the `/` health endpoint (app.py lines 140-151). The decoded image and the generator's masks are parameters, absent when their step raised. A cut-out entry holds the RGBA pixels rather than their encoded data URL.
- App.jsx orchestration and the presentation components (ControlPanel, LayerList, ProgressBar and the others). Only the `hasBrushPath` condition they use is modelled.
