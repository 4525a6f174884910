/** Turning the segmentation results into editable layers
    (`useLayerInitialization`): once results exist, the workflow is on the
    segmentation step and no request is in flight, every result becomes one
    visible, unscaled, unrotated layer at the result's offset, and the workflow
    moves on to step 3. */
module LayerInitialization {
  import opened Common
  import opened LayerManagement

  /** The workflow step whose arrival triggers layer creation. */
  const SegmentStep: int := 2
  /** The step the workflow moves to once layers exist. */
  const LayerStep: int := 3

  // ---------------------------------------------------------------------------
  // Layer names: the prefix followed by the 1-based position in decimal

  const NamePrefix: string := "圖層 "

  function Digit(d: nat): (c: char)
    requires d < 10
    ensures '0' <= c <= '9'
  {
    ['0', '1', '2', '3', '4', '5', '6', '7', '8', '9'][d]
  }

  function DigitValue(c: char): (d: nat)
    requires '0' <= c <= '9'
    ensures d < 10
  {
    if c == '0' then 0 else if c == '1' then 1 else if c == '2' then 2
    else if c == '3' then 3 else if c == '4' then 4 else if c == '5' then 5
    else if c == '6' then 6 else if c == '7' then 7 else if c == '8' then 8 else 9
  }

  predicate AllDigits(s: string) {
    forall i :: 0 <= i < |s| ==> '0' <= s[i] <= '9'
  }

  /** The decimal representation JavaScript produces for a natural number:
      at least one digit, no leading zero. */
  function DecimalString(n: nat): (s: string)
    ensures |s| >= 1 && AllDigits(s)
    ensures s[0] == '0' ==> n == 0
    decreases n
  {
    if n < 10 then [Digit(n)] else DecimalString(n / 10) + [Digit(n % 10)]
  }

  /** Reading a string of digits back as a number. */
  function DecimalValue(s: string): nat
    requires AllDigits(s)
    decreases |s|
  {
    if |s| == 0 then 0
    else DecimalValue(s[..|s| - 1]) * 10 + DigitValue(s[|s| - 1])
  }

  lemma {:induction false} DecimalRoundTrip(n: nat)
    ensures DecimalValue(DecimalString(n)) == n
    decreases n
  {
    if n >= 10 {
      var s := DecimalString(n);
      assert s[..|s| - 1] == DecimalString(n / 10);
      DecimalRoundTrip(n / 10);
    }
  }

  /** Different numbers are written differently. */
  lemma DecimalInjective(a: nat, b: nat)
    requires a != b
    ensures DecimalString(a) != DecimalString(b)
  {
    DecimalRoundTrip(a);
    DecimalRoundTrip(b);
  }

  /** `圖層 ${index + 1}`. */
  function LayerName(index: nat): string {
    NamePrefix + DecimalString(index + 1)
  }

  // ---------------------------------------------------------------------------
  // Building the layers

  /** `maskData.image || maskData`. */
  function SourceOf(m: MaskRecord): (s: Source)
    ensures m.Cutout? && m.image != [] ==> s == Url(m.image)
    ensures m.Cutout? && m.image == [] ==> s == WholeRecord(m)
    ensures m.LegacyImage? ==> s == Url(m.dataUrl)
  {
    match m
    case Cutout(image, _, _, _, _) => if image == [] then WholeRecord(m) else Url(image)
    case LegacyImage(url) => Url(url)
  }

  /** The layer created for the result at `index`. Missing offsets read as 0
      and a missing (or zero) size as the base image's size. */
  function LayerFromMask(m: MaskRecord, index: nat, imageWidth: real, imageHeight: real): Layer {
    var x := if m.Cutout? then m.offsetX else 0.0;
    var y := if m.Cutout? then m.offsetY else 0.0;
    var w := if m.Cutout? then ExtentOr(m.width, imageWidth) else imageWidth;
    var h := if m.Cutout? then ExtentOr(m.height, imageHeight) else imageHeight;
    Layer(index, Some(LayerName(index)), SourceOf(m), true, x, y, w, h, Some(1.0), Some(1.0), Some(0.0))
  }

  function InitialLayers(masks: seq<MaskRecord>, imageWidth: real, imageHeight: real): (r: seq<Layer>)
    ensures |r| == |masks|
    ensures forall i :: 0 <= i < |r| ==> r[i] == LayerFromMask(masks[i], i, imageWidth, imageHeight)
  {
    seq(|masks|, i requires 0 <= i < |masks| => LayerFromMask(masks[i], i, imageWidth, imageHeight))
  }

  /** Each cut-out's layer covers exactly the cut-out's box on the base image,
      and every new layer is visible, unscaled and unrotated with its position
      in the list as its id. */
  lemma InitialLayersMatchCutouts(masks: seq<MaskRecord>, imageWidth: real, imageHeight: real)
    ensures var r := InitialLayers(masks, imageWidth, imageHeight);
      forall i :: 0 <= i < |r| ==>
        && r[i].id == i && r[i].visible
        && ScaleOrOne(r[i].scaleX) == 1.0 && ScaleOrOne(r[i].scaleY) == 1.0
        && RotationOrZero(r[i].rotation) == 0.0
        && (masks[i].Cutout? ==> r[i].x == masks[i].offsetX && r[i].y == masks[i].offsetY)
        && (masks[i].Cutout? && masks[i].width != 0.0 ==> r[i].width == masks[i].width)
        && (masks[i].Cutout? && masks[i].height != 0.0 ==> r[i].height == masks[i].height)
        && (masks[i].Cutout? && masks[i].width == 0.0 ==> r[i].width == imageWidth)
        && (masks[i].Cutout? && masks[i].height == 0.0 ==> r[i].height == imageHeight)
        && (masks[i].LegacyImage? ==> r[i].x == 0.0 && r[i].y == 0.0)
        && (masks[i].LegacyImage? ==> r[i].width == imageWidth && r[i].height == imageHeight)
  {
  }

  /** No two new layers share a name. */
  lemma InitialNamesDistinct(masks: seq<MaskRecord>, imageWidth: real, imageHeight: real, i: int, j: int)
    requires 0 <= i < j < |masks|
    ensures var r := InitialLayers(masks, imageWidth, imageHeight);
      r[i].name != r[j].name
  {
    DecimalInjective(i + 1, j + 1);
    var a, b := DecimalString(i + 1), DecimalString(j + 1);
    assert (NamePrefix + a)[|NamePrefix|..] == a;
    assert (NamePrefix + b)[|NamePrefix|..] == b;
  }

  // ---------------------------------------------------------------------------
  // The effect

  /** The workflow position: the current step and the steps marked done. */
  datatype Progress = Progress(currentStep: int, completedSteps: seq<int>)

  /** `prev.includes(step) ? prev : [...prev, step]`. */
  function WithStep(steps: seq<int>, step: int): (r: seq<int>)
    ensures step in r
    ensures forall s :: s in steps ==> s in r
    ensures forall s :: s in r ==> s in steps || s == step
    ensures Distinct(steps) ==> Distinct(r)
  {
    if step in steps then steps else steps + [step]
  }

  lemma WithStepIdempotent(steps: seq<int>, step: int)
    ensures WithStep(WithStep(steps, step), step) == WithStep(steps, step)
  {
  }

  predicate InitializationDue(st: StoreState, p: Progress, isSegmenting: bool) {
    |st.masks| > 0 && p.currentStep == SegmentStep && !isSegmenting
  }

  /** The effect's outcome on the layer store and the workflow position.
      `hasStepSetter` says whether a completed-steps setter was supplied. */
  function Initialized(st: StoreState, p: Progress, isSegmenting: bool, imageWidth: real, imageHeight: real, hasStepSetter: bool): (r: (StoreState, Progress))
    ensures !InitializationDue(st, p, isSegmenting) ==> r == (st, p)
    ensures InitializationDue(st, p, isSegmenting) ==>
      && r.0.layers == InitialLayers(st.masks, imageWidth, imageHeight)
      && r.0.masks == st.masks
      && r.0.selection == NoSelection && r.0.hovered == None
      && r.0.itemRefs == |st.masks|
      && r.1.currentStep == LayerStep
      && r.1.completedSteps == (if hasStepSetter then WithStep(p.completedSteps, LayerStep) else p.completedSteps)
  {
    if !InitializationDue(st, p, isSegmenting) then (st, p)
    else
      var layers := InitialLayers(st.masks, imageWidth, imageHeight);
      (StoreState(layers, st.masks, NoSelection, None, |layers|),
       Progress(LayerStep, if hasStepSetter then WithStep(p.completedSteps, LayerStep) else p.completedSteps))
  }

  /** The effect does its work once: running it again (it re-runs whenever
      one of its inputs changes) finds the workflow past step 2 and does
      nothing. */
  lemma InitializationRunsOnce(st: StoreState, p: Progress, isSegmenting: bool, w: real, h: real, hasStepSetter: bool,
                               w2: real, h2: real, hasStepSetter2: bool)
    ensures var r := Initialized(st, p, isSegmenting, w, h, hasStepSetter);
      Initialized(r.0, r.1, isSegmenting, w2, h2, hasStepSetter2) == r
  {
  }

  /** After initialization one layer exists per segmentation result and the
      selection is empty, so the store is well formed. */
  lemma InitializedWellSelected(st: StoreState, p: Progress, isSegmenting: bool, w: real, h: real, hasStepSetter: bool)
    requires WellSelected(st)
    ensures WellSelected(Initialized(st, p, isSegmenting, w, h, hasStepSetter).0)
    ensures var r := Initialized(st, p, isSegmenting, w, h, hasStepSetter).0;
      InitializationDue(st, p, isSegmenting) ==> |r.layers| == |r.masks| == r.itemRefs
  {
  }

  class Workflow {
    var currentStep: int
    var completedSteps: seq<int>

    function Snapshot(): Progress
      reads this
    {
      Progress(currentStep, completedSteps)
    }

    constructor (step: int, completed: seq<int>)
      ensures Snapshot() == Progress(step, completed)
    {
      currentStep := step;
      completedSteps := completed;
    }

    /** The effect body. */
    method InitializeLayers(store: LayerStore, isSegmenting: bool, imageWidth: real, imageHeight: real, hasStepSetter: bool)
      requires store.Valid()
      modifies this, store
      ensures store.Valid()
      ensures (store.Snapshot(), Snapshot()) ==
        Initialized(old(store.Snapshot()), old(Snapshot()), isSegmenting, imageWidth, imageHeight, hasStepSetter)
    {
      if !(|store.segmentedMasks| > 0 && currentStep == SegmentStep && !isSegmenting) {
        return;
      }
      var initial := InitialLayers(store.segmentedMasks, imageWidth, imageHeight);
      store.layers := initial;
      store.selectedLayerIndex := None;
      store.selectedLayers := [];
      store.hoveredLayerIndex := None;
      currentStep := LayerStep;
      if hasStepSetter {
        completedSteps := WithStep(completedSteps, LayerStep);
      }
      store.layerItemRefCount := |initial|;
    }
  }
}
