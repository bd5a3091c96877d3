/**
 * A training run (fitter.py lines 66-226) as a specification: the batch
 * loop with its `group`, `increment` and `reference_shape` latches, the
 * bounding-box step, and the scale loop, each as a function from the
 * fitter's learned state to the state, the events and the error where the
 * run stops. The imperative fitter is proved to follow it.
 */
module Training {
  import opened Wrappers
  import opened Geometry
  import opened Landmarks
  import opened Images
  import opened Interfaces
  import opened BoundingBoxes
  import opened Batching
  import opened Stages
  import opened Pyramid

  /** What training changes on the fitter: `reference_shape`, `n_perturbations` and each stage's fit. */
  datatype FitterState = FitterState(referenceShape: Option<Shape>, nPerturbations: int, fits: seq<seq<TrainingSet>>)

  /** Where a run stops: the state, the events so far, and the exception raised, if any. */
  datatype Run = Run(state: FitterState, events: seq<Event>, error: Option<TrainError>)

  /** Where the scale loop of one batch stops. */
  datatype ScaleRun = ScaleRun(fits: seq<seq<TrainingSet>>, events: seq<Event>, error: Option<TrainError>)

  /** What the scale loop of one batch works with. */
  datatype ScaleContext = ScaleContext(
    c: Collaborators,
    s: Settings,
    images: seq<ImageData>, // the batch after rescaling and bounding-box generation
    group: string,
    keys: seq<string>,      // the bounding-box keys re-read at line 158
    reference: Shape,
    incremented: bool)

  /** The last element of a non-empty sequence. */
  function Last<T>(xs: seq<T>): T
    requires |xs| > 0
  {
    xs[|xs| - 1]
  }

  /** One pass of the scale loop: the fits and events after it, the shapes it carries on, and the exception it raises. */
  datatype ScalePass = ScalePass(fits: seq<seq<TrainingSet>>, events: seq<Event>, estimates: Estimates, error: Option<TrainError>)

  /**
   * Lines 163-226 at scale `j` alone: prepare the images, read the ground
   * truth, seed the estimates at scale 0, then fit the stage as `FitPass`.
   */
  function PassAt(x: ScaleContext, j: nat, incoming: Estimates, fits: seq<seq<TrainingSet>>, events: seq<Event>): (r: ScalePass)
    requires x.s.WellFormed() && j < |x.s.scales| && |fits| == |x.s.scales|
    requires j > 0 ==> |incoming| == |x.images|
    ensures |r.fits| == |fits|
    ensures r.error.None? ==> |r.estimates| == |x.images|
    ensures r.error.Some? && r.error.value.ZeroScale? ==> r.error.value.scale == j && j + 1 < |x.s.scales| && x.s.scales[j] == 0.0
  {
    var images := ScaledImages(x.c, x.s, x.images, j);
    var events := events + PreparationEvents(x.s, j);
    match GroundTruths(images, x.group)
    case Err(e) => ScalePass(fits, events, incoming, Some(e))
    case Ok(targets) =>
      match (if j == 0 then InitialEstimates(x.c, x.reference, images, x.keys) else Ok(incoming))
      case Err(e) => ScalePass(fits, events, incoming, Some(e))
      case Ok(current) => FitPass(x.c, x.s, j, x.incremented, TrainingSet(images, targets, current), fits, events)
  }

  /**
   * Lines 210-226 at scale `j`: fit the stage on `batch` and carry its
   * output to the next scale (not past the last one), refusing to divide
   * by a zero scale factor.
   */
  function FitPass(c: Collaborators, s: Settings, j: nat, incremented: bool, batch: TrainingSet,
                   fits: seq<seq<TrainingSet>>, events: seq<Event>): (r: ScalePass)
    requires s.WellFormed() && j < |s.scales| && |fits| == |s.scales|
    requires |batch.estimates| == |batch.images|
    ensures |r.fits| == |fits|
    ensures r.error.None? ==> |r.estimates| == |batch.images|
    ensures r.error.Some? ==> r.error.value == ZeroScale(j) && j + 1 < |s.scales| && s.scales[j] == 0.0
  {
    var fit := FittedAfter(fits[j], incremented, batch);
    var out := Descended(c.descend, s.configs[j], fit, batch.images, batch.estimates);
    var fits := fits[j := fit];
    var events := events + [StageCalled(j, incremented)];
    if j + 1 == |s.scales| then ScalePass(fits, events, out, None)
    else if s.scales[j] == 0.0 then ScalePass(fits, events, out, Some(ZeroScale(j)))
    else ScalePass(fits, events, Propagated(out, s.scales[j + 1] / s.scales[j]), None)
  }

  /**
   * Lines 163-226 from scale `j` on, with `estimates` the shapes carried
   * into scale `j`, `fits` the stages' fits and `events` the events so far.
   */
  function RunScales(x: ScaleContext, j: nat, estimates: Estimates, fits: seq<seq<TrainingSet>>, events: seq<Event>): (r: ScaleRun)
    requires x.s.WellFormed() && j <= |x.s.scales| && |fits| == |x.s.scales|
    requires j > 0 ==> |estimates| == |x.images|
    ensures |r.fits| == |fits|
    decreases |x.s.scales| - j, 1
  {
    if j == |x.s.scales| then ScaleRun(fits, events, None)
    else ScaleStep(x, j, estimates, fits, events)
  }

  /** One iteration of the scale loop: the pass at scale `j`, then, unless it stops, the loop from scale `j + 1`. */
  function ScaleStep(x: ScaleContext, j: nat, estimates: Estimates, fits: seq<seq<TrainingSet>>, events: seq<Event>): (r: ScaleRun)
    requires x.s.WellFormed() && j < |x.s.scales| && |fits| == |x.s.scales|
    requires j > 0 ==> |estimates| == |x.images|
    ensures |r.fits| == |fits|
    decreases |x.s.scales| - j, 0
  {
    var p := PassAt(x, j, estimates, fits, events);
    if p.error.Some? || j + 1 == |x.s.scales| then ScaleRun(p.fits, p.events, p.error)
    else RunScales(x, j + 1, p.estimates, p.fits, p.events)
  }

  /** The scale loop from scale `j < n` is one pass followed, unless it stops, by the loop from scale `j + 1`. */
  lemma RunScalesStep(x: ScaleContext, j: nat, estimates: Estimates, fits: seq<seq<TrainingSet>>, events: seq<Event>, p: ScalePass)
    requires x.s.WellFormed() && j < |x.s.scales| && |fits| == |x.s.scales|
    requires j > 0 ==> |estimates| == |x.images|
    requires p == PassAt(x, j, estimates, fits, events)
    ensures p.error.Some? || j + 1 == |x.s.scales| ==> RunScales(x, j, estimates, fits, events) == ScaleRun(p.fits, p.events, p.error)
    ensures p.error.None? && j + 1 < |x.s.scales| ==> RunScales(x, j, estimates, fits, events) == RunScales(x, j + 1, p.estimates, p.fits, p.events)
  {
  }

  /** Lines 89-90: the given group, or the first group label of the batch's first image. */
  function LatchedGroup(group: Option<string>, batch: seq<ImageData>): Result<string, TrainError>
  {
    if group.Some? then Ok(group.value)
    else if |batch| == 0 then Err(EmptyBatch)
    else if |batch[0].landmarks.labels| == 0 then Err(NoLandmarkGroups)
    else Ok(batch[0].landmarks.labels[0])
  }

  /** Lines 92-103: the reference shape, computed from the batch's ground truth only when there is none yet. */
  function LatchedReference(c: Collaborators, s: Settings, reference: Option<Shape>, batch: seq<ImageData>, group: string): Result<Shape, TrainError>
  {
    if reference.Some? then Ok(reference.value)
    else
      match GroundTruths(batch, group)
      case Err(e) => Err(e)
      case Ok(shapes) => Ok(c.computeReferenceShape(shapes, s.diagonal))
  }

  /** Lines 106-108: `rescale_images_to_reference_shape`, one copy per image. */
  function Rescaled(c: Collaborators, batch: seq<ImageData>, group: string, reference: Shape): (r: seq<ImageData>)
    ensures |r| == |batch|
  {
    seq(|batch|, i requires 0 <= i < |batch| => c.rescaleToReference(batch[i], group, reference))
  }

  function LandmarksOfValues(images: seq<ImageData>): (r: seq<Landmarks>)
    ensures |r| == |images|
  {
    seq(|images|, i requires 0 <= i < |images| => images[i].landmarks)
  }

  /** The images with their landmark managers replaced. */
  function WithLandmarks(images: seq<ImageData>, ls: seq<Landmarks>): (r: seq<ImageData>)
    requires |ls| == |images|
    ensures |r| == |images|
  {
    seq(|images|, i requires 0 <= i < |images| => ImageData(images[i].pixels, ls[i]))
  }

  /** Lines 86-226 for one batch whose group is known. */
  function RunBatch(c: Collaborators, s: Settings, st: FitterState, batch: seq<ImageData>, group: string,
                    boundingBoxGroup: Option<string>, incremented: bool, events: seq<Event>): (r: Run)
    requires s.WellFormed() && |st.fits| == |s.scales|
    ensures |r.state.fits| == |st.fits|
  {
    var events := events + [BatchStarted(group)];
    match LatchedReference(c, s, st.referenceShape, batch, group)
    case Err(e) => Run(st, events, Some(e))
    case Ok(reference) => RunReferenced(c, s, st.(referenceShape := Some(reference)), batch, group, boundingBoxGroup, incremented, events)
  }

  /** A batch ready for the scale loop: its rescaled images with their boxes attached, and the box step's outcome. */
  datatype Prepared = Prepared(images: seq<ImageData>, boxes: Boxes)

  /** Lines 106-159: rescale the batch to the reference shape and attach the bounding boxes. */
  function PreparedImages(c: Collaborators, perturb: (Shape, Shape) -> Shape, nPerturbations: int, batch: seq<ImageData>,
                          group: string, boundingBoxGroup: Option<string>, reference: Shape): (r: Result<Prepared, TrainError>)
    ensures r.Ok? ==> |r.value.images| == |batch|
  {
    var rescaled := Rescaled(c, batch, group, reference);
    var ls := LandmarksOfValues(rescaled);
    match AttachBoxes(ls, group, boundingBoxGroup, nPerturbations, perturb, c.boundingBox)
    case Err(e) => Err(e)
    case Ok(b) =>
      AttachBoxesKeepsImages(ls, group, boundingBoxGroup, nPerturbations, perturb, c.boundingBox);
      Ok(Prepared(WithLandmarks(rescaled, b.landmarks), b))
  }

  /** The scale loop's context for a prepared batch: its images, its re-read box keys and the latched reference shape. */
  function BatchContext(c: Collaborators, s: Settings, p: Prepared, group: string, reference: Shape, incremented: bool): (x: ScaleContext)
    ensures x.images == p.images && x.keys == p.boxes.keys && x.reference == reference
  {
    ScaleContext(c, s, p.images, group, p.boxes.keys, reference, incremented)
  }

  /** Lines 106-226 once the reference shape is latched: prepare the images, then run the scale loop. */
  function RunReferenced(c: Collaborators, s: Settings, st: FitterState, batch: seq<ImageData>, group: string,
                         boundingBoxGroup: Option<string>, incremented: bool, events: seq<Event>): (r: Run)
    requires s.WellFormed() && |st.fits| == |s.scales| && st.referenceShape.Some?
    ensures |r.state.fits| == |st.fits|
  {
    var reference := st.referenceShape.value;
    match PreparedImages(c, s.perturb, st.nPerturbations, batch, group, boundingBoxGroup, reference)
    case Err(e) => Run(st, events, Some(e))
    case Ok(p) =>
      var r := RunScales(BatchContext(c, s, p, group, reference, incremented), 0, [], st.fits, events);
      Run(FitterState(Some(reference), p.boxes.nPerturbations, r.fits), r.events, r.error)
  }

  /** Lines 78-226 from batch `k` on; `group` is the latch as it stands before batch `k`. */
  function RunBatches(c: Collaborators, s: Settings, st: FitterState, batches: seq<seq<ImageData>>, group: Option<string>,
                      boundingBoxGroup: Option<string>, increment: bool, k: nat, events: seq<Event>): (r: Run)
    requires s.WellFormed() && |st.fits| == |s.scales| && k <= |batches|
    ensures |r.state.fits| == |st.fits|
    decreases |batches| - k, 1
  {
    if k == |batches| then Run(st, events, None)
    else BatchStep(c, s, st, batches, group, boundingBoxGroup, increment, k, events)
  }

  /** One iteration of the batch loop: latch the group, run batch `k` and, unless it stops, the batches after it. */
  function BatchStep(c: Collaborators, s: Settings, st: FitterState, batches: seq<seq<ImageData>>, group: Option<string>,
                     boundingBoxGroup: Option<string>, increment: bool, k: nat, events: seq<Event>): (r: Run)
    requires s.WellFormed() && |st.fits| == |s.scales| && k < |batches|
    ensures |r.state.fits| == |st.fits|
    decreases |batches| - k, 0
  {
    match LatchedGroup(group, batches[k])
    case Err(e) => Run(st, events, Some(e))
    case Ok(g) =>
      var r := RunBatch(c, s, st, batches[k], g, boundingBoxGroup, increment || k > 0, events);
      if r.error.Some? then r
      else RunBatches(c, s, r.state, batches, Some(g), boundingBoxGroup, increment, k + 1, r.events)
  }

  /** The batch loop from batch `k`: latch the group, run batch `k` and, unless it stops, the batches after it. */
  lemma RunBatchesStep(c: Collaborators, s: Settings, st: FitterState, batches: seq<seq<ImageData>>, group: Option<string>,
                       boundingBoxGroup: Option<string>, increment: bool, k: nat, events: seq<Event>)
    requires s.WellFormed() && |st.fits| == |s.scales| && k < |batches|
    ensures LatchedGroup(group, batches[k]).Err? ==>
      RunBatches(c, s, st, batches, group, boundingBoxGroup, increment, k, events)
      == Run(st, events, Some(LatchedGroup(group, batches[k]).error))
    ensures LatchedGroup(group, batches[k]).Ok? ==>
      var g := LatchedGroup(group, batches[k]).value;
      var r := RunBatch(c, s, st, batches[k], g, boundingBoxGroup, increment || k > 0, events);
      RunBatches(c, s, st, batches, group, boundingBoxGroup, increment, k, events)
      == if r.error.Some? then r else RunBatches(c, s, r.state, batches, Some(g), boundingBoxGroup, increment, k + 1, r.events)
  {
  }

  /**
   * `_train(images, group, bounding_box_group, increment, batch_size)` from
   * the fitter's state `st`, with `events` the events before the call.
   */
  function TrainRun(c: Collaborators, s: Settings, st: FitterState, images: seq<ImageData>, group: Option<string>,
                    boundingBoxGroup: Option<string>, increment: bool, batchSize: Option<nat>, events: seq<Event>): (r: Run)
    requires s.WellFormed() && |st.fits| == |s.scales|
    requires batchSize.Some? ==> batchSize.value > 0
    ensures |r.state.fits| == |st.fits|
  {
    RunBatches(c, s, st, Batches(images, batchSize), group, boundingBoxGroup, increment, 0, events)
  }

  // ----- one batch's scale loop -----

  /**
   * What stage `k` of a batch is trained on: the batch's images at scale
   * `k`, their ground-truth shapes, and one row of estimates per image with
   * one estimate per bounding-box key.
   */
  ghost predicate TrainedOnBatch(x: ScaleContext, k: nat, t: TrainingSet)
    requires x.s.WellFormed() && k < |x.s.scales|
  {
    && t.images == ScaledImages(x.c, x.s, x.images, k)
    && GroundTruths(t.images, x.group) == Ok(t.targets)
    && |t.estimates| == |x.images|
    && (forall i :: 0 <= i < |t.estimates| ==> |t.estimates[i]| == |x.keys|)
  }

  /** Stage `k` went from the fit `before` to `after` by training, or incrementing, on one training set of the batch. */
  ghost predicate Refitted(x: ScaleContext, k: nat, before: seq<TrainingSet>, after: seq<TrainingSet>)
    requires x.s.WellFormed() && k < |x.s.scales|
  {
    && |after| > 0
    && after == FittedAfter(before, x.incremented, Last(after))
    && TrainedOnBatch(x, k, Last(after))
  }

  /**
   * One pass that reaches its stage and raises nothing fits only stage `j`,
   * extending or replacing its fit with one training set of the batch whose
   * estimates, at scale 0, are the reference shape aligned with each box.
   */
  lemma PassSucceeded(x: ScaleContext, j: nat, estimates: Estimates, fits: seq<seq<TrainingSet>>, events: seq<Event>)
    requires x.s.WellFormed() && j < |x.s.scales| && |fits| == |x.s.scales|
    requires j > 0 ==> |estimates| == |x.images| && forall i :: 0 <= i < |estimates| ==> |estimates[i]| == |x.keys|
    requires PassAt(x, j, estimates, fits, events).error.None?
    ensures var p := PassAt(x, j, estimates, fits, events);
      && (forall k :: 0 <= k < |fits| && k != j ==> p.fits[k] == fits[k])
      && Refitted(x, j, fits[j], p.fits[j])
      && (j == 0 ==> Ok(Last(p.fits[0]).estimates) == InitialEstimates(x.c, x.reference, ScaledImages(x.c, x.s, x.images, 0), x.keys))
  {
    var images := ScaledImages(x.c, x.s, x.images, j);
    var targets := GroundTruths(images, x.group).value;
    var current := (if j == 0 then InitialEstimates(x.c, x.reference, images, x.keys) else Ok(estimates)).value;
    var batchSet := TrainingSet(images, targets, current);
    var fit := FittedAfter(fits[j], x.incremented, batchSet);
    var prepared := events + PreparationEvents(x.s, j);
    FitPassFacts(x.c, x.s, j, x.incremented, batchSet, fits, prepared);
    assert PassAt(x, j, estimates, fits, events) == FitPass(x.c, x.s, j, x.incremented, batchSet, fits, prepared);
    assert TrainedOnBatch(x, j, batchSet);
    assert Last(fit) == batchSet;
  }

  /** Fitting logs the stage call, refits stage `j` alone and keeps the shape of every estimate. */
  lemma FitPassFacts(c: Collaborators, s: Settings, j: nat, incremented: bool, batch: TrainingSet,
                     fits: seq<seq<TrainingSet>>, events: seq<Event>)
    requires s.WellFormed() && j < |s.scales| && |fits| == |s.scales|
    requires |batch.estimates| == |batch.images|
    ensures var p := FitPass(c, s, j, incremented, batch, fits, events);
      && p.events == events + [StageCalled(j, incremented)]
      && p.fits == fits[j := FittedAfter(fits[j], incremented, batch)]
      && (p.error.None? ==> forall i :: 0 <= i < |p.estimates| ==> |p.estimates[i]| == |batch.estimates[i]|)
  {
  }

  /** One pass that raises nothing logs the scale's calls and carries one estimate per key and image. */
  lemma PassLogged(x: ScaleContext, j: nat, estimates: Estimates, fits: seq<seq<TrainingSet>>, events: seq<Event>)
    requires x.s.WellFormed() && j < |x.s.scales| && |fits| == |x.s.scales|
    requires j > 0 ==> |estimates| == |x.images| && forall i :: 0 <= i < |estimates| ==> |estimates[i]| == |x.keys|
    requires PassAt(x, j, estimates, fits, events).error.None?
    ensures var p := PassAt(x, j, estimates, fits, events);
      && p.events == events + ScaleLog(x.s, j, x.incremented)
      && (forall i :: 0 <= i < |p.estimates| ==> |p.estimates[i]| == |x.keys|)
  {
    var images := ScaledImages(x.c, x.s, x.images, j);
    var targets := GroundTruths(images, x.group).value;
    var current := (if j == 0 then InitialEstimates(x.c, x.reference, images, x.keys) else Ok(estimates)).value;
    var prepared := events + PreparationEvents(x.s, j);
    FitPassFacts(x.c, x.s, j, x.incremented, TrainingSet(images, targets, current), fits, prepared);
    assert PassAt(x, j, estimates, fits, events) == FitPass(x.c, x.s, j, x.incremented, TrainingSet(images, targets, current), fits, prepared);
    AppendAssociates(events, PreparationEvents(x.s, j), [StageCalled(j, x.incremented)]);
  }

  /**
   * A scale loop that completes calls every remaining stage once, in scale
   * order, after that scale's feature and resampling calls; it extends (when
   * incrementing) or replaces each remaining stage's fit with one training set
   * of the batch, leaves the earlier stages alone, and at scale 0 the
   * estimates are the reference shape aligned with each image's boxes.
   */
  lemma ScalesSucceeded(x: ScaleContext, j: nat, estimates: Estimates, fits: seq<seq<TrainingSet>>, events: seq<Event>)
    requires x.s.WellFormed() && j <= |x.s.scales| && |fits| == |x.s.scales|
    requires j > 0 ==> |estimates| == |x.images| && forall i :: 0 <= i < |estimates| ==> |estimates[i]| == |x.keys|
    requires RunScales(x, j, estimates, fits, events).error.None?
    ensures var r := RunScales(x, j, estimates, fits, events);
      && r.events == events + ScalesFrom(x.s, j, x.incremented)
      && (forall k :: 0 <= k < j ==> r.fits[k] == fits[k])
      && (forall k :: j <= k < |fits| ==> Refitted(x, k, fits[k], r.fits[k]))
      && (j == 0 < |fits| ==>
            Ok(Last(r.fits[0]).estimates) == InitialEstimates(x.c, x.reference, ScaledImages(x.c, x.s, x.images, 0), x.keys))
  {
    ScalesLogged(x, j, estimates, fits, events);
    ScalesRefitted(x, j, estimates, fits, events);
    if j == 0 < |fits| {
      var p := PassAt(x, 0, estimates, fits, events);
      PassSucceeded(x, 0, estimates, fits, events);
      PassLogged(x, 0, estimates, fits, events);
      RunScalesStep(x, 0, estimates, fits, events, p);
      if 1 < |fits| {
        ScalesRefitted(x, 1, p.estimates, p.fits, p.events);
      }
    }
  }

  /** The events of a scale loop that completes. */
  lemma {:induction false} ScalesLogged(x: ScaleContext, j: nat, estimates: Estimates, fits: seq<seq<TrainingSet>>, events: seq<Event>)
    requires x.s.WellFormed() && j <= |x.s.scales| && |fits| == |x.s.scales|
    requires j > 0 ==> |estimates| == |x.images| && forall i :: 0 <= i < |estimates| ==> |estimates[i]| == |x.keys|
    requires RunScales(x, j, estimates, fits, events).error.None?
    ensures RunScales(x, j, estimates, fits, events).events == events + ScalesFrom(x.s, j, x.incremented)
    decreases |x.s.scales| - j
  {
    var n := |x.s.scales|;
    var r := RunScales(x, j, estimates, fits, events);
    if j == n {
      assert r.events == events + [];
    } else {
      var p := PassAt(x, j, estimates, fits, events);
      PassLogged(x, j, estimates, fits, events);
      RunScalesStep(x, j, estimates, fits, events, p);
      var log := ScaleLog(x.s, j, x.incremented);
      if j + 1 == n {
        assert r.events == events + log;
        assert ScalesFrom(x.s, j, x.incremented) == log + [];
        assert log + [] == log;
      } else {
        assert r == RunScales(x, j + 1, p.estimates, p.fits, p.events);
        ScalesLogged(x, j + 1, p.estimates, p.fits, p.events);
        AppendAssociates(events, log, ScalesFrom(x.s, j + 1, x.incremented));
      }
    }
  }

  /** Local proof helper: a pass that refits stage `j` followed by the passes that refit the stages after it. */
  lemma RefittedAfterPass(x: ScaleContext, j: nat, fits: seq<seq<TrainingSet>>, mid: seq<seq<TrainingSet>>, after: seq<seq<TrainingSet>>)
    requires x.s.WellFormed() && j < |x.s.scales| && |fits| == |x.s.scales| && |mid| == |fits| && |after| == |fits|
    requires forall k :: 0 <= k < |fits| && k != j ==> mid[k] == fits[k]
    requires Refitted(x, j, fits[j], mid[j])
    requires forall k :: 0 <= k < j + 1 ==> after[k] == mid[k]
    requires forall k :: j + 1 <= k < |fits| ==> Refitted(x, k, mid[k], after[k])
    ensures forall k :: 0 <= k < j ==> after[k] == fits[k]
    ensures forall k :: j <= k < |fits| ==> Refitted(x, k, fits[k], after[k])
  {
    forall k | j <= k < |fits|
      ensures Refitted(x, k, fits[k], after[k])
    {
      if k > j {
        assert mid[k] == fits[k];
      }
    }
  }

  /** The fits a scale loop that completes leaves: the scales before `j` untouched, the rest refitted on the batch. */
  lemma {:induction false} ScalesRefitted(x: ScaleContext, j: nat, estimates: Estimates, fits: seq<seq<TrainingSet>>, events: seq<Event>)
    requires x.s.WellFormed() && j <= |x.s.scales| && |fits| == |x.s.scales|
    requires j > 0 ==> |estimates| == |x.images| && forall i :: 0 <= i < |estimates| ==> |estimates[i]| == |x.keys|
    requires RunScales(x, j, estimates, fits, events).error.None?
    ensures var r := RunScales(x, j, estimates, fits, events);
      && (forall k :: 0 <= k < j ==> r.fits[k] == fits[k])
      && (forall k :: j <= k < |fits| ==> Refitted(x, k, fits[k], r.fits[k]))
    decreases |x.s.scales| - j
  {
    var n := |x.s.scales|;
    if j < n {
      var r := RunScales(x, j, estimates, fits, events);
      var p := PassAt(x, j, estimates, fits, events);
      PassSucceeded(x, j, estimates, fits, events);
      PassLogged(x, j, estimates, fits, events);
      RunScalesStep(x, j, estimates, fits, events, p);
      if j + 1 < n {
        assert r == RunScales(x, j + 1, p.estimates, p.fits, p.events);
        ScalesRefitted(x, j + 1, p.estimates, p.fits, p.events);
        RefittedAfterPass(x, j, fits, p.fits, r.fits);
      } else {
        assert r.fits == p.fits;
      }
    }
  }

  /**
   * One pass that raises nothing trains stage `j` on the shapes carried into
   * it (from scale 1 on) and, unless `j` is the last scale, carries on the
   * stage's descent from those shapes rescaled by the ratio of the next
   * scale to this one.
   */
  lemma PassCarried(x: ScaleContext, j: nat, estimates: Estimates, fits: seq<seq<TrainingSet>>, events: seq<Event>)
    requires x.s.WellFormed() && j < |x.s.scales| && |fits| == |x.s.scales|
    requires j > 0 ==> |estimates| == |x.images| && forall i :: 0 <= i < |estimates| ==> |estimates[i]| == |x.keys|
    requires PassAt(x, j, estimates, fits, events).error.None?
    ensures var p := PassAt(x, j, estimates, fits, events);
      && |p.fits[j]| > 0
      && var t := Last(p.fits[j]);
         && |t.images| == |t.estimates|
         && (j > 0 ==> t.estimates == estimates)
         && (j + 1 < |x.s.scales| ==>
               && x.s.scales[j] != 0.0
               && p.estimates == Propagated(Descended(x.c.descend, x.s.configs[j], p.fits[j], t.images, t.estimates),
                                            x.s.scales[j + 1] / x.s.scales[j]))
  {
    var images := ScaledImages(x.c, x.s, x.images, j);
    var targets := GroundTruths(images, x.group).value;
    var current := (if j == 0 then InitialEstimates(x.c, x.reference, images, x.keys) else Ok(estimates)).value;
    var batchSet := TrainingSet(images, targets, current);
    var prepared := events + PreparationEvents(x.s, j);
    FitPassCarries(x.c, x.s, j, x.incremented, batchSet, fits, prepared);
    assert PassAt(x, j, estimates, fits, events) == FitPass(x.c, x.s, j, x.incremented, batchSet, fits, prepared);
  }

  /** Fitting stage `j` on `batch` carries on the stage's descent from the batch's shapes, rescaled to the next scale. */
  lemma FitPassCarries(c: Collaborators, s: Settings, j: nat, incremented: bool, batch: TrainingSet,
                       fits: seq<seq<TrainingSet>>, events: seq<Event>)
    requires s.WellFormed() && j < |s.scales| && |fits| == |s.scales|
    requires |batch.estimates| == |batch.images|
    ensures var p := FitPass(c, s, j, incremented, batch, fits, events);
      && |p.fits[j]| > 0 && Last(p.fits[j]) == batch
      && (p.error.None? && j + 1 < |s.scales| ==>
            && s.scales[j] != 0.0
            && p.estimates == Propagated(Descended(c.descend, s.configs[j], p.fits[j], batch.images, batch.estimates),
                                         s.scales[j + 1] / s.scales[j]))
  {
  }

  /**
   * Stage `k + 1` is trained on the shapes stage `k` carried on: the descent
   * of stage `k` from its own training shapes, rescaled by
   * `scales[k + 1] / scales[k]`.
   */
  ghost predicate CarriedOn(x: ScaleContext, k: nat, fits: seq<seq<TrainingSet>>)
    requires x.s.WellFormed() && k + 1 < |x.s.scales| && |fits| == |x.s.scales|
  {
    && |fits[k]| > 0 && |fits[k + 1]| > 0
    && var t := Last(fits[k]);
       && |t.images| == |t.estimates|
       && x.s.scales[k] != 0.0
       && Last(fits[k + 1]).estimates
          == Propagated(Descended(x.c.descend, x.s.configs[k], fits[k], t.images, t.estimates), x.s.scales[k + 1] / x.s.scales[k])
  }

  /**
   * In a scale loop that completes, each stage is trained on the shapes the
   * stage before it carried on; the first stage of the loop, from scale 1
   * on, is trained on the shapes carried into it.
   */
  lemma {:induction false} ScalesPropagated(x: ScaleContext, j: nat, estimates: Estimates, fits: seq<seq<TrainingSet>>, events: seq<Event>)
    requires x.s.WellFormed() && j <= |x.s.scales| && |fits| == |x.s.scales|
    requires j > 0 ==> |estimates| == |x.images| && forall i :: 0 <= i < |estimates| ==> |estimates[i]| == |x.keys|
    requires RunScales(x, j, estimates, fits, events).error.None?
    ensures var r := RunScales(x, j, estimates, fits, events);
      && (0 < j < |fits| ==> |r.fits[j]| > 0 && Last(r.fits[j]).estimates == estimates)
      && (forall k :: j <= k && k + 1 < |fits| ==> CarriedOn(x, k, r.fits))
    decreases |x.s.scales| - j
  {
    var n := |x.s.scales|;
    if j < n {
      var r := RunScales(x, j, estimates, fits, events);
      var p := PassAt(x, j, estimates, fits, events);
      PassCarried(x, j, estimates, fits, events);
      PassLogged(x, j, estimates, fits, events);
      RunScalesStep(x, j, estimates, fits, events, p);
      if j + 1 < n {
        assert r == RunScales(x, j + 1, p.estimates, p.fits, p.events);
        ScalesRefitted(x, j + 1, p.estimates, p.fits, p.events);
        ScalesPropagated(x, j + 1, p.estimates, p.fits, p.events);
        forall k | j <= k && k + 1 < n
          ensures CarriedOn(x, k, r.fits)
        {
          if k == j {
            CarriedFirst(x, j, estimates, fits, events, r.fits);
          } else {
            assert CarriedOn(x, k, RunScales(x, j + 1, p.estimates, p.fits, p.events).fits);
          }
        }
      }
    }
  }

  /** Local proof helper: the first pass's carried shapes are what the next stage is trained on. */
  lemma CarriedFirst(x: ScaleContext, j: nat, estimates: Estimates, fits: seq<seq<TrainingSet>>, events: seq<Event>,
                     after: seq<seq<TrainingSet>>)
    requires x.s.WellFormed() && j + 1 < |x.s.scales| && |fits| == |x.s.scales| && |after| == |fits|
    requires j > 0 ==> |estimates| == |x.images| && forall i :: 0 <= i < |estimates| ==> |estimates[i]| == |x.keys|
    requires PassAt(x, j, estimates, fits, events).error.None?
    requires after[j] == PassAt(x, j, estimates, fits, events).fits[j]
    requires |after[j + 1]| > 0 && Last(after[j + 1]).estimates == PassAt(x, j, estimates, fits, events).estimates
    ensures CarriedOn(x, j, after)
  {
    PassCarried(x, j, estimates, fits, events);
  }

  /** A scale loop stops on a zero scale factor only before the last scale, whose shapes are never carried on. */
  lemma {:induction false} ZeroScaleBeforeLast(x: ScaleContext, j: nat, estimates: Estimates, fits: seq<seq<TrainingSet>>, events: seq<Event>, k: nat)
    requires x.s.WellFormed() && j <= |x.s.scales| && |fits| == |x.s.scales|
    requires j > 0 ==> |estimates| == |x.images|
    requires RunScales(x, j, estimates, fits, events).error == Some(ZeroScale(k))
    ensures j <= k && k + 1 < |x.s.scales| && x.s.scales[k] == 0.0
    decreases |x.s.scales| - j
  {
    if j < |x.s.scales| {
      var p := ScaleStepOf(x, j, estimates, fits, events);
      if p.error.None? && j + 1 < |x.s.scales| {
        ZeroScaleBeforeLast(x, j + 1, p.estimates, p.fits, p.events, k);
      }
    }
  }

  /** Local proof helper: the pass at scale `j`, and what it leaves of the scale loop, without its body. */
  lemma ScaleStepOf(x: ScaleContext, j: nat, estimates: Estimates, fits: seq<seq<TrainingSet>>, events: seq<Event>)
    returns (p: ScalePass)
    requires x.s.WellFormed() && j < |x.s.scales| && |fits| == |x.s.scales|
    requires j > 0 ==> |estimates| == |x.images|
    ensures p.error.Some? && p.error.value.ZeroScale? ==> p.error.value.scale == j && j + 1 < |x.s.scales| && x.s.scales[j] == 0.0
    ensures p.error.None? ==> |p.fits| == |x.s.scales| && |p.estimates| == |x.images|
    ensures p.error.Some? || j + 1 == |x.s.scales| ==> RunScales(x, j, estimates, fits, events) == ScaleRun(p.fits, p.events, p.error)
    ensures p.error.None? && j + 1 < |x.s.scales| ==> RunScales(x, j, estimates, fits, events) == RunScales(x, j + 1, p.estimates, p.fits, p.events)
  {
    p := PassAt(x, j, estimates, fits, events);
    RunScalesStep(x, j, estimates, fits, events, p);
  }

  // ----- the batch loop -----

  /** One completed batch: its group, then its scales in order. */
  function BatchLog(s: Settings, group: string, incremented: bool): seq<Event>
    requires s.WellFormed()
  {
    [BatchStarted(group)] + ScalesFrom(s, 0, incremented)
  }

  /** Batches `k..n-1` completed with one group, the first in `increment` mode only if `increment` or `k > 0`. */
  function TrainLog(s: Settings, group: string, k: nat, n: nat, increment: bool): seq<Event>
    requires s.WellFormed()
    decreases n - k
  {
    if k >= n then [] else BatchLog(s, group, increment || k > 0) + TrainLog(s, group, k + 1, n, increment)
  }

  /**
   * A completed run, from batch `k` on: the events are the batches in order,
   * every one under the group latched at batch `k`, the first of them in
   * `increment` mode exactly when `increment` or `k > 0`, the rest always.
   */
  lemma {:induction false} TrainingEvents(c: Collaborators, s: Settings, st: FitterState, batches: seq<seq<ImageData>>,
                                          group: Option<string>, boundingBoxGroup: Option<string>, increment: bool,
                                          k: nat, events: seq<Event>)
    requires s.WellFormed() && |st.fits| == |s.scales| && k < |batches|
    requires RunBatches(c, s, st, batches, group, boundingBoxGroup, increment, k, events).error.None?
    ensures LatchedGroup(group, batches[k]).Ok?
    ensures RunBatches(c, s, st, batches, group, boundingBoxGroup, increment, k, events).events
         == events + TrainLog(s, LatchedGroup(group, batches[k]).value, k, |batches|, increment)
    decreases |batches| - k
  {
    var g := LatchedGroup(group, batches[k]).value;
    var inc := increment || k > 0;
    var rb := RunBatch(c, s, st, batches[k], g, boundingBoxGroup, inc, events);
    BatchesStep(c, s, st, batches, group, boundingBoxGroup, increment, k, events);
    BatchSucceeded(c, s, st, batches[k], g, boundingBoxGroup, inc, events);
    if k + 1 < |batches| {
      TrainingEvents(c, s, rb.state, batches, Some(g), boundingBoxGroup, increment, k + 1, rb.events);
      AppendAssociates(events, BatchLog(s, g, inc), TrainLog(s, g, k + 1, |batches|, increment));
    } else {
      assert TrainLog(s, g, k + 1, |batches|, increment) == [];
    }
  }

  /**
   * A completed run keeps a reference shape that is already present, and
   * otherwise sets it from the ground-truth shapes of its first batch.
   */
  lemma {:induction false} ReferenceShapeLatched(c: Collaborators, s: Settings, st: FitterState, batches: seq<seq<ImageData>>,
                                                 group: Option<string>, boundingBoxGroup: Option<string>, increment: bool,
                                                 k: nat, events: seq<Event>)
    requires s.WellFormed() && |st.fits| == |s.scales| && k < |batches|
    requires RunBatches(c, s, st, batches, group, boundingBoxGroup, increment, k, events).error.None?
    ensures LatchedGroup(group, batches[k]).Ok?
    ensures var r := RunBatches(c, s, st, batches, group, boundingBoxGroup, increment, k, events);
      var g := LatchedGroup(group, batches[k]).value;
      && (st.referenceShape.Some? ==> r.state.referenceShape == st.referenceShape)
      && (st.referenceShape.None? ==> GroundTruths(batches[k], g).Ok?)
      && (st.referenceShape.None? ==>
            r.state.referenceShape == Some(c.computeReferenceShape(GroundTruths(batches[k], g).value, s.diagonal)))
    decreases |batches| - k
  {
    var g := LatchedGroup(group, batches[k]).value;
    var inc := increment || k > 0;
    var rb := RunBatch(c, s, st, batches[k], g, boundingBoxGroup, inc, events);
    BatchesStep(c, s, st, batches, group, boundingBoxGroup, increment, k, events);
    BatchSucceeded(c, s, st, batches[k], g, boundingBoxGroup, inc, events);
    if k + 1 < |batches| {
      ReferenceShapeLatched(c, s, rb.state, batches, Some(g), boundingBoxGroup, increment, k + 1, rb.events);
    }
  }

  /**
   * A completed run adds one training set per batch to the fit of every
   * stage `j`; the fit held before is kept only when the first batch
   * increments, and is otherwise discarded by the first batch's `train`.
   */
  lemma {:induction false} StageFitAccumulates(c: Collaborators, s: Settings, st: FitterState, batches: seq<seq<ImageData>>,
                                               group: Option<string>, boundingBoxGroup: Option<string>, increment: bool,
                                               k: nat, events: seq<Event>, j: nat)
    requires s.WellFormed() && |st.fits| == |s.scales| && k < |batches| && j < |st.fits|
    requires RunBatches(c, s, st, batches, group, boundingBoxGroup, increment, k, events).error.None?
    ensures var fit := RunBatches(c, s, st, batches, group, boundingBoxGroup, increment, k, events).state.fits[j];
      && |fit| == (if increment || k > 0 then |st.fits[j]| else 0) + (|batches| - k)
      && (increment || k > 0 ==> fit[..|st.fits[j]|] == st.fits[j])
    decreases |batches| - k
  {
    var g := LatchedGroup(group, batches[k]).value;
    var inc := increment || k > 0;
    var rb := RunBatch(c, s, st, batches[k], g, boundingBoxGroup, inc, events);
    var fit := RunBatches(c, s, st, batches, group, boundingBoxGroup, increment, k, events).state.fits[j];
    BatchesStep(c, s, st, batches, group, boundingBoxGroup, increment, k, events);
    BatchFit(c, s, st, batches[k], g, boundingBoxGroup, inc, events, j);
    var mid := rb.state.fits[j];
    assert |mid| > 0;
    if k + 1 < |batches| {
      StageFitAccumulates(c, s, rb.state, batches, Some(g), boundingBoxGroup, increment, k + 1, rb.events, j);
      if inc {
        assert mid[..|st.fits[j]|] == st.fits[j];
        assert fit[..|mid|] == mid;
      }
    }
  }

  /**
   * `t` is what stage `j` is trained on when `batch` is rescaled to
   * `reference` and given its boxes with `nPerturbations` as the fitter's count.
   */
  ghost predicate TrainedOnPrepared(c: Collaborators, s: Settings, batch: seq<ImageData>, group: string,
                                    boundingBoxGroup: Option<string>, reference: Shape, nPerturbations: int,
                                    incremented: bool, j: nat, t: TrainingSet)
    requires s.WellFormed() && j < |s.scales|
  {
    var p := PreparedImages(c, s.perturb, nPerturbations, batch, group, boundingBoxGroup, reference);
    p.Ok? && TrainedOnBatch(BatchContext(c, s, p.value, group, reference, incremented), j, t)
  }

  /** `t` is what stage `j` is trained on for `batch`, with whatever perturbation count the fitter holds then. */
  ghost predicate TrainedOnBatchOf(c: Collaborators, s: Settings, batch: seq<ImageData>, group: string,
                                   boundingBoxGroup: Option<string>, reference: Shape, incremented: bool, j: nat, t: TrainingSet)
    requires s.WellFormed() && j < |s.scales|
  {
    exists n: int :: TrainedOnPrepared(c, s, batch, group, boundingBoxGroup, reference, n, incremented, j, t)
  }

  /**
   * Entry `|fit| - (|batches| - b)` of `fit` is stage `j`'s training set of
   * batch `b`, rescaled to `reference`, under `group`, and in `increment`
   * mode exactly when `increment` or `b` is not the first batch.
   */
  ghost predicate BatchEntry(c: Collaborators, s: Settings, batches: seq<seq<ImageData>>, group: string,
                             boundingBoxGroup: Option<string>, reference: Shape, increment: bool,
                             b: int, j: nat, fit: seq<TrainingSet>)
    requires s.WellFormed() && j < |s.scales|
  {
    && 0 <= b < |batches| && |fit| >= |batches| - b
    && TrainedOnBatchOf(c, s, batches[b], group, boundingBoxGroup, reference, increment || b > 0, j, fit[|fit| - (|batches| - b)])
  }

  /** The last `|batches| - k` entries of `fit` are, in order, stage `j`'s training sets of batches `k, k + 1, ...`. */
  ghost predicate FitFromBatches(c: Collaborators, s: Settings, batches: seq<seq<ImageData>>, group: string,
                                 boundingBoxGroup: Option<string>, reference: Shape, increment: bool,
                                 k: nat, j: nat, fit: seq<TrainingSet>)
    requires s.WellFormed() && j < |s.scales| && k <= |batches|
  {
    && |fit| >= |batches| - k
    && (forall b :: k <= b < |batches| ==> BatchEntry(c, s, batches, group, boundingBoxGroup, reference, increment, b, j, fit))
  }

  /** Local proof helper: the entry for batch `k` in front of those for the batches after it. */
  lemma FitFromBatchesCons(c: Collaborators, s: Settings, batches: seq<seq<ImageData>>, group: string,
                           boundingBoxGroup: Option<string>, reference: Shape, increment: bool,
                           k: nat, j: nat, fit: seq<TrainingSet>, t: TrainingSet)
    requires s.WellFormed() && j < |s.scales| && k < |batches| && |fit| >= |batches| - k
    requires k + 1 < |batches| ==> FitFromBatches(c, s, batches, group, boundingBoxGroup, reference, increment, k + 1, j, fit)
    requires fit[|fit| - (|batches| - k)] == t
    requires TrainedOnBatchOf(c, s, batches[k], group, boundingBoxGroup, reference, increment || k > 0, j, t)
    ensures FitFromBatches(c, s, batches, group, boundingBoxGroup, reference, increment, k, j, fit)
  {
    forall b | k <= b < |batches|
      ensures BatchEntry(c, s, batches, group, boundingBoxGroup, reference, increment, b, j, fit)
    {
      if b == k {
        assert batches[b] == batches[k] && fit[|fit| - (|batches| - b)] == t;
      }
    }
  }

  /**
   * A completed run appends to the fit of every stage `j` one training set
   * per batch, in batch order, each taken from its batch under the group
   * latched at batch `k` and the run's reference shape.
   */
  lemma {:induction false} StageFitBatches(c: Collaborators, s: Settings, st: FitterState, batches: seq<seq<ImageData>>,
                                           group: Option<string>, boundingBoxGroup: Option<string>, increment: bool,
                                           k: nat, events: seq<Event>, j: nat)
    requires s.WellFormed() && |st.fits| == |s.scales| && k < |batches| && j < |st.fits|
    requires RunBatches(c, s, st, batches, group, boundingBoxGroup, increment, k, events).error.None?
    ensures LatchedGroup(group, batches[k]).Ok?
    ensures var r := RunBatches(c, s, st, batches, group, boundingBoxGroup, increment, k, events);
      && r.state.referenceShape.Some?
      && FitFromBatches(c, s, batches, LatchedGroup(group, batches[k]).value, boundingBoxGroup,
                        r.state.referenceShape.value, increment, k, j, r.state.fits[j])
    decreases |batches| - k
  {
    var g, reference, next, nextEvents := FirstBatchEntry(c, s, st, batches, group, boundingBoxGroup, increment, k, events, j);
    var r := RunBatches(c, s, st, batches, group, boundingBoxGroup, increment, k, events);
    var later := r;
    if k + 1 < |batches| {
      later := RunBatches(c, s, next, batches, Some(g), boundingBoxGroup, increment, k + 1, nextEvents);
      LaterBatchesKeep(c, s, next, batches, g, boundingBoxGroup, increment, k, nextEvents, j);
      StageFitBatches(c, s, next, batches, Some(g), boundingBoxGroup, increment, k + 1, nextEvents, j);
    }
    EntryAt(r, later, next, nextEvents, |batches|, k, j, reference);
    FitFromBatchesCons(c, s, batches, g, boundingBoxGroup, reference, increment, k, j, r.state.fits[j], Last(next.fits[j]));
  }

  /**
   * Local proof helper: the group batch `k` latches, the state and events it
   * leaves, with the reference shape it latches and the training set it adds
   * last to stage `j`, and the run of the batches after it from there.
   */
  lemma FirstBatchEntry(c: Collaborators, s: Settings, st: FitterState, batches: seq<seq<ImageData>>,
                        group: Option<string>, boundingBoxGroup: Option<string>, increment: bool,
                        k: nat, events: seq<Event>, j: nat)
    returns (g: string, reference: Shape, next: FitterState, nextEvents: seq<Event>)
    requires s.WellFormed() && |st.fits| == |s.scales| && k < |batches| && j < |st.fits|
    requires RunBatches(c, s, st, batches, group, boundingBoxGroup, increment, k, events).error.None?
    ensures LatchedGroup(group, batches[k]) == Ok(g)
    ensures next.referenceShape == Some(reference) && |next.fits| == |s.scales| && |next.fits[j]| > 0
    ensures TrainedOnBatchOf(c, s, batches[k], g, boundingBoxGroup, reference, increment || k > 0, j, Last(next.fits[j]))
    ensures var r := RunBatches(c, s, st, batches, group, boundingBoxGroup, increment, k, events);
      if k + 1 < |batches|
      then r == RunBatches(c, s, next, batches, Some(g), boundingBoxGroup, increment, k + 1, nextEvents) && r.error.None?
      else r == Run(next, nextEvents, None)
    ensures k + 1 < |batches| ==> LatchedGroup(Some(g), batches[k + 1]) == Ok(g)
  {
    g := LatchedGroup(group, batches[k]).value;
    BatchesStep(c, s, st, batches, group, boundingBoxGroup, increment, k, events);
    reference := BatchReference(c, s, st, batches[k], g, boundingBoxGroup, increment || k > 0, events, j);
    var rb := RunBatch(c, s, st, batches[k], g, boundingBoxGroup, increment || k > 0, events);
    next, nextEvents := rb.state, rb.events;
    var reference', t := BatchTrainedOn(c, s, st, batches[k], g, boundingBoxGroup, increment || k > 0, events, j);
    assert TrainedOnPrepared(c, s, batches[k], g, boundingBoxGroup, reference, st.nPerturbations, increment || k > 0, j, t);
  }

  /**
   * Local proof helper: once batch `k` has left state `next`, the entry it
   * added last to stage `j` sits `n - k` places from the end of the run's
   * final fit `r`, whether the batches after it (run `later`) follow or not.
   */
  lemma EntryAt(r: Run, later: Run, next: FitterState, nextEvents: seq<Event>, n: int, k: nat, j: nat, reference: Shape)
    requires j < |next.fits| && |next.fits[j]| > 0 && k < n
    requires k + 1 < n ==> r == later
    requires k + 1 < n ==>
      && j < |later.state.fits|
      && later.state.referenceShape == next.referenceShape
      && |later.state.fits[j]| >= n - k
      && later.state.fits[j][|later.state.fits[j]| - (n - k)] == Last(next.fits[j])
    requires k + 1 == n ==> r == Run(next, nextEvents, None)
    ensures j < |r.state.fits| && r.state.referenceShape == next.referenceShape
    ensures var fit := r.state.fits[j]; |fit| >= n - k && fit[|fit| - (n - k)] == Last(next.fits[j])
  {
  }

  /** Local proof helper: a completed batch latches a reference shape and leaves stage `j` fitted. */
  lemma BatchReference(c: Collaborators, s: Settings, st: FitterState, batch: seq<ImageData>, group: string,
                       boundingBoxGroup: Option<string>, incremented: bool, events: seq<Event>, j: nat)
    returns (reference: Shape)
    requires s.WellFormed() && |st.fits| == |s.scales| && j < |st.fits|
    requires RunBatch(c, s, st, batch, group, boundingBoxGroup, incremented, events).error.None?
    ensures var r := RunBatch(c, s, st, batch, group, boundingBoxGroup, incremented, events);
      r.state.referenceShape == Some(reference) && |r.state.fits[j]| > 0
  {
    var reference', t := BatchTrainedOn(c, s, st, batch, group, boundingBoxGroup, incremented, events, j);
    reference := reference';
  }

  /**
   * Local proof helper: the batches from `k` on keep the reference shape and
   * the fit that the batches before them leave.
   */
  lemma LaterBatchesKeep(c: Collaborators, s: Settings, st: FitterState, batches: seq<seq<ImageData>>, group: string,
                         boundingBoxGroup: Option<string>, increment: bool, k: nat, events: seq<Event>, j: nat)
    requires s.WellFormed() && |st.fits| == |s.scales| && k + 1 < |batches| && j < |st.fits|
    requires st.referenceShape.Some? && |st.fits[j]| > 0
    requires RunBatches(c, s, st, batches, Some(group), boundingBoxGroup, increment, k + 1, events).error.None?
    ensures var fit := RunBatches(c, s, st, batches, Some(group), boundingBoxGroup, increment, k + 1, events).state.fits[j];
      && RunBatches(c, s, st, batches, Some(group), boundingBoxGroup, increment, k + 1, events).state.referenceShape == st.referenceShape
      && |fit| >= |batches| - k
      && fit[|fit| - (|batches| - k)] == Last(st.fits[j])
  {
    StageFitAccumulates(c, s, st, batches, Some(group), boundingBoxGroup, increment, k + 1, events, j);
    ReferenceShapeLatched(c, s, st, batches, Some(group), boundingBoxGroup, increment, k + 1, events);
    var fit := RunBatches(c, s, st, batches, Some(group), boundingBoxGroup, increment, k + 1, events).state.fits[j];
    assert fit[..|st.fits[j]|] == st.fits[j];
    assert |fit| - (|batches| - k) == |st.fits[j]| - 1;
    assert fit[|st.fits[j]| - 1] == fit[..|st.fits[j]|][|st.fits[j]| - 1];
  }

  /**
   * Stage `j`'s newest training set after a completed batch is the batch
   * rescaled to the latched reference shape and given its boxes with the
   * fitter's perturbation count.
   */
  lemma BatchTrainedOn(c: Collaborators, s: Settings, st: FitterState, batch: seq<ImageData>, group: string,
                       boundingBoxGroup: Option<string>, incremented: bool, events: seq<Event>, j: nat)
    returns (reference: Shape, t: TrainingSet)
    requires s.WellFormed() && |st.fits| == |s.scales| && j < |st.fits|
    requires RunBatch(c, s, st, batch, group, boundingBoxGroup, incremented, events).error.None?
    ensures var r := RunBatch(c, s, st, batch, group, boundingBoxGroup, incremented, events);
      && LatchedReference(c, s, st.referenceShape, batch, group) == Ok(reference)
      && r.state.referenceShape == Some(reference)
      && |r.state.fits[j]| > 0 && t == Last(r.state.fits[j])
      && TrainedOnPrepared(c, s, batch, group, boundingBoxGroup, reference, st.nPerturbations, incremented, j, t)
  {
    BatchSucceeded(c, s, st, batch, group, boundingBoxGroup, incremented, events);
    reference := LatchedReference(c, s, st.referenceShape, batch, group).value;
    t := Last(RunBatch(c, s, st, batch, group, boundingBoxGroup, incremented, events).state.fits[j]);
  }

  lemma BatchFit(c: Collaborators, s: Settings, st: FitterState, batch: seq<ImageData>, group: string,
                 boundingBoxGroup: Option<string>, incremented: bool, events: seq<Event>, j: nat)
    requires s.WellFormed() && |st.fits| == |s.scales| && j < |st.fits|
    requires RunBatch(c, s, st, batch, group, boundingBoxGroup, incremented, events).error.None?
    ensures var fit := RunBatch(c, s, st, batch, group, boundingBoxGroup, incremented, events).state.fits[j];
      |fit| == (if incremented then |st.fits[j]| else 0) + 1 && (incremented ==> fit[..|st.fits[j]|] == st.fits[j])
  {
    BatchSucceeded(c, s, st, batch, group, boundingBoxGroup, incremented, events);
  }

  /** One step of the batch loop that does not stop the run. */
  lemma BatchesStep(c: Collaborators, s: Settings, st: FitterState, batches: seq<seq<ImageData>>,
                    group: Option<string>, boundingBoxGroup: Option<string>, increment: bool,
                    k: nat, events: seq<Event>)
    requires s.WellFormed() && |st.fits| == |s.scales| && k < |batches|
    requires RunBatches(c, s, st, batches, group, boundingBoxGroup, increment, k, events).error.None?
    ensures LatchedGroup(group, batches[k]).Ok?
    ensures var g := LatchedGroup(group, batches[k]).value;
      var rb := RunBatch(c, s, st, batches[k], g, boundingBoxGroup, increment || k > 0, events);
      && rb.error.None?
      && RunBatches(c, s, st, batches, group, boundingBoxGroup, increment, k, events)
         == RunBatches(c, s, rb.state, batches, Some(g), boundingBoxGroup, increment, k + 1, rb.events)
      && TrainLog(s, g, k, |batches|, increment) == BatchLog(s, g, increment || k > 0) + TrainLog(s, g, k + 1, |batches|, increment)
      && (k + 1 == |batches| ==>
            RunBatches(c, s, st, batches, group, boundingBoxGroup, increment, k, events) == Run(rb.state, rb.events, None))
  {
  }

  /**
   * One completed batch once the reference shape is latched: the batch is
   * prepared with the fitter's perturbation count, the count becomes the one
   * the bounding-box step settles on, and every stage is refitted on the
   * prepared batch.
   */
  lemma ReferencedSucceeded(c: Collaborators, s: Settings, st: FitterState, batch: seq<ImageData>, group: string,
                            boundingBoxGroup: Option<string>, incremented: bool, events: seq<Event>)
    requires s.WellFormed() && |st.fits| == |s.scales| && st.referenceShape.Some?
    requires RunReferenced(c, s, st, batch, group, boundingBoxGroup, incremented, events).error.None?
    ensures var r := RunReferenced(c, s, st, batch, group, boundingBoxGroup, incremented, events);
      var reference := st.referenceShape.value;
      var p := PreparedImages(c, s.perturb, st.nPerturbations, batch, group, boundingBoxGroup, reference);
      && p.Ok?
      && r.events == events + ScalesFrom(s, 0, incremented)
      && r.state.referenceShape == st.referenceShape
      && r.state.nPerturbations == p.value.boxes.nPerturbations
      && (forall j :: 0 <= j < |st.fits| ==>
            Refitted(BatchContext(c, s, p.value, group, reference, incremented), j, st.fits[j], r.state.fits[j]))
      && (forall k :: 0 <= k && k + 1 < |st.fits| ==>
            CarriedOn(BatchContext(c, s, p.value, group, reference, incremented), k, r.state.fits))
  {
    var reference := st.referenceShape.value;
    var p := PreparedImages(c, s.perturb, st.nPerturbations, batch, group, boundingBoxGroup, reference);
    assert p.Ok?;
    var x := BatchContext(c, s, p.value, group, reference, incremented);
    var r := RunScales(x, 0, [], st.fits, events);
    assert RunReferenced(c, s, st, batch, group, boundingBoxGroup, incremented, events)
        == Run(FitterState(Some(reference), p.value.boxes.nPerturbations, r.fits), r.events, r.error);
    ScalesSucceeded(x, 0, [], st.fits, events);
    ScalesPropagated(x, 0, [], st.fits, events);
  }

  /**
   * One completed batch: its events, the reference shape it latches, the
   * perturbation count its bounding-box step settles on, and one more (or,
   * when training, a single) training set per stage, taken from the batch as
   * rescaled and given its boxes.
   */
  lemma BatchSucceeded(c: Collaborators, s: Settings, st: FitterState, batch: seq<ImageData>, group: string,
                       boundingBoxGroup: Option<string>, incremented: bool, events: seq<Event>)
    requires s.WellFormed() && |st.fits| == |s.scales|
    requires RunBatch(c, s, st, batch, group, boundingBoxGroup, incremented, events).error.None?
    ensures var r := RunBatch(c, s, st, batch, group, boundingBoxGroup, incremented, events);
      && r.events == events + BatchLog(s, group, incremented)
      && LatchedReference(c, s, st.referenceShape, batch, group).Ok?
      && var reference := LatchedReference(c, s, st.referenceShape, batch, group).value;
         var p := PreparedImages(c, s.perturb, st.nPerturbations, batch, group, boundingBoxGroup, reference);
         && r.state.referenceShape == Some(reference)
         && p.Ok?
         && r.state.nPerturbations == p.value.boxes.nPerturbations
         && (forall j :: 0 <= j < |st.fits| ==>
               Refitted(BatchContext(c, s, p.value, group, reference, incremented), j, st.fits[j], r.state.fits[j]))
         && (forall k :: 0 <= k && k + 1 < |st.fits| ==>
               CarriedOn(BatchContext(c, s, p.value, group, reference, incremented), k, r.state.fits))
  {
    var latched := LatchedReference(c, s, st.referenceShape, batch, group);
    assert latched.Ok?;
    var reference := latched.value;
    var started := events + [BatchStarted(group)];
    var st' := st.(referenceShape := Some(reference));
    assert RunBatch(c, s, st, batch, group, boundingBoxGroup, incremented, events)
        == RunReferenced(c, s, st', batch, group, boundingBoxGroup, incremented, started);
    ReferencedSucceeded(c, s, st', batch, group, boundingBoxGroup, incremented, started);
    AppendAssociates(events, [BatchStarted(group)], ScalesFrom(s, 0, incremented));
  }

  // ----- the schedule of a completed run -----

  lemma BatchStageCalls(s: Settings, group: string, incremented: bool)
    requires s.WellFormed()
    ensures StageCalls(BatchLog(s, group, incremented)) == StageSchedule(0, |s.scales|, incremented)
  {
    StageCallsAppend([BatchStarted(group)], ScalesFrom(s, 0, incremented));
    StageCallsSingle(BatchStarted(group));
    ScaleStageCalls(s, 0, incremented);
  }

  /** Batches `k..n-1` each calling stages `0..m-1` in order, the first in `increment` mode only if `increment` or `k > 0`. */
  function RunSchedule(m: nat, k: nat, n: nat, increment: bool): seq<Event>
    decreases n - k
  {
    if k >= n then [] else StageSchedule(0, m, increment || k > 0) + RunSchedule(m, k + 1, n, increment)
  }

  lemma {:induction false} TrainingCallsScheduled(s: Settings, group: string, k: nat, n: nat, increment: bool)
    requires s.WellFormed()
    ensures StageCalls(TrainLog(s, group, k, n, increment)) == RunSchedule(|s.scales|, k, n, increment)
    decreases n - k
  {
    if k < n {
      BatchStageCalls(s, group, increment || k > 0);
      StageCallsAppend(BatchLog(s, group, increment || k > 0), TrainLog(s, group, k + 1, n, increment));
      TrainingCallsScheduled(s, group, k + 1, n, increment);
    }
  }

  lemma {:induction false} RunScheduleLength(m: nat, k: nat, n: nat, increment: bool)
    requires k <= n
    ensures |RunSchedule(m, k, n, increment)| == (n - k) * m
    decreases n - k
  {
    if k < n {
      RunScheduleLength(m, k + 1, n, increment);
      MultiplyStep(n, k, m);
    }
  }

  lemma RunScheduleAt(m: nat, k: nat, n: nat, increment: bool, b: nat, j: nat)
    requires k <= b < n && j < m
    ensures (b - k) * m + j < |RunSchedule(m, k, n, increment)|
    ensures RunSchedule(m, k, n, increment)[(b - k) * m + j] == StageCalled(j, increment || b > 0)
  {
    ScheduleAtOffset(m, k, n, increment, b, j);
    OffsetIsProduct(b - k, m);
  }

  /** Where the calls of the batch `a` places after the first start in the schedule, counted without multiplying. */
  function BatchOffset(a: nat, m: nat): nat
  {
    if a == 0 then 0 else m + BatchOffset(a - 1, m)
  }

  /** Local proof helper: the offset of batch `a` is `a * m`. */
  lemma {:induction false} OffsetIsProduct(a: nat, m: nat)
    ensures BatchOffset(a, m) == a * m
  {
    if a > 0 {
      OffsetIsProduct(a - 1, m);
    }
  }

  /** Local proof helper: `RunScheduleAt` with the offset counted batch by batch. */
  lemma {:induction false} ScheduleAtOffset(m: nat, k: nat, n: nat, increment: bool, b: nat, j: nat)
    requires k <= b < n && j < m
    ensures BatchOffset(b - k, m) + j < |RunSchedule(m, k, n, increment)|
    ensures RunSchedule(m, k, n, increment)[BatchOffset(b - k, m) + j] == StageCalled(j, increment || b > 0)
    decreases n - k
  {
    var schedule := StageSchedule(0, m, increment || k > 0);
    var rest := RunSchedule(m, k + 1, n, increment);
    assert RunSchedule(m, k, n, increment) == schedule + rest;
    if b > k {
      ScheduleAtOffset(m, k + 1, n, increment, b, j);
      assert b - k - 1 == b - (k + 1);
      assert BatchOffset(b - k, m) + j == |schedule| + (BatchOffset(b - (k + 1), m) + j);
    }
  }

  /** A completed run of `n - k` batches calls `n_scales` stages per batch. */
  lemma TrainingStageCallCount(s: Settings, group: string, k: nat, n: nat, increment: bool)
    requires s.WellFormed() && k <= n
    ensures |StageCalls(TrainLog(s, group, k, n, increment))| == (n - k) * |s.scales|
  {
    TrainingCallsScheduled(s, group, k, n, increment);
    RunScheduleLength(|s.scales|, k, n, increment);
  }

  /**
   * In a completed run the stage calls come batch by batch and, within a
   * batch, scale by scale: call `b * n_scales + j` goes to stage `j` of batch
   * `b`, and is `train` exactly when `b` is the first batch and the run was
   * not asked to increment.
   */
  lemma TrainingStageCalls(s: Settings, group: string, k: nat, n: nat, increment: bool, b: nat, j: nat)
    requires s.WellFormed() && k <= b < n && j < |s.scales|
    ensures (b - k) * |s.scales| + j < |StageCalls(TrainLog(s, group, k, n, increment))|
    ensures StageCalls(TrainLog(s, group, k, n, increment))[(b - k) * |s.scales| + j] == StageCalled(j, increment || b > 0)
  {
    TrainingCallsScheduled(s, group, k, n, increment);
    RunScheduleAt(|s.scales|, k, n, increment, b, j);
  }

  /**
   * Local proof helper: one step of unfolding a product, kept apart so that
   * the schedule proofs need no nonlinear arithmetic in their own context.
   */
  lemma MultiplyStep(b: nat, k: nat, m: nat)
    requires k <= b
    ensures b == k ==> (b - k) * m == 0
    ensures b > k ==> (b - k) * m == m + (b - (k + 1)) * m
  {
  }

  lemma {:induction false} NoBatchStartsInScales(s: Settings, j: nat, incremented: bool)
    requires s.WellFormed() && j <= |s.scales|
    ensures forall e :: e in ScalesFrom(s, j, incremented) ==> !e.BatchStarted?
    decreases |s.scales| - j
  {
    if j < |s.scales| {
      NoBatchStartsInScales(s, j + 1, incremented);
    }
  }

  /** Every batch of a completed run starts under the one group latched by its first batch. */
  lemma {:induction false} BatchesShareGroup(s: Settings, group: string, k: nat, n: nat, increment: bool)
    requires s.WellFormed()
    ensures forall e :: e in TrainLog(s, group, k, n, increment) && e.BatchStarted? ==> e == BatchStarted(group)
    decreases n - k
  {
    if k < n {
      NoBatchStartsInScales(s, 0, increment || k > 0);
      BatchesShareGroup(s, group, k + 1, n, increment);
    }
  }
}
