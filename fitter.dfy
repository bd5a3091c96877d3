/**
 * `SupervisedDescentFitter` (fitter.py lines 20-233): the stateful training
 * orchestrator, proved to follow the specification of a training run in
 * module `Training`.
 */
module Fitter {
  import opened Wrappers
  import opened Geometry
  import opened Landmarks
  import opened Images
  import opened Interfaces
  import opened BoundingBoxes
  import opened Batching
  import opened Stages
  import opened Pyramid
  import opened Training

  // ----- steps on the batch's image copies -----

  /** Lines 106-108: one fresh image object per image, holding its rescaled copy. */
  method Rescale(batch: seq<ImageData>, group: string, reference: Shape, c: Collaborators)
    returns (images: seq<LandmarkedImage>)
    ensures |images| == |batch| && Distinct(images)
    ensures forall i :: 0 <= i < |images| ==> fresh(images[i])
    ensures Values(images) == Rescaled(c, batch, group, reference)
  {
    images := [];
    var i := 0;
    while i < |batch|
      invariant 0 <= i <= |batch| && |images| == i && Distinct(images)
      invariant forall k :: 0 <= k < i ==> fresh(images[k])
      invariant forall k :: 0 <= k < i ==> images[k].Value() == c.rescaleToReference(batch[k], group, reference)
    {
      var image := new LandmarkedImage(c.rescaleToReference(batch[i], group, reference));
      images := images + [image];
      i := i + 1;
    }
  }

  /** Lines 116-119: store each image's ground-truth bounding box under `'__gt_bb_0'`. */
  method SeedGroundTruthBoxes(batch: seq<LandmarkedImage>, group: string, boundingBox: Shape -> Shape)
    returns (error: Option<TrainError>)
    requires Distinct(batch)
    modifies batch
    ensures var spec := MapResult(old(LandmarksOf(batch)), (l: Landmarks) => WithGroundTruthBox(l, group, boundingBox));
      && (spec.Err? ==> error == Some(spec.error))
      && (spec.Ok? ==> error.None? && LandmarksOf(batch) == spec.value)
  {
    ghost var before := LandmarksOf(batch);
    ghost var f := (l: Landmarks) => WithGroundTruthBox(l, group, boundingBox);
    var i := 0;
    while i < |batch|
      invariant 0 <= i <= |batch|
      invariant forall k :: 0 <= k < i ==> f(before[k]) == Ok(batch[k].landmarks)
      invariant forall k :: i <= k < |batch| ==> batch[k].landmarks == before[k]
    {
      error := SeedGroundTruthBox(batch[i], group, boundingBox);
      if error.Some? {
        assert MapResult(before, f) == Err(error.value) by {
          MapResultFirstError(before, f, i);
        }
        return;
      }
      i := i + 1;
    }
    assert MapResult(before, f) == Ok(LandmarksOf(batch)) by {
      MapResultAllOk(before, f, LandmarksOf(batch));
    }
    return None;
  }

  /** Lines 117-119 on one image. */
  method SeedGroundTruthBox(image: LandmarkedImage, group: string, boundingBox: Shape -> Shape)
    returns (error: Option<TrainError>)
    modifies image
    ensures var spec := WithGroundTruthBox(old(image.landmarks), group, boundingBox);
      && (spec.Err? ==> error == Some(spec.error))
      && (spec.Ok? ==> error.None? && image.landmarks == spec.value)
  {
    var gt := Get(image.landmarks, group);
    if gt.None? {
      return Some(MissingLandmarks(group));
    }
    image.SetLandmarks(GroundTruthSeedKey, boundingBox(gt.value));
    return None;
  }

  /**
   * Lines 136-147: on every image, for j = 1 .. n - 1, store the perturbation
   * of the ground-truth box and the seed box under `'{bb_group}_{j}'`.
   */
  method GeneratePerturbations(batch: seq<LandmarkedImage>, group: string, seed: string, bb: string, n: int,
                               perturb: (Shape, Shape) -> Shape, boundingBox: Shape -> Shape)
    returns (error: Option<TrainError>)
    requires Distinct(batch)
    modifies batch
    ensures var spec := MapResult(old(LandmarksOf(batch)), (l: Landmarks) => Perturbed(l, group, seed, bb, n, 1, perturb, boundingBox));
      && (spec.Err? ==> error == Some(spec.error))
      && (spec.Ok? ==> error.None? && LandmarksOf(batch) == spec.value)
  {
    ghost var before := LandmarksOf(batch);
    ghost var f := (l: Landmarks) => Perturbed(l, group, seed, bb, n, 1, perturb, boundingBox);
    var i := 0;
    while i < |batch|
      invariant 0 <= i <= |batch|
      invariant forall k :: 0 <= k < i ==> f(before[k]) == Ok(batch[k].landmarks)
      invariant forall k :: i <= k < |batch| ==> batch[k].landmarks == before[k]
    {
      error := PerturbImage(batch[i], group, seed, bb, n, perturb, boundingBox);
      if error.Some? {
        assert MapResult(before, f) == Err(error.value) by {
          MapResultFirstError(before, f, i);
        }
        return;
      }
      i := i + 1;
    }
    assert MapResult(before, f) == Ok(LandmarksOf(batch)) by {
      MapResultAllOk(before, f, LandmarksOf(batch));
    }
    return None;
  }

  /** Lines 140-147 on one image: the perturbations j = 1 .. n - 1, in order. */
  method PerturbImage(image: LandmarkedImage, group: string, seed: string, bb: string, n: int,
                      perturb: (Shape, Shape) -> Shape, boundingBox: Shape -> Shape)
    returns (error: Option<TrainError>)
    modifies image
    ensures var spec := Perturbed(old(image.landmarks), group, seed, bb, n, 1, perturb, boundingBox);
      && (spec.Err? ==> error == Some(spec.error))
      && (spec.Ok? ==> error.None? && image.landmarks == spec.value)
  {
    ghost var spec := Perturbed(image.landmarks, group, seed, bb, n, 1, perturb, boundingBox);
    var j := 1;
    while j < n
      invariant 1 <= j && (j <= n || j == 1)
      invariant spec == Perturbed(image.landmarks, group, seed, bb, n, j, perturb, boundingBox)
    {
      var gt := Get(image.landmarks, group);
      if gt.None? {
        return Some(MissingLandmarks(group));
      }
      var box := Get(image.landmarks, seed);
      if box.None? {
        return Some(MissingLandmarks(seed));
      }
      image.SetLandmarks(GeneratedKey(bb, j), perturb(boundingBox(gt.value), box.value));
      j := j + 1;
    }
    return None;
  }

  // ----- steps on shapes -----

  /**
   * Lines 200-207: for each image in order, the reference shape aligned with
   * each of its boxes in key order, appended one by one.
   */
  method SeedEstimates(c: Collaborators, reference: Shape, images: seq<ImageData>, keys: seq<string>)
    returns (r: Result<Estimates, TrainError>)
    ensures r == InitialEstimates(c, reference, images, keys)
  {
    ghost var row := (image: ImageData) => AlignedRow(c, reference, image.landmarks, keys);
    var current: Estimates := [];
    var i := 0;
    while i < |images|
      invariant 0 <= i <= |images| && |current| == i
      invariant forall k :: 0 <= k < i ==> row(images[k]) == Ok(current[k])
    {
      var shapes := AlignRow(c, reference, images[i].landmarks, keys);
      if shapes.Err? {
        assert MapResult(images, row) == Err(shapes.error) by {
          MapResultFirstError(images, row, i);
        }
        return Err(shapes.error);
      }
      current := current + [shapes.value];
      i := i + 1;
    }
    assert MapResult(images, row) == Ok(current) by {
      MapResultAllOk(images, row, current);
    }
    return Ok(current);
  }

  /** Lines 202-206 for one image: align the reference shape with each of its boxes, in key order. */
  method AlignRow(c: Collaborators, reference: Shape, l: Landmarks, keys: seq<string>)
    returns (r: Result<seq<Shape>, TrainError>)
    ensures r == AlignedRow(c, reference, l, keys)
  {
    ghost var cell := (key: string) => Aligned(c, reference, l, key);
    var shapes: seq<Shape> := [];
    var k := 0;
    while k < |keys|
      invariant 0 <= k <= |keys| && |shapes| == k
      invariant forall m :: 0 <= m < k ==> cell(keys[m]) == Ok(shapes[m])
    {
      var box := Get(l, keys[k]);
      if box.None? {
        assert MapResult(keys, cell) == Err(MissingLandmarks(keys[k])) by {
          MapResultFirstError(keys, cell, k);
        }
        return Err(MissingLandmarks(keys[k]));
      }
      shapes := shapes + [c.alignShapeWithBoundingBox(reference, box.value)];
      k := k + 1;
    }
    assert MapResult(keys, cell) == Ok(shapes) by {
      MapResultAllOk(keys, cell, shapes);
    }
    return Ok(shapes);
  }

  /** Lines 222-226: every point of every estimate multiplied by `factor`. */
  method Propagate(estimates: Estimates, factor: real) returns (r: Estimates)
    ensures r == Propagated(estimates, factor)
  {
    r := [];
    var i := 0;
    while i < |estimates|
      invariant 0 <= i <= |estimates| && |r| == i
      invariant forall k :: 0 <= k < i ==> r[k] == Propagated(estimates, factor)[k]
    {
      var shapes: seq<Shape> := [];
      var k := 0;
      while k < |estimates[i]|
        invariant 0 <= k <= |estimates[i]| && |shapes| == k
        invariant forall m :: 0 <= m < k ==> shapes[m] == ScaleShape(estimates[i][m], factor)
      {
        shapes := shapes + [ScaleShape(estimates[i][k], factor)];
        k := k + 1;
      }
      r := r + [shapes];
      i := i + 1;
    }
  }

  // ----- the fitter -----

  /**
   * The constructor's keyword arguments other than the training data, as
   * `checks` leaves them (lines 31-35, 46): one feature, patch feature,
   * patch shape and iteration count per scale.
   */
  datatype Options = Options(
    referenceShape: Option<Shape>,
    features: seq<FeatureId>,
    patchFeatures: seq<FeatureId>,
    patchShapes: seq<PatchShape>,
    diagonal: Option<real>,
    scales: seq<real>,
    nIterations: seq<int>,
    nPerturbations: int,
    perturbFromBoundingBox: (Shape, Shape) -> Shape)
  {
    predicate PerScale() {
      |features| == |scales| && |patchFeatures| == |scales| && |patchShapes| == |scales| && |nIterations| == |scales|
    }
  }

  /** The learned state of `n` stages that have not been trained yet. */
  function Untrained(n: nat): (r: seq<seq<TrainingSet>>)
    ensures |r| == n && forall j :: 0 <= j < n ==> r[j] == []
  {
    seq(n, _ => [])
  }

  class SupervisedDescentFitter {
    /** One cascade stage per scale, lowest resolution first. */
    var algorithms: seq<Stage>
    var referenceShape: Option<Shape>
    var nPerturbations: int
    const algorithmClass: AlgorithmClass
    const features: seq<FeatureId>
    const patchFeatures: seq<FeatureId>
    const patchShapes: seq<PatchShape>
    const diagonal: Option<real>
    const scales: seq<real>
    const nIterations: seq<int>
    const perturbFromBoundingBox: (Shape, Shape) -> Shape
    /** The calls the collaborators have observed, oldest first. */
    ghost var log: seq<Event>
    /** What each stage is currently fitted to. */
    ghost var fits: seq<seq<TrainingSet>>

    /** The per-scale parameters, as the checks of lines 31-35 and 46 leave them: one entry per scale. */
    predicate Parameters()
    {
      |features| == |scales| && |patchFeatures| == |scales| && |patchShapes| == |scales| && |nIterations| == |scales|
    }

    /** The fitter holds the stage class and every parameter it was created with. */
    ghost predicate BuiltFrom(algorithmClass: AlgorithmClass, o: Options)
    {
      && this.algorithmClass == algorithmClass
      && features == o.features && patchFeatures == o.patchFeatures && patchShapes == o.patchShapes
      && diagonal == o.diagonal && scales == o.scales && nIterations == o.nIterations
      && perturbFromBoundingBox == o.perturbFromBoundingBox
    }

    /** What scale `j`'s stage is constructed with (lines 57-60). */
    function Config(j: nat): StageConfig
      requires Parameters() && j < |scales|
    {
      StageConfig(algorithmClass, patchFeatures[j], patchShapes[j], nIterations[j])
    }

    function Configured(): (s: Settings)
      requires Parameters()
      ensures s.WellFormed() && s.features == features && s.scales == scales
      ensures forall j :: 0 <= j < |scales| ==> s.configs[j] == Config(j)
    {
      Settings(features, scales, seq(|scales|, j requires 0 <= j < |scales| => Config(j)), diagonal, perturbFromBoundingBox)
    }

    ghost predicate Valid()
      reads this`algorithms, this`fits, algorithms
    {
      && Parameters()
      && |algorithms| == |scales|
      && (forall j :: 0 <= j < |algorithms| ==> algorithms[j].config == Config(j))
      && (forall i, j :: 0 <= i < j < |algorithms| ==> algorithms[i] != algorithms[j])
      && |fits| == |algorithms|
      && (forall j :: 0 <= j < |algorithms| ==> fits[j] == algorithms[j].fittedOn)
    }

    ghost function State(): FitterState
      reads this
    {
      FitterState(referenceShape, nPerturbations, fits)
    }

    /**
     * Lines 30-52 up to the training call: store the parameters, start from
     * an empty list of stages and set up one untrained stage per scale.
     */
    constructor (algorithmClass: AlgorithmClass, o: Options)
      requires o.PerScale()
      ensures this.algorithmClass == algorithmClass && features == o.features && patchFeatures == o.patchFeatures
      ensures patchShapes == o.patchShapes && diagonal == o.diagonal && scales == o.scales
      ensures nIterations == o.nIterations && perturbFromBoundingBox == o.perturbFromBoundingBox
      ensures Valid()
      ensures State() == FitterState(o.referenceShape, o.nPerturbations, Untrained(|o.scales|))
      ensures forall j :: 0 <= j < |algorithms| ==> fresh(algorithms[j])
      ensures log == []
    {
      this.algorithmClass := algorithmClass;
      features := o.features;
      patchFeatures := o.patchFeatures;
      patchShapes := o.patchShapes;
      diagonal := o.diagonal;
      scales := o.scales;
      nIterations := o.nIterations;
      perturbFromBoundingBox := o.perturbFromBoundingBox;
      algorithms := [];
      referenceShape := o.referenceShape;
      nPerturbations := o.nPerturbations;
      log := [];
      fits := [];
      new;
      SetupAlgorithms();
    }

    /** Lines 55-60: append one fresh, untrained stage per scale. */
    method SetupAlgorithms()
      requires Parameters()
      modifies this`algorithms, this`fits
      ensures |algorithms| == |old(algorithms)| + |scales|
      ensures algorithms[..|old(algorithms)|] == old(algorithms)
      ensures forall j :: 0 <= j < |scales| ==>
        var stage := algorithms[|old(algorithms)| + j];
        fresh(stage) && stage.config == Config(j) && stage.fittedOn == []
      ensures forall i, k :: |old(algorithms)| <= i < k < |algorithms| ==> algorithms[i] != algorithms[k]
      ensures |fits| == |old(fits)| + |scales| && fits[..|old(fits)|] == old(fits)
      ensures forall j :: |old(fits)| <= j < |fits| ==> fits[j] == []
    {
      var j := 0;
      ghost var before, fitsBefore := algorithms, fits;
      while j < |scales|
        invariant 0 <= j <= |scales|
        invariant |algorithms| == |before| + j && algorithms[..|before|] == before
        invariant forall k :: |before| <= k < |algorithms| ==> fresh(algorithms[k])
        invariant forall k :: |before| <= k < |algorithms| ==> algorithms[k].config == Config(k - |before|)
        invariant forall k :: |before| <= k < |algorithms| ==> algorithms[k].fittedOn == []
        invariant forall i, k :: |before| <= i < k < |algorithms| ==> algorithms[i] != algorithms[k]
        invariant |fits| == |fitsBefore| + j && fits[..|fitsBefore|] == fitsBefore
        invariant forall k :: |fitsBefore| <= k < |fits| ==> fits[k] == []
      {
        ghost var previous := algorithms;
        var stage := new Stage(Config(j));
        algorithms := algorithms + [stage];
        fits := fits + [[]];
        assert forall k :: 0 <= k < |previous| ==> algorithms[k] == previous[k];
        j := j + 1;
      }
    }

    /**
     * Lines 110-159 on the batch's image copies: store the ground-truth
     * boxes when no bounding-box group is given, then either generate
     * perturbations from the single matching box or adopt the number of
     * matching boxes as `n_perturbations`, and re-read the matching keys.
     */
    method AttachBoundingBoxes(batch: seq<LandmarkedImage>, group: string, boundingBoxGroup: Option<string>,
                               boundingBox: Shape -> Shape) returns (keys: Result<seq<string>, TrainError>)
      requires Distinct(batch)
      modifies this`nPerturbations, batch
      ensures var spec := AttachBoxes(old(LandmarksOf(batch)), group, boundingBoxGroup, old(nPerturbations),
                                      perturbFromBoundingBox, boundingBox);
        && (spec.Err? ==> keys == Err(spec.error) && nPerturbations == old(nPerturbations))
        && (spec.Ok? ==> keys == Ok(spec.value.keys) && nPerturbations == spec.value.nPerturbations
                         && LandmarksOf(batch) == spec.value.landmarks)
    {
      var bb := BoxGroup(boundingBoxGroup);
      if boundingBoxGroup.None? {
        var e := SeedGroundTruthBoxes(batch, group, boundingBox);
        if e.Some? {
          return Err(e.value);
        }
      }
      if |batch| == 0 {
        return Err(EmptyBatch);
      }
      var found := KeysMatching(batch[0].landmarks, bb);
      if |found| == 1 {
        var e := GeneratePerturbations(batch, group, found[0], bb, nPerturbations, perturbFromBoundingBox, boundingBox);
        if e.Some? {
          return Err(e.value);
        }
      } else if |found| != nPerturbations {
        nPerturbations := |found|;
      }
      keys := Ok(KeysMatching(batch[0].landmarks, bb));
    }

    /**
     * Lines 161-226 for one batch: per scale, compute features only when
     * they change, resample only when the factor is not 1, read the
     * ground-truth shapes, seed the estimates at scale 0, train or increment
     * the scale's stage, and carry its estimates to the next scale.
     */
    method TrainScales(images: seq<ImageData>, group: string, keys: seq<string>, reference: Shape,
                       incremented: bool, c: Collaborators, ghost x: ScaleContext) returns (error: Option<TrainError>)
      requires Valid() && x == ScaleContext(c, Configured(), images, group, keys, reference, incremented)
      modifies this`log, this`fits, algorithms
      ensures Valid()
      ensures var r := RunScales(x, 0, [], old(fits), old(log));
        fits == r.fits && log == r.events && error == r.error
    {
      ghost var goal := RunScales(x, 0, [], fits, log);
      error := None;
      var featureImages: seq<ImageData> := [];
      var current: Estimates := [];
      var j := 0;
      while j < |scales|
        invariant Valid()
        invariant 0 <= j <= |scales|
        invariant j > 0 ==> featureImages == ComputeFeatures(c, features[j - 1], images)
        invariant j > 0 ==> |current| == |images|
        invariant error.None?
        invariant goal == RunScales(x, j, current, fits, log)
      {
        ghost var fitsBefore, events, incoming := fits, log, current;
        featureImages, current, error := TrainScale(images, group, keys, reference, incremented, c, j, featureImages, current);
        RunScalesStep(x, j, incoming, fitsBefore, events, ScalePass(fits, log, current, error));
        if error.Some? || j + 1 == |scales| {
          return;
        }
        j := j + 1;
      }
    }

    /**
     * `_train` (lines 66-226): split the images into batches and train on
     * each in turn; from the second batch on the stages are incremented, and
     * a missing `group` is latched from the first batch's first image.
     */
    method Train(images: seq<ImageData>, group: Option<string>, boundingBoxGroup: Option<string>, increment: bool,
                 batchSize: Option<nat>, c: Collaborators) returns (error: Option<TrainError>)
      requires Valid()
      requires batchSize.Some? ==> batchSize.value > 0
      modifies this`referenceShape, this`nPerturbations, this`log, this`fits, algorithms
      ensures Valid()
      ensures var r := TrainRun(c, Configured(), old(State()), images, group, boundingBoxGroup, increment, batchSize, old(log));
        State() == r.state && log == r.events && error == r.error
    {
      var batches := Batches(images, batchSize);
      error := TrainBatches(batches, group, boundingBoxGroup, increment, c);
    }

    /** `increment` (lines 228-233): train once more with the stages incremented from the first batch on. */
    method Increment(images: seq<ImageData>, group: Option<string>, boundingBoxGroup: Option<string>,
                     batchSize: Option<nat>, c: Collaborators) returns (error: Option<TrainError>)
      requires Valid()
      requires batchSize.Some? ==> batchSize.value > 0
      modifies this`referenceShape, this`nPerturbations, this`log, this`fits, algorithms
      ensures Valid()
      ensures var r := TrainRun(c, Configured(), old(State()), images, group, boundingBoxGroup, true, batchSize, old(log));
        State() == r.state && log == r.events && error == r.error
    {
      error := Train(images, group, boundingBoxGroup, true, batchSize, c);
    }

    /** Lines 78-226: the batch loop. */
    method TrainBatches(batches: seq<seq<ImageData>>, group: Option<string>, boundingBoxGroup: Option<string>, increment: bool,
                        c: Collaborators) returns (error: Option<TrainError>)
      requires Valid()
      modifies this`referenceShape, this`nPerturbations, this`log, this`fits, algorithms
      ensures Valid()
      ensures Run(State(), log, error) == RunBatches(c, Configured(), old(State()), batches, group, boundingBoxGroup, increment, 0, old(log))
    {
      ghost var goal := RunBatches(c, Configured(), State(), batches, group, boundingBoxGroup, increment, 0, log);
      var latched := group;
      var k := 0;
      while k < |batches|
        invariant Valid()
        invariant 0 <= k <= |batches|
        invariant goal == RunBatches(c, Configured(), State(), batches, latched, boundingBoxGroup, increment, k, log)
      {
        latched, error := TrainNext(batches, k, latched, boundingBoxGroup, increment, c);
        if error.Some? {
          return;
        }
        k := k + 1;
      }
      error := None;
    }

    /**
     * One pass of the batch loop (lines 78-226) on batch `k`: the `increment`
     * latch of line 80, the `group` latch of lines 89-90, then the batch.
     */
    method TrainNext(batches: seq<seq<ImageData>>, k: nat, group: Option<string>, boundingBoxGroup: Option<string>,
                     increment: bool, c: Collaborators) returns (latched: Option<string>, error: Option<TrainError>)
      requires Valid() && k < |batches|
      modifies this`referenceShape, this`nPerturbations, this`log, this`fits, algorithms
      ensures Valid()
      ensures error.Some? ==>
        RunBatches(c, Configured(), old(State()), batches, group, boundingBoxGroup, increment, k, old(log)) == Run(State(), log, error)
      ensures error.None? ==>
        RunBatches(c, Configured(), old(State()), batches, group, boundingBoxGroup, increment, k, old(log))
        == RunBatches(c, Configured(), State(), batches, latched, boundingBoxGroup, increment, k + 1, log)
    {
      RunBatchesStep(c, Configured(), State(), batches, group, boundingBoxGroup, increment, k, log);
      var incremented := increment;
      if k > 0 {
        incremented := true;
      }
      latched := group;
      if latched.None? {
        if |batches[k]| == 0 {
          return latched, Some(EmptyBatch);
        }
        if |batches[k][0].landmarks.labels| == 0 {
          return latched, Some(NoLandmarkGroups);
        }
        latched := Some(batches[k][0].landmarks.labels[0]);
      }
      error := TrainBatch(batches[k], latched.value, boundingBoxGroup, incremented, c);
    }

    /**
     * Lines 86-226 for one batch whose group is known: log the batch,
     * latch the reference shape (lines 92-103), rescale copies of the images
     * (lines 106-108), attach the bounding boxes and run the scale loop.
     */
    method TrainBatch(batch: seq<ImageData>, group: string, boundingBoxGroup: Option<string>, incremented: bool,
                      c: Collaborators) returns (error: Option<TrainError>)
      requires Valid()
      modifies this`referenceShape, this`nPerturbations, this`log, this`fits, algorithms
      ensures Valid()
      ensures var r := RunBatch(c, Configured(), old(State()), batch, group, boundingBoxGroup, incremented, old(log));
        State() == r.state && log == r.events && error == r.error
    {
      log := log + [BatchStarted(group)];
      if referenceShape.None? {
        var shapes := GroundTruths(batch, group);
        if shapes.Err? {
          return Some(shapes.error);
        }
        referenceShape := Some(c.computeReferenceShape(shapes.value, diagonal));
      }
      error := TrainReferenced(batch, group, boundingBoxGroup, incremented, c);
    }

    /** Lines 106-226 once the reference shape is latched. */
    method TrainReferenced(batch: seq<ImageData>, group: string, boundingBoxGroup: Option<string>, incremented: bool,
                           c: Collaborators) returns (error: Option<TrainError>)
      requires Valid() && referenceShape.Some?
      modifies this`nPerturbations, this`log, this`fits, algorithms
      ensures Valid()
      ensures var r := RunReferenced(c, Configured(), old(State()), batch, group, boundingBoxGroup, incremented, old(log));
        State() == r.state && log == r.events && error == r.error
    {
      var reference := referenceShape.value;
      ghost var spec := PreparedImages(c, perturbFromBoundingBox, nPerturbations, batch, group, boundingBoxGroup, reference);
      var images, keys := PrepareBatch(batch, group, boundingBoxGroup, reference, c);
      if keys.Err? {
        return Some(keys.error);
      }
      ghost var x := BatchContext(c, Configured(), spec.value, group, reference, incremented);
      error := TrainScales(images, group, keys.value, reference, incremented, c, x);
    }

    /**
     * Lines 106-159: rescale copies of the batch to the reference shape and
     * attach their bounding boxes; the images as they then stand, and the
     * bounding-box keys.
     */
    method PrepareBatch(batch: seq<ImageData>, group: string, boundingBoxGroup: Option<string>, reference: Shape,
                        c: Collaborators) returns (images: seq<ImageData>, keys: Result<seq<string>, TrainError>)
      modifies this`nPerturbations
      ensures var spec := PreparedImages(c, perturbFromBoundingBox, old(nPerturbations), batch, group, boundingBoxGroup, reference);
        && (spec.Err? ==> keys == Err(spec.error) && nPerturbations == old(nPerturbations))
        && (spec.Ok? ==> && keys == Ok(spec.value.boxes.keys) && nPerturbations == spec.value.boxes.nPerturbations
                         && images == spec.value.images)
    {
      var copies := Rescale(batch, group, reference, c);
      ghost var rescaled := Values(copies);
      assert LandmarksOf(copies) == LandmarksOfValues(rescaled);
      keys := AttachBoundingBoxes(copies, group, boundingBoxGroup, c.boundingBox);
      images := Values(copies);
      if keys.Ok? {
        assert images == WithLandmarks(rescaled, LandmarksOf(copies));
      }
    }

    /** One pass of the scale loop (lines 163-226) at scale `j`. */
    method TrainScale(images: seq<ImageData>, group: string, keys: seq<string>, reference: Shape,
                      incremented: bool, c: Collaborators, j: nat, previousFeatures: seq<ImageData>, incoming: Estimates)
      returns (featureImages: seq<ImageData>, current: Estimates, error: Option<TrainError>)
      requires Valid() && j < |scales|
      requires j > 0 ==> previousFeatures == ComputeFeatures(c, features[j - 1], images)
      requires j > 0 ==> |incoming| == |images|
      modifies this`log, this`fits, algorithms
      ensures Valid()
      ensures featureImages == ComputeFeatures(c, features[j], images)
      ensures PassAt(ScaleContext(c, Configured(), images, group, keys, reference, incremented), j, incoming, old(fits), old(log))
        == ScalePass(fits, log, current, error)
    {
      ghost var x := ScaleContext(c, Configured(), images, group, keys, reference, incremented);
      var scaled, targets, seeded;
      featureImages, scaled, targets, seeded := PrepareScale(images, group, keys, reference, c, j, previousFeatures, incoming);
      current := incoming;
      if targets.Err? {
        return featureImages, current, Some(targets.error);
      }
      if seeded.Err? {
        return featureImages, current, Some(seeded.error);
      }
      current, error := FinishScale(j, incremented, TrainingSet(scaled, targets.value, seeded.value), c);
    }

    /** Lines 210-226 at scale `j`: fit the stage on `batch`, then carry its output to the next scale. */
    method FinishScale(j: nat, incremented: bool, batch: TrainingSet, c: Collaborators)
      returns (current: Estimates, error: Option<TrainError>)
      requires Valid() && j < |scales|
      requires |batch.targets| == |batch.images| && |batch.estimates| == |batch.images|
      modifies this`log, this`fits, algorithms
      ensures Valid()
      ensures FitPass(c, Configured(), j, incremented, batch, old(fits), old(log)) == ScalePass(fits, log, current, error)
    {
      current := FitStage(j, incremented, batch, c);
      assert Configured().configs[j] == Config(j);
      error := None;
      if j != |scales| - 1 {
        if scales[j] == 0.0 {
          return current, Some(ZeroScale(j));
        }
        current := Propagate(current, scales[j + 1] / scales[j]);
      }
    }

    /**
     * Lines 166-207 at scale `j`: the feature images (recomputed only when the
     * feature changes, line 173), the resampled images (only for a factor other
     * than 1, line 182), the ground-truth shapes and, at the first scale, the
     * initial estimates.
     */
    method PrepareScale(images: seq<ImageData>, group: string, keys: seq<string>, reference: Shape,
                        c: Collaborators, j: nat, previousFeatures: seq<ImageData>, incoming: Estimates)
      returns (featureImages: seq<ImageData>, scaled: seq<ImageData>, targets: Result<seq<Shape>, TrainError>,
               seeded: Result<Estimates, TrainError>)
      requires Parameters() && j < |scales|
      requires j > 0 ==> previousFeatures == ComputeFeatures(c, features[j - 1], images)
      modifies this`log
      ensures featureImages == ComputeFeatures(c, features[j], images)
      ensures scaled == ScaledImages(c, Configured(), images, j)
      ensures log == old(log) + PreparationEvents(Configured(), j)
      ensures targets == GroundTruths(scaled, group)
      ensures targets.Ok? ==> seeded == if j == 0 then InitialEstimates(c, reference, scaled, keys) else Ok(incoming)
    {
      featureImages, scaled := ScaleFeatures(images, c, j, previousFeatures);
      targets := GroundTruths(scaled, group);
      seeded := Ok(incoming);
      if targets.Ok? && j == 0 {
        seeded := SeedEstimates(c, reference, scaled, keys);
      }
    }

    /** Lines 166-188 at scale `j`: the feature images, resampled when the factor is not 1. */
    method ScaleFeatures(images: seq<ImageData>, c: Collaborators, j: nat, previousFeatures: seq<ImageData>)
      returns (featureImages: seq<ImageData>, scaled: seq<ImageData>)
      requires Parameters() && j < |scales|
      requires j > 0 ==> previousFeatures == ComputeFeatures(c, features[j - 1], images)
      modifies this`log
      ensures featureImages == ComputeFeatures(c, features[j], images)
      ensures scaled == ScaledImages(c, Configured(), images, j)
      ensures log == old(log) + PreparationEvents(Configured(), j)
    {
      featureImages := previousFeatures;
      if j == 0 || features[j] != features[j - 1] {
        featureImages := ComputeFeatures(c, features[j], images);
        log := log + [FeaturesComputed(j, features[j])];
      }
      FeatureReuseSound(c, features, images, j);
      scaled := featureImages;
      if scales[j] != 1.0 {
        scaled := ScaleImages(c, scales[j], featureImages);
        log := log + [ImagesScaled(j, scales[j])];
      }
    }

    /** Lines 210-217: train, or when incrementing update, the stage of scale `j` on one training set. */
    method FitStage(j: nat, incremented: bool, batchSet: TrainingSet, c: Collaborators) returns (out: Estimates)
      requires Valid() && j < |scales|
      requires |batchSet.targets| == |batchSet.images| && |batchSet.estimates| == |batchSet.images|
      modifies this`log, this`fits, algorithms
      ensures Valid()
      ensures fits == old(fits)[j := FittedAfter(old(fits)[j], incremented, batchSet)]
      ensures out == Descended(c.descend, Config(j), fits[j], batchSet.images, batchSet.estimates)
      ensures log == old(log) + [StageCalled(j, incremented)]
    {
      var stage := algorithms[j];
      if !incremented {
        out := stage.Train(batchSet.images, batchSet.targets, batchSet.estimates, c.descend);
      } else {
        out := stage.Increment(batchSet.images, batchSet.targets, batchSet.estimates, c.descend);
      }
      log := log + [StageCalled(j, incremented)];
      fits := fits[j := stage.fittedOn];
      forall k | 0 <= k < |algorithms|
        ensures algorithms[k].fittedOn == fits[k]
      {
        if k != j {
          assert algorithms[k] != stage;
        }
      }
    }
  }

  /**
   * `SupervisedDescentFitter(images, ...)` (lines 23-52): construct the
   * fitter, then train it with `increment=False`. The exception training
   * raises is returned beside the fitter.
   */
  method Create(algorithmClass: AlgorithmClass, o: Options, images: seq<ImageData>, group: Option<string>,
                boundingBoxGroup: Option<string>, batchSize: Option<nat>, c: Collaborators)
    returns (fitter: SupervisedDescentFitter, error: Option<TrainError>)
    requires o.PerScale()
    requires batchSize.Some? ==> batchSize.value > 0
    ensures fresh(fitter) && fitter.Valid()
    ensures fitter.BuiltFrom(algorithmClass, o)
    ensures forall j :: 0 <= j < |fitter.algorithms| ==> fitter.algorithms[j].config == fitter.Config(j)
    ensures forall j :: 0 <= j < |fitter.algorithms| ==> fitter.algorithms[j].config.algorithm == algorithmClass
    ensures var r := TrainRun(c, fitter.Configured(), FitterState(o.referenceShape, o.nPerturbations, Untrained(|o.scales|)),
                              images, group, boundingBoxGroup, false, batchSize, []);
      fitter.State() == r.state && fitter.log == r.events && error == r.error
  {
    fitter := new SupervisedDescentFitter(algorithmClass, o);
    error := fitter.Train(images, group, boundingBoxGroup, false, batchSize, c);
  }

  /** `SDM` (line 280): the fitter whose stages are plain `Newton` regressions. */
  method Sdm(o: Options, images: seq<ImageData>, group: Option<string>, boundingBoxGroup: Option<string>,
             batchSize: Option<nat>, c: Collaborators) returns (fitter: SupervisedDescentFitter, error: Option<TrainError>)
    requires o.PerScale()
    requires batchSize.Some? ==> batchSize.value > 0
    ensures fresh(fitter) && fitter.Valid() && fitter.BuiltFrom(Newton, o)
    ensures forall j :: 0 <= j < |fitter.algorithms| ==> fitter.algorithms[j].config.algorithm == Newton
    ensures var r := TrainRun(c, fitter.Configured(), FitterState(o.referenceShape, o.nPerturbations, Untrained(|o.scales|)),
                              images, group, boundingBoxGroup, false, batchSize, []);
      fitter.State() == r.state && fitter.log == r.events && error == r.error
  {
    fitter, error := Create(Newton, o, images, group, boundingBoxGroup, batchSize, c);
  }

  /** `RegularizedSDM` (lines 282-299): the fitter whose stages are `Newton` regressions with ridge weight `alpha`. */
  method RegularizedSdm(alpha: real, o: Options, images: seq<ImageData>, group: Option<string>,
                        boundingBoxGroup: Option<string>, batchSize: Option<nat>, c: Collaborators)
    returns (fitter: SupervisedDescentFitter, error: Option<TrainError>)
    requires o.PerScale()
    requires batchSize.Some? ==> batchSize.value > 0
    ensures fresh(fitter) && fitter.Valid() && fitter.BuiltFrom(RegularizedNewton(alpha), o)
    ensures forall j :: 0 <= j < |fitter.algorithms| ==> fitter.algorithms[j].config.algorithm == RegularizedNewton(alpha)
    ensures var r := TrainRun(c, fitter.Configured(), FitterState(o.referenceShape, o.nPerturbations, Untrained(|o.scales|)),
                              images, group, boundingBoxGroup, false, batchSize, []);
      fitter.State() == r.state && fitter.log == r.events && error == r.error
  {
    fitter, error := Create(RegularizedNewton(alpha), o, images, group, boundingBoxGroup, batchSize, c);
  }
}
