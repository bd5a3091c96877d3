/**
 * The per-scale policy of one batch (fitter.py lines 161-226), as
 * specification functions: which feature images and scaled images each
 * scale sees, the ground-truth shapes and the initial estimates read from
 * them, and the events the collaborators observe.
 */
module Pyramid {
  import opened Wrappers
  import opened Geometry
  import opened Landmarks
  import opened Images
  import opened Interfaces

  /**
   * What the fitter fixes at construction: one holistic feature, one scale
   * factor and one stage configuration per scale (lowest resolution first),
   * the normalisation diagonal, and the bounding-box perturbation function.
   */
  datatype Settings = Settings(
    features: seq<FeatureId>,
    scales: seq<real>,
    configs: seq<StageConfig>,
    diagonal: Option<real>,
    perturb: (Shape, Shape) -> Shape)
  {
    predicate WellFormed() {
      |features| == |scales| && |configs| == |scales|
    }
  }

  /** What the collaborators observe of one training run, in order. */
  datatype Event =
    | BatchStarted(group: string)                // a batch enters the loop with this ground-truth group
    | FeaturesComputed(scale: nat, features: FeatureId) // `compute_features` at this scale
    | ImagesScaled(scale: nat, factor: real)     // `scale_images` at this scale
    | StageCalled(scale: nat, incremented: bool) // the scale's stage: `increment` if true, else `train`

  // ----- images at each scale -----

  /** `compute_features(images, feature)`: the feature function applied to each image. */
  function ComputeFeatures(c: Collaborators, feature: FeatureId, images: seq<ImageData>): (r: seq<ImageData>)
    ensures |r| == |images|
  {
    seq(|images|, i requires 0 <= i < |images| => c.computeFeatures(feature, images[i]))
  }

  /** `scale_images(images, factor)`: each image resampled by the factor. */
  function ScaleImages(c: Collaborators, factor: real, images: seq<ImageData>): (r: seq<ImageData>)
    ensures |r| == |images|
  {
    seq(|images|, i requires 0 <= i < |images| => c.scaleImage(images[i], factor))
  }

  /** Whether scale `j` recomputes the feature images (line 173). */
  predicate RecomputesFeatures(features: seq<FeatureId>, j: nat)
    requires j < |features|
  {
    j == 0 || features[j] != features[j - 1]
  }

  /**
   * The feature images scale `j` works on, as lines 173-180 produce them:
   * recomputed when `RecomputesFeatures`, otherwise the previous scale's.
   */
  function FeatureImages(c: Collaborators, features: seq<FeatureId>, batch: seq<ImageData>, j: nat): (r: seq<ImageData>)
    requires j < |features|
    ensures |r| == |batch|
  {
    if RecomputesFeatures(features, j) then ComputeFeatures(c, features[j], batch)
    else FeatureImages(c, features, batch, j - 1)
  }

  /** Reusing the previous scale's feature images never changes what a scale sees. */
  lemma {:induction false} FeatureReuseSound(c: Collaborators, features: seq<FeatureId>, batch: seq<ImageData>, j: nat)
    requires j < |features|
    ensures FeatureImages(c, features, batch, j) == ComputeFeatures(c, features[j], batch)
  {
    if !RecomputesFeatures(features, j) {
      FeatureReuseSound(c, features, batch, j - 1);
    }
  }

  /** Lines 182-188: the feature images, resampled only when the scale factor is not 1. */
  function ScaledImages(c: Collaborators, s: Settings, batch: seq<ImageData>, j: nat): (r: seq<ImageData>)
    requires s.WellFormed() && j < |s.scales|
    ensures |r| == |batch|
  {
    var featureImages := FeatureImages(c, s.features, batch, j);
    if s.scales[j] != 1.0 then ScaleImages(c, s.scales[j], featureImages) else featureImages
  }

  /**
   * Every scale sees every image of the batch, in order: the scale's own
   * features, resampled by its factor exactly when that factor is not 1.
   */
  lemma ScaledImagesAt(c: Collaborators, s: Settings, batch: seq<ImageData>, j: nat, i: nat)
    requires s.WellFormed() && j < |s.scales| && i < |batch|
    ensures |ScaledImages(c, s, batch, j)| == |batch|
    ensures ScaledImages(c, s, batch, j)[i] ==
      if s.scales[j] != 1.0 then c.scaleImage(c.computeFeatures(s.features[j], batch[i]), s.scales[j])
      else c.computeFeatures(s.features[j], batch[i])
  {
    FeatureReuseSound(c, s.features, batch, j);
  }

  // ----- shapes read from the images -----

  /** `image.landmarks[key].lms`, failing with the missing key. */
  function Lookup(l: Landmarks, key: string): (r: Result<Shape, TrainError>)
    ensures r.Ok? <==> key in l.labels
    ensures r.Ok? ==> r.value == l.groups[key]
    ensures r.Err? ==> r.error == MissingLandmarks(key)
  {
    match Get(l, key)
    case None => Err(MissingLandmarks(key))
    case Some(shape) => Ok(shape)
  }

  /** `[i.landmarks[group].lms for i in images]` (lines 102 and 191). */
  function GroundTruths(images: seq<ImageData>, group: string): (r: Result<seq<Shape>, TrainError>)
    ensures r.Ok? <==> forall i :: 0 <= i < |images| ==> group in images[i].landmarks.labels
    ensures r.Ok? ==> |r.value| == |images|
    ensures r.Ok? ==> forall i :: 0 <= i < |images| ==> r.value[i] == images[i].landmarks.groups[group]
    ensures r.Err? ==> r.error == MissingLandmarks(group)
  {
    var f := (image: ImageData) => Lookup(image.landmarks, group);
    MapResultErrors(images, f, (e: TrainError) => e == MissingLandmarks(group));
    MapResult(images, f)
  }

  /** Lines 203-205 for one key of one image: the reference shape aligned with that box. */
  function Aligned(c: Collaborators, reference: Shape, l: Landmarks, key: string): Result<Shape, TrainError>
  {
    match Lookup(l, key)
    case Err(e) => Err(e)
    case Ok(box) => Ok(c.alignShapeWithBoundingBox(reference, box))
  }

  /**
   * Lines 202-206 for one image: the reference shape aligned with each of its
   * boxes, in key order; the first missing box is reported.
   */
  function AlignedRow(c: Collaborators, reference: Shape, l: Landmarks, keys: seq<string>): (r: Result<seq<Shape>, TrainError>)
    ensures r.Ok? <==> forall k :: 0 <= k < |keys| ==> keys[k] in l.labels
    ensures r.Ok? ==> |r.value| == |keys|
    ensures r.Ok? ==> forall k :: 0 <= k < |keys| ==> r.value[k] == c.alignShapeWithBoundingBox(reference, l.groups[keys[k]])
    ensures r.Err? ==> r.error.MissingLandmarks?
  {
    var f := (key: string) => Aligned(c, reference, l, key);
    MapResultErrors(keys, f, (e: TrainError) => e.MissingLandmarks?);
    MapResult(keys, f)
  }

  /** The box an image's row reports missing is the first of its keys that the image lacks. */
  lemma AlignedRowFirstMissing(c: Collaborators, reference: Shape, l: Landmarks, keys: seq<string>)
    ensures var r := AlignedRow(c, reference, l, keys);
      r.Err? ==> exists k :: FirstMissingKey(l, keys, k) && r.error == MissingLandmarks(keys[k])
  {
    var f := (key: string) => Aligned(c, reference, l, key);
    if MapResult(keys, f).Err? {
      var k := MapResultFails(keys, f);
      assert forall m :: 0 <= m < k ==> f(keys[m]).Ok?;
      assert FirstMissingKey(l, keys, k);
    }
  }

  /** Lines 202-206 as the body of the loop over the images: one image's row. */
  function AlignedRows(c: Collaborators, reference: Shape, keys: seq<string>): ImageData -> Result<seq<Shape>, TrainError>
  {
    (image: ImageData) => AlignedRow(c, reference, image.landmarks, keys)
  }

  /**
   * Lines 200-207: one row per image, in batch order, holding the reference
   * shape aligned with each of the image's boxes, in key order; otherwise
   * the first missing box is reported (see `InitialEstimatesFirstMissing`).
   */
  function InitialEstimates(c: Collaborators, reference: Shape, images: seq<ImageData>, keys: seq<string>): (r: Result<Estimates, TrainError>)
    ensures r.Ok? <==> forall i, k :: 0 <= i < |images| && 0 <= k < |keys| ==> keys[k] in images[i].landmarks.labels
    ensures r.Ok? ==> |r.value| == |images| && forall i :: 0 <= i < |images| ==> |r.value[i]| == |keys|
    ensures r.Ok? ==> forall i, k :: 0 <= i < |images| && 0 <= k < |keys| ==>
      r.value[i][k] == c.alignShapeWithBoundingBox(reference, images[i].landmarks.groups[keys[k]])
    ensures r.Err? ==> r.error.MissingLandmarks?
  {
    var row := AlignedRows(c, reference, keys);
    MapResultErrors(images, row, (e: TrainError) => e.MissingLandmarks?);
    var r := MapResult(images, row);
    assert r.Ok? ==> forall i :: 0 <= i < |images| ==> row(images[i]).Ok?;
    r
  }

  /** `keys[k]` is the first of `keys` that `l` lacks. */
  ghost predicate FirstMissingKey(l: Landmarks, keys: seq<string>, k: int)
  {
    && 0 <= k < |keys|
    && keys[k] !in l.labels
    && forall m :: 0 <= m < k ==> keys[m] in l.labels
  }

  /** `images[i]` is the first image lacking one of `keys`, and `keys[k]` the first it lacks. */
  ghost predicate FirstMissingBox(images: seq<ImageData>, keys: seq<string>, i: int, k: int)
  {
    && 0 <= i < |images|
    && (forall h, m :: 0 <= h < i && 0 <= m < |keys| ==> keys[m] in images[h].landmarks.labels)
    && FirstMissingKey(images[i].landmarks, keys, k)
  }

  /**
   * The missing box reported is the first one: in the first image lacking a
   * box, the first of its keys that is missing.
   */
  lemma InitialEstimatesFirstMissing(c: Collaborators, reference: Shape, images: seq<ImageData>, keys: seq<string>)
    ensures var r := InitialEstimates(c, reference, images, keys);
      r.Err? ==> exists i, k :: FirstMissingBox(images, keys, i, k) && r.error == MissingLandmarks(keys[k])
  {
    var r := InitialEstimates(c, reference, images, keys);
    if r.Err? {
      var i := FirstFailingRow(c, reference, images, keys);
      AlignedRowFirstMissing(c, reference, images[i].landmarks, keys);
      var k :| FirstMissingKey(images[i].landmarks, keys, k) && r.error == MissingLandmarks(keys[k]);
      EarlierRowsComplete(c, reference, images, keys, i);
      assert FirstMissingBox(images, keys, i, k);
    }
  }

  /** Local proof helper: the image loop stops at the first image whose row fails. */
  lemma FirstFailingRow(c: Collaborators, reference: Shape, images: seq<ImageData>, keys: seq<string>) returns (i: nat)
    requires InitialEstimates(c, reference, images, keys).Err?
    ensures i < |images|
    ensures AlignedRow(c, reference, images[i].landmarks, keys) == Err(InitialEstimates(c, reference, images, keys).error)
    ensures forall h :: 0 <= h < i ==> AlignedRow(c, reference, images[h].landmarks, keys).Ok?
  {
    var row := AlignedRows(c, reference, keys);
    var r := MapResult(images, row);
    i := MapResultFails(images, row);
    forall h | 0 <= h < i
      ensures AlignedRow(c, reference, images[h].landmarks, keys).Ok?
    {
      assert row(images[h]).Ok?;
    }
  }

  /** Local proof helper: images whose rows were built hold every key. */
  lemma EarlierRowsComplete(c: Collaborators, reference: Shape, images: seq<ImageData>, keys: seq<string>, i: nat)
    requires i <= |images|
    requires forall h :: 0 <= h < i ==> AlignedRow(c, reference, images[h].landmarks, keys).Ok?
    ensures forall h, m :: 0 <= h < i && 0 <= m < |keys| ==> keys[m] in images[h].landmarks.labels
  {
    forall h, m | 0 <= h < i && 0 <= m < |keys|
      ensures keys[m] in images[h].landmarks.labels
    {
      assert AlignedRow(c, reference, images[h].landmarks, keys).Ok?;
    }
  }

  // ----- what the collaborators observe -----

  /** The feature and resampling calls of scale `j` (lines 173-188). */
  function PreparationEvents(s: Settings, j: nat): seq<Event>
    requires s.WellFormed() && j < |s.scales|
  {
    (if RecomputesFeatures(s.features, j) then [FeaturesComputed(j, s.features[j])] else [])
    + (if s.scales[j] != 1.0 then [ImagesScaled(j, s.scales[j])] else [])
  }

  /** Everything scale `j` does when it completes. */
  function ScaleLog(s: Settings, j: nat, incremented: bool): seq<Event>
    requires s.WellFormed() && j < |s.scales|
  {
    PreparationEvents(s, j) + [StageCalled(j, incremented)]
  }

  /** The scales `j..` of one batch, completed in order. */
  function ScalesFrom(s: Settings, j: nat, incremented: bool): seq<Event>
    requires s.WellFormed() && j <= |s.scales|
    decreases |s.scales| - j
  {
    if j == |s.scales| then [] else ScaleLog(s, j, incremented) + ScalesFrom(s, j + 1, incremented)
  }

  /** The stage calls of a log, in order. */
  function StageCalls(log: seq<Event>): seq<Event>
  {
    if log == [] then []
    else (if log[0].StageCalled? then [log[0]] else []) + StageCalls(log[1..])
  }

  lemma {:induction false} StageCallsAppend(a: seq<Event>, b: seq<Event>)
    ensures StageCalls(a + b) == StageCalls(a) + StageCalls(b)
  {
    if a == [] {
      assert a + b == b;
    } else {
      var h := if a[0].StageCalled? then [a[0]] else [];
      assert (a + b)[0] == a[0] && (a + b)[1..] == a[1..] + b;
      StageCallsAppend(a[1..], b);
      AppendAssociates(h, StageCalls(a[1..]), StageCalls(b));
    }
  }

  /** The stage calls of scales `first..n-1` of one batch: each once, in scale order, all in one mode. */
  function StageSchedule(first: nat, n: nat, incremented: bool): (r: seq<Event>)
    requires first <= n
    ensures |r| == n - first
    ensures forall i :: 0 <= i < n - first ==> r[i] == StageCalled(first + i, incremented)
  {
    seq(n - first, i requires 0 <= i < n - first => StageCalled(first + i, incremented))
  }

  lemma StageCallsSingle(e: Event)
    ensures StageCalls([e]) == if e.StageCalled? then [e] else []
  {
    assert [e][1..] == [];
  }

  lemma NoStageCallsInPreparation(s: Settings, j: nat)
    requires s.WellFormed() && j < |s.scales|
    ensures StageCalls(PreparationEvents(s, j)) == []
  {
    var feats := if RecomputesFeatures(s.features, j) then [FeaturesComputed(j, s.features[j])] else [];
    var scaled := if s.scales[j] != 1.0 then [ImagesScaled(j, s.scales[j])] else [];
    StageCallsAppend(feats, scaled);
    StageCallsSingle(FeaturesComputed(j, s.features[j]));
    StageCallsSingle(ImagesScaled(j, s.scales[j]));
  }

  /** A completed scale calls its own stage once. */
  lemma ScaleLogStageCalls(s: Settings, j: nat, incremented: bool)
    requires s.WellFormed() && j < |s.scales|
    ensures StageCalls(ScaleLog(s, j, incremented)) == [StageCalled(j, incremented)]
  {
    StageCallsAppend(PreparationEvents(s, j), [StageCalled(j, incremented)]);
    NoStageCallsInPreparation(s, j);
    StageCallsSingle(StageCalled(j, incremented));
  }

  lemma StageScheduleFirst(first: nat, n: nat, incremented: bool)
    requires first < n
    ensures StageSchedule(first, n, incremented) == [StageCalled(first, incremented)] + StageSchedule(first + 1, n, incremented)
  {
  }

  /** Within a batch every stage is called once, lowest resolution first, all in the batch's mode. */
  lemma {:induction false} ScaleStageCalls(s: Settings, j: nat, incremented: bool)
    requires s.WellFormed() && j <= |s.scales|
    ensures StageCalls(ScalesFrom(s, j, incremented)) == StageSchedule(j, |s.scales|, incremented)
    decreases |s.scales| - j
  {
    if j < |s.scales| {
      ScaleStageCalls(s, j + 1, incremented);
      StageCallsAppend(ScaleLog(s, j, incremented), ScalesFrom(s, j + 1, incremented));
      ScaleLogStageCalls(s, j, incremented);
      StageScheduleFirst(j, |s.scales|, incremented);
    }
  }

  /**
   * Features are computed at scale `k` exactly when `k` is 0 or its feature
   * function differs from scale `k - 1`'s, and with scale `k`'s function.
   */
  lemma {:induction false} FeaturesComputedIff(s: Settings, j: nat, incremented: bool, k: nat, f: FeatureId)
    requires s.WellFormed() && j <= |s.scales|
    ensures FeaturesComputed(k, f) in ScalesFrom(s, j, incremented) <==>
      j <= k < |s.scales| && RecomputesFeatures(s.features, k) && f == s.features[k]
    decreases |s.scales| - j
  {
    if j < |s.scales| {
      FeaturesComputedIff(s, j + 1, incremented, k, f);
    }
  }

  /** Images are resampled at scale `k` exactly when its factor is not 1, and by that factor. */
  lemma {:induction false} ImagesScaledIff(s: Settings, j: nat, incremented: bool, k: nat, factor: real)
    requires s.WellFormed() && j <= |s.scales|
    ensures ImagesScaled(k, factor) in ScalesFrom(s, j, incremented) <==>
      j <= k < |s.scales| && s.scales[k] != 1.0 && factor == s.scales[k]
    decreases |s.scales| - j
  {
    if j < |s.scales| {
      ImagesScaledIff(s, j + 1, incremented, k, factor);
    }
  }

  /** The number of feature computations in a log. */
  function FeatureComputations(log: seq<Event>): nat
  {
    if log == [] then 0
    else (if log[0].FeaturesComputed? then 1 else 0) + FeatureComputations(log[1..])
  }

  lemma {:induction false} FeatureComputationsAppend(a: seq<Event>, b: seq<Event>)
    ensures FeatureComputations(a + b) == FeatureComputations(a) + FeatureComputations(b)
  {
    if a == [] {
      assert a + b == b;
    } else {
      assert (a + b)[1..] == a[1..] + b;
      FeatureComputationsAppend(a[1..], b);
    }
  }

  lemma FeatureComputationsOfScale(s: Settings, j: nat, incremented: bool)
    requires s.WellFormed() && j < |s.scales|
    ensures FeatureComputations(ScaleLog(s, j, incremented)) == if RecomputesFeatures(s.features, j) then 1 else 0
  {
    var feats := if RecomputesFeatures(s.features, j) then [FeaturesComputed(j, s.features[j])] else [];
    var scaled := if s.scales[j] != 1.0 then [ImagesScaled(j, s.scales[j])] else [];
    var call := [StageCalled(j, incremented)];
    assert ScaleLog(s, j, incremented) == feats + (scaled + call);
    assert [FeaturesComputed(j, s.features[j])][1..] == [];
    assert [ImagesScaled(j, s.scales[j])][1..] == [];
    assert call[1..] == [];
    FeatureComputationsAppend(feats, scaled + call);
    FeatureComputationsAppend(scaled, call);
  }

  /** With one feature function shared by all scales, the scales from `j` compute features only if `j` is 0. */
  lemma {:induction false} SharedFeaturesComputedOnce(s: Settings, j: nat, incremented: bool)
    requires s.WellFormed() && j < |s.scales|
    requires forall k :: 0 <= k < |s.features| ==> s.features[k] == s.features[0]
    ensures FeatureComputations(ScalesFrom(s, j, incremented)) == if j == 0 then 1 else 0
    decreases |s.scales| - j
  {
    FeatureComputationsOfScale(s, j, incremented);
    FeatureComputationsAppend(ScaleLog(s, j, incremented), ScalesFrom(s, j + 1, incremented));
    if j + 1 < |s.scales| {
      SharedFeaturesComputedOnce(s, j + 1, incremented);
    } else {
      assert ScalesFrom(s, j + 1, incremented) == [];
    }
  }
}
