# Supervised Descent Method fitter: training orchestration

This project models the training procedure of menpofit's
`SupervisedDescentFitter` (`menpofit/sdm/fitter.py`). Construction stores the
per-scale parameters and builds one untrained cascade stage per pyramid
scale. `_train` then does the following:

- splits the images into batches;
- latches the landmark group and the reference shape from the first batch;
- rescales copies of each batch to the reference shape;
- attaches the bounding boxes to those copies:
  - it stores the ground-truth box under `'__gt_bb_0'` when no bounding-box group is given;
  - when exactly one box matches, it generates `'{bb_group}_{j}'` perturbations;
  - otherwise it reconciles `n_perturbations` with the number of boxes found;
- runs the scale loop, lowest resolution first. At each scale it:
  - computes features only when they change;
  - resamples only when the factor is not 1;
  - seeds the shape estimates at scale 0;
  - trains the stage (on the first batch of a fresh fit) or increments it (on every other batch);
  - carries the estimates to the next scale by the ratio of the two scale factors.

`increment` runs the same procedure in increment mode from the first batch
on. `SDM` and `RegularizedSDM` fix the stage class.

The model has two layers.

- **Specification functions** over values:
  - module `Training`: `TrainRun`, `RunBatches` (one iteration: `BatchStep`), `RunBatch`, `RunReferenced`, `RunScales` (one iteration: `ScaleStep`), `PassAt`, `FitPass`;
  - module `BoundingBoxes`: `AttachBoxes`;
  - module `Pyramid`: `InitialEstimates`, `ScaledImages`.

  Each one follows what `fitter.py` does, down to the exceptions `fitter.py` itself raises and the order in which it raises them. The collaborators it calls are modelled as total (see "## Left out").
- **Imperative code** in module `Fitter`. It has the same shape as the source:
  - a class `SupervisedDescentFitter`, whose fields are updated in place;
  - stage objects (`Stages.Stage`) that `train` replaces and `increment` extends;
  - image objects (`Images.LandmarkedImage`) whose landmark dictionaries gain keys inside nested loops;
  - `while` loops for the batch loop, the scale loop and the perturbation, seeding and propagation loops.

  Every method is proved to produce the state, events and error of its specification function.

A ghost log of events records what the collaborators observe:

- batch starts, with the group used;
- feature computations and resamplings, with their scale;
- stage calls, with their scale and mode.

Lemmas about the specification functions state what the source promises:

- the train/increment schedule;
- the group and reference-shape latches;
- the key generation and `n_perturbations` reconciliation;
- the per-scale feature and resampling policy;
- the estimate counts;
- what each stage is trained on: the batch's images at its scale and their ground truths, and, from the second stage on, the shapes the stage before it carried on, rescaled by the ratio of the two scale factors (`Training.ScalesPropagated`);
- which batch each entry of a stage's fit comes from (`Training.StageFitBatches`).

Collaborators whose code is not part of this model are function values in a
`Collaborators` record:

- `compute_reference_shape`;
- `rescale_images_to_reference_shape`;
- `compute_features`;
- `scale_images`;
- `bounding_box`;
- `align_shape_with_bounding_box`;
- the stage regression itself.

`perturb_from_bounding_box` is a constructor argument stored in a field, as in the source.

## Model

| member | source | states |
|---|---|---|
| Batching.ChunksPartition | menpofit/sdm/fitter.py:71-74 | The chunks of a positive batch size concatenate back to the input. Every chunk is non-empty and no longer than the batch size, and all but the last have exactly that size. |
| Batching.BatchesPartition | menpofit/sdm/fitter.py:71-76 | Without a batch size the input is one single batch. With one, it is split into such chunks. Either way the batches concatenate back to the input. |
| Geometry.ScaleShape | menpofit/sdm/fitter.py:222-226 | Scaling a shape keeps its number of points. |
| Geometry.Propagated | menpofit/sdm/fitter.py:222-226 | Carrying estimates to the next scale keeps the number of images and the number of estimates per image. |
| Geometry.ScaleShapeCompose | menpofit/sdm/fitter.py:222-226 | Scaling by a and then by b is scaling by a * b. |
| Geometry.ScaleByRatios | menpofit/sdm/fitter.py:222-223 | Scaling by b / a and then by c / b is scaling by c / a. This is a standalone fact about the ratios, and the run-level proofs do not use it. |
| Geometry.CarriedAcross | menpofit/sdm/fitter.py:219-226 | A shape carried level by level keeps its number of points. This is a standalone fact about the ratios; the run-level statement is `Training.ScalesPropagated`. |
| Geometry.CarriedAcrossIsOneScale | menpofit/sdm/fitter.py:219-226 | Carrying a shape from scale `first` to scale `last` through the per-level ratios scales[j+1]/scales[j] is one scale by scales[last]/scales[first]. This is a standalone fact about the ratios, and the run-level proofs do not use it; the run-level statement is `Training.ScalesPropagated`. |
| Landmarks.Get | menpofit/sdm/fitter.py:117 | `landmarks[key]` finds a shape exactly when the key is one of the labels, and then it finds that key's shape. |
| Landmarks.Set | menpofit/sdm/fitter.py:119 | Assigning a key stores its shape. The label is appended only when the key is new, so labels keep insertion order. |
| Landmarks.Matching | menpofit/sdm/fitter.py:125-126 | `keys_matching('*p*')` gives exactly the labels that contain p, in label order. |
| Landmarks.MatchingAppend | menpofit/sdm/fitter.py:158-159 | Matching distributes over concatenation of label lists. |
| Landmarks.KeysMatchingAfterSet | menpofit/sdm/fitter.py:147 | A new matching key is appended to the keys found by the next re-read. Overwriting an existing key leaves them unchanged. |
| Images.LandmarkedImage.SetLandmarks | menpofit/sdm/fitter.py:119 | `i.landmarks[key] = shape` on an image object updates its landmark dictionary as `Set` does. |
| Wrappers.MapResult | menpofit/sdm/fitter.py:116-119 | A per-item loop succeeds exactly when every item does, with one result per item in order. |
| Wrappers.MapResultFails | menpofit/sdm/fitter.py:116-119 | A per-item loop that fails reports the error of an item that fails, and every item before it succeeded: the first failure, as a loop raising at its first exception. |
| Wrappers.MapResultFirstError | menpofit/sdm/fitter.py:116-119 | Conversely, when item i is the first to fail, the loop fails with item i's error. |
| Stages.Descended | menpofit/sdm/fitter.py:210-217 | A stage returns, for every image, one updated estimate per incoming estimate. |
| Stages.Stage.constructor | menpofit/sdm/fitter.py:56-60 | A new stage has its configuration and is fitted to nothing. |
| Stages.Stage.Train | menpofit/sdm/fitter.py:210-213 | `train` fits the stage to this training set alone and returns the descended estimates. |
| Stages.Stage.Increment | menpofit/sdm/fitter.py:214-217 | `increment` appends this training set to the stage's fit and returns the descended estimates. |
| BoundingBoxes.Decimal | menpofit/sdm/fitter.py:146 | The decimal rendering of an index is non-empty. |
| BoundingBoxes.GeneratedKey | menpofit/sdm/fitter.py:146 | The key `'{bb}_{j}'`. It has no contract of its own: `DecimalRoundTrip`, `GeneratedKeysDistinct` and `GeneratedKeyMatches` state that the index reads back, that distinct indices give distinct keys, and that every key matches `'*{bb}*'`. |
| BoundingBoxes.DecimalRoundTrip | menpofit/sdm/fitter.py:146 | Reading back the decimal rendering of n gives n. |
| BoundingBoxes.GeneratedKeys | menpofit/sdm/fitter.py:140-147 | Indices first .. n-1 give n - first keys (none when first >= n). |
| BoundingBoxes.GeneratedKeysMembers | menpofit/sdm/fitter.py:140-147 | A key is generated exactly when it is `'{bb}_{m}'` for an index m in range. |
| BoundingBoxes.GeneratedKeysDistinct | menpofit/sdm/fitter.py:146 | Distinct indices give distinct `'{bb}_{j}'` keys. |
| BoundingBoxes.GeneratedKeyMatches | menpofit/sdm/fitter.py:146 | Every generated key matches `'*{bb}*'`. |
| BoundingBoxes.GeneratedKeysMatch | menpofit/sdm/fitter.py:158-159 | Matching the generated keys against `'*{bb}*'` keeps all of them, in order. |
| BoundingBoxes.GroundTruthKeys | menpofit/sdm/fitter.py:115-118 | Both `'__gt_bb_0'` and `'__gt_bb__{j}'` match `'*__gt_bb_*'`, and no generated key is the seed. |
| BoundingBoxes.Perturbed | menpofit/sdm/fitter.py:140-147 | One image's generation loop from index j on. Its specification is `PerturbedFails` (it fails exactly when there is something to generate and the group or the seed is missing, the group first), `PerturbedLabels`, `PerturbedKeys` and `PerturbedContent`. |
| BoundingBoxes.PerturbedFails | menpofit/sdm/fitter.py:140-147 | Generation fails exactly when there is something to generate and the image lacks the group or the seed box. The group is reported first. |
| BoundingBoxes.PerturbedContent | menpofit/sdm/fitter.py:140-147 | Each generated key holds the perturbation of the ground-truth box and the seed box. The seed and every other key keep their shapes. |
| BoundingBoxes.SeedOverwritten | menpofit/sdm/fitter.py:140-147 | With the user group `bb` whose only box is `bb_1`, and n = 3, step 1 overwrites `bb_1` with its own perturbation, and `bb_2` holds the perturbation of that perturbation rather than of the seed box. |
| BoundingBoxes.PerturbedLabels | menpofit/sdm/fitter.py:140-147 | The generated keys are appended to the labels in index order. |
| BoundingBoxes.PerturbedKeys | menpofit/sdm/fitter.py:156-159 | The re-read keys are the previous matching keys followed by the generated keys. |
| BoundingBoxes.WithGroundTruthBox | menpofit/sdm/fitter.py:115-119 | One image with its ground-truth box stored under `'__gt_bb_0'`, or the missing group. Its specification is `SeededFails` and `GroundTruthSeeded`. |
| BoundingBoxes.Seeded | menpofit/sdm/fitter.py:110-121 | Every image with its ground-truth box when no bounding-box group is given, the images unchanged otherwise. Its specification is `SeededFails` (it fails exactly when some image lacks the group, naming it) and `GroundTruthSeeded` (what each image holds afterwards). |
| BoundingBoxes.SeededFails | menpofit/sdm/fitter.py:110-119 | Storing the ground-truth boxes fails exactly when no bounding-box group is given and some image lacks the group. The error names that group. On success there is one landmark manager per image. |
| BoundingBoxes.Found | menpofit/sdm/fitter.py:125-127 | The first image's keys matching `'*{bb_group}*'`, in label order. `Landmarks.Matching`'s contract states that a key is found exactly when it is a label of the first image that contains the box group. `GroundTruthSeeded` and `ExpandedFirstKeys` give the keys found in each case. |
| BoundingBoxes.AttachBoxes | menpofit/sdm/fitter.py:110-159 | The box step of one batch. Its specification is `AttachBoxesFails` (its errors and their order), `SingleBoxExpanded` and `GroundTruthBoxesExpanded` (one box found: the generated keys on every image), `PerturbationCountReconciled` (otherwise the count found is adopted) and `AttachBoxesKeepsImages`. |
| BoundingBoxes.AttachBoxesFails | menpofit/sdm/fitter.py:110-159 | The box step fails exactly when the seeding fails, the batch is empty, or the single-box case meets an image without the group or the box. |
| BoundingBoxes.ExpandedImage | menpofit/sdm/fitter.py:136-147 | On one image, generation leaves the seed box as it was and stores each perturbation under its key. |
| BoundingBoxes.ExpandedImages | menpofit/sdm/fitter.py:136-147 | The same holds for every image of the batch. |
| BoundingBoxes.ExpandedFirstKeys | menpofit/sdm/fitter.py:156-159 | On the first image, the re-read keys are the single seed key followed by the generated keys. |
| BoundingBoxes.SingleBoxExpanded | menpofit/sdm/fitter.py:129-147 | With exactly one matching box: `n_perturbations` is kept, and every image gains `'{bb}_1'` .. `'{bb}_{n-1}'` holding the perturbations. The seed box is unmodified, and the re-read keys are the seed followed by the generated keys. |
| BoundingBoxes.PerturbationCountReconciled | menpofit/sdm/fitter.py:148-154 | With a matching-box count other than 1, `n_perturbations` becomes that count (0 included), no box is added and the keys are those found. With exactly one box, the configured count is kept. When that count is at least 1 and no generated key clashes with the seed or the group, there are that many keys. |
| BoundingBoxes.AttachBoxesKeepsImages | menpofit/sdm/fitter.py:110-159 | The box step keeps one landmark manager per image. |
| BoundingBoxes.MatchingNone | menpofit/sdm/fitter.py:125-126 | No label matches a pattern that none of them contains. |
| BoundingBoxes.GroundTruthSeeded | menpofit/sdm/fitter.py:110-127 | Without a bounding-box group, every image gets its ground-truth box under `'__gt_bb_0'`. On a first image with no other `'__gt_bb_'` key, that seed is the only box found. |
| BoundingBoxes.GroundTruthKeysAvoid | menpofit/sdm/fitter.py:115-118 | No generated `'__gt_bb__{j}'` key is the seed or a group whose name lacks `'__gt_bb_'`. |
| BoundingBoxes.GroundTruthBoxesExpanded | menpofit/sdm/fitter.py:110-159 | Without a bounding-box group, every image gets `'__gt_bb_0'` plus n - 1 perturbations of it. `n_perturbations` is kept, and the keys read back are the seed then the generated keys. |
| Pyramid.ComputeFeatures | menpofit/sdm/fitter.py:177-180 | Feature computation gives one image per image. |
| Pyramid.ScaleImages | menpofit/sdm/fitter.py:184-186 | Resampling gives one image per image. |
| Pyramid.RecomputesFeatures | menpofit/sdm/fitter.py:173 | Whether scale j computes its features. Its specification is `FeaturesComputedIff` (computed exactly at scale 0 or where the feature changes), `FeatureReuseSound` (a reused image equals a fresh computation) and `SharedFeaturesComputedOnce`. |
| Pyramid.FeatureImages | menpofit/sdm/fitter.py:173-180 | The feature images a scale works on: one per image of the batch. |
| Pyramid.FeatureReuseSound | menpofit/sdm/fitter.py:173-180 | Reusing the previous scale's feature images (same feature function) gives what recomputing with this scale's function would give. |
| Pyramid.ScaledImages | menpofit/sdm/fitter.py:182-188 | A scale sees one image per image of the batch. |
| Pyramid.ScaledImagesAt | menpofit/sdm/fitter.py:182-188 | Image i at scale j is the scale's feature of image i, resampled by the factor exactly when the factor is not 1. |
| Pyramid.Lookup | menpofit/sdm/fitter.py:203 | Reading a landmark group succeeds exactly when the key is present, else it fails naming the key. |
| Pyramid.GroundTruths | menpofit/sdm/fitter.py:191 | The ground-truth shapes exist exactly when every image has the group, one per image in order. Otherwise the group is reported missing. |
| Pyramid.AlignedRow | menpofit/sdm/fitter.py:201-206 | One image's row exists exactly when it has every key. It then holds the reference aligned with each key's box, in key order. Otherwise the error is a missing key; `Pyramid.AlignedRowFirstMissing` says which. |
| Pyramid.InitialEstimates | menpofit/sdm/fitter.py:199-207 | The estimates exist exactly when every image has every key. There is then one row per image, one aligned shape per key, in order. Otherwise the error is a missing key; `Pyramid.InitialEstimatesFirstMissing` says which. |
| Pyramid.AlignedRowFirstMissing | menpofit/sdm/fitter.py:201-206 | The key reported missing for one image is the first of its keys that the image lacks, as the `KeyError` at line 203 reports. |
| Pyramid.InitialEstimatesFirstMissing | menpofit/sdm/fitter.py:199-207 | The box reported missing is in the first image that lacks a box, and it is the first key that image lacks. |
| Pyramid.StageSchedule | menpofit/sdm/fitter.py:163 | The expected schedule of a batch's stage calls: stages first .. n-1, each once, in scale order, in one mode. `ScaleStageCalls` proves that the scale loop meets it. |
| Pyramid.ScaleLog | menpofit/sdm/fitter.py:163-217 | The events of one completed scale: its preparation, then its stage call. Its specification is `ScaleLogStageCalls` (exactly one stage call, to its own stage, in the batch's mode) and `NoStageCallsInPreparation`. |
| Pyramid.ScalesFrom | menpofit/sdm/fitter.py:163-217 | The events of scales j .. n-1 completed in order. Its specification is `ScaleStageCalls` (the stage calls are the expected schedule) and `Training.ScalesLogged` (a completed scale loop logs exactly these events). |
| Pyramid.NoStageCallsInPreparation | menpofit/sdm/fitter.py:173-188 | Feature computation and resampling call no stage. |
| Pyramid.ScaleLogStageCalls | menpofit/sdm/fitter.py:210-217 | A completed scale calls its own stage exactly once. |
| Pyramid.ScaleStageCalls | menpofit/sdm/fitter.py:163-217 | Within a batch, every stage from j on is called once, lowest resolution first, all in the batch's mode. |
| Pyramid.FeaturesComputedIff | menpofit/sdm/fitter.py:173-180 | Features are computed at scale k exactly when k is 0 or its feature differs from scale k-1's, and with scale k's feature. |
| Pyramid.ImagesScaledIff | menpofit/sdm/fitter.py:182-186 | Images are resampled at scale k exactly when its factor is not 1, and by that factor. |
| Pyramid.FeatureComputationsOfScale | menpofit/sdm/fitter.py:173-180 | A scale computes features once when it recomputes them and never otherwise. |
| Pyramid.SharedFeaturesComputedOnce | menpofit/sdm/fitter.py:173-180 | With one feature function for all scales, a batch computes features exactly once. |
| Training.PassAt | menpofit/sdm/fitter.py:163-226 | One scale pass keeps one fit per stage and, when it succeeds, one estimate row per image; a zero scale factor it raises is its own, and only before the last scale. |
| Training.FitPass | menpofit/sdm/fitter.py:210-226 | Fitting a scale keeps one fit per stage and one estimate row per image; it fails only on a zero factor `scales[j]` with a scale after `j`. |
| Training.RunScales | menpofit/sdm/fitter.py:163-226 | The scale loop keeps one fit per stage. |
| Training.ScaleStep | menpofit/sdm/fitter.py:163-226 | One iteration of the scale loop keeps one fit per stage. |
| Training.ZeroScaleBeforeLast | menpofit/sdm/fitter.py:219-223 | The loop fails on a zero scale factor only at a zero factor before the last scale. |
| Training.RunScalesStep | menpofit/sdm/fitter.py:163-226 | The scale loop is one pass followed, unless it raises or was the last scale, by the loop from the next scale. |
| Training.Rescaled | menpofit/sdm/fitter.py:106-108 | Rescaling gives one copy per image. |
| Training.PreparedImages | menpofit/sdm/fitter.py:106-159 | A prepared batch has one image per input image. |
| Training.RunReferenced | menpofit/sdm/fitter.py:106-226 | A batch whose reference is known keeps one fit per stage. |
| Training.RunBatch | menpofit/sdm/fitter.py:86-226 | One batch keeps one fit per stage. |
| Training.RunBatches | menpofit/sdm/fitter.py:78-226 | The batch loop keeps one fit per stage. |
| Training.BatchStep | menpofit/sdm/fitter.py:78-226 | One iteration of the batch loop keeps one fit per stage. |
| Training.RunBatchesStep | menpofit/sdm/fitter.py:78-90 | The batch loop latches the group, runs the batch in increment mode when asked or k > 0, and stops at its error or continues with the latched group. |
| Training.TrainRun | menpofit/sdm/fitter.py:66-226 | `_train` keeps one fit per stage. |
| Training.FitPassFacts | menpofit/sdm/fitter.py:210-226 | Fitting logs the stage call, refits stage j alone, and keeps the number of estimates per image. |
| Training.PassSucceeded | menpofit/sdm/fitter.py:193-217 | A pass that succeeds refits only stage j, by train or increment, on one training set of the batch. At scale 0 that set's estimates are the reference aligned with each image's boxes. |
| Training.PassLogged | menpofit/sdm/fitter.py:163-217 | A pass that succeeds logs the scale's feature, resampling and stage calls. It carries one estimate per key and image. |
| Training.ScalesSucceeded | menpofit/sdm/fitter.py:161-226 | A completed scale loop logs every remaining scale in order, leaves earlier stages alone, and refits each remaining stage on the batch. At scale 0 the estimates are the aligned reference. |
| Training.ScalesLogged | menpofit/sdm/fitter.py:161-226 | The events of a completed scale loop are those of its scales, in order. |
| Training.ScalesRefitted | menpofit/sdm/fitter.py:161-217 | A completed scale loop leaves the stages before j untouched and refits each later one on the batch. |
| Training.FitPassCarries | menpofit/sdm/fitter.py:210-226 | Fitting stage j makes the batch the stage's newest training set. When the fit completes before the last scale, the factor is non-zero and the shapes carried on are the stage's descent from the batch's shapes, scaled by scales[j+1]/scales[j]. |
| Training.PassCarried | menpofit/sdm/fitter.py:163-226 | A pass that completes trains stage j on the shapes carried into it (from scale 1 on). Before the last scale it carries on the stage's descent from those shapes, scaled by scales[j+1]/scales[j]. |
| Training.ScalesPropagated | menpofit/sdm/fitter.py:163-226 | In a completed scale loop, every stage after the first is trained on the shapes the stage before it carried on: that stage's descent from its own training shapes, scaled by scales[k+1]/scales[k]. From scale 1 on, the loop's first stage is trained on the shapes carried into it. |
| Training.ReferencedSucceeded | menpofit/sdm/fitter.py:106-226 | A completed batch with a known reference shape is prepared with the fitter's `n_perturbations`, and the count becomes the one the box step settles on. It logs its scales, keeps the reference shape, refits every stage on the prepared batch, and every stage after the first is trained on the shapes the stage before it carried on. |
| Training.LatchedGroup | menpofit/sdm/fitter.py:89-90 | The group given, or else the first label of the first image. It fails on an empty batch or an image without landmarks. `BatchesShareGroup` and `TrainingEvents` state that every batch runs under the group latched by the first. |
| Training.LatchedReference | menpofit/sdm/fitter.py:92-103 | The reference shape already present, or else one computed from the batch's ground-truth shapes. Its run-level specification is `ReferenceShapeLatched`. |
| Training.BatchLog | menpofit/sdm/fitter.py:78-226 | The events of one completed batch: its start under the group, then its scales. Its specification is `BatchStageCalls` and `TrainingEvents`. |
| Training.TrainLog | menpofit/sdm/fitter.py:78-226 | The events of batches k .. n-1 completed under one group. Its specification is `TrainingEvents` (a completed run logs exactly these events) and `TrainingCallsScheduled`. |
| Training.TrainingEvents | menpofit/sdm/fitter.py:78-90 | A completed run logs its batches in order, all under the group latched at its first batch. The first is in increment mode exactly when asked, every later one always. |
| Training.ReferenceShapeLatched | menpofit/sdm/fitter.py:92-103 | A completed run keeps a reference shape already present, and otherwise sets it from the ground-truth shapes of its first batch. |
| Training.StageFitAccumulates | menpofit/sdm/fitter.py:78-81 | After a completed run every stage holds one training set per batch. Its previous fit is kept as a prefix when the first batch increments; otherwise the fit is exactly one training set per batch. |
| Training.StageFitBatches | menpofit/sdm/fitter.py:78-217 | After a completed run, the last entries of every stage's fit are, in batch order, that stage's training set of each batch. Each set is its batch rescaled to the run's reference shape and given its boxes, under the group latched at the first batch, in increment mode unless it is the first batch of a fresh fit. |
| Training.BatchFit | menpofit/sdm/fitter.py:210-217 | One completed batch adds one training set to a stage's fit, or replaces the fit when training. |
| Training.BatchesStep | menpofit/sdm/fitter.py:78-90 | A completed step of the batch loop continues with the latched group and the batch's state and events. |
| Training.BatchSucceeded | menpofit/sdm/fitter.py:86-226 | A completed batch logs its group and scales and latches its reference shape. It is prepared with the fitter's `n_perturbations`, and the count becomes the one the box step settles on. Every stage is refitted on the prepared batch: the images at its scale, their ground truths, and one estimate per box key and image. Every stage after the first is trained on the shapes the stage before it carried on. |
| Training.BatchStageCalls | menpofit/sdm/fitter.py:163-217 | A batch calls stages 0 .. n_scales - 1, in order, in its mode. |
| Training.RunScheduleLength | menpofit/sdm/fitter.py:78-81 | That schedule has n_scales calls per batch. |
| Training.RunScheduleAt | menpofit/sdm/fitter.py:78-81 | Call b * n_scales + j of that schedule goes to stage j of batch b, in increment mode unless b is the first batch of a fresh fit. |
| Training.TrainingCallsScheduled | menpofit/sdm/fitter.py:78-81 | The stage calls of a completed run are that schedule. |
| Training.TrainingStageCallCount | menpofit/sdm/fitter.py:210-217 | A completed run of m batches makes m * n_scales stage calls. |
| Training.TrainingStageCalls | menpofit/sdm/fitter.py:210-217 | In a completed run, stage call b * n_scales + j goes to stage j of batch b. It is `train` exactly when b is the first batch and the run was not asked to increment. |
| Training.BatchesShareGroup | menpofit/sdm/fitter.py:89-90 | Every batch of a completed run starts under the one group latched by its first batch. |
| Fitter.Rescale | menpofit/sdm/fitter.py:106-108 | Rescaling creates one distinct fresh image object per image, holding its rescaled copy. |
| Fitter.SeedGroundTruthBoxes | menpofit/sdm/fitter.py:116-119 | Storing the ground-truth boxes on the image objects leaves the landmarks and error of the per-image specification. |
| Fitter.SeedGroundTruthBox | menpofit/sdm/fitter.py:117-119 | The same for one image. |
| Fitter.GeneratePerturbations | menpofit/sdm/fitter.py:136-147 | The nested generation loop leaves every image's landmarks, or the first error, as `Perturbed` specifies. |
| Fitter.PerturbImage | menpofit/sdm/fitter.py:140-147 | The same for one image, j = 1 .. n - 1 in order. |
| Fitter.SeedEstimates | menpofit/sdm/fitter.py:199-207 | The nested seeding loop produces `InitialEstimates`. |
| Fitter.AlignRow | menpofit/sdm/fitter.py:201-206 | The inner seeding loop produces `AlignedRow`. |
| Fitter.Propagate | menpofit/sdm/fitter.py:222-226 | The propagation loop produces `Propagated`. |
| Fitter.Untrained | menpofit/sdm/fitter.py:55-60 | The learned state of n untrained stages: n empty fits. |
| Fitter.SupervisedDescentFitter.Configured | menpofit/sdm/fitter.py:55-60 | The fitter's settings hold, per scale, the configuration its stage is built with. |
| Fitter.SupervisedDescentFitter.constructor | menpofit/sdm/fitter.py:30-55 | The parameters are stored, and there are one fresh untrained stage per scale, no fits and no events. |
| Fitter.SupervisedDescentFitter.SetupAlgorithms | menpofit/sdm/fitter.py:55-60 | One fresh, distinct, untrained stage per scale is appended, configured with that scale's parameters. |
| Fitter.SupervisedDescentFitter.AttachBoundingBoxes | menpofit/sdm/fitter.py:110-159 | The box step on the image objects leaves the landmarks, `n_perturbations`, keys and error of `AttachBoxes`. |
| Fitter.SupervisedDescentFitter.Train | menpofit/sdm/fitter.py:66-226 | `_train` leaves the state, events and error of `TrainRun`, and the stages' fits mirror the state. |
| Fitter.SupervisedDescentFitter.Increment | menpofit/sdm/fitter.py:228-233 | `increment` is `TrainRun` in increment mode. |
| Fitter.SupervisedDescentFitter.TrainBatches | menpofit/sdm/fitter.py:78-226 | The batch loop leaves the state, events and error of `RunBatches`. |
| Fitter.SupervisedDescentFitter.TrainNext | menpofit/sdm/fitter.py:78-90 | One iteration latches the group and the increment mode and runs the batch as `RunBatchesStep` describes. |
| Fitter.SupervisedDescentFitter.TrainBatch | menpofit/sdm/fitter.py:86-226 | One batch leaves the state, events and error of `RunBatch`. |
| Fitter.SupervisedDescentFitter.TrainReferenced | menpofit/sdm/fitter.py:106-226 | A batch with a latched reference leaves what `RunReferenced` specifies. |
| Fitter.SupervisedDescentFitter.PrepareBatch | menpofit/sdm/fitter.py:106-159 | Rescaling and the box step leave the images, keys, `n_perturbations` and error of `PreparedImages`. |
| Fitter.SupervisedDescentFitter.TrainScales | menpofit/sdm/fitter.py:161-226 | The scale loop leaves the fits, events and error of `RunScales`. |
| Fitter.SupervisedDescentFitter.TrainScale | menpofit/sdm/fitter.py:163-226 | One scale pass is `PassAt`, and its feature images are the scale's feature of the batch. |
| Fitter.SupervisedDescentFitter.FinishScale | menpofit/sdm/fitter.py:210-226 | Fitting and propagating one scale is `FitPass`. |
| Fitter.SupervisedDescentFitter.PrepareScale | menpofit/sdm/fitter.py:166-207 | The scale's images, ground truths and (at scale 0) seeded estimates match their specifications, with the preparation events logged. |
| Fitter.SupervisedDescentFitter.ScaleFeatures | menpofit/sdm/fitter.py:172-188 | Reusing or recomputing the features and resampling yields `ComputeFeatures` and `ScaledImages`, with the preparation events logged. |
| Fitter.SupervisedDescentFitter.FitStage | menpofit/sdm/fitter.py:210-217 | Train or increment refits stage j alone, logs the call, and returns the descended estimates. |
| Fitter.Create | menpofit/sdm/fitter.py:23-52 | Constructing a fitter builds a fresh fitter that holds the stage class and every parameter of the options, with stages of that class. It then trains it as `TrainRun` from the untrained state in train mode. |
| Fitter.Sdm | menpofit/sdm/fitter.py:280 | `SDM` is that construction with `Newton` stages: the fitter holds every parameter of the options. |
| Fitter.RegularizedSdm | menpofit/sdm/fitter.py:282-299 | `RegularizedSDM` is that construction with `Newton` stages of ridge weight alpha: the fitter holds every parameter of the options. |

## Left out

- Collaborators are opaque function values, and their code is not part of this model:
  - the regression inside the `Newton` stages (a stage's learned state is modelled as the list of training sets it was fitted to);
  - `compute_features`, `scale_images` and `rescale_images_to_reference_shape`;
  - `compute_reference_shape` and `align_shape_with_bounding_box`;
  - `noisy_shape_from_bounding_box` and `menpo`'s `bounding_box`.
- Collaborators are total: their own exceptions are not modelled. This covers `compute_reference_shape` (line 101), `rescale_images_to_reference_shape` (106), the perturbation (145), `compute_features` and `scale_images` (177-186), `align_shape_with_bounding_box` (205), and the stages' `train` and `increment` (210-217). Where one of them would raise, the model goes on to the next check that `fitter.py` makes itself. For example, a rescale that reads a group some image lacks is not an error in the model: the run fails later, with `MissingLandmarks(group)` at line 191.
- Random noise in the default perturbation is not modelled. The perturbation is a deterministic function parameter.
- Fitter.SupervisedDescentFitter.constructor: the `checks.check_*` validation of lines 31-35 and 46 is taken as a precondition (one feature, patch feature, patch shape and iteration count per scale). The checks module is not part of this model.
- Fitter.Create: when training raises, the source propagates the exception and no fitter is returned. The model returns the error beside the fitter, whose state is the state reached at the failure.
- Batching.BatchesPartition: `menpofit.base.batch` is not part of this model. It is modelled as consecutive chunks of `batch_size` images, the last one possibly shorter, and a `batch_size` of 0 is excluded. Generators and infinite inputs are not modelled, only finite sequences.
- `perturb_from_bounding_box` (lines 62-64), `_fitter_result` (lines 235-238) and `__str__` (lines 240-276) are left out. They are thin wrappers and string formatting, and nothing in training calls them.
- Warnings, `print`, `print_progress`, `verbose` and the `scale_prefix` strings are left out. They are diagnostics only.
- Pyramid.FeaturesComputedIff: the source compares feature functions by identity (`is not`). The model compares opaque feature ids by equality.
- Landmarks.Matching: `keys_matching('*p*')` is modelled as substring containment. Glob metacharacters inside the bounding-box group name are not interpreted.
- Geometry.ScaleShape: coordinates are exact reals. Floating-point rounding is not modelled, nor the float division of line 222 beyond failing on a zero factor (`ZeroScale`), where Python raises `ZeroDivisionError`.
- Fitter.Propagate: `apply_inplace` mutates shape objects in place. The model rebuilds the estimate values, which is only equivalent because no estimate shape is shared between images or stages. The model does not capture aliasing between shapes.
- Fitter.SupervisedDescentFitter.Valid: the ghost field `fits` mirrors each stage's `fittedOn`, so the specification can speak of the stages' fits as a value. It is not part of the source.
- BoundingBoxes.PerturbedContent: with a user bounding-box group `bb` and a seed key that is itself a generated key (e.g. the only matching key is `'bb_1'`), generation overwrites the seed box. The seed-preservation lemmas assume that no generated key is the seed or the group. `BoundingBoxes.SeedOverwritten` exhibits the case.
- Training.StageFitBatches: the perturbation count each batch is prepared with is stated to exist, not named. It is the count the box step of the batch before settled on (`Training.BatchSucceeded` names it for one batch).
- Training.TrainRun: a run that stops with an error leaves the state reached up to that point. Exception objects and their messages are modelled only by the `TrainError` kind.
