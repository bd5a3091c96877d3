/**
 * One cascade stage (the `sd_algorithm_cls` instance of one scale). Its
 * regression is not modelled; what the training loop relies on is: `train`
 * refits the stage on one batch from scratch, `increment` extends the
 * existing fit with one more batch, and both return, for every image, one
 * updated estimate per incoming estimate.
 */
module Stages {
  import opened Geometry
  import opened Images
  import opened Interfaces

  /**
   * The estimates a stage with learned state `fittedOn` produces: each
   * incoming estimate of each image is moved by `descend`.
   */
  function Descended(descend: (StageConfig, seq<TrainingSet>, ImageData, Shape) -> Shape, config: StageConfig,
                     fittedOn: seq<TrainingSet>, images: seq<ImageData>, estimates: Estimates): (r: Estimates)
    requires |images| == |estimates|
    ensures |r| == |estimates|
    ensures forall i :: 0 <= i < |r| ==> |r[i]| == |estimates[i]|
  {
    seq(|estimates|, i requires 0 <= i < |estimates| =>
      seq(|estimates[i]|, k requires 0 <= k < |estimates[i]| => descend(config, fittedOn, images[i], estimates[i][k])))
  }

  /** The learned state after `train` (a fresh fit) or `increment` (one more batch). */
  function FittedAfter(before: seq<TrainingSet>, incremented: bool, batch: TrainingSet): seq<TrainingSet>
  {
    if incremented then before + [batch] else [batch]
  }

  class Stage {
    const config: StageConfig
    /** The training sets the stage's regressors are currently fitted to, oldest first. */
    var fittedOn: seq<TrainingSet>

    constructor (config: StageConfig)
      ensures this.config == config && fittedOn == []
    {
      this.config := config;
      fittedOn := [];
    }

    /** `train(images, gt_shapes, current_shapes)`: fit from scratch on this batch. */
    method Train(images: seq<ImageData>, targets: seq<Shape>, estimates: Estimates,
                 descend: (StageConfig, seq<TrainingSet>, ImageData, Shape) -> Shape) returns (updated: Estimates)
      requires |targets| == |images| && |estimates| == |images|
      modifies this
      ensures fittedOn == [TrainingSet(images, targets, estimates)]
      ensures updated == Descended(descend, config, fittedOn, images, estimates)
    {
      fittedOn := [TrainingSet(images, targets, estimates)];
      updated := Descended(descend, config, fittedOn, images, estimates);
    }

    /** `increment(images, gt_shapes, current_shapes)`: extend the fit with this batch. */
    method Increment(images: seq<ImageData>, targets: seq<Shape>, estimates: Estimates,
                     descend: (StageConfig, seq<TrainingSet>, ImageData, Shape) -> Shape) returns (updated: Estimates)
      requires |targets| == |images| && |estimates| == |images|
      modifies this
      ensures fittedOn == old(fittedOn) + [TrainingSet(images, targets, estimates)]
      ensures updated == Descended(descend, config, fittedOn, images, estimates)
    {
      fittedOn := fittedOn + [TrainingSet(images, targets, estimates)];
      updated := Descended(descend, config, fittedOn, images, estimates);
    }
  }
}
