/**
 * The configuration values and the collaborators that the training loop
 * calls but does not implement: reference-shape computation, rescaling to
 * the reference shape, holistic feature extraction, image scaling, shape
 * bounding boxes, alignment of the reference shape to a box, and the
 * regression performed by a cascade stage.
 */
module Interfaces {
  import opened Wrappers
  import opened Geometry
  import opened Images

  /**
   * The identity of a feature function. Two scales use the same feature
   * function exactly when their ids are equal (Python's `is`).
   */
  datatype FeatureId = FeatureId(id: nat)

  datatype PatchShape = PatchShape(height: int, width: int)

  /** The cascade-stage class: `Newton`, or `partial(Newton, alpha=alpha)`. */
  datatype AlgorithmClass = Newton | RegularizedNewton(alpha: real)

  /** What one scale's stage is constructed with (fitter.py lines 57-60). */
  datatype StageConfig = StageConfig(
    algorithm: AlgorithmClass,
    features: FeatureId,
    patchShape: PatchShape,
    nIterations: int)

  /**
   * One batch as one stage received it: the images at that scale, their
   * ground-truth shapes, and the incoming shape estimates.
   */
  datatype TrainingSet = TrainingSet(images: seq<ImageData>, targets: seq<Shape>, estimates: Estimates)

  /** The exceptions the training loop itself raises. */
  datatype TrainError =
    | EmptyBatch                    // `image_batch[0]` on an empty batch
    | NoLandmarkGroups              // `group_labels[0]` on an image without landmarks
    | MissingLandmarks(key: string) // `landmarks[key]` on an image without that key
    | ZeroScale(scale: nat)         // `scales[j + 1] / scales[j]` with scales[j] == 0

  /**
   * The functions the training loop delegates to. The list-level builder
   * functions apply their per-image function to every image in order.
   * `descend(config, fittedOn, image, shape)` is where a stage fitted on the
   * training sets `fittedOn` moves one shape estimate of `image`.
   */
  datatype Collaborators = Collaborators(
    computeReferenceShape: (seq<Shape>, Option<real>) -> Shape,
    rescaleToReference: (ImageData, string, Shape) -> ImageData,
    computeFeatures: (FeatureId, ImageData) -> ImageData,
    scaleImage: (ImageData, real) -> ImageData,
    boundingBox: Shape -> Shape,
    alignShapeWithBoundingBox: (Shape, Shape) -> Shape,
    descend: (StageConfig, seq<TrainingSet>, ImageData, Shape) -> Shape)
}
