/**
 * Images as the training loop sees them: values produced by the image
 * collaborators, and the mutable copies whose landmark managers the loop
 * writes bounding boxes into.
 */
module Images {
  import opened Geometry
  import opened Landmarks

  /** Pixel data; never inspected by the training loop. */
  datatype Pixels = Pixels(channels: seq<seq<real>>)

  /** An image with its landmark manager, as a value. */
  datatype ImageData = ImageData(pixels: Pixels, landmarks: Landmarks)

  /** An image object whose landmark manager is updated in place. */
  class LandmarkedImage {
    const pixels: Pixels
    var landmarks: Landmarks

    constructor (v: ImageData)
      ensures Value() == v
    {
      pixels := v.pixels;
      landmarks := v.landmarks;
    }

    function Value(): ImageData
      reads this
    {
      ImageData(pixels, landmarks)
    }

    /** `image.landmarks[key] = shape`. */
    method SetLandmarks(key: string, shape: Shape)
      modifies this
      ensures landmarks == Set(old(landmarks), key, shape)
    {
      landmarks := Set(landmarks, key, shape);
    }
  }

  /** The current values of a list of image objects. */
  function Values(images: seq<LandmarkedImage>): (r: seq<ImageData>)
    reads set i | i in images
    ensures |r| == |images|
    ensures forall i :: 0 <= i < |images| ==> r[i] == images[i].Value()
  {
    seq(|images|, i requires 0 <= i < |images| reads images => images[i].Value())
  }

  /** No image object occurs twice. */
  predicate Distinct(images: seq<LandmarkedImage>)
  {
    forall i, j :: 0 <= i < j < |images| ==> images[i] != images[j]
  }

  /** The current landmark managers of a list of image objects. */
  function LandmarksOf(images: seq<LandmarkedImage>): (r: seq<Landmarks>)
    reads set i | i in images
    ensures |r| == |images|
    ensures forall i :: 0 <= i < |images| ==> r[i] == images[i].landmarks
  {
    seq(|images|, i requires 0 <= i < |images| reads images => images[i].landmarks)
  }
}
