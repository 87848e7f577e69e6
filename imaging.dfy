/** Values the crop screen works with: the source picture (an OpenCV matrix),
    Android bitmaps, the corner quadrilateral, and the image-processing
    collaborators whose internals are not part of this model. */
module Imaging {

  datatype Option<T> = None | Some(value: T)

  /** An OpenCV matrix: its dimensions and its (uninterpreted) samples. */
  datatype Mat = Mat(width: nat, height: nat, samples: seq<int>)

  /** An ARGB_8888 bitmap: its dimensions and its (uninterpreted) pixels. */
  datatype Bitmap = Bitmap(width: nat, height: nat, pixels: seq<int>)

  datatype Point = Point(x: real, y: real)

  /** The quadrilateral the user confirmed in the corner editor. */
  datatype Corners = Corners(points: seq<Point>)

  /** The pixel work done outside the presenter: the perspective crop,
      the copy of a matrix's samples into a bitmap, and the photometric
      enhancement. Each is a total, deterministic function here. */
  datatype Collaborators = Collaborators(
    cropPicture: (Mat, Corners) -> Mat,
    matToPixels: Mat -> seq<int>,
    enhancePicture: Bitmap -> Bitmap)

  const DefaultPreviewWidth: nat := 1080
  const DefaultPreviewHeight: nat := 1920

  /** Size of the preview bitmap made when the screen opens: the picture's
      own size, or 1080 x 1920 when there is no picture. */
  function PreviewSize(picture: Option<Mat>): (nat, nat)
  {
    match picture
    case Some(m) => (m.width, m.height)
    case None => (DefaultPreviewWidth, DefaultPreviewHeight)
  }

  /** A bitmap allocated at the matrix's size and filled from it. */
  function ToBitmap(env: Collaborators, m: Mat): Bitmap
  {
    Bitmap(m.width, m.height, env.matToPixels(m))
  }
}
