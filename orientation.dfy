/**
 * The EXIF orientation step of `cartoonize_image`: the value of the
 * Orientation tag decides a rotation, and every way of failing to read that
 * value (no EXIF block, no such tag, an exception) means no rotation at all.
 */
module Orientation {
  import opened Wrappers
  import opened Geometry

  /** The corrections the source applies. */
  datatype Rotation = NoRotation | Rotate180 | Rotate270 | Rotate90

  /** The decision: tag 3 turns by 180 degrees, 6 by 270, 8 by 90; any other
      value, and `None` (the tag could not be read), leaves the image as it is. */
  function RotationFor(orientation: Option<int>): (r: Rotation)
    ensures r == Rotate180 <==> orientation == Some(3)
    ensures r == Rotate270 <==> orientation == Some(6)
    ensures r == Rotate90 <==> orientation == Some(8)
    ensures r == NoRotation <==> orientation !in {Some(3), Some(6), Some(8)}
  {
    match orientation
    case Some(3) => Rotate180
    case Some(6) => Rotate270
    case Some(8) => Rotate90
    case _ => NoRotation
  }

  /** The angle PIL is asked to turn by. */
  function Degrees(r: Rotation): (d: int)
    requires r != NoRotation
    ensures d in {90, 180, 270}
  {
    match r
    case Rotate180 => 180
    case Rotate270 => 270
    case Rotate90 => 90
  }

  /** The image after the orientation step. */
  function Upright(img: Image, orientation: Option<int>): (r: Image)
    ensures RotationFor(orientation) == NoRotation ==> r == img
    ensures RotationFor(orientation) != NoRotation ==>
      r == Rotate(img, Degrees(RotationFor(orientation)))
  {
    var rot := RotationFor(orientation);
    if rot == NoRotation then img else Rotate(img, Degrees(rot))
  }

  /** The `try` block of `cartoonize_image`: `input_img` is reassigned by the
      branch that matches the tag; an unreadable tag is caught and the image
      is kept. Only the orientation tag 3, 6 or 8 records a rotation in the
      image's history, and the side of the largest square never changes. */
  method CorrectOrientation(input: Image, orientation: Option<int>) returns (img: Image)
    ensures img == Upright(input, orientation)
    ensures orientation in {Some(3), Some(6), Some(8)} <==> img.history != input.history
    ensures Min(img.width, img.height) == Min(input.width, input.height)
  {
    img := input;
    match orientation {
      case None =>
        // reading the tag failed: the exception is swallowed
      case Some(tag) =>
        if tag == 3 {
          img := Rotate(img, 180);
        } else if tag == 6 {
          img := Rotate(img, 270);
        } else if tag == 8 {
          img := Rotate(img, 90);
        }
    }
  }

  /** A missing tag and the tag "1 (normal)" give the same image. */
  lemma NormalIsUnrotated(img: Image)
    ensures Upright(img, None) == Upright(img, Some(1)) == img
  {
  }
}
