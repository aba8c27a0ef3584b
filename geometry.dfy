/**
 * Image geometry of the cartoonizer: the centre-crop box of `crop_center`,
 * the largest centred square of `crop_max_square`, and the sizes that PIL's
 * `crop`, `rotate(..., expand=True)` and `resize` produce.
 *
 * An image is modelled by its size and by the list of PIL operations applied
 * to it since it was opened; its pixels are not modelled.
 */
module Geometry {

  /** Python's `a // 2`. Python floors; Dafny's `/` is Euclidean, which also
      floors when the divisor is positive. */
  function Half(a: int): (q: int)
    ensures 2 * q <= a < 2 * q + 2
  {
    a / 2
  }

  function Min(a: int, b: int): (m: int)
    ensures m <= a && m <= b
    ensures m == a || m == b
  {
    if a <= b then a else b
  }

  /** A PIL crop box `(left, top, right, bottom)`. */
  datatype Box = Box(left: int, top: int, right: int, bottom: int)

  /** One PIL operation applied to an image. */
  datatype Step =
    | Rotated(degrees: int)
    | Cropped(box: Box)
    | Resized(width: nat, height: nat)

  /** An image as far as the model sees it: its size and its history. */
  datatype Image = Image(width: nat, height: nat, history: seq<Step>)

  /** The box `crop_center` hands to `crop`, for an image of size
      `imgWidth` x `imgHeight` and a requested crop of `cropWidth` x `cropHeight`.
      Its width and height are exactly the requested ones whatever the parity
      of the size differences; the two horizontal margins differ by at most
      one pixel, the right one being the larger (and the same vertically);
      and a crop no larger than the image stays inside it. */
  function CenterBox(imgWidth: int, imgHeight: int, cropWidth: int, cropHeight: int): (b: Box)
    ensures b.right - b.left == cropWidth
    ensures b.bottom - b.top == cropHeight
    ensures b.left <= imgWidth - b.right <= b.left + 1
    ensures b.top <= imgHeight - b.bottom <= b.top + 1
    ensures 0 <= cropWidth <= imgWidth ==> 0 <= b.left <= b.right <= imgWidth
    ensures 0 <= cropHeight <= imgHeight ==> 0 <= b.top <= b.bottom <= imgHeight
  {
    Box(Half(imgWidth - cropWidth), Half(imgHeight - cropHeight),
        Half(imgWidth + cropWidth), Half(imgHeight + cropHeight))
  }

  /** PIL's `crop`: the result is as large as the box. PIL refuses a box
      whose right edge lies left of its left edge (or bottom above top). */
  function Crop(img: Image, b: Box): (r: Image)
    requires b.left <= b.right && b.top <= b.bottom
    ensures r.width == b.right - b.left && r.height == b.bottom - b.top
  {
    Image(b.right - b.left, b.bottom - b.top, img.history + [Cropped(b)])
  }

  /** `crop_center`: the centred crop of the requested size. */
  function CropCenter(img: Image, cropWidth: nat, cropHeight: nat): (r: Image)
    ensures r.width == cropWidth && r.height == cropHeight
    ensures r.history == img.history + [Cropped(CenterBox(img.width, img.height, cropWidth, cropHeight))]
  {
    Crop(img, CenterBox(img.width, img.height, cropWidth, cropHeight))
  }

  /** `crop_max_square`: a square whose side is the shorter of the two sides. */
  function CropMaxSquare(img: Image): (r: Image)
    ensures r.width == r.height == Min(img.width, img.height)
  {
    var side := Min(img.width, img.height);
    CropCenter(img, side, side)
  }

  /** The box `crop_max_square` uses: offset 0 on the shorter axis, half the
      difference (rounded down) on the longer one, and the square fills the
      shorter axis completely. */
  lemma MaxSquareBox(w: nat, h: nat)
    ensures var b := CenterBox(w, h, Min(w, h), Min(w, h));
      && (w <= h ==> b.left == 0 && b.right == w && b.top == Half(h - w) && b.bottom == b.top + w)
      && (h <= w ==> b.top == 0 && b.bottom == h && b.left == Half(w - h) && b.right == b.left + h)
      && 0 <= b.left <= b.right <= w && 0 <= b.top <= b.bottom <= h
  {
  }

  /** PIL's `rotate(degrees, expand=True)` for the quarter turns the core
      uses: a 90 or 270 degree turn swaps width and height, 180 keeps them. */
  function Rotate(img: Image, degrees: int): (r: Image)
    requires degrees in {90, 180, 270}
    ensures degrees == 180 ==> r.width == img.width && r.height == img.height
    ensures degrees != 180 ==> r.width == img.height && r.height == img.width
    ensures Min(r.width, r.height) == Min(img.width, img.height)
  {
    if degrees == 180 then Image(img.width, img.height, img.history + [Rotated(degrees)])
    else Image(img.height, img.width, img.history + [Rotated(degrees)])
  }

  /** PIL's `resize`: the result has exactly the requested size. */
  function Resize(img: Image, width: nat, height: nat): (r: Image)
    ensures r.width == width && r.height == height
    ensures r.history == img.history + [Resized(width, height)]
  {
    Image(width, height, img.history + [Resized(width, height)])
  }
}
