/** Observations: the precomputed frames of the dataset and the mean
    subtraction applied to the network input.

    A frame is its pixels in row-major order; the image's 64x64 (or
    256x256) shape is not part of the model, only the per-pixel
    arithmetic is. */
module CameraFrames {

  datatype Pixel = Pixel(r: int, g: int, b: int)

  type Image = seq<Pixel>

  /** The two frames stored per (person, tilt, pan): the network input and
      the full-size display frame. */
  datatype Entry = Entry(input: Image, display: Image)

  /** Person id -> (tilt angle, pan angle) -> frames. */
  type Dataset = map<int, map<(int, int), Entry>>

  /** The fixed per-channel mean removed from every network input. */
  const Mean: Pixel := Pixel(109, 114, 131)

  function Minus(p: Pixel, q: Pixel): Pixel {
    Pixel(p.r - q.r, p.g - q.g, p.b - q.b)
  }

  function Plus(p: Pixel, q: Pixel): Pixel {
    Pixel(p.r + q.r, p.g + q.g, p.b + q.b)
  }

  /** Mean subtraction, pixel by pixel: adding the mean back to any pixel of
      the result gives the input's pixel at the same position. */
  function Center(img: Image): (c: Image)
    ensures |c| == |img|
    ensures forall k :: 0 <= k < |img| ==> Plus(c[k], Mean) == img[k]
  {
    seq(|img|, k requires 0 <= k < |img| => Minus(img[k], Mean))
  }

  /** Adding the mean back, as done before a centred input is displayed. */
  function Uncenter(img: Image): (u: Image)
    ensures |u| == |img|
    ensures forall k :: 0 <= k < |img| ==> Minus(u[k], Mean) == img[k]
  {
    seq(|img|, k requires 0 <= k < |img| => Plus(img[k], Mean))
  }

  lemma CenterRoundTrip(img: Image)
    ensures Uncenter(Center(img)) == img
    ensures Center(Uncenter(img)) == img
  {
  }

  predicate IsByteImage(img: Image) {
    forall k :: 0 <= k < |img| ==> IsBytePixel(img[k])
  }

  predicate IsBytePixel(p: Pixel) {
    0 <= p.r < 256 && 0 <= p.g < 256 && 0 <= p.b < 256
  }

  /** From 8-bit frames, the centred input lies within [-131, 146] on every
      channel; each channel's range is shifted by its own mean. */
  lemma CenteredRange(img: Image)
    requires IsByteImage(img)
    ensures forall k :: 0 <= k < |img| ==>
      -109 <= Center(img)[k].r <= 146 &&
      -114 <= Center(img)[k].g <= 141 &&
      -131 <= Center(img)[k].b <= 124
  {
    var c := Center(img);
    forall k | 0 <= k < |img|
      ensures -109 <= c[k].r <= 146 && -114 <= c[k].g <= 141 && -131 <= c[k].b <= 124
    {
      assert Plus(c[k], Mean) == img[k];
    }
  }

  /** The upper red bound is reached: a full-red 8-bit pixel centres to a
      red value of 146, beyond 127. */
  lemma CenteredRedReaches146()
    ensures IsByteImage([Pixel(255, 0, 0)])
    ensures Center([Pixel(255, 0, 0)])[0].r == 146
  {
    assert Plus(Center([Pixel(255, 0, 0)])[0], Mean) == Pixel(255, 0, 0);
  }

  /** An image of n black pixels. */
  function Zeros(n: nat): Image {
    seq(n, _ => Pixel(0, 0, 0))
  }
}
