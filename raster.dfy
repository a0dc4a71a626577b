/** Pixel buffers and the pieces of Go's numeric library the resampler relies on.

    An image is a row-major sequence of 4-byte RGBA pixels, as in Go's image.RGBA
    (whose Pix slice holds 4 bytes per pixel at offset y*Stride + 4*x).  Each pixel
    is kept here as one Color value instead of four separate bytes. */
module Raster {

  /** One 8-bit colour channel (a Go uint8). */
  type Channel = x: int | 0 <= x <= 255

  datatype Color = Color(r: Channel, g: Channel, b: Channel, a: Channel)

  /** The zero value color.RGBA{}, which image.RGBA returns for a point outside its bounds. */
  const Transparent := Color(0, 0, 0, 0)

  /** A pixel buffer of width * height pixels in row-major order. */
  datatype Image = Image(width: nat, height: nat, pix: seq<Color>) {
    predicate Valid() {
      |pix| == width * height
    }
  }

  /** Position of pixel (x, y) in a row-major buffer of width w. */
  lemma FlatIndexInBounds(x: int, y: int, w: nat, h: nat)
    requires 0 <= x < w && 0 <= y < h
    ensures 0 <= y * w + x < w * h
  {
    assert y * w <= (h - 1) * w by {
      assert (h - 1) * w - y * w == (h - 1 - y) * w;
    }
    assert (h - 1) * w + w == h * w;
  }

  /** Decoding a flat output index i into (i % w, i / w), as the worker loops do. */
  lemma FlatIndexDecode(i: int, w: nat, h: nat)
    requires 0 <= i < w * h
    ensures w > 0
    ensures 0 <= i % w < w && 0 <= i / w < h
    ensures (i / w) * w + i % w == i
  {
  }

  /** Euclidean division is unique: n == q * k + r with 0 <= r < k fixes n / k and n % k. */
  lemma DivModUnique(n: int, k: int, q: int, r: int)
    requires k > 0 && 0 <= r < k && n == q * k + r
    ensures n / k == q && n % k == r
  {
    var d := q - n / k;
    assert d * k == n % k - r;
    if d >= 1 {
      MulAtLeast(d, k);
      assert false;
    } else if d <= -1 {
      MulAtLeast(-d, k);
      assert false;
    }
  }

  lemma MulAtLeast(d: int, k: int)
    requires d >= 1 && k > 0
    ensures d * k >= k
  {
    assert d * k == (d - 1) * k + k;
    if (d - 1) * k < 0 {
      assert false;
    }
  }

  /** The flat index y * w + x of a pixel decodes back to (x, y). */
  lemma FlatIndexRoundTrip(x: int, y: int, w: nat)
    requires 0 <= x < w
    ensures (y * w + x) / w == y && (y * w + x) % w == x
  {
    DivModUnique(y * w + x, w, y, x);
  }

  /** Dividing a multiple of k by k gives the factor back. */
  lemma DivOfMultiple(n: int, k: int)
    requires k > 0
    ensures (k * n) / k == n && (n * k) / k == n
  {
    DivModUnique(n * k, k, n, 0);
  }

  /** RGBAAt: the colour at (x, y), or Transparent when (x, y) lies outside the image. */
  function At(img: Image, x: int, y: int): (c: Color)
    ensures !(0 <= x < img.width && 0 <= y < img.height) ==> c == Transparent
    ensures img.Valid() && 0 <= x < img.width && 0 <= y < img.height ==>
              (FlatIndexInBounds(x, y, img.width, img.height); c == img.pix[y * img.width + x])
  {
    if img.Valid() && 0 <= x < img.width && 0 <= y < img.height then
      FlatIndexInBounds(x, y, img.width, img.height);
      img.pix[y * img.width + x]
    else
      Transparent
  }

  /** math.Round: the nearest integer, halfway cases rounded away from zero. */
  function Round(v: real): (r: int)
    ensures v >= 0.0 ==> 0 <= r && r as real - 0.5 <= v < r as real + 0.5
    ensures v < 0.0 ==> r <= 0 && r as real - 0.5 < v <= r as real + 0.5
  {
    if v >= 0.0 then (v + 0.5).Floor else -((0.5 - v).Floor)
  }

  /** The round trip integer -> float64 -> integer through math.Round. */
  lemma RoundOfInteger(n: int)
    ensures Round(n as real) == n
  {
    if n >= 0 {
      assert (n as real + 0.5).Floor == n;
    } else {
      assert (0.5 - n as real).Floor == -n;
    }
  }

  /** Rounding never reverses the order of two values. */
  lemma RoundMonotonic(u: real, v: real)
    requires u <= v
    ensures Round(u) <= Round(v)
  {
  }

  /** Go's conversion int(f) of a float64: truncation toward zero. */
  function Trunc(v: real): (r: int)
    ensures v >= 0.0 ==> 0 <= r && r as real <= v < r as real + 1.0
    ensures v < 0.0 ==> r <= 0 && r as real - 1.0 < v <= r as real
  {
    if v >= 0.0 then v.Floor else -((-v).Floor)
  }

  /** Four channel values held as float64 while a pixel is being interpolated. */
  datatype Quad = Quad(r: real, g: real, b: real, a: real)

  /** float64(c.R), float64(c.G), float64(c.B), float64(c.A). */
  function ToQuad(c: Color): (q: Quad)
    ensures InRange(q)
  {
    Quad(c.r as real, c.g as real, c.b as real, c.a as real)
  }

  /** Every channel of q lies in [0, 255]. */
  predicate InRange(q: Quad) {
    0.0 <= q.r <= 255.0 && 0.0 <= q.g <= 255.0 && 0.0 <= q.b <= 255.0 && 0.0 <= q.a <= 255.0
  }

  /** Every channel of q lies between the same channels of p0 and p1. */
  predicate Between(q: Quad, p0: Quad, p1: Quad) {
    && (p0.r <= q.r <= p1.r || p1.r <= q.r <= p0.r)
    && (p0.g <= q.g <= p1.g || p1.g <= q.g <= p0.g)
    && (p0.b <= q.b <= p1.b || p1.b <= q.b <= p0.b)
    && (p0.a <= q.a <= p1.a || p1.a <= q.a <= p0.a)
  }

  lemma ProductNonnegative(a: real, b: real)
    requires 0.0 <= a && 0.0 <= b
    ensures 0.0 <= a * b
  {
  }

  lemma ProductPositive(a: real, b: real)
    requires 0.0 < a && 0.0 < b
    ensures 0.0 < a * b
  {
  }

  /** A convex combination (1 - w) * p0 + w * p1, 0 <= w <= 1, lies between p0 and p1. */
  lemma ConvexBetween(p0: real, p1: real, w: real)
    requires 0.0 <= w <= 1.0
    ensures var r := (1.0 - w) * p0 + w * p1; p0 <= r <= p1 || p1 <= r <= p0
  {
    var r := (1.0 - w) * p0 + w * p1;
    if p0 <= p1 {
      assert r - p0 == w * (p1 - p0);
      assert p1 - r == (1.0 - w) * (p1 - p0);
      ProductNonnegative(w, p1 - p0);
      ProductNonnegative(1.0 - w, p1 - p0);
    } else {
      assert p0 - r == w * (p0 - p1);
      assert r - p1 == (1.0 - w) * (p0 - p1);
      ProductNonnegative(w, p0 - p1);
      ProductNonnegative(1.0 - w, p0 - p1);
    }
  }
}
