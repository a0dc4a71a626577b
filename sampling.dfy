/** Coordinate mapping and one-dimensional sampling rules shared, word for word,
    by the sequential kernels (interpolation/interpolation.go) and the worker-based
    kernels (interpolator/interpolator.go). */
module Sampling {
  import opened Raster

  /** float64(o) / float64(i): the ratio of output to input size along one axis. */
  function Scale(o: nat, i: nat): (s: real)
    requires i > 0
    ensures s * i as real == o as real
    ensures o > 0 ==> s > 0.0
    ensures o == i ==> s == 1.0
  {
    o as real / i as real
  }

  /** getOffset: the half-pixel offset (k - 1) / (2k). */
  function GetOffset(k: real): (r: real)
    requires k > 0.0
    ensures r == 0.5 - 1.0 / (2.0 * k)
    ensures r == 0.0 <==> k == 1.0
  {
    (k - 1.0) / (2.0 * k)
  }

  /** Dividing by the scale o / i is multiplying by i / o. */
  lemma DivideByScale(x: int, i: nat, o: nat)
    requires i > 0 && o > 0
    ensures (x as real / Scale(o, i)) * o as real == (x * i) as real
  {
    var s := Scale(o, i);
    assert s * i as real == o as real;
  }

  /** A product u * o with o > 0 determines u. */
  lemma QuotientOf(u: real, o: real, c: real)
    requires o > 0.0 && u * o == c
    ensures u == c / o
  {
  }

  /** The centred mapping of one axis: x / scale - getOffset(scale), for scale = o / i. */
  function CenteredCoord(x: int, i: nat, o: nat): real
    requires i > 0 && o > 0
  {
    x as real / Scale(o, i) - GetOffset(Scale(o, i))
  }

  /** Subtracting the offset maps the centre x + 1/2 of an output pixel onto the
      point of the source with the same relative position: (t + 1/2) * o == (x + 1/2) * i. */
  lemma CenteredCoordCentres(x: int, i: nat, o: nat)
    requires i > 0 && o > 0
    ensures (CenteredCoord(x, i, o) + 0.5) * o as real == (x as real + 0.5) * i as real
  {
    var s := Scale(o, i);
    assert s * i as real == o as real;
    calc {
      CenteredCoord(x, i, o) + 0.5;
      x as real / s - (0.5 - 1.0 / (2.0 * s)) + 0.5;
      x as real / s + 0.5 / s;
      (x as real + 0.5) / s;
    }
  }

  /** For every output index x in [0, o) the centred coordinate lies in (-1/2, i - 1/2). */
  lemma CenteredCoordRange(x: int, i: nat, o: nat)
    requires i > 0 && 0 <= x < o
    ensures -0.5 < CenteredCoord(x, i, o) < i as real - 0.5
  {
    CenteredCoordCentres(x, i, o);
    CentreBounds(CenteredCoord(x, i, o) + 0.5, x, i, o);
  }

  /** u * o == (x + 1/2) * i with 0 <= x < o puts u strictly inside (0, i). */
  lemma CentreBounds(u: real, x: int, i: nat, o: nat)
    requires i > 0 && 0 <= x < o && u * o as real == (x as real + 0.5) * i as real
    ensures 0.0 < u < i as real
  {
    var ir, or, xr := i as real, o as real, x as real + 0.5;
    ProductPositive(xr, ir);
    CancelLess(0.0, u, or);
    MulLess(xr, or, ir);
    assert or * ir == ir * or;
    CancelLess(u, ir, or);
  }

  /** Multiplying by a positive factor keeps a strict order. */
  lemma MulLess(a: real, b: real, c: real)
    requires c > 0.0 && a < b
    ensures a * c < b * c
  {
    ProductPositive(b - a, c);
    assert (b - a) * c == b * c - a * c;
  }

  /** A strict order between products with a positive factor holds between the factors. */
  lemma CancelLess(a: real, b: real, c: real)
    requires c > 0.0 && a * c < b * c
    ensures a < b
  {
    assert (a - b) * c == a * c - b * c;
    if a >= b {
      ProductNonnegative(a - b, c);
      assert false;
    }
  }

  /** With equal input and output sizes the centred mapping is the identity. */
  lemma CenteredCoordSameSize(x: int, n: nat)
    requires n > 0
    ensures CenteredCoord(x, n, n) == x as real
  {
    assert Scale(n, n) == 1.0;
  }

  /** The source index of NearestNeighbor: int(float64(x) / scale) with scale = o / i. */
  function NearestIndex(x: int, i: nat, o: nat): int
    requires i > 0 && o > 0
  {
    Trunc(x as real / Scale(o, i))
  }

  /** The float expression int(x / (o / i)) is the integer quotient x * i / o, which
      lies in [0, i) for every x in [0, o): every NearestNeighbor read is in bounds. */
  lemma NearestIndexIsQuotient(x: int, i: nat, o: nat)
    requires i > 0 && o > 0 && 0 <= x
    ensures NearestIndex(x, i, o) == x * i / o
    ensures x < o ==> 0 <= NearestIndex(x, i, o) < i
  {
    DivideByScale(x, i, o);
    TruncOfQuotient(x as real / Scale(o, i), x * i, o);
    if x < o {
      QuotientBelow(x, i, o);
    }
  }

  /** A non-negative v with v * o == n truncates to the integer quotient n / o. */
  lemma TruncOfQuotient(v: real, n: int, o: nat)
    requires o > 0 && 0 <= n && v * o as real == n as real
    ensures Trunc(v) == n / o
  {
    var q, m := n / o, n % o;
    assert n == q * o + m;
    var e := v - q as real;
    assert e * o as real == m as real;
    if e < 0.0 {
      ProductPositive(-e, o as real);
      assert false;
    }
    if e >= 1.0 {
      ProductNonnegative(e - 1.0, o as real);
      assert false;
    }
  }

  /** x * i / o < i for 0 <= x < o. */
  lemma QuotientBelow(x: int, i: nat, o: nat)
    requires i > 0 && 0 <= x < o
    ensures 0 <= x * i / o < i
  {
    var n := x * i;
    var q := n / o;
    assert q * o + n % o == n;
    MulAtLeast(o - x, i);
    assert (o - x) * i == o * i - n;
    assert i * o == o * i;
    CancelLessInt(q, i, o);
  }

  /** A strict order between products with a positive factor holds between the factors. */
  lemma CancelLessInt(a: int, b: int, c: int)
    requires c > 0 && a * c < b * c
    ensures a < b
  {
    assert (a - b) * c == a * c - b * c;
    if a >= b {
      if a > b {
        MulAtLeast(a - b, c);
      }
      assert false;
    }
  }

  /** Bilinear clamping of an out-of-bounds coordinate: the first or the last index. */
  function BilinearEdge(t: real, size: nat): int {
    if t < 0.0 then 0 else size - 1
  }

  /** Bicubic clamping onto one of four edge indices, with thresholds 1/2, 1 and size - 3/2. */
  function EdgeIndex(t: real, size: nat): (n: int)
    ensures n == 0 || n == 1 || n == size - 2 || n == size - 1
    ensures t < 0.5 ==> n == 0
    ensures 0.5 <= t < 1.0 ==> n == 1
    ensures 1.0 <= t <= size as real - 1.5 ==> n == size - 2
    ensures 1.0 <= t && t > size as real - 1.5 ==> n == size - 1
  {
    if t < 0.5 then 0
    else if t < 1.0 then 1
    else if t <= size as real - 1.5 then size - 2
    else size - 1
  }

  /** On a coordinate produced by the centred mapping, the Bilinear edge index is
      the closest source pixel, and it lies inside the image. */
  lemma BilinearEdgeIsNearest(t: real, size: nat)
    requires size > 0 && -0.5 < t < size as real - 0.5
    requires t < 0.0 || t > (size - 1) as real
    ensures 0 <= BilinearEdge(t, size) < size
    ensures -0.5 <= BilinearEdge(t, size) as real - t <= 0.5
  {
  }

  /** On a coordinate produced by the centred mapping that lies outside [1, size - 2],
      the four-way Bicubic edge index is a closest source pixel, inside the image. */
  lemma EdgeIndexIsNearest(t: real, size: nat)
    requires size > 0 && -0.5 < t < size as real - 0.5
    requires t < 1.0 || t > (size - 2) as real
    ensures 0 <= EdgeIndex(t, size) < size
    ensures -0.5 <= EdgeIndex(t, size) as real - t <= 0.5
  {
  }

  /** A whole-number coordinate inside the image but outside [1, size - 2] is its own
      four-way edge index. */
  lemma EdgeIndexOfPixel(t: real, size: nat)
    ensures t == t.Floor as real && 0.0 <= t <= (size - 1) as real && (t < 1.0 || t > (size - 2) as real) ==>
              EdgeIndex(t, size) == t.Floor
  {
  }

  /** On an in-bounds Bilinear axis, 0 <= t <= size - 1, the reads n = floor(t) and
      n + 1 lie in the image, except n + 1 == size, which comes with weight t - n == 0. */
  lemma BilinearSpan(t: real, size: nat)
    requires 0.0 <= t <= (size - 1) as real
    ensures 0 <= t.Floor <= size - 1
    ensures t.Floor + 1 <= size - 1 || t == t.Floor as real
  {
  }

  /** On an in-bounds Bicubic axis, 1 <= t <= size - 2, the reads floor(t) - 1 .. floor(t) + 2
      lie in [0, size]; the index size is reached only when the fraction t - floor(t) is 0. */
  lemma BicubicSpan(t: real, size: nat)
    requires 1.0 <= t <= (size - 2) as real
    ensures 0 <= t.Floor - 1 && t.Floor + 2 <= size
    ensures t.Floor + 2 <= size - 1 || t == t.Floor as real
  {
  }

  /** catmullRomSpline: the Catmull-Rom cubic through p1 (u = 0) and p2 (u = 1),
      with tangents (p2 - p0) / 2 and (p3 - p1) / 2. */
  function CatmullRomSpline(u: real, p0: real, p1: real, p2: real, p3: real): (r: real)
    ensures u == 0.0 ==> r == p1
    ensures u == 1.0 ==> r == p2
  {
    var u2 := u * u;
    var u3 := u2 * u;
    var term1 := (-p0 + 3.0 * p1 - 3.0 * p2 + p3) * u3;
    var term2 := (2.0 * p0 - 5.0 * p1 + 4.0 * p2 - p3) * u2;
    var term3 := (-p0 + p2) * u;
    var term4 := 2.0 * p1;
    0.5 * (term1 + term2 + term3 + term4)
  }

  /** The spline reproduces samples of any straight line a + b*k, k = 0..3, exactly;
      in particular four equal samples give that value for every u. */
  lemma CatmullRomReproducesLines(u: real, a: real, b: real)
    ensures CatmullRomSpline(u, a, a + b, a + 2.0 * b, a + 3.0 * b) == a + b + b * u
  {
    var p0, p1, p2, p3 := a, a + b, a + 2.0 * b, a + 3.0 * b;
    assert -p0 + 3.0 * p1 - 3.0 * p2 + p3 == 0.0;
    assert 2.0 * p0 - 5.0 * p1 + 4.0 * p2 - p3 == 0.0;
    assert -p0 + p2 == 2.0 * b;
  }

  /** The spline applied to each channel. */
  function SplineQuad(u: real, q0: Quad, q1: Quad, q2: Quad, q3: Quad): (q: Quad)
    ensures u == 0.0 ==> q == q1
    ensures u == 1.0 ==> q == q2
  {
    Quad(CatmullRomSpline(u, q0.r, q1.r, q2.r, q3.r),
         CatmullRomSpline(u, q0.g, q1.g, q2.g, q3.g),
         CatmullRomSpline(u, q0.b, q1.b, q2.b, q3.b),
         CatmullRomSpline(u, q0.a, q1.a, q2.a, q3.a))
  }

  /** The four pixels (cx - 1 .. cx + 2, row) of one row, blended with fraction u. */
  function RowSpline(src: Image, cx: int, row: int, u: real): (q: Quad)
    ensures u == 0.0 ==> q == ToQuad(At(src, cx, row))
  {
    SplineQuad(u, ToQuad(At(src, cx - 1, row)), ToQuad(At(src, cx, row)),
                  ToQuad(At(src, cx + 1, row)), ToQuad(At(src, cx + 2, row)))
  }

  /** The four pixels (col, cy - 1 .. cy + 2) of one column, blended with fraction u. */
  function ColumnSpline(src: Image, col: int, cy: int, u: real): (q: Quad)
    ensures u == 0.0 ==> q == ToQuad(At(src, col, cy))
  {
    SplineQuad(u, ToQuad(At(src, col, cy - 1)), ToQuad(At(src, col, cy)),
                  ToQuad(At(src, col, cy + 1)), ToQuad(At(src, col, cy + 2)))
  }
}
