/** The worker-based resampler of interpolator/interpolator.go.

    The three kernel structs NearestNeighbor, Bilinear and Bicubic hold the same two
    fields (input, output) and differ only in the colour they compute for one output
    pixel; here they are one class, Interpolator, tagged with the selected Method.
    The per-pixel computations are the functions NearestNeighborAt, BilinearAt and
    BicubicAt; Operate and Interpolate are the loops that write the output buffer. */
module Interpolator {
  import opened Wrappers
  import opened Raster
  import opened Sampling

  datatype Kernel = NearestNeighbor | Bilinear | Bicubic

  /** The method names New accepts; any other name is a fatal error (None). */
  function ParseMethod(name: string): (m: Option<Kernel>)
    ensures m == Some(NearestNeighbor) <==> name == "nearestneighbor"
    ensures m == Some(Bilinear) <==> name == "bilinear"
    ensures m == Some(Bicubic) <==> name == "bicubic"
  {
    if name == "nearestneighbor" then Some(NearestNeighbor)
    else if name == "bilinear" then Some(Bilinear)
    else if name == "bicubic" then Some(Bicubic)
    else None
  }

  // ---------------------------------------------------------------------------
  // Shared helpers

  /** clamp: overshoot goes to 255, undershoot to 0, anything else to the nearest
      integer (halfway away from zero). */
  function Clamp(v: real): (c: Channel)
    ensures v > 255.0 ==> c == 255
    ensures v < 0.0 ==> c == 0
    ensures 0.0 <= v <= 255.0 ==> -0.5 <= c as real - v <= 0.5
  {
    if v > 255.0 then 255
    else if v < 0.0 then 0
    else Round(v)
  }

  /** A channel value that is already a byte comes back unchanged. */
  lemma ClampOfChannel(c: Channel)
    ensures Clamp(c as real) == c
  {
    RoundOfInteger(c);
  }

  /** clamp preserves the order of its arguments. */
  lemma ClampMonotonic(u: real, v: real)
    requires u <= v
    ensures Clamp(u) <= Clamp(v)
  {
    if 0.0 <= u && v <= 255.0 {
      RoundMonotonic(u, v);
    }
  }

  /** clamp applied to the four channels. */
  function ClampQuad(q: Quad): (c: Color)
    ensures InRange(q) ==> Round(q.r) == c.r && Round(q.g) == c.g && Round(q.b) == c.b && Round(q.a) == c.a
  {
    Color(Clamp(q.r), Clamp(q.g), Clamp(q.b), Clamp(q.a))
  }

  lemma ClampQuadOfColor(c: Color)
    ensures ClampQuad(ToQuad(c)) == c
  {
    ClampOfChannel(c.r);
    ClampOfChannel(c.g);
    ClampOfChannel(c.b);
    ClampOfChannel(c.a);
  }

  /** The Catmull-Rom spline overshoots its samples: halfway between two bright
      samples flanked by dark ones it exceeds 255, and clamp saturates it. */
  lemma SplineOvershootIsClamped()
    ensures CatmullRomSpline(0.5, 0.0, 255.0, 255.0, 0.0) == 286.875
    ensures Clamp(CatmullRomSpline(0.5, 0.0, 255.0, 255.0, 0.0)) == 255
  {
  }

  /** One channel of internalDivision: weight nV + 1 - v on p0 and v - nV on p1. */
  function Divide(p0: real, p1: real, nV: real, v: real): (r: real)
    ensures v == nV ==> r == p0
    ensures v == nV + 1.0 ==> r == p1
    ensures nV <= v <= nV + 1.0 ==> (p0 <= r <= p1 || p1 <= r <= p0)
  {
    if nV <= v <= nV + 1.0 then
      DivideIsConvex(p0, p1, nV, v);
      (nV + 1.0 - v) * p0 + (v - nV) * p1
    else
      (nV + 1.0 - v) * p0 + (v - nV) * p1
  }

  lemma DivideIsConvex(p0: real, p1: real, nV: real, v: real)
    requires nV <= v <= nV + 1.0
    ensures var r := (nV + 1.0 - v) * p0 + (v - nV) * p1; p0 <= r <= p1 || p1 <= r <= p0
  {
    var w := v - nV;
    assert nV + 1.0 - v == 1.0 - w;
    ConvexBetween(p0, p1, w);
  }

  /** Bilinear.internalDivision: the weighted average of the colours p0 (at nV) and
      p1 (at nV + 1) about v, channel by channel.  With nV = floor(v) it is a convex
      combination, so it stays between the two colours and inside [0, 255]. */
  function InternalDivision(p0: Quad, p1: Quad, nV: real, v: real): (q: Quad)
    ensures v == nV ==> q == p0
    ensures nV <= v <= nV + 1.0 ==> Between(q, p0, p1)
    ensures nV <= v <= nV + 1.0 && InRange(p0) && InRange(p1) ==> InRange(q)
  {
    Quad(Divide(p0.r, p1.r, nV, v), Divide(p0.g, p1.g, nV, v),
         Divide(p0.b, p1.b, nV, v), Divide(p0.a, p1.a, nV, v))
  }

  // ---------------------------------------------------------------------------
  // Coordinate mapping

  /** getScale: (output width / input width, output height / input height). */
  function GetScale(src: Image, oW: nat, oH: nat): (s: (real, real))
    requires src.width > 0 && src.height > 0
    ensures s.0 * src.width as real == oW as real && s.1 * src.height as real == oH as real
  {
    (Scale(oW, src.width), Scale(oH, src.height))
  }

  /** NearestNeighbor.transformCoords: (x / scaleX, y / scaleY). */
  function NearestCoords(src: Image, oW: nat, oH: nat, x: int, y: int): (t: (real, real))
    requires src.width > 0 && src.height > 0 && oW > 0 && oH > 0
    ensures t.0 * oW as real == (x * src.width) as real && t.1 * oH as real == (y * src.height) as real
    ensures oW == src.width && oH == src.height ==> t == (x as real, y as real)
  {
    DivideByScale(x, src.width, oW);
    DivideByScale(y, src.height, oH);
    (x as real / Scale(oW, src.width), y as real / Scale(oH, src.height))
  }

  /** Bilinear.transformCoords and Bicubic.transformCoords: x / scaleX - getOffset(scaleX)
      and likewise for y, which lines up the centres of output and source pixels. */
  function OffsetCoords(src: Image, oW: nat, oH: nat, x: int, y: int): (t: (real, real))
    requires src.width > 0 && src.height > 0 && oW > 0 && oH > 0
    ensures (t.0 + 0.5) * oW as real == (x as real + 0.5) * src.width as real
    ensures (t.1 + 0.5) * oH as real == (y as real + 0.5) * src.height as real
    ensures oW == src.width && oH == src.height ==> t == (x as real, y as real)
  {
    CenteredCoordCentres(x, src.width, oW);
    CenteredCoordCentres(y, src.height, oH);
    CenteredCoordSameSize(x, src.width);
    CenteredCoordSameSize(y, src.height);
    (CenteredCoord(x, src.width, oW), CenteredCoord(y, src.height, oH))
  }

  /** The transformCoords of kernel m.  Between equal sizes every kernel maps each
      output pixel onto the source pixel with the same coordinates. */
  function TransformCoords(m: Kernel, src: Image, oW: nat, oH: nat, x: int, y: int): (t: (real, real))
    requires src.width > 0 && src.height > 0 && oW > 0 && oH > 0
    ensures oW == src.width && oH == src.height ==> t == (x as real, y as real)
  {
    if m == NearestNeighbor then NearestCoords(src, oW, oH, x, y) else OffsetCoords(src, oW, oH, x, y)
  }

  // ---------------------------------------------------------------------------
  // The three kernels, one output pixel at a time

  /** NearestNeighbor.operate, loop body: the source pixel at (int(tX), int(tY)).
      That pixel is (x * iW / oW, y * iH / oH) and lies inside the source. */
  function NearestNeighborAt(src: Image, oW: nat, oH: nat, x: int, y: int): (c: Color)
    requires src.width > 0 && src.height > 0 && oW > 0 && oH > 0
    ensures 0 <= x && 0 <= y ==> c == At(src, x * src.width / oW, y * src.height / oH)
    ensures 0 <= x < oW && 0 <= y < oH ==>
              0 <= x * src.width / oW < src.width && 0 <= y * src.height / oH < src.height
    ensures oW == src.width && oH == src.height && 0 <= x < oW && 0 <= y < oH ==> c == At(src, x, y)
  {
    var t := TransformCoords(NearestNeighbor, src, oW, oH, x, y);
    if 0 <= x && 0 <= y then
      NearestIndexIsQuotient(x, src.width, oW);
      NearestIndexIsQuotient(y, src.height, oH);
      At(src, Trunc(t.0), Trunc(t.1))
    else
      At(src, Trunc(t.0), Trunc(t.1))
  }

  /** Bilinear.operate, loop body: the colour at the source coordinate of (x, y).
      Resampling to the source's own size reproduces the source exactly. */
  function BilinearAt(src: Image, oW: nat, oH: nat, x: int, y: int): (c: Color)
    requires src.width > 0 && src.height > 0 && oW > 0 && oH > 0
    ensures oW == src.width && oH == src.height && 0 <= x < oW && 0 <= y < oH ==> c == At(src, x, y)
  {
    var t := TransformCoords(Bilinear, src, oW, oH, x, y);
    BilinearSample(src, t.0, t.1)
  }

  /** Bilinear's colour at source coordinate (tX, tY): one edge pixel when both axes
      are out of [0, size - 1], a blend of two pixels when one is, of four otherwise.
      At the position of a source pixel it is that pixel. */
  function BilinearSample(src: Image, tX: real, tY: real): (c: Color)
    requires src.width > 0 && src.height > 0
    ensures tX == tX.Floor as real && 0.0 <= tX <= (src.width - 1) as real &&
            tY == tY.Floor as real && 0.0 <= tY <= (src.height - 1) as real ==>
              c == At(src, tX.Floor, tY.Floor)
  {
    ClampQuadOfColor(At(src, tX.Floor, tY.Floor));
    var iW, iH := src.width, src.height;
    var outX := tX < 0.0 || tX > (iW - 1) as real;
    var outY := tY < 0.0 || tY > (iH - 1) as real;
    if outX && outY then
      At(src, BilinearEdge(tX, iW), BilinearEdge(tY, iH))
    else if outX then
      var nX := BilinearEdge(tX, iW);
      var nY := tY.Floor;
      ClampQuad(InternalDivision(ToQuad(At(src, nX, nY)), ToQuad(At(src, nX, nY + 1)), nY as real, tY))
    else if outY then
      var nY := BilinearEdge(tY, iH);
      var nX := tX.Floor;
      ClampQuad(InternalDivision(ToQuad(At(src, nX, nY)), ToQuad(At(src, nX + 1, nY)), nX as real, tX))
    else
      var nX, nY := tX.Floor, tY.Floor;
      var top := InternalDivision(ToQuad(At(src, nX, nY)), ToQuad(At(src, nX + 1, nY)), nX as real, tX);
      var bottom := InternalDivision(ToQuad(At(src, nX, nY + 1)), ToQuad(At(src, nX + 1, nY + 1)), nX as real, tX);
      ClampQuad(InternalDivision(top, bottom, nY as real, tY))
  }

  /** Bicubic.operate, loop body.  There is no size guard: for a source narrower or
      lower than 4 pixels the reads outside the image give the zero colour.
      Resampling to the source's own size reproduces the source exactly. */
  function BicubicAt(src: Image, oW: nat, oH: nat, x: int, y: int): (c: Color)
    requires src.width > 0 && src.height > 0 && oW > 0 && oH > 0
    ensures oW == src.width && oH == src.height && 0 <= x < oW && 0 <= y < oH ==> c == At(src, x, y)
  {
    var t := TransformCoords(Bicubic, src, oW, oH, x, y);
    BicubicSample(src, t.0, t.1)
  }

  /** Bicubic's colour at source coordinate (tX, tY): one edge pixel when both axes
      are out of [1, size - 2], a spline over four pixels when one is, over sixteen
      otherwise.  At the position of a source pixel it is that pixel. */
  function BicubicSample(src: Image, tX: real, tY: real): (c: Color)
    requires src.width > 0 && src.height > 0
    ensures tX == tX.Floor as real && 0.0 <= tX <= (src.width - 1) as real &&
            tY == tY.Floor as real && 0.0 <= tY <= (src.height - 1) as real ==>
              c == At(src, tX.Floor, tY.Floor)
  {
    ClampQuadOfColor(At(src, tX.Floor, tY.Floor));
    EdgeIndexOfPixel(tX, src.width);
    EdgeIndexOfPixel(tY, src.height);
    var iW, iH := src.width, src.height;
    var outX := tX < 1.0 || tX > (iW - 2) as real;
    var outY := tY < 1.0 || tY > (iH - 2) as real;
    if outX && outY then
      At(src, EdgeIndex(tX, iW), EdgeIndex(tY, iH))
    else if outX then
      var nX := EdgeIndex(tX, iW);
      var intY := tY.Floor;
      ClampQuad(ColumnSpline(src, nX, intY, tY - intY as real))
    else if outY then
      var nY := EdgeIndex(tY, iH);
      var intX := tX.Floor;
      ClampQuad(RowSpline(src, intX, nY, tX - intX as real))
    else
      var intX, intY := tX.Floor, tY.Floor;
      var fractionX, fractionY := tX - intX as real, tY - intY as real;
      ClampQuad(SplineQuad(fractionY,
                           RowSpline(src, intX, intY - 1, fractionX),
                           RowSpline(src, intX, intY, fractionX),
                           RowSpline(src, intX, intY + 1, fractionX),
                           RowSpline(src, intX, intY + 2, fractionX)))
  }

  /** The colour kernel m computes for output pixel (x, y).  Resampling to the
      source's own size reproduces the source exactly, with every kernel. */
  function KernelAt(m: Kernel, src: Image, oW: nat, oH: nat, x: int, y: int): (c: Color)
    requires src.width > 0 && src.height > 0 && oW > 0 && oH > 0
    ensures oW == src.width && oH == src.height && 0 <= x < oW && 0 <= y < oH ==> c == At(src, x, y)
  {
    match m
    case NearestNeighbor => NearestNeighborAt(src, oW, oH, x, y)
    case Bilinear => BilinearAt(src, oW, oH, x, y)
    case Bicubic => BicubicAt(src, oW, oH, x, y)
  }

  // ---------------------------------------------------------------------------
  // Properties of the kernels

  /** Bilinear's edge rule on a coordinate outside [0, size - 1] picks the first or the
      last index, whichever is closer to the coordinate. */
  lemma BilinearEdgeCoords(src: Image, oW: nat, oH: nat, x: int, y: int)
    requires src.width > 0 && src.height > 0 && 0 <= x < oW && 0 <= y < oH
    ensures var t := TransformCoords(Bilinear, src, oW, oH, x, y);
            var nX, nY := BilinearEdge(t.0, src.width), BilinearEdge(t.1, src.height);
            && ((t.0 < 0.0 || t.0 > (src.width - 1) as real) ==>
                  (nX == 0 || nX == src.width - 1) && -0.5 <= nX as real - t.0 <= 0.5)
            && ((t.1 < 0.0 || t.1 > (src.height - 1) as real) ==>
                  (nY == 0 || nY == src.height - 1) && -0.5 <= nY as real - t.1 <= 0.5)
  {
    var t := TransformCoords(Bilinear, src, oW, oH, x, y);
    CenteredCoordRange(x, src.width, oW);
    CenteredCoordRange(y, src.height, oH);
    assert t.0 == CenteredCoord(x, src.width, oW);
    assert t.1 == CenteredCoord(y, src.height, oH);
    if t.0 < 0.0 || t.0 > (src.width - 1) as real {
      BilinearEdgeIsNearest(t.0, src.width);
    }
    if t.1 < 0.0 || t.1 > (src.height - 1) as real {
      BilinearEdgeIsNearest(t.1, src.height);
    }
  }

  /** When both coordinates fall outside the source, Bilinear copies one source pixel
      verbatim: the corner pixel ({0 or iW-1}, {0 or iH-1}) closest to (tX, tY). */
  lemma BilinearCornerCopy(src: Image, oW: nat, oH: nat, x: int, y: int)
    requires src.Valid() && src.width > 0 && src.height > 0 && 0 <= x < oW && 0 <= y < oH
    requires var t := TransformCoords(Bilinear, src, oW, oH, x, y);
             (t.0 < 0.0 || t.0 > (src.width - 1) as real) && (t.1 < 0.0 || t.1 > (src.height - 1) as real)
    ensures var t := TransformCoords(Bilinear, src, oW, oH, x, y);
            var nX, nY := BilinearEdge(t.0, src.width), BilinearEdge(t.1, src.height);
            && (nX == 0 || nX == src.width - 1) && (nY == 0 || nY == src.height - 1)
            && -0.5 <= nX as real - t.0 <= 0.5 && -0.5 <= nY as real - t.1 <= 0.5
            && BilinearAt(src, oW, oH, x, y) == At(src, nX, nY)
  {
    BilinearEdgeCoords(src, oW, oH, x, y);
  }

  /** Bicubic's four-way edge rule on a coordinate outside [1, size - 2] picks a closest
      source index, inside the image. */
  lemma BicubicEdgeCoords(src: Image, oW: nat, oH: nat, x: int, y: int)
    requires src.width > 0 && src.height > 0 && 0 <= x < oW && 0 <= y < oH
    ensures var t := TransformCoords(Bicubic, src, oW, oH, x, y);
            var nX, nY := EdgeIndex(t.0, src.width), EdgeIndex(t.1, src.height);
            && ((t.0 < 1.0 || t.0 > (src.width - 2) as real) ==>
                  0 <= nX < src.width && -0.5 <= nX as real - t.0 <= 0.5)
            && ((t.1 < 1.0 || t.1 > (src.height - 2) as real) ==>
                  0 <= nY < src.height && -0.5 <= nY as real - t.1 <= 0.5)
  {
    var t := TransformCoords(Bicubic, src, oW, oH, x, y);
    CenteredCoordRange(x, src.width, oW);
    CenteredCoordRange(y, src.height, oH);
    assert t.0 == CenteredCoord(x, src.width, oW);
    assert t.1 == CenteredCoord(y, src.height, oH);
    if t.0 < 1.0 || t.0 > (src.width - 2) as real {
      EdgeIndexIsNearest(t.0, src.width);
    }
    if t.1 < 1.0 || t.1 > (src.height - 2) as real {
      EdgeIndexIsNearest(t.1, src.height);
    }
  }

  /** When both coordinates fall outside [1, size - 2], Bicubic copies the source pixel
      picked by the four-way edge rule, which is a closest one and lies in the image. */
  lemma BicubicCornerCopy(src: Image, oW: nat, oH: nat, x: int, y: int)
    requires src.Valid() && src.width > 0 && src.height > 0 && 0 <= x < oW && 0 <= y < oH
    requires var t := TransformCoords(Bicubic, src, oW, oH, x, y);
             (t.0 < 1.0 || t.0 > (src.width - 2) as real) && (t.1 < 1.0 || t.1 > (src.height - 2) as real)
    ensures var t := TransformCoords(Bicubic, src, oW, oH, x, y);
            var nX, nY := EdgeIndex(t.0, src.width), EdgeIndex(t.1, src.height);
            && 0 <= nX < src.width && 0 <= nY < src.height
            && -0.5 <= nX as real - t.0 <= 0.5 && -0.5 <= nY as real - t.1 <= 0.5
            && BicubicAt(src, oW, oH, x, y) == At(src, nX, nY)
  {
    BicubicEdgeCoords(src, oW, oH, x, y);
  }

  /** With nV = floor(v), the Bilinear blend along one axis is a convex combination
      of the two neighbours: the weights nV + 1 - v and v - nV are in [0, 1] and sum to 1. */
  lemma InternalDivisionIsConvex(p0: Quad, p1: Quad, v: real)
    ensures var nV := v.Floor as real;
            && 0.0 <= nV + 1.0 - v <= 1.0 && 0.0 <= v - nV <= 1.0
            && (nV + 1.0 - v) + (v - nV) == 1.0
            && Between(InternalDivision(p0, p1, nV, v), p0, p1)
  {
  }

  // ---------------------------------------------------------------------------
  // Splitting the output index space among workers

  /** The first flat index of worker i out of k over n output pixels: i * n / k. */
  function WorkerStart(i: nat, n: nat, k: nat): nat
    requires k >= 1
  {
    i * n / k
  }

  lemma MulMonotonic(a: int, b: int, c: nat)
    requires a <= b
    ensures a * c <= b * c
  {
    assert b * c - a * c == (b - a) * c;
  }

  lemma DivMonotonic(a: nat, b: nat, k: nat)
    requires k >= 1 && a <= b
    ensures a / k <= b / k
  {
    var qa, qb := a / k, b / k;
    assert qa * k <= a && b < qb * k + k;
    if qb < qa {
      MulMonotonic(qb + 1, qa, k);
      assert false;
    }
  }

  /** Later workers never start before earlier ones. */
  lemma WorkerStartMonotonic(i: nat, j: nat, n: nat, k: nat)
    requires k >= 1 && i <= j
    ensures WorkerStart(i, n, k) <= WorkerStart(j, n, k)
  {
    MulMonotonic(i, j, n);
    DivMonotonic(i * n, j * n, k);
  }

  /** Worker 0 starts at 0, worker k ends at n, and every worker ends where the next starts. */
  lemma WorkerStartEnds(n: nat, k: nat)
    requires k >= 1
    ensures WorkerStart(0, n, k) == 0
    ensures WorkerStart(k, n, k) == n
  {
    DivOfMultiple(n, k);
  }

  /** The ranges [start(i), start(i + 1)) for i in [0, k) are pairwise disjoint ... */
  lemma WorkerRangesDisjoint(i: nat, j: nat, n: nat, k: nat)
    requires k >= 1 && i < j
    ensures WorkerStart(i + 1, n, k) <= WorkerStart(j, n, k)
  {
    WorkerStartMonotonic(i + 1, j, n, k);
  }

  /** ... every index of [0, n) lies in one of them ... */
  lemma {:induction false} WorkerOwnsIndex(idx: nat, n: nat, k: nat, from: nat)
    requires k >= 1 && idx < n && from < k && WorkerStart(from, n, k) <= idx
    ensures exists i :: from <= i < k && WorkerStart(i, n, k) <= idx < WorkerStart(i + 1, n, k)
    decreases k - from
  {
    if idx >= WorkerStart(from + 1, n, k) {
      WorkerStartEnds(n, k);
      WorkerOwnsIndex(idx, n, k, from + 1);
    }
  }

  /** ... and in only one. */
  lemma WorkerOwnerUnique(idx: nat, n: nat, k: nat, i: nat, j: nat)
    requires k >= 1
    requires WorkerStart(i, n, k) <= idx < WorkerStart(i + 1, n, k)
    requires WorkerStart(j, n, k) <= idx < WorkerStart(j + 1, n, k)
    ensures i == j
  {
    if i < j {
      WorkerRangesDisjoint(i, j, n, k);
    } else if j < i {
      WorkerRangesDisjoint(j, i, n, k);
    }
  }

  // ---------------------------------------------------------------------------
  // The kernel objects

  class Interpolator {
    const kernel: Kernel
    const input: Image
    const output: array<Color>
    const oW: nat
    const oH: nat

    ghost predicate Valid() {
      input.Valid() && input.width > 0 && input.height > 0 && output.Length == oW * oH
    }

    /** &Kernel{src, image.NewRGBA(image.Rect(0, 0, w, h))}: a zeroed w x h output. */
    constructor (src: Image, w: nat, h: nat, m: Kernel)
      requires src.Valid() && src.width > 0 && src.height > 0
      ensures Valid() && kernel == m && input == src && oW == w && oH == h
      ensures fresh(output) && forall i :: 0 <= i < output.Length ==> output[i] == Transparent
    {
      kernel, input, oW, oH := m, src, w, h;
      output := new Color[w * h](_ => Transparent);
    }

    /** The colour the selected kernel assigns to flat output index i = y * oW + x. */
    ghost function Resampled(i: int): Color
      requires Valid() && 0 <= i < oW * oH
    {
      FlatIndexDecode(i, oW, oH);
      KernelAt(kernel, input, oW, oH, i % oW, i / oW)
    }

    /** operate(start, end): computes and stores every output pixel whose flat index
        lies in [start, end), at (i % oW, i / oW); the input and every other output
        pixel are left as they were. */
    method Operate(start: int, end: int)
      requires Valid() && 0 <= start && end <= oW * oH
      modifies output
      ensures forall i :: 0 <= i < output.Length ==>
                output[i] == if start <= i < end then Resampled(i) else old(output[i])
    {
      var i := start;
      while i < end
        invariant start <= i && (i <= end || i == start)
        invariant forall j :: 0 <= j < output.Length ==>
                    output[j] == if start <= j < i then Resampled(j) else old(output[j])
      {
        FlatIndexDecode(i, oW, oH);
        var x := i % oW;
        var y := i / oW;
        var c := KernelAt(kernel, input, oW, oH, x, y);
        output[y * oW + x] := c;
        i := i + 1;
      }
    }

    /** Interpolate: with concurrency, numCPU workers each run operate over their own
        range [i * oW * oH / numCPU, (i + 1) * oW * oH / numCPU); without, one call
        covers [0, oW * oH).  Either way every output pixel ends up computed. */
    method Interpolate(concurrency: bool, numCPU: nat) returns (result: array<Color>)
      requires Valid() && numCPU >= 1
      modifies output
      ensures result == output
      ensures forall i :: 0 <= i < output.Length ==> output[i] == Resampled(i)
    {
      var n := oW * oH;
      if concurrency {
        WorkerStartEnds(n, numCPU);
        var w := 0;
        while w < numCPU
          invariant 0 <= w <= numCPU
          invariant forall j :: 0 <= j < output.Length ==>
                      output[j] == if j < WorkerStart(w, n, numCPU) then Resampled(j) else old(output[j])
        {
          WorkerStartMonotonic(w, w + 1, n, numCPU);
          WorkerStartMonotonic(w + 1, numCPU, n, numCPU);
          assert w * oW * oH == w * n;
          assert (w + 1) * oW * oH == (w + 1) * n;
          Operate(w * oW * oH / numCPU, (w + 1) * oW * oH / numCPU);
          w := w + 1;
        }
      } else {
        Operate(0, n);
      }
      result := output;
    }
  }

  /** New: the kernel object for a method name, or None for an unknown name. */
  method New(src: Image, w: nat, h: nat, name: string) returns (r: Option<Interpolator>)
    requires src.Valid() && src.width > 0 && src.height > 0
    ensures r.None? <==> ParseMethod(name).None?
    ensures r.Some? ==> && r.value.Valid() && fresh(r.value.output)
                        && r.value.kernel == ParseMethod(name).value
                        && r.value.input == src && r.value.oW == w && r.value.oH == h
                        && forall i :: 0 <= i < r.value.output.Length ==> r.value.output[i] == Transparent
  {
    match ParseMethod(name)
    case Some(m) =>
      var ip := new Interpolator(src, w, h, m);
      r := Some(ip);
    case None =>
      r := None;
  }
}
