/** The older, sequential resampler of interpolation/interpolation.go.

    Each kernel is a free function that allocates a w x h result and fills it in
    nested `for y` / `for x` loops.  Unlike the worker-based version it has an explicit
    precondition on internalDivision, a 4 x 4 size guard on Bicubic, and no clamp:
    channel values are converted with uint8(math.Round(v)). */
module Interpolation {
  import opened Wrappers
  import opened Raster
  import opened Sampling

  /** transformCoords: scales an output coordinate down to source space and, when
      subtractOffset is set, subtracts getOffset, which centres output pixels on
      source pixels: (t + 1/2) * scale == x + 1/2. */
  function TransformCoords(x: int, y: int, scaleW: real, scaleH: real, subtractOffset: bool): (t: (real, real))
    requires scaleW > 0.0 && scaleH > 0.0
    ensures !subtractOffset ==> t.0 * scaleW == x as real && t.1 * scaleH == y as real
    ensures subtractOffset ==>
              (t.0 + 0.5) * scaleW == x as real + 0.5 && (t.1 + 0.5) * scaleH == y as real + 0.5
    ensures scaleW == 1.0 && scaleH == 1.0 ==> t == (x as real, y as real)
  {
    var offsetX := GetOffset(scaleW);
    var offsetY := GetOffset(scaleH);
    var transX := x as real / scaleW;
    var transY := y as real / scaleH;
    if subtractOffset then
      CentredByOffset(x, scaleW);
      CentredByOffset(y, scaleH);
      (transX - offsetX, transY - offsetY)
    else
      (transX, transY)
  }

  lemma CentredByOffset(x: int, s: real)
    requires s > 0.0
    ensures (x as real / s - GetOffset(s) + 0.5) * s == x as real + 0.5
  {
    assert x as real / s - GetOffset(s) + 0.5 == (x as real + 0.5) / s;
  }

  // ---------------------------------------------------------------------------
  // internalDivision

  /** One channel of internalDivision: the point v of [v1, v2] divides the segment
      from p1 to p2 in the ratio (v - v1) : (v2 - v). */
  function Weighted(p1: real, p2: real, v1: real, v2: real, v: real): (r: real)
    requires v1 <= v <= v2 && v1 < v2
    ensures v == v1 ==> r == p1
    ensures v == v2 ==> r == p2
    ensures p1 <= r <= p2 || p2 <= r <= p1
  {
    var w := (v - v1) / (v2 - v1);
    assert (v2 - v) / (v2 - v1) == 1.0 - w by {
      var d := v2 - v1;
      assert w * d == v - v1;
      assert (1.0 - w) * d == v2 - v;
      QuotientOf(1.0 - w, d, v2 - v);
    }
    assert 0.0 <= w <= 1.0 by {
      var d := v2 - v1;
      assert w * d == v - v1;
      if w < 0.0 {
        ProductPositive(-w, d);
      } else if w > 1.0 {
        ProductPositive(w - 1.0, d);
      }
    }
    ConvexBetween(p1, p2, w);
    (v2 - v) / (v2 - v1) * p1 + (v - v1) / (v2 - v1) * p2
  }

  /** internalDivision: the colour at v between c1 (at v1) and c2 (at v2), channel by
      channel.  The source aborts when v lies outside [v1, v2]; that check is the
      precondition here, and every call in Bilinear is proved to meet it. */
  function InternalDivision(c1: Quad, c2: Quad, v1: real, v2: real, v: real): (q: Quad)
    requires v1 <= v <= v2 && v1 < v2
    ensures v == v1 ==> q == c1
    ensures v == v2 ==> q == c2
    ensures Between(q, c1, c2)
    ensures InRange(c1) && InRange(c2) ==> InRange(q)
  {
    Quad(Weighted(c1.r, c2.r, v1, v2, v), Weighted(c1.g, c2.g, v1, v2, v),
         Weighted(c1.b, c2.b, v1, v2, v), Weighted(c1.a, c2.a, v1, v2, v))
  }

  /** color.RGBA{uint8(math.Round(r)), ...} for channels already in [0, 255]: each
      byte is the nearest integer to its channel. */
  function RoundQuad(q: Quad): (c: Color)
    requires InRange(q)
    ensures -0.5 <= c.r as real - q.r <= 0.5 && -0.5 <= c.g as real - q.g <= 0.5
    ensures -0.5 <= c.b as real - q.b <= 0.5 && -0.5 <= c.a as real - q.a <= 0.5
  {
    Color(Round(q.r), Round(q.g), Round(q.b), Round(q.a))
  }

  /** A float-to-byte conversion leaves every value of [0, 255] unchanged. */
  predicate ExactOnChannels(narrow: int -> Channel) {
    forall n :: 0 <= n <= 255 ==> narrow(n) == n
  }

  /** color.RGBA{uint8(math.Round(r)), ...} for channels that may lie outside [0, 255].
      Go leaves the conversion of an unrepresentable float to uint8 to the
      implementation, so the conversion of the rounded value is the parameter narrow;
      on [0, 255] it is exact, so on in-range channels NarrowQuad is plain rounding. */
  function NarrowQuad(q: Quad, narrow: int -> Channel): (c: Color)
    requires ExactOnChannels(narrow)
    ensures InRange(q) ==> c == RoundQuad(q)
  {
    Color(narrow(Round(q.r)), narrow(Round(q.g)), narrow(Round(q.b)), narrow(Round(q.a)))
  }

  /** Narrowing a colour that was widened to float64 gives the colour back. */
  lemma NarrowQuadOfColor(c: Color, narrow: int -> Channel)
    requires ExactOnChannels(narrow)
    ensures NarrowQuad(ToQuad(c), narrow) == c
  {
    RoundOfInteger(c.r);
    RoundOfInteger(c.g);
    RoundOfInteger(c.b);
    RoundOfInteger(c.a);
  }

  // ---------------------------------------------------------------------------
  // One output pixel of each kernel

  /** NearestNeighbor, loop body: src.At(int(transX), int(transY)).  Resampling to
      the source's own size reproduces the source exactly. */
  function NearestPixel(src: Image, w: nat, h: nat, x: int, y: int): (c: Color)
    requires src.width > 0 && src.height > 0 && w > 0 && h > 0
    ensures w == src.width && h == src.height && 0 <= x < w && 0 <= y < h ==> c == At(src, x, y)
  {
    var t := TransformCoords(x, y, Scale(w, src.width), Scale(h, src.height), false);
    At(src, Trunc(t.0), Trunc(t.1))
  }

  /** Bilinear, loop body.  Every call of internalDivision passes v1 = floor(v) and
      v2 = v1 + 1 (or the row indices ltY and lbY = ltY + 1), so v1 <= v <= v2 holds.
      Resampling to the source's own size reproduces the source exactly. */
  function BilinearPixel(src: Image, w: nat, h: nat, x: int, y: int): (c: Color)
    requires src.width > 0 && src.height > 0 && w > 0 && h > 0
    ensures w == src.width && h == src.height && 0 <= x < w && 0 <= y < h ==> c == At(src, x, y)
  {
    var t := TransformCoords(x, y, Scale(w, src.width), Scale(h, src.height), true);
    BilinearSample(src, t.0, t.1)
  }

  /** Bilinear's colour at source coordinate (transX, transY).  At the position of a
      source pixel it is that pixel. */
  function BilinearSample(src: Image, transX: real, transY: real): (c: Color)
    requires src.width > 0 && src.height > 0
    ensures transX == transX.Floor as real && 0.0 <= transX <= (src.width - 1) as real &&
            transY == transY.Floor as real && 0.0 <= transY <= (src.height - 1) as real ==>
              c == At(src, transX.Floor, transY.Floor)
  {
    var srcW, srcH := src.width, src.height;
    var outX := transX < 0.0 || transX > (srcW - 1) as real;
    var outY := transY < 0.0 || transY > (srcH - 1) as real;
    if outX && outY then
      At(src, BilinearEdge(transX, srcW), BilinearEdge(transY, srcH))
    else if outX then
      var nX := BilinearEdge(transX, srcW);
      var tY := transY.Floor;
      var bY := tY + 1;
      RoundQuad(InternalDivision(ToQuad(At(src, nX, tY)), ToQuad(At(src, nX, bY)),
                                 tY as real, bY as real, transY))
    else if outY then
      var nY := BilinearEdge(transY, srcH);
      var lX := transX.Floor;
      var rX := lX + 1;
      RoundQuad(InternalDivision(ToQuad(At(src, lX, nY)), ToQuad(At(src, rX, nY)),
                                 lX as real, rX as real, transX))
    else
      var ltX, ltY := transX.Floor, transY.Floor;
      var rtX, lbY := ltX + 1, ltY + 1;
      var tmp1 := InternalDivision(ToQuad(At(src, ltX, ltY)), ToQuad(At(src, rtX, ltY)),
                                   ltX as real, rtX as real, transX);
      var tmp2 := InternalDivision(ToQuad(At(src, ltX, lbY)), ToQuad(At(src, rtX, lbY)),
                                   ltX as real, rtX as real, transX);
      RoundQuad(InternalDivision(tmp1, tmp2, ltY as real, lbY as real, transY))
  }

  /** Bicubic, loop body (the size guard is in Bicubic itself). */
  function BicubicPixel(src: Image, w: nat, h: nat, x: int, y: int, narrow: int -> Channel): Color
    requires src.width > 0 && src.height > 0 && w > 0 && h > 0
    requires ExactOnChannels(narrow)
  {
    var t := TransformCoords(x, y, Scale(w, src.width), Scale(h, src.height), true);
    BicubicSample(src, t.0, t.1, narrow)
  }

  /** Bicubic's colour at source coordinate (transX, transY).  At the position of a
      source pixel it is that pixel. */
  function BicubicSample(src: Image, transX: real, transY: real, narrow: int -> Channel): (c: Color)
    requires src.width > 0 && src.height > 0
    requires ExactOnChannels(narrow)
    ensures transX == transX.Floor as real && 0.0 <= transX <= (src.width - 1) as real &&
            transY == transY.Floor as real && 0.0 <= transY <= (src.height - 1) as real ==>
              c == At(src, transX.Floor, transY.Floor)
  {
    NarrowQuadOfColor(At(src, transX.Floor, transY.Floor), narrow);
    EdgeIndexOfPixel(transX, src.width);
    EdgeIndexOfPixel(transY, src.height);
    var srcW, srcH := src.width, src.height;
    var outX := transX < 1.0 || transX > (srcW - 2) as real;
    var outY := transY < 1.0 || transY > (srcH - 2) as real;
    if outX && outY then
      At(src, EdgeIndex(transX, srcW), EdgeIndex(transY, srcH))
    else if outX then
      var nX := EdgeIndex(transX, srcW);
      var intY := transY.Floor;
      NarrowQuad(ColumnSpline(src, nX, intY, transY - intY as real), narrow)
    else if outY then
      var nY := EdgeIndex(transY, srcH);
      var intX := transX.Floor;
      NarrowQuad(RowSpline(src, intX, nY, transX - intX as real), narrow)
    else
      var intX, intY := transX.Floor, transY.Floor;
      var fractionX, fractionY := transX - intX as real, transY - intY as real;
      NarrowQuad(SplineQuad(fractionY,
                            RowSpline(src, intX, intY - 1, fractionX),
                            RowSpline(src, intX, intY, fractionX),
                            RowSpline(src, intX, intY + 1, fractionX),
                            RowSpline(src, intX, intY + 2, fractionX)), narrow)
  }

  /** Bicubic resampling to the source's own size reproduces the source exactly:
      every output pixel lands on its source pixel, where the spline weights are
      1 on that pixel and 0 on its neighbours. */
  lemma BicubicSameSize(src: Image, x: int, y: int, narrow: int -> Channel)
    requires src.width > 0 && src.height > 0 && 0 <= x < src.width && 0 <= y < src.height
    requires ExactOnChannels(narrow)
    ensures BicubicPixel(src, src.width, src.height, x, y, narrow) == At(src, x, y)
  {
    var t := TransformCoords(x, y, Scale(src.width, src.width), Scale(src.height, src.height), true);
    assert t == (x as real, y as real);
  }

  // ---------------------------------------------------------------------------
  // The kernels

  /** image.NewRGBA(image.Rect(0, 0, w, h)) followed by res.Set(x, y, c) for every
      pixel: the canvas is indexed [x, y], and Flatten reads it off row by row. */
  function Flatten(canvas: array2<Color>): (img: Image)
    reads canvas
    ensures img.Valid() && img.width == canvas.Length0 && img.height == canvas.Length1
    ensures forall x, y :: 0 <= x < img.width && 0 <= y < img.height ==> At(img, x, y) == canvas[x, y]
  {
    var w, h := canvas.Length0, canvas.Length1;
    var img := Image(w, h, seq(w * h, j requires 0 <= j < w * h reads canvas =>
                                  FlatIndexDecode(j, w, h); canvas[j % w, j / w]));
    assert forall x, y :: 0 <= x < w && 0 <= y < h ==> At(img, x, y) == canvas[x, y] by {
      forall x, y | 0 <= x < w && 0 <= y < h
        ensures At(img, x, y) == canvas[x, y]
      {
        FlatIndexInBounds(x, y, w, h);
        FlatIndexRoundTrip(x, y, w);
      }
    }
    img
  }

  /** NearestNeighbor: a w x h image whose pixel (x, y) is the source pixel
      (x * srcW / w, y * srcH / h), which always lies inside the source. */
  method NearestNeighbor(src: Image, w: nat, h: nat) returns (res: Image)
    requires src.Valid() && src.width > 0 && src.height > 0
    ensures res.Valid() && res.width == w && res.height == h
    ensures forall x, y :: 0 <= x < w && 0 <= y < h ==>
              At(res, x, y) == At(src, x * src.width / w, y * src.height / h)
  {
    var canvas := new Color[w, h]((_, _) => Transparent);
    var y := 0;
    while y < h
      invariant 0 <= y <= h
      invariant forall i, j :: 0 <= i < w && 0 <= j < y ==> canvas[i, j] == NearestPixel(src, w, h, i, j)
    {
      var x := 0;
      while x < w
        invariant 0 <= x <= w
        invariant forall i, j :: 0 <= i < w && 0 <= j < y ==> canvas[i, j] == NearestPixel(src, w, h, i, j)
        invariant forall i :: 0 <= i < x ==> canvas[i, y] == NearestPixel(src, w, h, i, y)
      {
        canvas[x, y] := NearestPixel(src, w, h, x, y);
        x := x + 1;
      }
      y := y + 1;
    }
    res := Flatten(canvas);
    forall x, y | 0 <= x < w && 0 <= y < h
      ensures At(res, x, y) == At(src, x * src.width / w, y * src.height / h)
    {
      NearestPixelIsQuotient(src, w, h, x, y);
    }
  }

  /** The source pixel NearestNeighbor reads for (x, y) is (x * srcW / w, y * srcH / h). */
  lemma NearestPixelIsQuotient(src: Image, w: nat, h: nat, x: int, y: int)
    requires src.width > 0 && src.height > 0 && 0 <= x < w && 0 <= y < h
    ensures NearestPixel(src, w, h, x, y) == At(src, x * src.width / w, y * src.height / h)
    ensures 0 <= x * src.width / w < src.width && 0 <= y * src.height / h < src.height
  {
    var t := TransformCoords(x, y, Scale(w, src.width), Scale(h, src.height), false);
    assert t.0 == x as real / Scale(w, src.width) by {
      QuotientOf(t.0, Scale(w, src.width), x as real);
    }
    assert t.1 == y as real / Scale(h, src.height) by {
      QuotientOf(t.1, Scale(h, src.height), y as real);
    }
    NearestIndexIsQuotient(x, src.width, w);
    NearestIndexIsQuotient(y, src.height, h);
  }

  /** Bilinear: a w x h image whose every pixel is BilinearPixel. */
  method Bilinear(src: Image, w: nat, h: nat) returns (res: Image)
    requires src.Valid() && src.width > 0 && src.height > 0
    ensures res.Valid() && res.width == w && res.height == h
    ensures forall x, y :: 0 <= x < w && 0 <= y < h ==> At(res, x, y) == BilinearPixel(src, w, h, x, y)
  {
    var canvas := new Color[w, h]((_, _) => Transparent);
    var y := 0;
    while y < h
      invariant 0 <= y <= h
      invariant forall i, j :: 0 <= i < w && 0 <= j < y ==> canvas[i, j] == BilinearPixel(src, w, h, i, j)
    {
      var x := 0;
      while x < w
        invariant 0 <= x <= w
        invariant forall i, j :: 0 <= i < w && 0 <= j < y ==> canvas[i, j] == BilinearPixel(src, w, h, i, j)
        invariant forall i :: 0 <= i < x ==> canvas[i, y] == BilinearPixel(src, w, h, i, y)
      {
        canvas[x, y] := BilinearPixel(src, w, h, x, y);
        x := x + 1;
      }
      y := y + 1;
    }
    res := Flatten(canvas);
  }

  /** The error Bicubic returns for a source smaller than 4 x 4. */
  datatype SizeError = SizeError(width: nat, height: nat)

  /** Bicubic: an error, and no image, when the source is narrower or lower than
      4 pixels; otherwise a w x h image whose every pixel is BicubicPixel. */
  method Bicubic(src: Image, w: nat, h: nat, narrow: int -> Channel) returns (res: Result<Image, SizeError>)
    requires src.Valid() && src.width > 0 && src.height > 0
    requires ExactOnChannels(narrow)
    ensures res.Failure? <==> src.width < 4 || src.height < 4
    ensures res.Failure? ==> res.error == SizeError(src.width, src.height)
    ensures res.Success? ==> && res.value.Valid() && res.value.width == w && res.value.height == h
                             && forall x, y :: 0 <= x < w && 0 <= y < h ==>
                                  At(res.value, x, y) == BicubicPixel(src, w, h, x, y, narrow)
  {
    if src.width < 4 || src.height < 4 {
      return Failure(SizeError(src.width, src.height));
    }
    var canvas := new Color[w, h]((_, _) => Transparent);
    var y := 0;
    while y < h
      invariant 0 <= y <= h
      invariant forall i, j :: 0 <= i < w && 0 <= j < y ==> canvas[i, j] == BicubicPixel(src, w, h, i, j, narrow)
    {
      var x := 0;
      while x < w
        invariant 0 <= x <= w
        invariant forall i, j :: 0 <= i < w && 0 <= j < y ==> canvas[i, j] == BicubicPixel(src, w, h, i, j, narrow)
        invariant forall i :: 0 <= i < x ==> canvas[i, y] == BicubicPixel(src, w, h, i, y, narrow)
      {
        canvas[x, y] := BicubicPixel(src, w, h, x, y, narrow);
        x := x + 1;
      }
      y := y + 1;
    }
    var img := Flatten(canvas);
    res := Success(img);
  }
}
