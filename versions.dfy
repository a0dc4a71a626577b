/** How the two resamplers relate: the sequential kernels of
    interpolation/interpolation.go compute, pixel for pixel, what the worker-based
    kernels of interpolator/interpolator.go compute, except that the older Bicubic
    refuses sources smaller than 4 x 4 and leaves out-of-range channels to Go's
    implementation-defined float-to-uint8 conversion. */
module Versions {
  import opened Raster
  import opened Sampling
  import Interpolation
  import Interpolator

  /** The conversion of a rounded channel that saturates instead of wrapping. */
  function Saturate(n: int): (c: Channel)
    ensures 0 <= n <= 255 ==> c == n
    ensures n > 255 ==> c == 255
    ensures n < 0 ==> c == 0
  {
    if n > 255 then 255 else if n < 0 then 0 else n
  }

  /** A product t * s with s > 0 determines t. */
  lemma SameFactor(t: real, u: real, s: real)
    requires s > 0.0 && t * s == u * s
    ensures t == u
  {
    QuotientOf(t, s, u * s);
    QuotientOf(u, s, u * s);
  }

  /** Both versions map an output pixel to the same source coordinate: the older
      transformCoords with subtractOffset set exactly for Bilinear and Bicubic. */
  lemma TransformCoordsAgree(m: Interpolator.Kernel, src: Image, oW: nat, oH: nat, x: int, y: int)
    requires src.width > 0 && src.height > 0 && oW > 0 && oH > 0
    ensures Interpolation.TransformCoords(x, y, Scale(oW, src.width), Scale(oH, src.height),
                                          m != Interpolator.NearestNeighbor)
            == Interpolator.TransformCoords(m, src, oW, oH, x, y)
  {
    var sW, sH := Scale(oW, src.width), Scale(oH, src.height);
    var a := Interpolation.TransformCoords(x, y, sW, sH, m != Interpolator.NearestNeighbor);
    var b := Interpolator.TransformCoords(m, src, oW, oH, x, y);
    assert sW * src.width as real == oW as real && sH * src.height as real == oH as real;
    if m == Interpolator.NearestNeighbor {
      assert b.0 * sW * src.width as real == (x * src.width) as real;
      assert b.1 * sH * src.height as real == (y * src.height) as real;
      SameFactor(a.0, b.0, sW);
      SameFactor(a.1, b.1, sH);
    } else {
      assert (b.0 + 0.5) * sW * src.width as real == (x as real + 0.5) * src.width as real;
      assert (b.1 + 0.5) * sH * src.height as real == (y as real + 0.5) * src.height as real;
      SameFactor(a.0 + 0.5, b.0 + 0.5, sW);
      SameFactor(a.1 + 0.5, b.1 + 0.5, sH);
    }
  }

  lemma NearestAgree(src: Image, w: nat, h: nat, x: int, y: int)
    requires src.width > 0 && src.height > 0 && w > 0 && h > 0
    ensures Interpolation.NearestPixel(src, w, h, x, y) == Interpolator.NearestNeighborAt(src, w, h, x, y)
  {
    TransformCoordsAgree(Interpolator.NearestNeighbor, src, w, h, x, y);
  }

  /** With v2 = v1 + 1 the older internalDivision is the newer one. */
  lemma InternalDivisionAgree(c1: Quad, c2: Quad, v1: real, v: real)
    requires v1 <= v <= v1 + 1.0
    ensures Interpolation.InternalDivision(c1, c2, v1, v1 + 1.0, v) == Interpolator.InternalDivision(c1, c2, v1, v)
  {
  }

  /** On channels in [0, 255], rounding alone is what clamp does. */
  lemma RoundIsClamp(q: Quad)
    requires InRange(q)
    ensures Interpolation.RoundQuad(q) == Interpolator.ClampQuad(q)
  {
  }

  /** The Bilinear pixel is the same in both versions. */
  lemma BilinearAgree(src: Image, w: nat, h: nat, x: int, y: int)
    requires src.width > 0 && src.height > 0 && w > 0 && h > 0
    ensures Interpolation.BilinearPixel(src, w, h, x, y) == Interpolator.BilinearAt(src, w, h, x, y)
  {
    TransformCoordsAgree(Interpolator.Bilinear, src, w, h, x, y);
    var t := Interpolator.TransformCoords(Interpolator.Bilinear, src, w, h, x, y);
    BilinearSampleAgree(src, t.0, t.1);
  }

  /** At every source coordinate both versions' Bilinear give the same colour. */
  lemma BilinearSampleAgree(src: Image, tX: real, tY: real)
    requires src.width > 0 && src.height > 0
    ensures Interpolation.BilinearSample(src, tX, tY) == Interpolator.BilinearSample(src, tX, tY)
  {
    var outX := tX < 0.0 || tX > (src.width - 1) as real;
    var outY := tY < 0.0 || tY > (src.height - 1) as real;
    if outX && !outY {
      BilinearColumnAgree(src, tX, tY);
    } else if outY && !outX {
      BilinearRowAgree(src, tX, tY);
    } else if !outX && !outY {
      BilinearInsideAgree(src, tX, tY);
    }
  }

  /** Only tX is out of range: both versions blend two pixels of one edge column. */
  lemma BilinearColumnAgree(src: Image, tX: real, tY: real)
    requires src.width > 0 && src.height > 0
    requires tX < 0.0 || tX > (src.width - 1) as real
    requires 0.0 <= tY <= (src.height - 1) as real
    ensures Interpolation.BilinearSample(src, tX, tY) == Interpolator.BilinearSample(src, tX, tY)
  {
    var nX, nY := BilinearEdge(tX, src.width), tY.Floor;
    var q := BlendAgree(ToQuad(At(src, nX, nY)), ToQuad(At(src, nX, nY + 1)), nY, tY);
    assert Interpolation.BilinearSample(src, tX, tY) == Interpolation.RoundQuad(q);
  }

  /** Only tY is out of range: both versions blend two pixels of one edge row. */
  lemma BilinearRowAgree(src: Image, tX: real, tY: real)
    requires src.width > 0 && src.height > 0
    requires 0.0 <= tX <= (src.width - 1) as real
    requires tY < 0.0 || tY > (src.height - 1) as real
    ensures Interpolation.BilinearSample(src, tX, tY) == Interpolator.BilinearSample(src, tX, tY)
  {
    var nX, nY := tX.Floor, BilinearEdge(tY, src.height);
    var q := BlendAgree(ToQuad(At(src, nX, nY)), ToQuad(At(src, nX + 1, nY)), nX, tX);
    assert Interpolation.BilinearSample(src, tX, tY) == Interpolation.RoundQuad(q);
  }

  /** Both coordinates in range: both versions blend the four surrounding pixels. */
  lemma BilinearInsideAgree(src: Image, tX: real, tY: real)
    requires src.width > 0 && src.height > 0
    requires 0.0 <= tX <= (src.width - 1) as real
    requires 0.0 <= tY <= (src.height - 1) as real
    ensures Interpolation.BilinearSample(src, tX, tY) == Interpolator.BilinearSample(src, tX, tY)
  {
    var nX, nY := tX.Floor, tY.Floor;
    assert nX as real <= tX <= (nX + 1) as real && nY as real <= tY <= (nY + 1) as real;
    OlderBilinearInside(src, tX, tY);
    NewerBilinearInside(src, tX, tY);
    BlendTwiceAgree(ToQuad(At(src, nX, nY)), ToQuad(At(src, nX + 1, nY)),
                    ToQuad(At(src, nX, nY + 1)), ToQuad(At(src, nX + 1, nY + 1)), nX, nY, tX, tY);
  }

  /** Inside the source the older Bilinear rounds the two-axis blend of the four
      pixels around (tX, tY). */
  lemma OlderBilinearInside(src: Image, tX: real, tY: real)
    requires src.width > 0 && src.height > 0
    requires 0.0 <= tX <= (src.width - 1) as real
    requires 0.0 <= tY <= (src.height - 1) as real
    ensures var nX, nY := tX.Floor, tY.Floor;
            var c00, c10 := ToQuad(At(src, nX, nY)), ToQuad(At(src, nX + 1, nY));
            var c01, c11 := ToQuad(At(src, nX, nY + 1)), ToQuad(At(src, nX + 1, nY + 1));
            Interpolation.BilinearSample(src, tX, tY)
            == Interpolation.RoundQuad(Interpolation.InternalDivision(
                 Interpolation.InternalDivision(c00, c10, nX as real, (nX + 1) as real, tX),
                 Interpolation.InternalDivision(c01, c11, nX as real, (nX + 1) as real, tX),
                 nY as real, (nY + 1) as real, tY))
  {
  }

  /** Inside the source the newer Bilinear clamps the two-axis blend of the same four
      pixels. */
  lemma NewerBilinearInside(src: Image, tX: real, tY: real)
    requires src.width > 0 && src.height > 0
    requires 0.0 <= tX <= (src.width - 1) as real
    requires 0.0 <= tY <= (src.height - 1) as real
    ensures var nX, nY := tX.Floor, tY.Floor;
            var c00, c10 := ToQuad(At(src, nX, nY)), ToQuad(At(src, nX + 1, nY));
            var c01, c11 := ToQuad(At(src, nX, nY + 1)), ToQuad(At(src, nX + 1, nY + 1));
            Interpolator.BilinearSample(src, tX, tY)
            == Interpolator.ClampQuad(Interpolator.InternalDivision(
                 Interpolator.InternalDivision(c00, c10, nX as real, tX),
                 Interpolator.InternalDivision(c01, c11, nX as real, tX),
                 nY as real, tY))
  {
  }

  /** The two-axis blend of four in-range colours is the same in both versions. */
  lemma BlendTwiceAgree(c00: Quad, c10: Quad, c01: Quad, c11: Quad, nX: int, nY: int, tX: real, tY: real)
    requires InRange(c00) && InRange(c10) && InRange(c01) && InRange(c11)
    requires nX as real <= tX <= (nX + 1) as real && nY as real <= tY <= (nY + 1) as real
    ensures var top := Interpolation.InternalDivision(c00, c10, nX as real, (nX + 1) as real, tX);
            var bottom := Interpolation.InternalDivision(c01, c11, nX as real, (nX + 1) as real, tX);
            var top' := Interpolator.InternalDivision(c00, c10, nX as real, tX);
            var bottom' := Interpolator.InternalDivision(c01, c11, nX as real, tX);
            Interpolation.RoundQuad(Interpolation.InternalDivision(top, bottom, nY as real, (nY + 1) as real, tY))
            == Interpolator.ClampQuad(Interpolator.InternalDivision(top', bottom', nY as real, tY))
  {
    var top := BlendAgree(c00, c10, nX, tX);
    var bottom := BlendAgree(c01, c11, nX, tX);
    var q := BlendAgree(top, bottom, nY, tY);
  }

  /** The blend of c0 (at n) and c1 (at n + 1) about v is the same in both versions,
      and rounding it is clamping it. */
  lemma BlendAgree(c0: Quad, c1: Quad, n: int, v: real) returns (q: Quad)
    requires n as real <= v <= (n + 1) as real
    ensures q == Interpolator.InternalDivision(c0, c1, n as real, v)
    ensures q == Interpolation.InternalDivision(c0, c1, n as real, (n + 1) as real, v)
    ensures InRange(c0) && InRange(c1) ==> InRange(q) && Interpolation.RoundQuad(q) == Interpolator.ClampQuad(q)
  {
    q := Interpolator.InternalDivision(c0, c1, n as real, v);
    InternalDivisionAgree(c0, c1, n as real, v);
    if InRange(c0) && InRange(c1) {
      RoundIsClamp(q);
    }
  }

  /** Rounding then saturating is clamping. */
  lemma SaturateRoundIsClamp(v: real)
    ensures Saturate(Round(v)) == Interpolator.Clamp(v)
  {
    if v > 255.0 {
      RoundMonotonic(255.0, v);
      RoundOfInteger(255);
    }
  }

  lemma NarrowSaturateIsClamp(q: Quad)
    ensures Interpolation.NarrowQuad(q, Saturate) == Interpolator.ClampQuad(q)
  {
    SaturateRoundIsClamp(q.r);
    SaturateRoundIsClamp(q.g);
    SaturateRoundIsClamp(q.b);
    SaturateRoundIsClamp(q.a);
  }

  /** When the float-to-byte conversion saturates, the older Bicubic pixel is the
      newer one: clamp is the saturating choice for that conversion. */
  lemma BicubicAgree(src: Image, w: nat, h: nat, x: int, y: int)
    requires src.width > 0 && src.height > 0 && w > 0 && h > 0
    ensures Interpolation.BicubicPixel(src, w, h, x, y, Saturate) == Interpolator.BicubicAt(src, w, h, x, y)
  {
    TransformCoordsAgree(Interpolator.Bicubic, src, w, h, x, y);
    var t := Interpolator.TransformCoords(Interpolator.Bicubic, src, w, h, x, y);
    BicubicSampleAgree(src, t.0, t.1);
  }

  lemma BicubicSampleAgree(src: Image, tX: real, tY: real)
    requires src.width > 0 && src.height > 0
    ensures Interpolation.BicubicSample(src, tX, tY, Saturate) == Interpolator.BicubicSample(src, tX, tY)
  {
    var intX, intY := tX.Floor, tY.Floor;
    var fX, fY := tX - intX as real, tY - intY as real;
    NarrowSaturateIsClamp(ColumnSpline(src, EdgeIndex(tX, src.width), intY, fY));
    NarrowSaturateIsClamp(RowSpline(src, intX, EdgeIndex(tY, src.height), fX));
    NarrowSaturateIsClamp(SplineQuad(fY, RowSpline(src, intX, intY - 1, fX), RowSpline(src, intX, intY, fX),
                                         RowSpline(src, intX, intY + 1, fX), RowSpline(src, intX, intY + 2, fX)));
  }
}
