/** The worked examples of the kernels' tests: a 2 x 2 source with red, green, blue
    and yellow corners resized to 6 x 6 (interpolator/interpolator_test.go and
    interpolation/interpolation_test.go). */
module Tables {
  import opened Raster
  import opened Sampling
  import Interpolator
  import Interpolation
  import Versions

  const Red := Color(255, 0, 0, 255)
  const Green := Color(0, 255, 0, 255)
  const Blue := Color(0, 0, 255, 255)
  const Yellow := Color(255, 255, 0, 255)

  /** Red at (0, 0), green at (1, 0), blue at (0, 1), yellow at (1, 1). */
  function Corners(): (src: Image)
    ensures src.Valid() && src.width == 2 && src.height == 2
  {
    Image(2, 2, [Red, Green, Blue, Yellow])
  }

  /** NearestNeighbor turns each source pixel into a uniform 3 x 3 block. */
  lemma NearestBlocks(x: int, y: int)
    requires 0 <= x < 6 && 0 <= y < 6
    ensures Interpolation.NearestPixel(Corners(), 6, 6, x, y) == At(Corners(), x / 3, y / 3)
    ensures Interpolator.NearestNeighborAt(Corners(), 6, 6, x, y) == At(Corners(), x / 3, y / 3)
  {
    Interpolation.NearestPixelIsQuotient(Corners(), 6, 6, x, y);
    Versions.NearestAgree(Corners(), 6, 6, x, y);
    assert x * 2 / 6 == x / 3 && y * 2 / 6 == y / 3;
  }

  /** The expected Bilinear result, as tabulated by the tests: 2 x 2 corner blocks of
      the source colours, then the edge and centre blends. */
  function ExpectedBilinear(x: int, y: int): Color
    requires 0 <= x < 6 && 0 <= y < 6
  {
    var row := if y <= 1 then 0 else if y == 2 then 1 else if y == 3 then 2 else 3;
    var col := if x <= 1 then 0 else if x == 2 then 1 else if x == 3 then 2 else 3;
    [[Red, Color(170, 85, 0, 255), Color(85, 170, 0, 255), Green],
     [Color(170, 0, 85, 255), Color(141, 85, 56, 255), Color(113, 170, 28, 255), Color(85, 255, 0, 255)],
     [Color(85, 0, 170, 255), Color(113, 85, 113, 255), Color(141, 170, 56, 255), Color(170, 255, 0, 255)],
     [Blue, Color(85, 85, 170, 255), Color(170, 170, 85, 255), Yellow]][row][col]
  }

  /** Every channel of c is within 1 of the same channel of e. */
  predicate Close(c: Color, e: Color) {
    -1 <= c.r - e.r <= 1 && -1 <= c.g - e.g <= 1 && -1 <= c.b - e.b <= 1 && -1 <= c.a - e.a <= 1
  }

  /** Output pixel x of 6 maps to source coordinate (x - 1) / 3 of 2. */
  lemma CornersCoords(x: int, y: int)
    ensures Interpolator.TransformCoords(Interpolator.Bilinear, Corners(), 6, 6, x, y)
            == ((x - 1) as real / 3.0, (y - 1) as real / 3.0)
  {
  }

  /** Both versions' Bilinear match the tabulated 6 x 6 result within 1 per channel. */
  lemma BilinearTable(x: int, y: int)
    requires 0 <= x < 6 && 0 <= y < 6
    ensures Close(Interpolator.BilinearAt(Corners(), 6, 6, x, y), ExpectedBilinear(x, y))
    ensures Close(Interpolation.BilinearPixel(Corners(), 6, 6, x, y), ExpectedBilinear(x, y))
  {
    CornersCoords(x, y);
    Versions.BilinearAgree(Corners(), 6, 6, x, y);
    BilinearSampleTable(x, y);
  }

  /** The 36 output pixels, one by one: each evaluates the kernel at a literal source
      coordinate, which keeps every proof obligation small. */
  lemma BilinearSampleTable(x: int, y: int)
    requires 0 <= x < 6 && 0 <= y < 6
    ensures Close(Interpolator.BilinearSample(Corners(), (x - 1) as real / 3.0, (y - 1) as real / 3.0),
                  ExpectedBilinear(x, y))
  {
    if y == 0 {
      if x == 0 {
        Pixel00(x, y);
      } else if x == 1 {
        Pixel10(x, y);
      } else if x == 2 {
        Pixel20(x, y);
      } else if x == 3 {
        Pixel30(x, y);
      } else if x == 4 {
        Pixel40(x, y);
      } else {
        Pixel50(x, y);
      }
    } else if y == 1 {
      if x == 0 {
        Pixel01(x, y);
      } else if x == 1 {
        Pixel11(x, y);
      } else if x == 2 {
        Pixel21(x, y);
      } else if x == 3 {
        Pixel31(x, y);
      } else if x == 4 {
        Pixel41(x, y);
      } else {
        Pixel51(x, y);
      }
    } else if y == 2 {
      if x == 0 {
        Pixel02(x, y);
      } else if x == 1 {
        Pixel12(x, y);
      } else if x == 2 {
        Pixel22(x, y);
      } else if x == 3 {
        Pixel32(x, y);
      } else if x == 4 {
        Pixel42(x, y);
      } else {
        Pixel52(x, y);
      }
    } else if y == 3 {
      if x == 0 {
        Pixel03(x, y);
      } else if x == 1 {
        Pixel13(x, y);
      } else if x == 2 {
        Pixel23(x, y);
      } else if x == 3 {
        Pixel33(x, y);
      } else if x == 4 {
        Pixel43(x, y);
      } else {
        Pixel53(x, y);
      }
    } else if y == 4 {
      if x == 0 {
        Pixel04(x, y);
      } else if x == 1 {
        Pixel14(x, y);
      } else if x == 2 {
        Pixel24(x, y);
      } else if x == 3 {
        Pixel34(x, y);
      } else if x == 4 {
        Pixel44(x, y);
      } else {
        Pixel54(x, y);
      }
    } else {
      if x == 0 {
        Pixel05(x, y);
      } else if x == 1 {
        Pixel15(x, y);
      } else if x == 2 {
        Pixel25(x, y);
      } else if x == 3 {
        Pixel35(x, y);
      } else if x == 4 {
        Pixel45(x, y);
      } else {
        Pixel55(x, y);
      }
    }
  }

  lemma Pixel00(x: int, y: int)
    requires x == 0 && y == 0
    ensures Close(Interpolator.BilinearSample(Corners(), (x - 1) as real / 3.0, (y - 1) as real / 3.0),
                  ExpectedBilinear(x, y))
  {
    assert (-1.0 / 3.0).Floor == -1;
    assert Close(Interpolator.BilinearSample(Corners(), -1.0 / 3.0, -1.0 / 3.0), ExpectedBilinear(0, 0));
  }

  lemma Pixel10(x: int, y: int)
    requires x == 1 && y == 0
    ensures Close(Interpolator.BilinearSample(Corners(), (x - 1) as real / 3.0, (y - 1) as real / 3.0),
                  ExpectedBilinear(x, y))
  {
    assert (0.0).Floor == 0 && (-1.0 / 3.0).Floor == -1;
    assert At(Corners(), 0, 0) == Red && At(Corners(), 1, 0) == Green;
    assert Close(Interpolator.BilinearSample(Corners(), 0.0, -1.0 / 3.0), ExpectedBilinear(1, 0));
  }

  lemma Pixel20(x: int, y: int)
    requires x == 2 && y == 0
    ensures Close(Interpolator.BilinearSample(Corners(), (x - 1) as real / 3.0, (y - 1) as real / 3.0),
                  ExpectedBilinear(x, y))
  {
    assert (1.0 / 3.0).Floor == 0 && (-1.0 / 3.0).Floor == -1;
    assert At(Corners(), 0, 0) == Red && At(Corners(), 1, 0) == Green;
    assert Close(Interpolator.BilinearSample(Corners(), 1.0 / 3.0, -1.0 / 3.0), ExpectedBilinear(2, 0));
  }

  lemma Pixel30(x: int, y: int)
    requires x == 3 && y == 0
    ensures Close(Interpolator.BilinearSample(Corners(), (x - 1) as real / 3.0, (y - 1) as real / 3.0),
                  ExpectedBilinear(x, y))
  {
    assert (2.0 / 3.0).Floor == 0 && (-1.0 / 3.0).Floor == -1;
    assert At(Corners(), 0, 0) == Red && At(Corners(), 1, 0) == Green;
    assert Close(Interpolator.BilinearSample(Corners(), 2.0 / 3.0, -1.0 / 3.0), ExpectedBilinear(3, 0));
  }

  lemma Pixel40(x: int, y: int)
    requires x == 4 && y == 0
    ensures Close(Interpolator.BilinearSample(Corners(), (x - 1) as real / 3.0, (y - 1) as real / 3.0),
                  ExpectedBilinear(x, y))
  {
    assert (1.0).Floor == 1 && (-1.0 / 3.0).Floor == -1;
    assert At(Corners(), 1, 0) == Green && At(Corners(), 2, 0) == Transparent;
    assert Close(Interpolator.BilinearSample(Corners(), 1.0, -1.0 / 3.0), ExpectedBilinear(4, 0));
  }

  lemma Pixel50(x: int, y: int)
    requires x == 5 && y == 0
    ensures Close(Interpolator.BilinearSample(Corners(), (x - 1) as real / 3.0, (y - 1) as real / 3.0),
                  ExpectedBilinear(x, y))
  {
    assert (4.0 / 3.0).Floor == 1 && (-1.0 / 3.0).Floor == -1;
    assert Close(Interpolator.BilinearSample(Corners(), 4.0 / 3.0, -1.0 / 3.0), ExpectedBilinear(5, 0));
  }

  lemma Pixel01(x: int, y: int)
    requires x == 0 && y == 1
    ensures Close(Interpolator.BilinearSample(Corners(), (x - 1) as real / 3.0, (y - 1) as real / 3.0),
                  ExpectedBilinear(x, y))
  {
    assert (-1.0 / 3.0).Floor == -1 && (0.0).Floor == 0;
    assert At(Corners(), 0, 0) == Red && At(Corners(), 0, 1) == Blue;
    assert Close(Interpolator.BilinearSample(Corners(), -1.0 / 3.0, 0.0), ExpectedBilinear(0, 1));
  }

  lemma Pixel11(x: int, y: int)
    requires x == 1 && y == 1
    ensures Close(Interpolator.BilinearSample(Corners(), (x - 1) as real / 3.0, (y - 1) as real / 3.0),
                  ExpectedBilinear(x, y))
  {
    assert (0.0).Floor == 0;
    assert Close(Interpolator.BilinearSample(Corners(), 0.0, 0.0), ExpectedBilinear(1, 1));
  }

  lemma Pixel21(x: int, y: int)
    requires x == 2 && y == 1
    ensures Close(Interpolator.BilinearSample(Corners(), (x - 1) as real / 3.0, (y - 1) as real / 3.0),
                  ExpectedBilinear(x, y))
  {
    assert (1.0 / 3.0).Floor == 0 && (0.0).Floor == 0;
    assert Close(Interpolator.BilinearSample(Corners(), 1.0 / 3.0, 0.0), ExpectedBilinear(2, 1));
  }

  lemma Pixel31(x: int, y: int)
    requires x == 3 && y == 1
    ensures Close(Interpolator.BilinearSample(Corners(), (x - 1) as real / 3.0, (y - 1) as real / 3.0),
                  ExpectedBilinear(x, y))
  {
    assert (2.0 / 3.0).Floor == 0 && (0.0).Floor == 0;
    assert Close(Interpolator.BilinearSample(Corners(), 2.0 / 3.0, 0.0), ExpectedBilinear(3, 1));
  }

  lemma Pixel41(x: int, y: int)
    requires x == 4 && y == 1
    ensures Close(Interpolator.BilinearSample(Corners(), (x - 1) as real / 3.0, (y - 1) as real / 3.0),
                  ExpectedBilinear(x, y))
  {
    assert (1.0).Floor == 1 && (0.0).Floor == 0;
    assert Close(Interpolator.BilinearSample(Corners(), 1.0, 0.0), ExpectedBilinear(4, 1));
  }

  lemma Pixel51(x: int, y: int)
    requires x == 5 && y == 1
    ensures Close(Interpolator.BilinearSample(Corners(), (x - 1) as real / 3.0, (y - 1) as real / 3.0),
                  ExpectedBilinear(x, y))
  {
    assert (4.0 / 3.0).Floor == 1 && (0.0).Floor == 0;
    assert At(Corners(), 1, 0) == Green && At(Corners(), 1, 1) == Yellow;
    assert Close(Interpolator.BilinearSample(Corners(), 4.0 / 3.0, 0.0), ExpectedBilinear(5, 1));
  }

  lemma Pixel02(x: int, y: int)
    requires x == 0 && y == 2
    ensures Close(Interpolator.BilinearSample(Corners(), (x - 1) as real / 3.0, (y - 1) as real / 3.0),
                  ExpectedBilinear(x, y))
  {
    assert (-1.0 / 3.0).Floor == -1 && (1.0 / 3.0).Floor == 0;
    assert At(Corners(), 0, 0) == Red && At(Corners(), 0, 1) == Blue;
    assert Close(Interpolator.BilinearSample(Corners(), -1.0 / 3.0, 1.0 / 3.0), ExpectedBilinear(0, 2));
  }

  lemma Pixel12(x: int, y: int)
    requires x == 1 && y == 2
    ensures Close(Interpolator.BilinearSample(Corners(), (x - 1) as real / 3.0, (y - 1) as real / 3.0),
                  ExpectedBilinear(x, y))
  {
    assert (0.0).Floor == 0 && (1.0 / 3.0).Floor == 0;
    assert Close(Interpolator.BilinearSample(Corners(), 0.0, 1.0 / 3.0), ExpectedBilinear(1, 2));
  }

  lemma Pixel22(x: int, y: int)
    requires x == 2 && y == 2
    ensures Close(Interpolator.BilinearSample(Corners(), (x - 1) as real / 3.0, (y - 1) as real / 3.0),
                  ExpectedBilinear(x, y))
  {
    assert (1.0 / 3.0).Floor == 0;
    assert Close(Interpolator.BilinearSample(Corners(), 1.0 / 3.0, 1.0 / 3.0), ExpectedBilinear(2, 2));
  }

  lemma Pixel32(x: int, y: int)
    requires x == 3 && y == 2
    ensures Close(Interpolator.BilinearSample(Corners(), (x - 1) as real / 3.0, (y - 1) as real / 3.0),
                  ExpectedBilinear(x, y))
  {
    assert (2.0 / 3.0).Floor == 0 && (1.0 / 3.0).Floor == 0;
    assert Close(Interpolator.BilinearSample(Corners(), 2.0 / 3.0, 1.0 / 3.0), ExpectedBilinear(3, 2));
  }

  lemma Pixel42(x: int, y: int)
    requires x == 4 && y == 2
    ensures Close(Interpolator.BilinearSample(Corners(), (x - 1) as real / 3.0, (y - 1) as real / 3.0),
                  ExpectedBilinear(x, y))
  {
    assert (1.0).Floor == 1 && (1.0 / 3.0).Floor == 0;
    assert Close(Interpolator.BilinearSample(Corners(), 1.0, 1.0 / 3.0), ExpectedBilinear(4, 2));
  }

  lemma Pixel52(x: int, y: int)
    requires x == 5 && y == 2
    ensures Close(Interpolator.BilinearSample(Corners(), (x - 1) as real / 3.0, (y - 1) as real / 3.0),
                  ExpectedBilinear(x, y))
  {
    assert (4.0 / 3.0).Floor == 1 && (1.0 / 3.0).Floor == 0;
    assert At(Corners(), 1, 0) == Green && At(Corners(), 1, 1) == Yellow;
    assert Close(Interpolator.BilinearSample(Corners(), 4.0 / 3.0, 1.0 / 3.0), ExpectedBilinear(5, 2));
  }

  lemma Pixel03(x: int, y: int)
    requires x == 0 && y == 3
    ensures Close(Interpolator.BilinearSample(Corners(), (x - 1) as real / 3.0, (y - 1) as real / 3.0),
                  ExpectedBilinear(x, y))
  {
    assert (-1.0 / 3.0).Floor == -1 && (2.0 / 3.0).Floor == 0;
    assert At(Corners(), 0, 0) == Red && At(Corners(), 0, 1) == Blue;
    assert Close(Interpolator.BilinearSample(Corners(), -1.0 / 3.0, 2.0 / 3.0), ExpectedBilinear(0, 3));
  }

  lemma Pixel13(x: int, y: int)
    requires x == 1 && y == 3
    ensures Close(Interpolator.BilinearSample(Corners(), (x - 1) as real / 3.0, (y - 1) as real / 3.0),
                  ExpectedBilinear(x, y))
  {
    assert (0.0).Floor == 0 && (2.0 / 3.0).Floor == 0;
    assert Close(Interpolator.BilinearSample(Corners(), 0.0, 2.0 / 3.0), ExpectedBilinear(1, 3));
  }

  lemma Pixel23(x: int, y: int)
    requires x == 2 && y == 3
    ensures Close(Interpolator.BilinearSample(Corners(), (x - 1) as real / 3.0, (y - 1) as real / 3.0),
                  ExpectedBilinear(x, y))
  {
    assert (1.0 / 3.0).Floor == 0 && (2.0 / 3.0).Floor == 0;
    assert Close(Interpolator.BilinearSample(Corners(), 1.0 / 3.0, 2.0 / 3.0), ExpectedBilinear(2, 3));
  }

  lemma Pixel33(x: int, y: int)
    requires x == 3 && y == 3
    ensures Close(Interpolator.BilinearSample(Corners(), (x - 1) as real / 3.0, (y - 1) as real / 3.0),
                  ExpectedBilinear(x, y))
  {
    assert (2.0 / 3.0).Floor == 0;
    assert Close(Interpolator.BilinearSample(Corners(), 2.0 / 3.0, 2.0 / 3.0), ExpectedBilinear(3, 3));
  }

  lemma Pixel43(x: int, y: int)
    requires x == 4 && y == 3
    ensures Close(Interpolator.BilinearSample(Corners(), (x - 1) as real / 3.0, (y - 1) as real / 3.0),
                  ExpectedBilinear(x, y))
  {
    assert (1.0).Floor == 1 && (2.0 / 3.0).Floor == 0;
    assert Close(Interpolator.BilinearSample(Corners(), 1.0, 2.0 / 3.0), ExpectedBilinear(4, 3));
  }

  lemma Pixel53(x: int, y: int)
    requires x == 5 && y == 3
    ensures Close(Interpolator.BilinearSample(Corners(), (x - 1) as real / 3.0, (y - 1) as real / 3.0),
                  ExpectedBilinear(x, y))
  {
    assert (4.0 / 3.0).Floor == 1 && (2.0 / 3.0).Floor == 0;
    assert At(Corners(), 1, 0) == Green && At(Corners(), 1, 1) == Yellow;
    assert Close(Interpolator.BilinearSample(Corners(), 4.0 / 3.0, 2.0 / 3.0), ExpectedBilinear(5, 3));
  }

  lemma Pixel04(x: int, y: int)
    requires x == 0 && y == 4
    ensures Close(Interpolator.BilinearSample(Corners(), (x - 1) as real / 3.0, (y - 1) as real / 3.0),
                  ExpectedBilinear(x, y))
  {
    assert (-1.0 / 3.0).Floor == -1 && (1.0).Floor == 1;
    assert At(Corners(), 0, 1) == Blue && At(Corners(), 0, 2) == Transparent;
    assert Close(Interpolator.BilinearSample(Corners(), -1.0 / 3.0, 1.0), ExpectedBilinear(0, 4));
  }

  lemma Pixel14(x: int, y: int)
    requires x == 1 && y == 4
    ensures Close(Interpolator.BilinearSample(Corners(), (x - 1) as real / 3.0, (y - 1) as real / 3.0),
                  ExpectedBilinear(x, y))
  {
    assert (0.0).Floor == 0 && (1.0).Floor == 1;
    assert Close(Interpolator.BilinearSample(Corners(), 0.0, 1.0), ExpectedBilinear(1, 4));
  }

  lemma Pixel24(x: int, y: int)
    requires x == 2 && y == 4
    ensures Close(Interpolator.BilinearSample(Corners(), (x - 1) as real / 3.0, (y - 1) as real / 3.0),
                  ExpectedBilinear(x, y))
  {
    assert (1.0 / 3.0).Floor == 0 && (1.0).Floor == 1;
    assert Close(Interpolator.BilinearSample(Corners(), 1.0 / 3.0, 1.0), ExpectedBilinear(2, 4));
  }

  lemma Pixel34(x: int, y: int)
    requires x == 3 && y == 4
    ensures Close(Interpolator.BilinearSample(Corners(), (x - 1) as real / 3.0, (y - 1) as real / 3.0),
                  ExpectedBilinear(x, y))
  {
    assert (2.0 / 3.0).Floor == 0 && (1.0).Floor == 1;
    assert Close(Interpolator.BilinearSample(Corners(), 2.0 / 3.0, 1.0), ExpectedBilinear(3, 4));
  }

  lemma Pixel44(x: int, y: int)
    requires x == 4 && y == 4
    ensures Close(Interpolator.BilinearSample(Corners(), (x - 1) as real / 3.0, (y - 1) as real / 3.0),
                  ExpectedBilinear(x, y))
  {
    assert (1.0).Floor == 1;
    assert Close(Interpolator.BilinearSample(Corners(), 1.0, 1.0), ExpectedBilinear(4, 4));
  }

  lemma Pixel54(x: int, y: int)
    requires x == 5 && y == 4
    ensures Close(Interpolator.BilinearSample(Corners(), (x - 1) as real / 3.0, (y - 1) as real / 3.0),
                  ExpectedBilinear(x, y))
  {
    assert (4.0 / 3.0).Floor == 1 && (1.0).Floor == 1;
    assert At(Corners(), 1, 1) == Yellow && At(Corners(), 1, 2) == Transparent;
    assert Close(Interpolator.BilinearSample(Corners(), 4.0 / 3.0, 1.0), ExpectedBilinear(5, 4));
  }

  lemma Pixel05(x: int, y: int)
    requires x == 0 && y == 5
    ensures Close(Interpolator.BilinearSample(Corners(), (x - 1) as real / 3.0, (y - 1) as real / 3.0),
                  ExpectedBilinear(x, y))
  {
    assert (-1.0 / 3.0).Floor == -1 && (4.0 / 3.0).Floor == 1;
    assert Close(Interpolator.BilinearSample(Corners(), -1.0 / 3.0, 4.0 / 3.0), ExpectedBilinear(0, 5));
  }

  lemma Pixel15(x: int, y: int)
    requires x == 1 && y == 5
    ensures Close(Interpolator.BilinearSample(Corners(), (x - 1) as real / 3.0, (y - 1) as real / 3.0),
                  ExpectedBilinear(x, y))
  {
    assert (0.0).Floor == 0 && (4.0 / 3.0).Floor == 1;
    assert At(Corners(), 0, 1) == Blue && At(Corners(), 1, 1) == Yellow;
    assert Close(Interpolator.BilinearSample(Corners(), 0.0, 4.0 / 3.0), ExpectedBilinear(1, 5));
  }

  lemma Pixel25(x: int, y: int)
    requires x == 2 && y == 5
    ensures Close(Interpolator.BilinearSample(Corners(), (x - 1) as real / 3.0, (y - 1) as real / 3.0),
                  ExpectedBilinear(x, y))
  {
    assert (1.0 / 3.0).Floor == 0 && (4.0 / 3.0).Floor == 1;
    assert At(Corners(), 0, 1) == Blue && At(Corners(), 1, 1) == Yellow;
    assert Close(Interpolator.BilinearSample(Corners(), 1.0 / 3.0, 4.0 / 3.0), ExpectedBilinear(2, 5));
  }

  lemma Pixel35(x: int, y: int)
    requires x == 3 && y == 5
    ensures Close(Interpolator.BilinearSample(Corners(), (x - 1) as real / 3.0, (y - 1) as real / 3.0),
                  ExpectedBilinear(x, y))
  {
    assert (2.0 / 3.0).Floor == 0 && (4.0 / 3.0).Floor == 1;
    assert At(Corners(), 0, 1) == Blue && At(Corners(), 1, 1) == Yellow;
    assert Close(Interpolator.BilinearSample(Corners(), 2.0 / 3.0, 4.0 / 3.0), ExpectedBilinear(3, 5));
  }

  lemma Pixel45(x: int, y: int)
    requires x == 4 && y == 5
    ensures Close(Interpolator.BilinearSample(Corners(), (x - 1) as real / 3.0, (y - 1) as real / 3.0),
                  ExpectedBilinear(x, y))
  {
    assert (1.0).Floor == 1 && (4.0 / 3.0).Floor == 1;
    assert At(Corners(), 1, 1) == Yellow && At(Corners(), 2, 1) == Transparent;
    assert Close(Interpolator.BilinearSample(Corners(), 1.0, 4.0 / 3.0), ExpectedBilinear(4, 5));
  }

  lemma Pixel55(x: int, y: int)
    requires x == 5 && y == 5
    ensures Close(Interpolator.BilinearSample(Corners(), (x - 1) as real / 3.0, (y - 1) as real / 3.0),
                  ExpectedBilinear(x, y))
  {
    assert (4.0 / 3.0).Floor == 1;
    assert Close(Interpolator.BilinearSample(Corners(), 4.0 / 3.0, 4.0 / 3.0), ExpectedBilinear(5, 5));
  }
}
