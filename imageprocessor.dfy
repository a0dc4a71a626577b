/** The pure rules of imageprocessor/imageprocessor.go: which file names are
    accepted and how they map to an encoding, how a missing output dimension is
    derived from the other one, how the output name defaults, and the order in which
    New gives up. Reading and decoding the input file happens outside this model: New
    receives its outcome as the parameter `decoded`. */
module ImageProcessor {
  import opened Wrappers
  import opened Raster
  import opened Sampling
  import Interpolator

  predicate HasSuffix(s: string, suffix: string) {
    |suffix| <= |s| && s[|s| - |suffix|..] == suffix
  }

  /** The three accepted suffixes are told apart by their second-to-last character,
      so at most one of them ends any name. */
  lemma SuffixMarker(s: string)
    ensures HasSuffix(s, ".jpg") ==> s[|s| - 2] == 'p'
    ensures HasSuffix(s, ".jpeg") ==> s[|s| - 2] == 'e'
    ensures HasSuffix(s, ".png") ==> s[|s| - 2] == 'n'
  {
    if HasSuffix(s, ".jpg") {
      assert s[|s| - 2] == s[|s| - 4..][2];
    }
    if HasSuffix(s, ".jpeg") {
      assert s[|s| - 2] == s[|s| - 5..][3];
    }
    if HasSuffix(s, ".png") {
      assert s[|s| - 2] == s[|s| - 4..][2];
    }
  }

  /** extCheck: the pattern `\.(jpe?g|png)$`, anchored at the end and case-sensitive;
      "jpg" is reported as "jpeg". None is the fatal "only jpg/jpeg and png" error. */
  function ExtCheck(s: string): (r: Option<string>)
    ensures r == Some("jpeg") <==> HasSuffix(s, ".jpg") || HasSuffix(s, ".jpeg")
    ensures r == Some("png") <==> HasSuffix(s, ".png")
    ensures r.None? <==> !HasSuffix(s, ".jpg") && !HasSuffix(s, ".jpeg") && !HasSuffix(s, ".png")
  {
    SuffixMarker(s);
    if HasSuffix(s, ".jpg") || HasSuffix(s, ".jpeg") then Some("jpeg")
    else if HasSuffix(s, ".png") then Some("png")
    else None
  }

  /** Every extension extCheck reports is one of the two encodings the program writes. */
  lemma ExtCheckNormalises(s: string)
    ensures ExtCheck(s).Some? ==> ExtCheck(s).value == "jpeg" || ExtCheck(s).value == "png"
    ensures ExtCheck(s + ".jpg") == Some("jpeg") && ExtCheck(s + ".jpeg") == Some("jpeg")
    ensures ExtCheck(s + ".png") == Some("png")
  {
    assert (s + ".jpg")[|s + ".jpg"| - 4..] == ".jpg";
    assert (s + ".jpeg")[|s + ".jpeg"| - 5..] == ".jpeg";
    assert (s + ".png")[|s + ".png"| - 4..] == ".png";
  }

  /** The output size New settles on, given the requested w and h (0 meaning "not
      given") and the source size; None is the fatal "at least one dimension" error. */
  function DeriveSize(w: nat, h: nat, iW: nat, iH: nat): (r: Option<(nat, nat)>)
    requires iW > 0 && iH > 0
    ensures r.None? <==> w == 0 && h == 0
    ensures w != 0 && h != 0 ==> r == Some((w, h))
    ensures w == 0 && h != 0 ==> r.Some? && r.value.1 == h
    ensures h == 0 && w != 0 ==> r.Some? && r.value.0 == w
  {
    if w == 0 && h == 0 then None
    else if w == 0 then Some((Round(iW as real * (h as real / iH as real)), h))
    else if h == 0 then Some((w, Round(iH as real * (w as real / iW as real))))
    else Some((w, h))
  }

  /** The derived dimension keeps the source's aspect ratio as closely as a whole
      number of pixels can: w' / h is within half a pixel of iW / iH (and likewise
      for a derived height). */
  lemma DeriveSizeKeepsAspect(w: nat, h: nat, iW: nat, iH: nat)
    requires iW > 0 && iH > 0
    ensures w == 0 && h != 0 ==>
              var w' := DeriveSize(w, h, iW, iH).value.0;
              -(iH as int) < 2 * (w' * iH - iW * h) <= iH
    ensures h == 0 && w != 0 ==>
              var h' := DeriveSize(w, h, iW, iH).value.1;
              -(iW as int) < 2 * (h' * iW - iH * w) <= iW
  {
    if w == 0 && h != 0 {
      RoundScaled(iW, h, iH);
    }
    if h == 0 && w != 0 {
      RoundScaled(iH, w, iW);
    }
  }

  /** Round(a * (b / d)) * d is within d / 2 of a * b, rounding halves upwards. */
  lemma RoundScaled(a: nat, b: nat, d: nat)
    requires d > 0
    ensures var n := Round(a as real * (b as real / d as real));
            -(d as int) < 2 * (n * d - a * b) <= d
  {
    var v := a as real * (b as real / d as real);
    assert v * d as real == (a * b) as real by {
      assert b as real / d as real * d as real == b as real;
    }
    NearestTimes(Round(v), v, a * b, d);
  }

  /** An integer n in (v - 1/2, v + 1/2], times d, is in (v * d - d / 2, v * d + d / 2]. */
  lemma NearestTimes(n: int, v: real, m: int, d: nat)
    requires d > 0 && -0.5 < n as real - v <= 0.5 && v * d as real == m as real
    ensures -(d as int) < 2 * (n * d - m) <= d
  {
    var e := n as real - v;
    var j := n * d - m;
    assert e * d as real == j as real by {
      assert (n * d) as real == n as real * d as real;
    }
    HalfBracket(e, d as real, j as real);
  }

  /** e in (-1/2, 1/2] scales by d > 0 into (-d/2, d/2]. */
  lemma HalfBracket(e: real, d: real, k: real)
    requires d > 0.0 && -0.5 < e <= 0.5 && e * d == k
    ensures -d < 2.0 * k <= d
  {
    ProductNonnegative(0.5 - e, d);
    ProductPositive(e + 0.5, d);
  }

  /** Asking for a whole multiple of the source height derives the same multiple of
      the source width: the source's own proportions are reproduced exactly. */
  lemma DeriveWidthOfMultiple(h: nat, iW: nat, iH: nat)
    requires iW > 0 && iH > 0 && h > 0 && h % iH == 0
    ensures DeriveSize(0, h, iW, iH) == Some((h / iH * iW, h))
  {
    RoundOfExactScale(iW, h, iH);
  }

  /** Likewise for a requested multiple of the source width. */
  lemma DeriveHeightOfMultiple(w: nat, iW: nat, iH: nat)
    requires iW > 0 && iH > 0 && w > 0 && w % iW == 0
    ensures DeriveSize(w, 0, iW, iH) == Some((w, w / iW * iH))
  {
    RoundOfExactScale(iH, w, iW);
  }

  /** a * (b / d) is a whole number when d divides b, so rounding leaves it alone. */
  lemma RoundOfExactScale(a: nat, b: nat, d: nat)
    requires d > 0 && b % d == 0
    ensures Round(a as real * (b as real / d as real)) == b / d * a
  {
    var k := b / d;
    assert b == k * d;
    QuotientOf(k as real, d as real, b as real);
    assert a as real * (b as real / d as real) == (k * a) as real;
    RoundOfInteger(k * a);
  }

  /** An empty output name becomes "<method>.<input extension>". */
  function DefaultName(name: string, methodName: string, iExt: string): (r: string)
    ensures name != "" ==> r == name
    ensures name == "" ==> |r| == |methodName| + 1 + |iExt| && r[..|methodName|] == methodName
                           && HasSuffix(r, "." + iExt)
  {
    if name == "" then methodName + "." + iExt else name
  }

  /** The default output name round-trips: extCheck on it gives back the input's
      extension, so an output written under the default name keeps the input's
      encoding. */
  lemma DefaultNameRoundTrip(methodName: string, iExt: string)
    requires iExt == "jpeg" || iExt == "png"
    ensures ExtCheck(DefaultName("", methodName, iExt)) == Some(iExt)
  {
    var name := DefaultName("", methodName, iExt);
    if iExt == "jpeg" {
      assert HasSuffix(name, ".jpeg");
    } else {
      assert HasSuffix(name, ".png");
    }
  }

  /** The fatal errors of New, in the order New checks for them. */
  datatype Fault =
    | MissingPath            // path == ""
    | UnsupportedInput       // extCheck(path) found no jpg/jpeg/png suffix
    | ReadFailed             // readImageFile returned an error
    | MissingDimension       // w == 0 && h == 0
    | UnsupportedOutput      // extCheck(name) found no jpg/jpeg/png suffix
    | UnknownMethod          // interpolator.New does not know the method

  /** The processor New returns: its settings, the decoded source and the kernel that
      will produce the output. */
  class Processor {
    const path: string
    const iExt: string
    const src: Image
    const w: nat
    const h: nat
    const name: string
    const oExt: string
    const concurrency: bool
    const interpolator: Interpolator.Interpolator

    constructor (path: string, iExt: string, src: Image, w: nat, h: nat, name: string, oExt: string,
                 concurrency: bool, interpolator: Interpolator.Interpolator)
      ensures this.path == path && this.iExt == iExt && this.src == src && this.w == w && this.h == h
      ensures this.name == name && this.oExt == oExt && this.concurrency == concurrency
      ensures this.interpolator == interpolator
    {
      this.path := path;
      this.iExt := iExt;
      this.src := src;
      this.w := w;
      this.h := h;
      this.name := name;
      this.oExt := oExt;
      this.concurrency := concurrency;
      this.interpolator := interpolator;
    }
  }

  /** New: validate the request step by step; `decoded` is what readImageFile made of
      the file at `path` (None when it could not be opened or decoded). */
  method New(path: string, w: nat, h: nat, methodName: string, concurrency: bool, name: string,
             decoded: Option<Image>)
    returns (r: Result<Processor, Fault>)
    requires decoded.Some? ==> decoded.value.Valid() && decoded.value.width > 0 && decoded.value.height > 0
    ensures r == Failure(MissingPath) <==> path == ""
    ensures r == Failure(UnsupportedInput) <==> path != "" && ExtCheck(path).None?
    ensures r == Failure(ReadFailed) <==> path != "" && ExtCheck(path).Some? && decoded.None?
    ensures r == Failure(MissingDimension) <==>
              path != "" && ExtCheck(path).Some? && decoded.Some? && w == 0 && h == 0
    ensures r.Success? <==>
              && path != "" && ExtCheck(path).Some? && decoded.Some? && (w != 0 || h != 0)
              && ExtCheck(DefaultName(name, methodName, ExtCheck(path).value)).Some?
              && Interpolator.ParseMethod(methodName).Some?
    ensures r.Success? ==>
              var iExt := ExtCheck(path).value;
              var src := decoded.value;
              var size := DeriveSize(w, h, src.width, src.height).value;
              var p := r.value;
              && path != "" && p.path == path && p.iExt == iExt && p.src == src
              && p.w == size.0 && p.h == size.1
              && p.name == DefaultName(name, methodName, iExt)
              && Some(p.oExt) == ExtCheck(p.name) && p.concurrency == concurrency
              && p.interpolator.Valid() && fresh(p.interpolator.output)
              && Some(p.interpolator.kernel) == Interpolator.ParseMethod(methodName)
              && p.interpolator.input == src && p.interpolator.oW == p.w && p.interpolator.oH == p.h
    ensures r.Failure? && r.error == UnsupportedOutput <==>
              && path != "" && ExtCheck(path).Some? && decoded.Some? && (w != 0 || h != 0)
              && ExtCheck(DefaultName(name, methodName, ExtCheck(path).value)).None?
    ensures r.Failure? && r.error == UnknownMethod <==>
              && path != "" && ExtCheck(path).Some? && decoded.Some? && (w != 0 || h != 0)
              && ExtCheck(DefaultName(name, methodName, ExtCheck(path).value)).Some?
              && Interpolator.ParseMethod(methodName).None?
  {
    if path == "" {
      return Failure(MissingPath);
    }
    var iExt := ExtCheck(path);
    if iExt.None? {
      return Failure(UnsupportedInput);
    }
    if decoded.None? {
      return Failure(ReadFailed);
    }
    var src := decoded.value;
    var size := DeriveSize(w, h, src.width, src.height);
    if size.None? {
      return Failure(MissingDimension);
    }
    var (oW, oH) := size.value;
    var oName := DefaultName(name, methodName, iExt.value);
    var oExt := ExtCheck(oName);
    if oExt.None? {
      return Failure(UnsupportedOutput);
    }
    var interpolator := Interpolator.New(src, oW, oH, methodName);
    if interpolator.None? {
      return Failure(UnknownMethod);
    }
    var p := new Processor(path, iExt.value, src, oW, oH, oName, oExt.value, concurrency, interpolator.value);
    return Success(p);
  }
}
