/**
 * The classification logic of the FITS reader and writer: which header
 * keywords are the mandatory ones of the FITS Standard (version 4.0, section
 * 4.4.1) that the reader does not copy into an HDU's keyword table, which
 * BITPIX values map to which cfitsio pixel datatypes, and how the reader sizes
 * and classifies each HDU.
 */
module Fits {
  import opened Wrappers
  import opened Residency
  import opened Persistence

  // ---------------------------------------------------------------------------
  // Special keywords

  /** The keywords matched verbatim. */
  const SpecialKeywords: seq<string> := ["SIMPLE", "BITPIX", "COMMENT", "EXTEND", "NAXIS"]

  predicate IsDigit(c: char)
  {
    '0' <= c <= '9'
  }

  predicate AllDigits(s: string)
  {
    forall i :: 0 <= i < |s| ==> IsDigit(s[i])
  }

  /** The anchored pattern `^NAXIS[1-9][0-9]*$`. */
  predicate MatchesNaxisPattern(key: string)
  {
    && |key| >= 6
    && key[..5] == "NAXIS"
    && '1' <= key[5] <= '9'
    && AllDigits(key[6..])
  }

  function DigitChar(d: nat): char
    requires d < 10
  {
    (d + '0' as int) as char
  }

  function DigitValue(c: char): nat
    requires IsDigit(c)
  {
    c as int - '0' as int
  }

  /** The usual decimal spelling of `k`: no sign, no leading zero. */
  function Decimal(k: nat): string
    decreases k
  {
    if k < 10 then [DigitChar(k)] else Decimal(k / 10) + [DigitChar(k % 10)]
  }

  /** The number a string of digits spells. */
  function DecimalValue(s: string): nat
    requires AllDigits(s)
    decreases |s|
  {
    if s == [] then 0 else DecimalValue(s[..|s| - 1]) * 10 + DigitValue(s[|s| - 1])
  }

  /** The keyword that gives the length of axis `k`: NAXIS1, NAXIS2, ... */
  function AxisKeyword(k: nat): string
  {
    "NAXIS" + Decimal(k)
  }

  /** `Decimal` spells a number with digits only, without a leading zero, and reads back. */
  lemma {:induction false} DecimalIsCanonical(k: nat)
    ensures |Decimal(k)| >= 1 && AllDigits(Decimal(k))
    ensures k >= 1 ==> Decimal(k)[0] != '0'
    ensures DecimalValue(Decimal(k)) == k
  {
    if k >= 10 {
      DecimalIsCanonical(k / 10);
      var prefix := Decimal(k / 10);
      var s := Decimal(k);
      assert s == prefix + [DigitChar(k % 10)];
      assert s[..|s| - 1] == prefix;
      assert DecimalValue(s) == (k / 10) * 10 + k % 10;
    }
  }

  /** A digit string without a leading zero is the spelling of a positive number. */
  lemma {:induction false} CanonicalIsDecimal(s: string)
    requires |s| >= 1 && AllDigits(s) && s[0] != '0'
    ensures DecimalValue(s) >= 1 && Decimal(DecimalValue(s)) == s
    decreases |s|
  {
    if |s| == 1 {
      assert DecimalValue(s) == DigitValue(s[0]);
    } else {
      var prefix, last := s[..|s| - 1], s[|s| - 1];
      CanonicalIsDecimal(prefix);
      var v := DecimalValue(s);
      var p := DecimalValue(prefix);
      assert v == p * 10 + DigitValue(last);
      assert v / 10 == p && v % 10 == DigitValue(last);
      assert Decimal(v) == Decimal(p) + [DigitChar(DigitValue(last))];
      assert s == prefix + [last];
    }
  }

  /** Every axis keyword NAXISk with k >= 1 matches the pattern. */
  lemma AxisKeywordMatchesPattern(k: nat)
    requires k >= 1
    ensures MatchesNaxisPattern(AxisKeyword(k))
  {
    DecimalIsCanonical(k);
    var key := AxisKeyword(k);
    assert key[..5] == "NAXIS";
    assert key[5..] == Decimal(k);
    assert key[6..] == Decimal(k)[1..];
  }

  /** Every key that matches the pattern is the axis keyword of a positive axis number. */
  lemma PatternNamesAnAxis(key: string)
    requires MatchesNaxisPattern(key)
    ensures AllDigits(key[5..]) && DecimalValue(key[5..]) >= 1
    ensures AxisKeyword(DecimalValue(key[5..])) == key
  {
    var digits := key[5..];
    assert digits == [key[5]] + key[6..];
    CanonicalIsDecimal(digits);
    assert key == key[..5] + digits;
  }

  /**
   * `is_special_keyword`: true exactly for the five keywords matched verbatim
   * and for the axis keywords NAXIS1, NAXIS2, ... (a positive number written
   * without a leading zero, nothing after it).
   */
  method IsSpecialKeyword(key: string) returns (r: bool)
    ensures r <==> key in SpecialKeywords || exists k: nat :: k >= 1 && key == AxisKeyword(k)
  {
    for i := 0 to |SpecialKeywords|
      invariant forall j :: 0 <= j < i ==> SpecialKeywords[j] != key
    {
      if key == SpecialKeywords[i] {
        return true;
      }
    }
    r := MatchesNaxisPattern(key);
    if r {
      PatternNamesAnAxis(key);
    } else {
      forall k: nat | k >= 1
        ensures key != AxisKeyword(k)
      {
        AxisKeywordMatchesPattern(k);
      }
    }
  }

  /** The pattern on the boundary cases: a zero axis, a leading zero, a trailing letter. */
  lemma NaxisPatternExamples()
    ensures MatchesNaxisPattern("NAXIS1") && MatchesNaxisPattern("NAXIS12")
    ensures !MatchesNaxisPattern("NAXIS0") && !MatchesNaxisPattern("NAXIS01")
    ensures !MatchesNaxisPattern("NAXIS1X") && !MatchesNaxisPattern("NAXIS")
  {
    var tail := "NAXIS1X"[6..];
    assert tail[0] == 'X' && !IsDigit(tail[0]);
  }

  // ---------------------------------------------------------------------------
  // Pixel types

  /** BITPIX values (FITS Standard 4.0, section 4.4.1.1): 8 bits per pixel and so on; negative for IEEE floats. */
  const ByteImg: int := 8
  const ShortImg: int := 16
  const LongImg: int := 32
  const LongLongImg: int := 64
  const FloatImg: int := -32
  const DoubleImg: int := -64

  /** The cfitsio datatype codes the reader and writer use: TBYTE, TLONG, TFLOAT, TDOUBLE. */
  datatype PixelType = TByte | TLong | TFloat | TDouble

  /** The switch shared by `set_image` and `read`. */
  function PixelTypeFor(bitpix: int): (r: Option<PixelType>)
    ensures r.Some? <==> bitpix in {ByteImg, LongImg, FloatImg, DoubleImg}
    ensures r.Some? ==> BitpixOf(r.value) == bitpix
  {
    if bitpix == FloatImg then Some(TFloat)
    else if bitpix == DoubleImg then Some(TDouble)
    else if bitpix == ByteImg then Some(TByte)
    else if bitpix == LongImg then Some(TLong)
    else None
  }

  /** The BITPIX value whose pixels a datatype describes. */
  function BitpixOf(p: PixelType): int
  {
    match p
    case TByte => ByteImg
    case TLong => LongImg
    case TFloat => FloatImg
    case TDouble => DoubleImg
  }

  /** Bytes per pixel in the file. */
  function PixelBytes(p: PixelType): nat
  {
    match p
    case TByte => 1
    case TLong => 4
    case TFloat => 4
    case TDouble => 8
  }

  /**
   * The mapping is exactly the inverse of `BitpixOf`: a BITPIX value is
   * recognised precisely when some datatype describes it, and then it yields
   * that datatype. 16- and 64-bit integer images are not recognised.
   */
  lemma PixelTypeForInvertsBitpix(bitpix: int, p: PixelType)
    ensures PixelTypeFor(bitpix) == Some(p) <==> bitpix == BitpixOf(p)
    ensures PixelTypeFor(bitpix).None? <==> forall q: PixelType :: bitpix != BitpixOf(q)
    ensures PixelTypeFor(ShortImg).None? && PixelTypeFor(LongLongImg).None?
  {
    if PixelTypeFor(bitpix).None? {
      forall q: PixelType ensures bitpix != BitpixOf(q) {
        match q
        case TByte =>
        case TLong =>
        case TFloat =>
        case TDouble =>
      }
    } else {
      assert bitpix == BitpixOf(PixelTypeFor(bitpix).value);
    }
  }

  // ---------------------------------------------------------------------------
  // Header-data units

  /** Failures of `set_image` (invalid_argument) and of `read` (runtime_error and the bare exception). */
  datatype FitsError =
    | UnrecognisedDataType(bitpix: int)
    | UnsupportedDataType(bitpix: int)
    | UnexpectedDimensions(dims: int)

  /**
   * An HDU's image part. `data` is a byte block from `new char[]`, owned by the
   * HDU; `axes` is the two-element `axes` array.
   */
  class Hdu {
    const heap: Allocator<Byte>
    var data: array?<Byte>
    var bitpix: int
    var axes: seq<int>
    var pixelType: PixelType

    ghost predicate Valid()
      reads this, heap
    {
      && |axes| == 2
      && (data != null ==> data in heap.live && heap.live[data] == Pageable)
    }

    /** An HDU with header keywords only: no image block. */
    constructor (heap: Allocator<Byte>)
      ensures this.heap == heap && data == null && |axes| == 2 && Valid()
    {
      this.heap := heap;
      data := null;
      bitpix := 0;
      axes := [0, 0];
      pixelType := *;
    }

    /**
     * `set_image`: releases the held block once, with `delete[]`, takes
     * ownership of `image`, and records `bitpix` and the two axis lengths
     * BEFORE the BITPIX value is checked. So an unrecognised BITPIX fails with
     * the new block and fields already in place and only the pixel type left as
     * it was.
     */
    method SetImage(bitpix: int, image: array?<Byte>, xDim: int, yDim: int) returns (r: Outcome<FitsError>)
      requires Valid()
      requires image != null ==> image in heap.live && heap.live[image] == Pageable && image != data
      modifies this, heap
      ensures Valid()
      ensures heap.live == Without(old(heap.live), old(data))
      ensures data == image && this.bitpix == bitpix && axes == [xDim, yDim]
      ensures r.Pass? <==> PixelTypeFor(bitpix).Some?
      ensures r.Pass? ==> pixelType == PixelTypeFor(bitpix).value && BitpixOf(pixelType) == bitpix
      ensures r.Fail? ==> r.error == UnrecognisedDataType(bitpix) && pixelType == old(pixelType)
    {
      if data != null {
        heap.Free(data, DeleteArray);
      }
      data := image;
      this.bitpix := bitpix;
      axes := [xDim, yDim];
      if bitpix == FloatImg {
        pixelType := TFloat;
      } else if bitpix == DoubleImg {
        pixelType := TDouble;
      } else if bitpix == ByteImg {
        pixelType := TByte;
      } else if bitpix == LongImg {
        pixelType := TLong;
      } else {
        return Fail(UnrecognisedDataType(bitpix));
      }
      PixelTypeForInvertsBitpix(bitpix, pixelType);
      r := Pass;
    }
  }

  /** What cfitsio reports about an HDU: its number of axes, BITPIX and first two axis lengths. */
  datatype HduInfo = HduInfo(dims: int, bitpix: int, width: nat, height: nat)

  /** What `read` makes of an HDU. */
  datatype HduShape =
    | HeaderOnly
    | Image(pixelType: PixelType, width: nat, height: nat, bytes: nat)

  function Abs(x: int): nat
  {
    if x < 0 then -x else x
  }

  /** A whole number of bytes per pixel: dividing the bit count last loses nothing. */
  lemma ImageBytesExact(pixels: nat, p: PixelType)
    ensures pixels * Abs(BitpixOf(p)) / 8 == pixels * PixelBytes(p)
  {
    var b := PixelBytes(p);
    assert Abs(BitpixOf(p)) == b * 8;
    assert pixels * (b * 8) == (pixels * b) * 8;
  }

  /**
   * The per-HDU classification in `read`: two axes make an image of
   * `width * height * |BITPIX| / 8` bytes with the datatype for its BITPIX
   * (an unsupported BITPIX is an error); no axes make a header-only HDU; any
   * other number of axes is an error.
   */
  function ClassifyHdu(h: HduInfo): (r: Result<HduShape, FitsError>)
    ensures r.Ok? <==> h.dims == 0 || (h.dims == 2 && PixelTypeFor(h.bitpix).Some?)
    ensures r.Ok? && h.dims == 0 ==> r.value == HeaderOnly
    ensures r.Ok? && h.dims == 2 ==>
      && r.value.Image?
      && BitpixOf(r.value.pixelType) == h.bitpix
      && r.value.width == h.width && r.value.height == h.height
      && r.value.bytes == h.width * h.height * PixelBytes(r.value.pixelType)
    ensures r.Err? ==>
      r.error == if h.dims == 2 then UnsupportedDataType(h.bitpix) else UnexpectedDimensions(h.dims)
  {
    if h.dims == 2 then
      var bytes := h.width * h.height * Abs(h.bitpix) / 8;
      match PixelTypeFor(h.bitpix)
      case Some(p) =>
        PixelTypeForInvertsBitpix(h.bitpix, p);
        ImageBytesExact(h.width * h.height, p);
        Ok(Image(p, h.width, h.height, bytes))
      case None => Err(UnsupportedDataType(h.bitpix))
    else if h.dims == 0 then
      Ok(HeaderOnly)
    else
      Err(UnexpectedDimensions(h.dims))
  }

  /**
   * The loop of `read` over the HDUs, in order, as far as classification goes:
   * it stops at the first HDU that fails and reports that HDU's error.
   */
  method ReadHdus(hdus: seq<HduInfo>) returns (r: Result<seq<HduShape>, FitsError>)
    ensures r.Ok? <==> forall i :: 0 <= i < |hdus| ==> ClassifyHdu(hdus[i]).Ok?
    ensures r.Ok? ==>
      && |r.value| == |hdus|
      && forall i :: 0 <= i < |hdus| ==> r.value[i] == ClassifyHdu(hdus[i]).value
    ensures r.Err? ==>
      exists i :: 0 <= i < |hdus| && ClassifyHdu(hdus[i]) == Err(r.error)
        && forall j :: 0 <= j < i ==> ClassifyHdu(hdus[j]).Ok?
  {
    var shapes: seq<HduShape> := [];
    for i := 0 to |hdus|
      invariant |shapes| == i
      invariant forall j :: 0 <= j < i ==> ClassifyHdu(hdus[j]).Ok? && shapes[j] == ClassifyHdu(hdus[j]).value
    {
      var c := ClassifyHdu(hdus[i]);
      if c.Err? {
        return Err(c.error);
      }
      shapes := shapes + [c.value];
    }
    r := Ok(shapes);
  }
}
