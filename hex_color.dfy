/**
 * Model of pkg/instafix/color.go: parsing "#rgb" / "#rrggbb" colours with fmt.Sscanf, the
 * lenient fallback to white when a colour is set on the canvas, and the channel average of
 * a thumbnail used by the "average" background.
 */
module HexColor {
  import opened Wrappers
  import opened Strs
  import opened Raster
  import opened Graphics

  datatype ColorError = EmptyColor | MissingHash | BadLength | ScanFailed

  predicate IsHexDigit(c: char)
  {
    ('0' <= c <= '9') || ('a' <= c <= 'f') || ('A' <= c <= 'F')
  }

  function HexValue(c: char): (v: nat)
    requires IsHexDigit(c)
    ensures v < 16
  {
    if '0' <= c <= '9' then c as int - '0' as int
    else if 'a' <= c <= 'f' then c as int - 'a' as int + 10
    else c as int - 'A' as int + 10
  }

  /** The spaces a scan verb skips before its digits; Sscanf reports a newline as an error. */
  predicate SkippableSpace(c: char)
  {
    IsSpace(c) && c != '\n'
  }

  /** The position of the first character at or after `i` that a verb does not skip. */
  function SkipFrom(s: string, i: nat): (j: nat)
    requires i <= |s|
    ensures i <= j <= |s|
    ensures j == |s| || !SkippableSpace(s[j])
    ensures forall k :: i <= k < j ==> SkippableSpace(s[k])
    decreases |s| - i
  {
    if i < |s| && SkippableSpace(s[i]) then SkipFrom(s, i + 1) else i
  }

  /** A scanned field: its value and the position just after its digits. */
  datatype Field = Field(value: nat, next: nat)

  /**
   * One `%1x` (width 1) or `%02x` (width 2) verb into a uint8, starting at position `i`:
   * skip spaces (they do not count towards the width), then read at least one and at most
   * `width` hex digits. Running out of input or meeting a non-digit, a newline included,
   * before the first digit is an error.
   */
  function ScanHex(s: string, i: nat, width: nat): (r: Option<Field>)
    requires i <= |s| && (width == 1 || width == 2)
    ensures r.Some? <==> SkipFrom(s, i) < |s| && IsHexDigit(s[SkipFrom(s, i)])
    ensures r.Some? ==> r.value.value < (if width == 1 then 16 else 256)
    ensures r.Some? ==> SkipFrom(s, i) < r.value.next <= SkipFrom(s, i) + width && r.value.next <= |s|
    ensures r.Some? && r.value.next == SkipFrom(s, i) + 2 ==> IsHexDigit(s[SkipFrom(s, i) + 1])
  {
    var j := SkipFrom(s, i);
    if j == |s| || !IsHexDigit(s[j]) then None
    else if width == 2 && j + 1 < |s| && IsHexDigit(s[j + 1]) then
      Some(Field(16 * HexValue(s[j]) + HexValue(s[j + 1]), j + 2))
    else
      Some(Field(HexValue(s[j]), j + 1))
  }

  /** Three verbs of the same width in a row; the input after the third is ignored. */
  function ScanThree(s: string, i: nat, width: nat): (r: Option<(nat, nat, nat)>)
    requires i <= |s| && (width == 1 || width == 2)
    ensures r.Some? ==> (r.value.0 < (if width == 1 then 16 else 256)
      && r.value.1 < (if width == 1 then 16 else 256) && r.value.2 < (if width == 1 then 16 else 256))
  {
    var f1 := ScanHex(s, i, width);
    if f1.None? then None
    else
      var f2 := ScanHex(s, f1.value.next, width);
      if f2.None? then None
      else
        var f3 := ScanHex(s, f2.value.next, width);
        if f3.None? then None
        else Some((f1.value.value, f2.value.value, f3.value.value))
  }

  /** A short-form digit widened to a byte: 0xA becomes 0xAA. */
  function Expand(d: nat): (v: Byte)
    requires d < 16
    ensures v % 16 == d && v / 16 == d
  {
    d * 17
  }

  /** parseHexColor on an already trimmed string. The length test is on UTF-8 bytes, as
      Go's len() is; the scan is on characters, after the leading '#'. */
  function ParseTrimmed(t: string): (r: Result<NRGBA, ColorError>)
    ensures t == "" <==> r == Err(EmptyColor)
    ensures (t != "" && t[0] != '#') <==> r == Err(MissingHash)
    ensures r.Ok? ==> r.value.a == 255
    ensures r.Ok? ==> Utf8Len(t) == 4 || Utf8Len(t) == 7
    ensures (t != "" && t[0] == '#' && Utf8Len(t) != 4 && Utf8Len(t) != 7) ==> r == Err(BadLength)
  {
    if t == "" then Err(EmptyColor)
    else if t[0] != '#' then Err(MissingHash)
    else
      var n := Utf8Len(t);
      if n == 4 then
        var v := ScanThree(t, 1, 1);
        if v.None? then Err(ScanFailed)
        else Ok(NRGBA(Expand(v.value.0), Expand(v.value.1), Expand(v.value.2), 255))
      else if n == 7 then
        var v := ScanThree(t, 1, 2);
        if v.None? then Err(ScanFailed)
        else Ok(NRGBA(v.value.0, v.value.1, v.value.2, 255))
      else Err(BadLength)
  }

  /** parseHexColor: trim, then parse. */
  function ParseHexColor(hex: string): (r: Result<NRGBA, ColorError>)
    ensures r == ParseTrimmed(TrimSpace(hex))
  {
    ParseTrimmed(TrimSpace(hex))
  }

  /** A byte channel as a fraction of full intensity. */
  function Channel(v: Byte): (f: real)
    ensures 0.0 <= f <= 1.0
    ensures v == 0 <==> f == 0.0
    ensures v == 255 <==> f == 1.0
  {
    v as real / 255.0
  }

  /** The colour setHexColor puts on the canvas: white at the given opacity when the string
      does not parse, otherwise the parsed channels as fractions of 255. */
  function HexColorOrWhite(hex: string, opacity: real): RGBAf
  {
    match ParseHexColor(hex)
    case Err(_) => RGBAf(1.0, 1.0, 1.0, opacity)
    case Ok(p) => RGBAf(Channel(p.r), Channel(p.g), Channel(p.b), opacity)
  }

  /** The colour setHexColor chooses keeps the opacity, has every channel in [0, 1], is white
      exactly when the string does not parse, and otherwise carries the parsed channels. */
  lemma HexColorOrWhiteChannels(hex: string, opacity: real)
    ensures var c := HexColorOrWhite(hex, opacity);
            && c.a == opacity
            && 0.0 <= c.r <= 1.0 && 0.0 <= c.g <= 1.0 && 0.0 <= c.b <= 1.0
            && (ParseHexColor(hex).Err? ==> c == RGBAf(1.0, 1.0, 1.0, opacity))
            && (ParseHexColor(hex).Ok? ==> (c.r == Channel(ParseHexColor(hex).value.r)
                 && c.g == Channel(ParseHexColor(hex).value.g) && c.b == Channel(ParseHexColor(hex).value.b)))
  {
  }

  /** setHexColor: never fails; records the chosen colour on the canvas. */
  method SetHexColor(dc: Canvas, hex: string, opacity: real)
    modifies dc
    ensures dc.ops == old(dc.ops) + [SetColor(HexColorOrWhite(hex, opacity))]
  {
    var c := ParseHexColor(hex);
    if c.Err? {
      dc.SetRGBA(1.0, 1.0, 1.0, opacity);
    } else {
      dc.SetRGBA(Channel(c.value.r), Channel(c.value.g), Channel(c.value.b), opacity);
    }
  }

  // ---------------------------------------------------------------- parse properties

  /** The short form is strict: a four-byte colour that parses is '#' and three hex digits,
      each channel its digit repeated. */
  lemma ShortTrimmedIsStrict(t: string)
    requires ParseTrimmed(t).Ok? && Utf8Len(t) == 4
    ensures |t| == 4 && IsHexDigit(t[1]) && IsHexDigit(t[2]) && IsHexDigit(t[3])
    ensures ParseTrimmed(t).value == NRGBA(Expand(HexValue(t[1])), Expand(HexValue(t[2])), Expand(HexValue(t[3])), 255)
  {
    var f1 := ScanHex(t, 1, 1).value;
    var f2 := ScanHex(t, f1.next, 1).value;
    var f3 := ScanHex(t, f2.next, 1).value;
    assert f1.next == 2 && f2.next == 3 && f3.next == 4;
  }

  lemma ShortFormIsStrict(hex: string)
    requires ParseHexColor(hex).Ok? && Utf8Len(TrimSpace(hex)) == 4
    ensures var t := TrimSpace(hex);
      && |t| == 4 && IsHexDigit(t[1]) && IsHexDigit(t[2]) && IsHexDigit(t[3])
      && ParseHexColor(hex).value == NRGBA(Expand(HexValue(t[1])), Expand(HexValue(t[2])), Expand(HexValue(t[3])), 255)
  {
    ShortTrimmedIsStrict(TrimSpace(hex));
  }

  /** A string that is its own trim is parsed as it stands. */
  lemma ParseOfTrimmed(t: string)
    requires t != "" && !IsSpace(t[0]) && !IsSpace(t[|t| - 1])
    ensures ParseHexColor(t) == ParseTrimmed(t)
  {
    TrimSpaceOfTrimmed(t);
  }

  /** Every character of a colour written with hex digits, '#' and ASCII spaces is one byte. */
  lemma AsciiLength(t: string)
    requires forall i :: 0 <= i < |t| ==> t[i] as int < 0x80
    ensures Utf8Len(t) == |t|
  {
    Utf8LenAscii(t);
  }

  lemma ShortTrimmedParses(a: char, b: char, c: char)
    requires IsHexDigit(a) && IsHexDigit(b) && IsHexDigit(c)
    ensures ParseTrimmed(['#', a, b, c]) == Ok(NRGBA(Expand(HexValue(a)), Expand(HexValue(b)), Expand(HexValue(c)), 255))
  {
    var t := ['#', a, b, c];
    AsciiLength(t);
    assert SkipFrom(t, 1) == 1 && SkipFrom(t, 2) == 2 && SkipFrom(t, 3) == 3;
  }

  /** '#' and three hex digits parse to one repeated digit per channel. */
  lemma ShortFormParses(a: char, b: char, c: char)
    requires IsHexDigit(a) && IsHexDigit(b) && IsHexDigit(c)
    ensures ParseHexColor(['#', a, b, c]) == Ok(NRGBA(Expand(HexValue(a)), Expand(HexValue(b)), Expand(HexValue(c)), 255))
  {
    ParseOfTrimmed(['#', a, b, c]);
    ShortTrimmedParses(a, b, c);
  }

  lemma LongTrimmedParses(a: char, b: char, c: char, d: char, e: char, f: char)
    requires IsHexDigit(a) && IsHexDigit(b) && IsHexDigit(c)
    requires IsHexDigit(d) && IsHexDigit(e) && IsHexDigit(f)
    ensures ParseTrimmed(['#', a, b, c, d, e, f]) == Ok(NRGBA(16 * HexValue(a) + HexValue(b),
      16 * HexValue(c) + HexValue(d), 16 * HexValue(e) + HexValue(f), 255))
  {
    var t := ['#', a, b, c, d, e, f];
    AsciiLength(t);
    ScanDigitPair(t, 1);
    ScanDigitPair(t, 3);
    ScanDigitPair(t, 5);
  }

  /** A width-2 verb at two hex digits reads both. */
  lemma ScanDigitPair(t: string, i: nat)
    requires i + 1 < |t| && IsHexDigit(t[i]) && IsHexDigit(t[i + 1])
    ensures ScanHex(t, i, 2) == Some(Field(16 * HexValue(t[i]) + HexValue(t[i + 1]), i + 2))
  {
    assert SkipFrom(t, i) == i;
  }

  /** A width-2 verb at a hex digit followed by a character that is not one reads one digit. */
  lemma ScanLoneDigit(t: string, i: nat)
    requires i + 1 < |t| && IsHexDigit(t[i]) && !IsHexDigit(t[i + 1])
    ensures ScanHex(t, i, 2) == Some(Field(HexValue(t[i]), i + 1))
  {
    assert SkipFrom(t, i) == i;
  }

  /** A width-2 verb skips one space before two hex digits. */
  lemma ScanPairAfterSpace(t: string, i: nat)
    requires i + 2 < |t| && SkippableSpace(t[i]) && IsHexDigit(t[i + 1]) && IsHexDigit(t[i + 2])
    ensures ScanHex(t, i, 2) == Some(Field(16 * HexValue(t[i + 1]) + HexValue(t[i + 2]), i + 3))
  {
    assert SkipFrom(t, i + 1) == i + 1;
    assert SkipFrom(t, i) == i + 1;
  }

  /** '#' and six hex digits parse to one byte per channel. */
  lemma LongFormParses(a: char, b: char, c: char, d: char, e: char, f: char)
    requires IsHexDigit(a) && IsHexDigit(b) && IsHexDigit(c)
    requires IsHexDigit(d) && IsHexDigit(e) && IsHexDigit(f)
    ensures ParseHexColor(['#', a, b, c, d, e, f]) == Ok(NRGBA(16 * HexValue(a) + HexValue(b),
      16 * HexValue(c) + HexValue(d), 16 * HexValue(e) + HexValue(f), 255))
  {
    ParseOfTrimmed(['#', a, b, c, d, e, f]);
    LongTrimmedParses(a, b, c, d, e, f);
  }

  lemma InnerSpaceTrimmed(a: char, sp: char, c: char, d: char, e: char, f: char)
    requires IsHexDigit(a) && IsHexDigit(c) && IsHexDigit(d) && IsHexDigit(e) && IsHexDigit(f)
    requires SkippableSpace(sp) && sp as int < 0x80
    ensures ParseTrimmed(['#', a, sp, c, d, e, f]) == Ok(NRGBA(HexValue(a),
      16 * HexValue(c) + HexValue(d), 16 * HexValue(e) + HexValue(f), 255))
  {
    var t := ['#', a, sp, c, d, e, f];
    AsciiLength(t);
    ScanLoneDigit(t, 1);
    ScanPairAfterSpace(t, 2);
    ScanDigitPair(t, 5);
  }

  /** The long form skips a space between fields, as Sscanf does: "#1 2345" is accepted and
      reads as #012345. */
  lemma LongFormSkipsInnerSpace(a: char, sp: char, c: char, d: char, e: char, f: char)
    requires IsHexDigit(a) && IsHexDigit(c) && IsHexDigit(d) && IsHexDigit(e) && IsHexDigit(f)
    requires SkippableSpace(sp) && sp as int < 0x80
    ensures ParseHexColor(['#', a, sp, c, d, e, f]) == Ok(NRGBA(HexValue(a),
      16 * HexValue(c) + HexValue(d), 16 * HexValue(e) + HexValue(f), 255))
  {
    ParseOfTrimmed(['#', a, sp, c, d, e, f]);
    InnerSpaceTrimmed(a, sp, c, d, e, f);
  }

  lemma LongTrimmedTrailingNonHex(a: char, b: char, c: char, d: char, e: char, g: char)
    requires IsHexDigit(a) && IsHexDigit(b) && IsHexDigit(c) && IsHexDigit(d) && IsHexDigit(e)
    requires !IsHexDigit(g) && g as int < 0x80
    ensures ParseTrimmed(['#', a, b, c, d, e, g]) == Ok(NRGBA(16 * HexValue(a) + HexValue(b),
      16 * HexValue(c) + HexValue(d), HexValue(e), 255))
  {
    var t := ['#', a, b, c, d, e, g];
    AsciiLength(t);
    ScanDigitPair(t, 1);
    ScanDigitPair(t, 3);
    ScanLoneDigit(t, 5);
  }

  /** The long form is not strict: the last %02x stops at a non-hex character and Sscanf
      ignores what is left, so "#12345g" is accepted and reads as #123405. */
  lemma LongFormTrailingNonHex(a: char, b: char, c: char, d: char, e: char, g: char)
    requires IsHexDigit(a) && IsHexDigit(b) && IsHexDigit(c) && IsHexDigit(d) && IsHexDigit(e)
    requires !IsHexDigit(g) && !IsSpace(g) && g as int < 0x80
    ensures ParseHexColor(['#', a, b, c, d, e, g]) == Ok(NRGBA(16 * HexValue(a) + HexValue(b),
      16 * HexValue(c) + HexValue(d), HexValue(e), 255))
  {
    ParseOfTrimmed(['#', a, b, c, d, e, g]);
    LongTrimmedTrailingNonHex(a, b, c, d, e, g);
  }

  /** A colour that does not start with '#' degrades to white instead of failing. */
  lemma MalformedIsWhite(hex: string, opacity: real)
    requires TrimSpace(hex) != "" && TrimSpace(hex)[0] != '#'
    ensures HexColorOrWhite(hex, opacity) == RGBAf(1.0, 1.0, 1.0, opacity)
  {
  }

  // ---------------------------------------------------------------- averageColor

  /** The modulus of Go's uint64 arithmetic. */
  const U64: nat := 0x1_0000_0000_0000_0000

  datatype Chan = R | G | B

  function Pick(p: RGBA64, ch: Chan): (v: nat)
    ensures v < 0x1_0000
  {
    match ch
    case R => p.r
    case G => p.g
    case B => p.b
  }

  /** The premultiplied 16-bit channel `ch` of the first `n` pixels of row `y`, summed. */
  function RowSum(img: Image, y: int, n: nat, ch: Chan): nat
  {
    if n == 0 then 0 else RowSum(img, y, n - 1, ch) + Pick(RGBA(At(img, n - 1, y)), ch)
  }

  /** The same channel summed over the first `m` full rows. */
  function GridSum(img: Image, m: nat, ch: Chan): nat
  {
    if m == 0 then 0 else GridSum(img, m - 1, ch) + RowSum(img, m - 1, img.width, ch)
  }

  /** One channel of averageColor's result: the uint64 sum divided by the pixel count,
      shifted right by 8 and truncated to uint8. */
  function AverageChannel(img: Image, ch: Chan): (v: Byte)
    requires img.width > 0 && img.height > 0
  {
    ((GridSum(img, img.height, ch) % U64) / (img.width * img.height)) / 256 % 256
  }

  /** What averageColor returns for a given thumbnail: opaque black for an empty one, and
      otherwise the per-channel average, always opaque. */
  function AverageOf(thumb: Image): (c: NRGBA)
    ensures c.a == 255
    ensures (thumb.width == 0 || thumb.height == 0) ==> c == OpaqueBlack
  {
    if thumb.width == 0 || thumb.height == 0 then OpaqueBlack
    else NRGBA(AverageChannel(thumb, R), AverageChannel(thumb, G), AverageChannel(thumb, B), 255)
  }

  /** Wrapping a uint64 accumulator after every addition leaves the same value as wrapping
      the exact sum once, which is how the accumulators below are kept. */
  lemma ModAdd(a: nat, b: nat)
    ensures (a % U64 + b) % U64 == (a + b) % U64
  {
  }

  /** averageColor: shrink the source to a 32x32 thumbnail and average it, pixel by pixel.
      The accumulators hold the exact sums; the uint64 wrap-around is applied where they are
      read (see ModAdd). */
  method AverageColor(lib: Imaging, src: Image) returns (c: NRGBA)
    ensures c == AverageOf(lib.resize(src, 32, 32, Lanczos))
  {
    var thumb := lib.resize(src, 32, 32, Lanczos);
    if thumb.width == 0 || thumb.height == 0 {
      return OpaqueBlack;
    }
    var r: nat, g: nat, bl: nat := 0, 0, 0;
    var y := 0;
    while y < thumb.height
      invariant 0 <= y <= thumb.height
      invariant r == GridSum(thumb, y, R)
      invariant g == GridSum(thumb, y, G)
      invariant bl == GridSum(thumb, y, B)
    {
      var x := 0;
      while x < thumb.width
        invariant 0 <= x <= thumb.width
        invariant r == GridSum(thumb, y, R) + RowSum(thumb, y, x, R)
        invariant g == GridSum(thumb, y, G) + RowSum(thumb, y, x, G)
        invariant bl == GridSum(thumb, y, B) + RowSum(thumb, y, x, B)
      {
        var p := RGBA(At(thumb, x, y));
        r := r + p.r;
        g := g + p.g;
        bl := bl + p.b;
        x := x + 1;
      }
      y := y + 1;
    }
    var total := thumb.width * thumb.height;
    c := NRGBA(((r % U64) / total) / 256 % 256, ((g % U64) / total) / 256 % 256,
      ((bl % U64) / total) / 256 % 256, 255);
  }

  // ---------------------------------------------------------------- average properties

  lemma DivBound(s: nat, n: nat, k: nat)
    requires n > 0 && s <= n * k
    ensures s / n <= k
  {
    var q := s / n;
    var r := s % n;
    assert s == n * q + r && 0 <= r;
    assert n * (q - k) == s - r - n * k;
    MulAwayFromZero(n, q - k);
  }

  lemma {:induction false} RowSumBound(img: Image, y: int, n: nat, ch: Chan)
    ensures RowSum(img, y, n, ch) <= n * 0xFFFF
  {
    if n > 0 {
      RowSumBound(img, y, n - 1, ch);
    }
  }

  lemma {:induction false} GridSumBound(img: Image, m: nat, ch: Chan, w: nat)
    requires w == img.width * 0xFFFF
    ensures GridSum(img, m, ch) <= m * w
  {
    if m > 0 {
      GridSumBound(img, m - 1, ch, w);
      RowSumBound(img, m - 1, img.width, ch);
      assert (m - 1) * w + w == m * w;
    }
  }

  /** For a thumbnail of at most 2^48 pixels (32x32 has 1024) the uint64 sums cannot wrap
      and the uint8 conversion cannot truncate: each channel is the exact average of the
      16-bit channel, divided by 256. */
  lemma AverageIsExact(thumb: Image, ch: Chan)
    requires thumb.width > 0 && thumb.height > 0
    requires thumb.width * thumb.height <= 0x1_0000_0000_0000
    ensures AverageChannel(thumb, ch) == (GridSum(thumb, thumb.height, ch) / (thumb.width * thumb.height)) / 256
  {
    var n := thumb.width * thumb.height;
    GridSumBound(thumb, thumb.height, ch, thumb.width * 0xFFFF);
    assert thumb.height * (thumb.width * 0xFFFF) == n * 0xFFFF;
    NoWrap(GridSum(thumb, thumb.height, ch), n);
  }

  lemma NoWrap(s: nat, n: nat)
    requires 0 < n <= 0x1_0000_0000_0000 && s <= n * 0xFFFF
    ensures ((s % U64) / n) / 256 % 256 == (s / n) / 256
  {
    assert n * 0xFFFF <= 0x1_0000_0000_0000 * 0xFFFF;
    assert s < U64;
    assert s % U64 == s;
    DivBound(s, n, 0xFFFF);
    assert (s / n) / 256 < 256;
  }

  /** A non-zero multiple of n is at least n away from 0. */
  lemma {:induction false} MulAwayFromZero(n: nat, d: int)
    requires n > 0
    ensures d >= 1 ==> n * d >= n
    ensures d <= -1 ==> n * d <= -(n as int)
    decreases if d < 0 then -d else d
  {
    if d > 1 {
      MulAwayFromZero(n, d - 1);
      assert n * d == n * (d - 1) + n;
    } else if d < -1 {
      MulAwayFromZero(n, d + 1);
      assert n * d == n * (d + 1) - n;
    }
  }

  lemma MulDiv(n: nat, k: nat)
    requires n > 0
    ensures (n * k) / n == k
  {
    var q := (n * k) / n;
    var r := (n * k) % n;
    assert n * k == n * q + r && 0 <= r < n;
    assert n * (k - q) == r;
    MulAwayFromZero(n, k - q);
  }

  /** A byte widened to 16 bits by v * 257 comes back by dividing by 256. */
  lemma Narrow(v: Byte)
    ensures (v * 257) / 256 == v
  {
    assert v * 257 == v * 256 + v;
  }

  /** Row sums of a row whose pixels all have channel value `v`. */
  lemma {:induction false} UniformRow(img: Image, y: int, n: nat, ch: Chan, v: nat)
    requires forall x :: 0 <= x < n ==> Pick(RGBA(At(img, x, y)), ch) == v
    ensures RowSum(img, y, n, ch) == n * v
  {
    if n > 0 {
      UniformRow(img, y, n - 1, ch, v);
      assert (n - 1) * v + v == n * v;
    }
  }

  lemma {:induction false} UniformGrid(img: Image, m: nat, ch: Chan, v: nat, w: nat)
    requires m <= img.height && w == img.width * v
    requires forall x, y :: 0 <= x < img.width && 0 <= y < img.height ==> Pick(RGBA(At(img, x, y)), ch) == v
    ensures GridSum(img, m, ch) == m * w
  {
    if m > 0 {
      UniformGrid(img, m - 1, ch, v, w);
      UniformRow(img, m - 1, img.width, ch, v);
      assert (m - 1) * w + w == m * w;
    }
  }

  lemma UniformChannel(img: Image, ch: Chan, v: Byte)
    requires img.width > 0 && img.height > 0 && img.width * img.height <= 0x1_0000_0000_0000
    requires forall x, y :: 0 <= x < img.width && 0 <= y < img.height ==> Pick(RGBA(At(img, x, y)), ch) == v * 257
    ensures AverageChannel(img, ch) == v
  {
    var n := img.width * img.height;
    var wide := v * 257;
    var sum := GridSum(img, img.height, ch);
    assert sum == n * wide by {
      UniformGrid(img, img.height, ch, wide, img.width * wide);
      Regroup(img.height, img.width, wide);
    }
    AverageIsExact(img, ch);
    MulDiv(n, wide);
    assert sum / n == wide;
    Narrow(v);
  }

  /** h rows of w pixels of value v sum to (w * h) * v. */
  lemma Regroup(h: nat, w: nat, v: nat)
    ensures h * (w * v) == (w * h) * v
  {
  }

  /** A thumbnail filled with one opaque colour averages to that colour. */
  lemma UniformOpaqueAverage(thumb: Image, c: NRGBA)
    requires thumb.width > 0 && thumb.height > 0 && thumb.width * thumb.height <= 0x1_0000_0000_0000
    requires c.a == 255
    requires forall x, y :: 0 <= x < thumb.width && 0 <= y < thumb.height ==> At(thumb, x, y) == c
    ensures AverageOf(thumb) == c
  {
    UniformChannel(thumb, R, c.r);
    UniformChannel(thumb, G, c.g);
    UniformChannel(thumb, B, c.b);
  }
}
