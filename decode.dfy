/**
 * Model of pkg/instafix/decode.go: the byte scan that cuts embedded JPEG streams out of a
 * DNG/RAW file (a stream runs from a start-of-image marker FF D8 to the first end-of-image
 * marker FF D9 after it, ITU-T T.81 Table B.1), the choice of the largest decodable
 * preview, and the dispatch on the file extension. The image decoder itself is abstract.
 */
module Decode {
  import opened Wrappers
  import opened Strs
  import opened Raster
  import opened Graphics

  /** Start-of-image marker FF D8 at position k. */
  predicate IsSOI(data: seq<Byte>, k: int)
  {
    0 <= k && k + 1 < |data| && data[k] == 0xFF && data[k + 1] == 0xD8
  }

  /** End-of-image marker FF D9 at position k. */
  predicate IsEOI(data: seq<Byte>, k: int)
  {
    0 <= k && k + 1 < |data| && data[k] == 0xFF && data[k + 1] == 0xD9
  }

  /** bytes.Index(data[from:], {0xFF, 0xD9}), as a position in `data`: the first end-of-image
      marker at or after `from`. */
  function FindEOI(data: seq<Byte>, from: nat): (r: Option<nat>)
    requires from <= |data|
    ensures r.Some? ==> from <= r.value && IsEOI(data, r.value)
    ensures r.Some? ==> forall k :: from <= k < r.value ==> !IsEOI(data, k)
    ensures r.None? ==> forall k :: from <= k ==> !IsEOI(data, k)
    decreases |data| - from
  {
    if from + 1 >= |data| then None
    else if IsEOI(data, from) then Some(from)
    else FindEOI(data, from + 1)
  }

  /** The half-open byte range data[start:end] of one embedded stream. */
  datatype Span = Span(start: nat, end: nat)

  /** A stream found by the scan: SOI at its start, and its end just past the first EOI
      that begins at or after start + 2. */
  predicate StreamAt(data: seq<Byte>, s: Span)
  {
    s.start + 4 <= s.end <= |data| && IsSOI(data, s.start) && s.start + 2 <= |data|
      && FindEOI(data, s.start + 2) == Some(s.end - 2)
  }

  /** The streams extractJPEGs finds when its loop index is at `i`. */
  function Scan(data: seq<Byte>, i: nat): seq<Span>
    decreases |data| - i
  {
    if i + 1 >= |data| then []
    else if !IsSOI(data, i) then Scan(data, i + 1)
    else
      match FindEOI(data, i + 2)
      case None => Scan(data, i + 1)
      case Some(k) => [Span(i, k + 2)] + Scan(data, k + 2)
  }

  /** Every span the scan finds from `i` on is a stream starting at or after `i`. */
  lemma {:induction false} ScanStreams(data: seq<Byte>, i: nat)
    ensures forall n :: 0 <= n < |Scan(data, i)| ==> i <= Scan(data, i)[n].start && StreamAt(data, Scan(data, i)[n])
    decreases |data| - i
  {
    if i + 1 < |data| {
      if !IsSOI(data, i) {
        ScanStreams(data, i + 1);
        assert Scan(data, i) == Scan(data, i + 1);
      } else {
        match FindEOI(data, i + 2)
        case None =>
          ScanStreams(data, i + 1);
          assert Scan(data, i) == Scan(data, i + 1);
        case Some(k) =>
          ScanStreams(data, k + 2);
          assert Scan(data, i) == [Span(i, k + 2)] + Scan(data, k + 2);
          assert StreamAt(data, Span(i, k + 2));
      }
    }
  }

  /** Each span the scan finds ends before the next one starts. */
  lemma {:induction false} ScanOrdered(data: seq<Byte>, i: nat)
    ensures forall n :: 0 <= n < |Scan(data, i)| - 1 ==> Scan(data, i)[n].end <= Scan(data, i)[n + 1].start
    decreases |data| - i
  {
    if i + 1 < |data| {
      if !IsSOI(data, i) {
        ScanOrdered(data, i + 1);
        assert Scan(data, i) == Scan(data, i + 1);
      } else {
        match FindEOI(data, i + 2)
        case None =>
          ScanOrdered(data, i + 1);
          assert Scan(data, i) == Scan(data, i + 1);
        case Some(k) =>
          ScanOrdered(data, k + 2);
          ScanStreams(data, k + 2);
          var rest := Scan(data, k + 2);
          assert Scan(data, i) == [Span(i, k + 2)] + rest;
          assert rest != [] ==> k + 2 <= rest[0].start;
      }
    }
  }

  predicate InBounds(data: seq<Byte>, spans: seq<Span>)
  {
    forall n :: 0 <= n < |spans| ==> spans[n].start <= spans[n].end <= |data|
  }

  function Slices(data: seq<Byte>, spans: seq<Span>): (chunks: seq<seq<Byte>>)
    requires InBounds(data, spans)
    ensures |chunks| == |spans|
    ensures forall n :: 0 <= n < |spans| ==> chunks[n] == data[spans[n].start..spans[n].end]
  {
    seq(|spans|, n requires 0 <= n < |spans| => data[spans[n].start..spans[n].end])
  }

  lemma SlicesAppend(data: seq<Byte>, spans: seq<Span>, s: Span)
    requires InBounds(data, spans) && s.start <= s.end <= |data|
    ensures InBounds(data, spans + [s])
    ensures Slices(data, spans + [s]) == Slices(data, spans) + [data[s.start..s.end]]
  {
  }

  /** What extractJPEGs returns. */
  function Chunks(data: seq<Byte>): seq<seq<Byte>>
  {
    ScanStreams(data, 0);
    Slices(data, Scan(data, 0))
  }

  /** extractJPEGs: walk the bytes; at each SOI look for the next EOI, cut the stream out and
      resume just after it. */
  method ExtractJPEGs(data: seq<Byte>) returns (results: seq<seq<Byte>>)
    ensures results == Chunks(data)
  {
    results := [];
    ghost var spans: seq<Span> := [];
    var i := 0;
    while i + 1 < |data|
      invariant i <= |data|
      invariant InBounds(data, spans)
      invariant spans + Scan(data, i) == Scan(data, 0)
      invariant results == Slices(data, spans)
      decreases |data| - i
    {
      if data[i] != 0xFF || data[i + 1] != 0xD8 {
        assert Scan(data, i) == Scan(data, i + 1);
        i := i + 1;
        continue;
      }
      var j := FindEOI(data, i + 2);
      if j.None? {
        assert Scan(data, i) == Scan(data, i + 1);
        i := i + 1;
        continue;
      }
      var end := j.value + 2;
      // the source's `end > len(data)` guard can never fire
      assert end <= |data|;
      var found := Span(i, end);
      assert Scan(data, i) == [found] + Scan(data, end);
      assert spans + Scan(data, i) == (spans + [found]) + Scan(data, end);
      SlicesAppend(data, spans, found);
      results := results + [data[i..end]];
      spans := spans + [found];
      i := end;
    }
    assert Scan(data, i) == [];
    assert spans == Scan(data, 0);
  }

  // ---------------------------------------------------------------- scan properties

  /** Every chunk is a complete stream: SOI first, EOI last, at least four bytes, and no EOI
      in between. */
  lemma ChunkShape(data: seq<Byte>, n: nat)
    requires n < |Chunks(data)|
    ensures var c := Chunks(data)[n];
      && |c| >= 4 && c[0] == 0xFF && c[1] == 0xD8 && c[|c| - 2] == 0xFF && c[|c| - 1] == 0xD9
      && forall k :: 2 <= k < |c| - 2 ==> !(c[k] == 0xFF && c[k + 1] == 0xD9)
  {
    ScanStreams(data, 0);
    var s := Scan(data, 0)[n];
    var c := Chunks(data)[n];
    assert StreamAt(data, s);
    assert c == data[s.start..s.end];
    forall k | 2 <= k < |c| - 2
      ensures !(c[k] == 0xFF && c[k + 1] == 0xD9)
    {
      assert !IsEOI(data, s.start + k);
    }
  }

  /** Chunks come in file order and never overlap. */
  lemma ChunksInOrder(data: seq<Byte>, n: nat, m: nat)
    requires n < m < |Scan(data, 0)|
    ensures Scan(data, 0)[n].end <= Scan(data, 0)[m].start
  {
    var sp := Scan(data, 0);
    ScanOrdered(data, 0);
    ScanStreams(data, 0);
    if m > n + 1 {
      ChunksInOrder(data, n, m - 1);
    }
  }

  /** Empty or one-byte input has no chunks. */
  lemma ShortInputHasNoChunks(data: seq<Byte>)
    requires |data| < 2
    ensures Chunks(data) == []
  {
  }

  /** Input with no end-of-image marker has no chunks. */
  lemma {:induction false} NoEOIHasNoChunks(data: seq<Byte>, i: nat)
    requires forall k :: 0 <= k ==> !IsEOI(data, k)
    ensures Scan(data, i) == []
    decreases |data| - i
  {
    if i + 1 < |data| {
      NoEOIHasNoChunks(data, i + 1);
    }
  }

  /** Bytes with no 0xFF among them are skipped by the scan. */
  lemma {:induction false} ScanSkips(data: seq<Byte>, i: nat, j: nat)
    requires i <= j <= |data|
    requires forall k :: i <= k < j ==> data[k] != 0xFF
    ensures Scan(data, i) == Scan(data, j)
    decreases j - i
  {
    if i < j {
      ScanSkips(data, i + 1, j);
    }
  }

  /** A well-formed stream wrapped in arbitrary bytes without 0xFF is cut out exactly. */
  lemma WrappedStreamIsFound(prefix: seq<Byte>, jpeg: seq<Byte>, suffix: seq<Byte>)
    requires |jpeg| >= 4 && jpeg[0] == 0xFF && jpeg[1] == 0xD8
    requires jpeg[|jpeg| - 2] == 0xFF && jpeg[|jpeg| - 1] == 0xD9
    requires forall k :: 2 <= k < |jpeg| - 2 ==> !(jpeg[k] == 0xFF && jpeg[k + 1] == 0xD9)
    requires forall k :: 0 <= k < |prefix| ==> prefix[k] != 0xFF
    requires forall k :: 0 <= k < |suffix| ==> suffix[k] != 0xFF
    ensures Chunks(prefix + jpeg + suffix) == [jpeg]
  {
    var data := prefix + jpeg + suffix;
    var p := |prefix|;
    var e := p + |jpeg|;
    ScanSkips(data, 0, p);
    assert IsSOI(data, p);
    forall k | p + 2 <= k < e - 2
      ensures !IsEOI(data, k)
    {
      assert data[k] == jpeg[k - p] && data[k + 1] == jpeg[k - p + 1];
    }
    assert IsEOI(data, e - 2);
    FindEOIAt(data, p + 2, e - 2);
    ScanSkips(data, e, |data|);
    assert Scan(data, p) == [Span(p, e)] + Scan(data, e);
    assert data[p..e] == jpeg;
  }

  lemma {:induction false} FindEOIAt(data: seq<Byte>, from: nat, k: nat)
    requires from <= k && IsEOI(data, k)
    requires forall j :: from <= j < k ==> !IsEOI(data, j)
    ensures FindEOI(data, from) == Some(k)
    decreases k - from
  {
    if from < k {
      FindEOIAt(data, from + 1, k);
    }
  }

  // ---------------------------------------------------------------- decodeDNGPreview

  datatype DecodeError =
    | DecodeFailed          // the error of the normal imaging.Decode
    | NoEmbeddedPreview     // "no embedded JPEG preview found in DNG"
    | PreviewUndecodable    // "failed to decode embedded JPEG preview"

  function Area(img: Image): nat
  {
    img.width * img.height
  }

  predicate Decodes(dec: seq<Byte> -> Option<Image>, cands: seq<seq<Byte>>, k: nat)
  {
    k < |cands| && dec(cands[k]).Some?
  }

  /** The area of the candidate chosen so far; 0 before any is chosen. */
  function BestArea(dec: seq<Byte> -> Option<Image>, cands: seq<seq<Byte>>, best: Option<nat>): nat
    requires best.Some? ==> Decodes(dec, cands, best.value)
  {
    if best.None? then 0 else Area(dec(cands[best.value]).value)
  }

  /** The candidate loop of decodeDNGPreview from candidate `n` on, `best` being the index
      chosen so far: a decodable candidate replaces it only with a strictly larger area. */
  function Best(dec: seq<Byte> -> Option<Image>, cands: seq<seq<Byte>>, n: nat, best: Option<nat>): (r: Option<nat>)
    requires n <= |cands|
    requires best.Some? ==> best.value < n && Decodes(dec, cands, best.value)
    ensures r.Some? ==> Decodes(dec, cands, r.value)
    decreases |cands| - n
  {
    if n == |cands| then best
    else if dec(cands[n]).None? then Best(dec, cands, n + 1, best)
    else if Area(dec(cands[n]).value) > BestArea(dec, cands, best) then Best(dec, cands, n + 1, Some(n))
    else Best(dec, cands, n + 1, best)
  }

  /** What decodeDNGPreview returns for the given file contents. */
  function Preview(dec: seq<Byte> -> Option<Image>, data: seq<Byte>): Result<Image, DecodeError>
  {
    var cands := Chunks(data);
    if |cands| == 0 then Err(NoEmbeddedPreview)
    else
      var best := Best(dec, cands, 0, None);
      if best.None? then Err(PreviewUndecodable) else Ok(dec(cands[best.value]).value)
  }

  /** The candidate loop of decodeDNGPreview: the first decodable candidate of largest
      (positive) area, or None. */
  method LargestDecodable(dec: seq<Byte> -> Option<Image>, candidates: seq<seq<Byte>>) returns (best: Option<Image>)
    ensures var b := Best(dec, candidates, 0, None);
            best == if b.None? then None else dec(candidates[b.value])
  {
    best := None;
    var bestArea := 0;
    ghost var bestIdx: Option<nat> := None;
    var n := 0;
    while n < |candidates|
      invariant n <= |candidates|
      invariant bestIdx.Some? ==> bestIdx.value < n && Decodes(dec, candidates, bestIdx.value)
      invariant best == if bestIdx.None? then None else dec(candidates[bestIdx.value])
      invariant bestArea == BestArea(dec, candidates, bestIdx)
      invariant Best(dec, candidates, 0, None) == Best(dec, candidates, n, bestIdx)
    {
      var img := dec(candidates[n]);
      if img.None? {
        n := n + 1;
        continue;
      }
      var area := img.value.width * img.value.height;
      if area > bestArea {
        bestArea := area;
        best := img;
        bestIdx := Some(n);
      }
      n := n + 1;
    }
  }

  /** decodeDNGPreview: decode every embedded stream and keep the first one of largest area. */
  method DecodeDNGPreview(lib: Imaging, data: seq<Byte>) returns (r: Result<Image, DecodeError>)
    ensures r == Preview(lib.decode, data)
  {
    var candidates := ExtractJPEGs(data);
    if |candidates| == 0 {
      return Err(NoEmbeddedPreview);
    }
    var best := LargestDecodable(lib.decode, candidates);
    if best.None? {
      return Err(PreviewUndecodable);
    }
    return Ok(best.value);
  }

  // ---------------------------------------------------------------- preview properties

  /** What holds of the candidates before `n` for a chosen index `best`. */
  predicate ChoiceSoFar(dec: seq<Byte> -> Option<Image>, cands: seq<seq<Byte>>, n: nat, best: Option<nat>)
    requires n <= |cands|
  {
    match best
    case None => forall j :: 0 <= j < n && Decodes(dec, cands, j) ==> Area(dec(cands[j]).value) == 0
    case Some(b) =>
      && b < n && Decodes(dec, cands, b) && Area(dec(cands[b]).value) > 0
      && (forall j :: 0 <= j < n && Decodes(dec, cands, j) ==> Area(dec(cands[j]).value) <= Area(dec(cands[b]).value))
      && (forall j :: 0 <= j < b && Decodes(dec, cands, j) ==> Area(dec(cands[j]).value) < Area(dec(cands[b]).value))
  }

  lemma {:induction false} BestIsFirstLargest(dec: seq<Byte> -> Option<Image>, cands: seq<seq<Byte>>, n: nat, best: Option<nat>)
    requires n <= |cands|
    requires best.Some? ==> best.value < n && Decodes(dec, cands, best.value)
    requires ChoiceSoFar(dec, cands, n, best)
    ensures ChoiceSoFar(dec, cands, |cands|, Best(dec, cands, n, best))
    decreases |cands| - n
  {
    if n < |cands| {
      if dec(cands[n]).None? {
        BestIsFirstLargest(dec, cands, n + 1, best);
      } else if Area(dec(cands[n]).value) > BestArea(dec, cands, best) {
        BestIsFirstLargest(dec, cands, n + 1, Some(n));
      } else {
        BestIsFirstLargest(dec, cands, n + 1, best);
      }
    }
  }

  /** decodeDNGPreview fails with "no preview" exactly when the scan finds no stream, fails
      with "undecodable" exactly when no stream decodes to a non-empty image, and otherwise
      returns the first decodable stream of largest area. */
  lemma PreviewIsFirstLargest(dec: seq<Byte> -> Option<Image>, data: seq<Byte>)
    ensures Preview(dec, data) == Err(NoEmbeddedPreview) <==> |Chunks(data)| == 0
    ensures Preview(dec, data) == Err(PreviewUndecodable) <==> (
      && |Chunks(data)| > 0
      && forall j :: 0 <= j < |Chunks(data)| && Decodes(dec, Chunks(data), j) ==> Area(dec(Chunks(data)[j]).value) == 0)
    ensures Preview(dec, data).Ok? ==> exists k :: (
      && 0 <= k < |Chunks(data)| && Decodes(dec, Chunks(data), k)
      && dec(Chunks(data)[k]).value == Preview(dec, data).value && Area(Preview(dec, data).value) > 0
      && (forall j :: 0 <= j < |Chunks(data)| && Decodes(dec, Chunks(data), j) ==> Area(dec(Chunks(data)[j]).value) <= Area(Preview(dec, data).value))
      && (forall j :: 0 <= j < k && Decodes(dec, Chunks(data), j) ==> Area(dec(Chunks(data)[j]).value) < Area(Preview(dec, data).value)))
  {
    var cands := Chunks(data);
    if |cands| > 0 {
      BestIsFirstLargest(dec, cands, 0, None);
      var b := Best(dec, cands, 0, None);
      if b.Some? {
        assert Decodes(dec, cands, b.value);
      }
    }
  }

  /** The wrapped stream of a DNG file is returned when it decodes to a non-empty image. */
  lemma WrappedPreviewIsDecoded(dec: seq<Byte> -> Option<Image>, prefix: seq<Byte>, jpeg: seq<Byte>, suffix: seq<Byte>, img: Image)
    requires |jpeg| >= 4 && jpeg[0] == 0xFF && jpeg[1] == 0xD8
    requires jpeg[|jpeg| - 2] == 0xFF && jpeg[|jpeg| - 1] == 0xD9
    requires forall k :: 2 <= k < |jpeg| - 2 ==> !(jpeg[k] == 0xFF && jpeg[k + 1] == 0xD9)
    requires forall k :: 0 <= k < |prefix| ==> prefix[k] != 0xFF
    requires forall k :: 0 <= k < |suffix| ==> suffix[k] != 0xFF
    requires dec(jpeg) == Some(img) && Area(img) > 0
    ensures Preview(dec, prefix + jpeg + suffix) == Ok(img)
  {
    WrappedStreamIsFound(prefix, jpeg, suffix);
    var cands := Chunks(prefix + jpeg + suffix);
    assert cands[0] == jpeg;
    assert Best(dec, cands, 0, None) == Best(dec, cands, 1, Some(0));
  }

  // ---------------------------------------------------------------- DecodeImage

  /** The extensions, compared lower-cased, that go straight to the preview path. */
  predicate IsRawName(filename: string)
  {
    ToLower(Ext(filename)) == ".dng" || ToLower(Ext(filename)) == ".raw"
  }

  /** DecodeImage on the bytes already read: DNG/RAW files use the embedded preview only;
      anything else is decoded normally, falling back to an embedded preview, and reports
      the normal decoder's error when both fail. */
  method DecodeImage(lib: Imaging, data: seq<Byte>, filename: string) returns (r: Result<Image, DecodeError>)
    ensures IsRawName(filename) ==> r == Preview(lib.decode, data)
    ensures !IsRawName(filename) && lib.decode(data).Some? ==> r == Ok(lib.decode(data).value)
    ensures !IsRawName(filename) && lib.decode(data).None? && Preview(lib.decode, data).Ok? ==> r == Preview(lib.decode, data)
    ensures !IsRawName(filename) && lib.decode(data).None? && Preview(lib.decode, data).Err? ==> r == Err(DecodeFailed)
  {
    var ext := ToLower(Ext(filename));
    if ext == ".dng" || ext == ".raw" {
      r := DecodeDNGPreview(lib, data);
      return;
    }
    var img := lib.decode(data);
    if img.Some? {
      return Ok(img.value);
    }
    var preview := DecodeDNGPreview(lib, data);
    if preview.Ok? {
      return preview;
    }
    return Err(DecodeFailed);
  }

  /** Only the last extension of a name decides, compared without regard to case. */
  lemma RawExtension(base: string, ext: string)
    requires |ext| > 0 && ext[0] == '.' && '.' !in ext[1..] && '/' !in ext[1..]
    ensures IsRawName(base + ext) <==> ToLower(ext) == ".dng" || ToLower(ext) == ".raw"
  {
    ExtOfSuffix(base, ext);
  }

  /** The upper-case name of a camera file takes the preview path. */
  lemma UpperDngIsRaw(base: string)
    ensures IsRawName(base + ".DNG")
  {
    ExtOfSuffix(base, ".DNG");
    assert ToLower(".DNG") == ".dng";
  }

}
