/**
 * Model of pkg/instafix/format.go: turning a profile's format into a concrete fixed format,
 * picking, for an auto format, the candidate whose aspect ratio is closest to the source's.
 * Float ratios are exact reals here. A candidate of height 0 has ratio +Inf or NaN in Go;
 * its difference never compares below anything, so it is modelled as "no ratio".
 */
module FormatSelect {
  import opened Wrappers
  import opened Strs
  import opened Configuration

  datatype FormatError =
    | UnknownType(kind: string)
    | EmptyFromList
    | InvalidSourceSize
    | UnknownCandidate(name: string)
    | NonFixedCandidate(name: string)
    | NoValidCandidates

  function Abs(x: real): (a: real)
    ensures a >= 0.0 && (a == x || a == -x)
  {
    if x < 0.0 then -x else x
  }

  /** float64(Width) / float64(Height), or None where Go gets an infinity or NaN. */
  function Ratio(f: Format): (r: Option<real>)
    ensures r.Some? <==> f.height != 0
    ensures r.Some? ==> r.value * (f.height as real) == f.width as real
  {
    if f.height == 0 then None else Some((f.width as real) / (f.height as real))
  }

  /** |srcRatio - ratio| of a candidate, when its ratio is finite. */
  function Diff(f: Format, srcRatio: real): Option<real>
  {
    match Ratio(f)
    case None => None
    case Some(r) => Some(Abs(srcRatio - r))
  }

  /** The candidate at `i` is a known format with lower-cased type "fixed". */
  predicate CandidateOk(formats: map<string, Format>, list: seq<string>, i: nat)
    requires i < |list|
  {
    list[i] in formats && ToLower(formats[list[i]].kind) == FormatTypeFixed
  }

  /** The comparison `diff < bestDiff` of the loop; no best yet plays the role of MaxFloat64. */
  predicate Beats(formats: map<string, Format>, list: seq<string>, srcRatio: real, i: nat, best: Option<nat>)
    requires i < |list| && list[i] in formats
    requires best.Some? ==> best.value < |list| && list[best.value] in formats
  {
    && Diff(formats[list[i]], srcRatio).Some?
    && (best.None? || (Diff(formats[list[best.value]], srcRatio).Some?
                       && Diff(formats[list[i]], srcRatio).value < Diff(formats[list[best.value]], srcRatio).value))
  }

  /** The loop of resolveFormat from position i on: the index of the best candidate, or the first bad one. */
  function Scan(formats: map<string, Format>, list: seq<string>, srcRatio: real, i: nat, best: Option<nat>)
    : (r: Result<Option<nat>, FormatError>)
    requires i <= |list|
    requires best.Some? ==> best.value < i && CandidateOk(formats, list, best.value)
    ensures r.Ok? && r.value.Some? ==> r.value.value < |list| && CandidateOk(formats, list, r.value.value)
    decreases |list| - i
  {
    if i == |list| then Ok(best)
    else if list[i] !in formats then Err(UnknownCandidate(list[i]))
    else if ToLower(formats[list[i]].kind) != FormatTypeFixed then Err(NonFixedCandidate(list[i]))
    else Scan(formats, list, srcRatio, i + 1, if Beats(formats, list, srcRatio, i, best) then Some(i) else best)
  }

  function SourceRatio(srcW: int, srcH: int): real
    requires srcH != 0
  {
    (srcW as real) / (srcH as real)
  }

  /** resolveFormat, as a function of its inputs. */
  function SelectFormat(formats: map<string, Format>, format: Format, srcW: int, srcH: int)
    : (r: Result<Format, FormatError>)
    ensures ToLower(format.kind) == FormatTypeFixed ==> r == Ok(format)
    ensures ToLower(format.kind) != FormatTypeFixed && ToLower(format.kind) != FormatTypeAuto
      ==> r == Err(UnknownType(format.kind))
    ensures ToLower(format.kind) == FormatTypeAuto && format.fromList == [] ==> r == Err(EmptyFromList)
    ensures ToLower(format.kind) == FormatTypeAuto && format.fromList != [] && (srcW <= 0 || srcH <= 0)
      ==> r == Err(InvalidSourceSize)
  {
    var kind := ToLower(format.kind);
    if kind == FormatTypeFixed then Ok(format)
    else if kind != FormatTypeAuto then Err(UnknownType(format.kind))
    else if |format.fromList| == 0 then Err(EmptyFromList)
    else if srcW <= 0 || srcH <= 0 then Err(InvalidSourceSize)
    else
      match Scan(formats, format.fromList, SourceRatio(srcW, srcH), 0, None)
      case Err(e) => Err(e)
      case Ok(None) => Err(NoValidCandidates)
      case Ok(Some(k)) =>
        if format.fromList[k] == "" then Err(NoValidCandidates) else Ok(formats[format.fromList[k]])
  }

  /** resolveFormat: the loop over from_list keeps the name and difference of the best candidate. */
  method ResolveFormat(formats: map<string, Format>, format: Format, srcW: int, srcH: int)
    returns (r: Result<Format, FormatError>)
    ensures r == SelectFormat(formats, format, srcW, srcH)
  {
    if ToLower(format.kind) == FormatTypeFixed {
      return Ok(format);
    }
    if ToLower(format.kind) != FormatTypeAuto {
      return Err(UnknownType(format.kind));
    }
    if |format.fromList| == 0 {
      return Err(EmptyFromList);
    }
    if srcW <= 0 || srcH <= 0 {
      return Err(InvalidSourceSize);
    }
    var list := format.fromList;
    var best := "";
    var bestDiff: Option<real> := None;
    ghost var bestIdx: Option<nat> := None;
    var srcRatio := (srcW as real) / (srcH as real);
    var i := 0;
    while i < |list|
      invariant 0 <= i <= |list|
      invariant bestIdx.Some? ==> bestIdx.value < i && CandidateOk(formats, list, bestIdx.value)
      invariant best == (if bestIdx.Some? then list[bestIdx.value] else "")
      invariant bestDiff == (if bestIdx.Some? then Diff(formats[list[bestIdx.value]], srcRatio) else None)
      invariant bestIdx.Some? ==> bestDiff.Some?
      invariant Scan(formats, list, srcRatio, 0, None) == Scan(formats, list, srcRatio, i, bestIdx)
    {
      var name := list[i];
      if name !in formats {
        return Err(UnknownCandidate(name));
      }
      var candidate := formats[name];
      if ToLower(candidate.kind) != FormatTypeFixed {
        return Err(NonFixedCandidate(name));
      }
      var diff := Diff(candidate, srcRatio);
      if diff.Some? && (bestDiff.None? || diff.value < bestDiff.value) {
        bestDiff := diff;
        best := name;
        bestIdx := Some(i);
      }
      i := i + 1;
    }
    if best == "" {
      return Err(NoValidCandidates);
    }
    return Ok(formats[best]);
  }

  // ---------------------------------------------------------------- properties

  /** The difference of the candidate at j, when it is a known format with a finite ratio. */
  function DiffAt(formats: map<string, Format>, list: seq<string>, srcRatio: real, j: int): Option<real>
  {
    if 0 <= j < |list| && list[j] in formats then Diff(formats[list[j]], srcRatio) else None
  }

  /** Candidate k is the first minimum of the finite differences among list[..upto]. */
  predicate FirstClosest(formats: map<string, Format>, list: seq<string>, srcRatio: real, k: nat, upto: nat)
  {
    && DiffAt(formats, list, srcRatio, k).Some?
    && (forall j :: k != j && 0 <= j < upto && DiffAt(formats, list, srcRatio, j).Some? ==>
          DiffAt(formats, list, srcRatio, k).value <= DiffAt(formats, list, srcRatio, j).value)
    && (forall j :: 0 <= j < k && DiffAt(formats, list, srcRatio, j).Some? ==>
          DiffAt(formats, list, srcRatio, k).value < DiffAt(formats, list, srcRatio, j).value)
  }

  predicate NoneFinite(formats: map<string, Format>, list: seq<string>, srcRatio: real, upto: nat)
  {
    forall j :: 0 <= j < upto ==> DiffAt(formats, list, srcRatio, j).None?
  }

  /** What the scan delivers: success exactly when every candidate is a known fixed format,
      and then the first closest candidate, or none when no candidate has a finite ratio. */
  lemma {:induction false} ScanResult(formats: map<string, Format>, list: seq<string>, srcRatio: real, i: nat, best: Option<nat>)
    requires i <= |list|
    requires best.Some? ==> best.value < i && CandidateOk(formats, list, best.value)
    requires forall j :: 0 <= j < i ==> CandidateOk(formats, list, j)
    requires best.Some? ==> FirstClosest(formats, list, srcRatio, best.value, i)
    requires best.None? ==> NoneFinite(formats, list, srcRatio, i)
    ensures var r := Scan(formats, list, srcRatio, i, best);
      && (r.Ok? <==> forall j :: 0 <= j < |list| ==> CandidateOk(formats, list, j))
      && (r.Ok? && r.value.Some? ==> r.value.value < |list| && FirstClosest(formats, list, srcRatio, r.value.value, |list|))
      && (r.Ok? && r.value.None? ==> NoneFinite(formats, list, srcRatio, |list|))
      && (r.Err? ==> exists j :: i <= j < |list| && !CandidateOk(formats, list, j)
                       && r.error == (if list[j] !in formats then UnknownCandidate(list[j]) else NonFixedCandidate(list[j])))
    decreases |list| - i
  {
    if i < |list| && CandidateOk(formats, list, i) {
      var nb := if Beats(formats, list, srcRatio, i, best) then Some(i) else best;
      if nb.Some? {
        assert FirstClosest(formats, list, srcRatio, nb.value, i + 1);
      }
      ScanResult(formats, list, srcRatio, i + 1, nb);
    }
  }

  /** On success an auto format yields formats[n] for a candidate n with a non-empty name whose
      ratio difference is minimal, and strictly smaller than that of every earlier candidate. */
  lemma SelectFormatClosest(formats: map<string, Format>, format: Format, srcW: int, srcH: int)
    requires ToLower(format.kind) == FormatTypeAuto
    requires SelectFormat(formats, format, srcW, srcH).Ok?
    ensures srcW > 0 && srcH > 0 && format.fromList != []
    ensures forall j :: 0 <= j < |format.fromList| ==> CandidateOk(formats, format.fromList, j)
    ensures exists k :: (0 <= k < |format.fromList| && format.fromList[k] != "" && format.fromList[k] in formats
      && SelectFormat(formats, format, srcW, srcH).value == formats[format.fromList[k]]
      && FirstClosest(formats, format.fromList, SourceRatio(srcW, srcH), k, |format.fromList|))
  {
    ScanResult(formats, format.fromList, SourceRatio(srcW, srcH), 0, None);
  }

  /** A single missing or non-fixed candidate anywhere in the list makes an auto format fail. */
  lemma BadCandidateFails(formats: map<string, Format>, format: Format, srcW: int, srcH: int, j: nat)
    requires ToLower(format.kind) == FormatTypeAuto
    requires j < |format.fromList| && !CandidateOk(formats, format.fromList, j)
    ensures SelectFormat(formats, format, srcW, srcH).Err?
  {
    if srcW > 0 && srcH > 0 {
      ScanResult(formats, format.fromList, SourceRatio(srcW, srcH), 0, None);
    }
  }

  /** A type keyword with surrounding spaces passes Validate but is not lower-cased to "fixed"
      or "auto" here, so selection fails with an unknown-type error. */
  lemma PaddedTypeIsRejected(formats: map<string, Format>, w: int, h: int, srcW: int, srcH: int)
    requires w > 0 && h > 0
    ensures WellFormedFormat(Format(" fixed", w, h, [], 0.0))
    ensures SelectFormat(formats, Format(" fixed", w, h, [], 0.0), srcW, srcH) == Err(UnknownType(" fixed"))
  {
    PaddedFixedTypeIsWellFormed(w, h);
    assert ToLower(" fixed")[0] == ' ';
  }

  /** processor_test.go: a 1000x1250 source picks portrait 1080x1350 among square, portrait, land. */
  lemma PortraitExample()
    ensures SelectFormat(ExampleFormats(), ExampleFormats()["auto"], 1000, 1250)
         == Ok(Format("fixed", 1080, 1350, [], 0.0))
  {
    var fs := ExampleFormats();
    var list := ["square", "portrait", "land"];
    assert ToLower("auto") == "auto" && ToLower("fixed") == "fixed";
    var sr := SourceRatio(1000, 1250);
    assert sr == 0.8;
    assert Diff(fs["square"], sr) == Some(0.2);
    assert Diff(fs["portrait"], sr) == Some(0.0);
    assert Scan(fs, list, sr, 2, Some(1)) == Ok(Some(1));
    assert Scan(fs, list, sr, 1, Some(0)) == Scan(fs, list, sr, 2, Some(1));
    assert Scan(fs, list, sr, 0, None) == Scan(fs, list, sr, 1, Some(0));
  }

  function ExampleFormats(): map<string, Format>
  {
    map[
      "square" := Format("fixed", 1080, 1080, [], 0.0),
      "portrait" := Format("fixed", 1080, 1350, [], 0.0),
      "land" := Format("fixed", 1080, 566, [], 0.0),
      "auto" := Format("auto", 0, 0, ["square", "portrait", "land"], 0.0)]
  }
}
