/**
 * Model of config/config.go: the typed configuration records, the validation that
 * NewProcessor runs once, and the per-request profile resolution.
 * TOML loading and the file-system search for a default config are not modelled.
 */
module Configuration {
  import opened Wrappers
  import opened Strs

  const FormatTypeFixed: string := "fixed"
  const FormatTypeAuto: string := "auto"
  const DefaultJpegQuality: int := 90
  const DefaultAssetsPath: string := "assets"

  datatype Settings = Settings(jpegQuality: int, assetsPath: string)

  /** A profile names its background, watermark and format and may override padding and quality. */
  datatype Profile = Profile(
    backgroundRef: string,
    watermarkRef: string,
    formatRef: string,
    paddingPercent: Option<real>,   // a nil *float64 is None
    borderWidth: int,
    borderColor: string,
    noUpscale: bool,
    jpegQuality: int)

  datatype Format = Format(kind: string, width: int, height: int, fromList: seq<string>, paddingPercent: real)

  datatype Background = Background(kind: string, color: string, blurRadius: real, darken: real)

  datatype Watermark = Watermark(
    font: string,
    size: real,
    color: string,
    opacity: real,
    align: string,
    offsetX: real,
    offsetY: real,
    outline: bool,
    outlineColor: string,
    outlineWidth: real)

  datatype Config = Config(
    settings: Settings,
    backgrounds: map<string, Background>,
    watermarks: map<string, Watermark>,
    formats: map<string, Format>,
    profiles: map<string, Profile>)

  /** The fully dereferenced instruction set of one request; `watermark` is Go's *Watermark. */
  datatype ResolvedProfile = ResolvedProfile(
    name: string,
    background: Background,
    watermark: Option<Watermark>,
    format: Format,
    formatName: string,
    paddingPercent: real,
    borderWidth: int,
    borderColor: string,
    noUpscale: bool,
    jpegQuality: int,
    assetsPath: string)

  datatype FormatProblem =
    | FixedNeedsSize | FixedHasFromList | AutoNeedsFromList | AutoHasSize
    | UnknownFormatType(kind: string) | FormatPaddingOutOfRange

  datatype BackgroundProblem = UnknownBackgroundType(kind: string) | DarkenOutOfRange

  datatype WatermarkProblem = FontRequired | SizeNotPositive | OpacityOutOfRange | OutlineWidthNegative

  datatype ProfileProblem =
    | BackgroundRefRequired | FormatRefRequired
    | BackgroundRefMissing(ref: string) | FormatRefMissing(ref: string) | WatermarkRefMissing(ref: string)
    | ProfileQualityOutOfRange(quality: int) | ProfilePaddingOutOfRange

  /** The errors of this file; the first four are the sentinel errors a caller can test with errors.Is. */
  datatype ConfigError =
    | ProfileNotFound(name: string)
    | FormatNotFound(name: string)
    | BackgroundNotFound(name: string)
    | WatermarkNotFound(name: string)
    | SettingsQualityOutOfRange(quality: int)
    | InvalidFormat(name: string, formatProblem: FormatProblem)
    | UnknownFormatRef(name: string, ref: string)
    | NonFixedFormatRef(name: string, ref: string)
    | InvalidBackground(name: string, backgroundProblem: BackgroundProblem)
    | InvalidWatermark(name: string, watermarkProblem: WatermarkProblem)
    | InvalidProfile(name: string, profileProblem: ProfileProblem)

  /** The normalisation Validate applies to type keywords: trimmed, then lower-cased. */
  function NormalizedKind(kind: string): string
  {
    ToLower(TrimSpace(kind))
  }

  // ---------------------------------------------------------------- declarative validity

  predicate InRange(x: real, lo: real, hi: real)
  {
    lo <= x <= hi
  }

  /** The shape section invariant of a format: fixed has a size and no list, auto the reverse. */
  predicate WellFormedFormat(f: Format)
  {
    && (|| (NormalizedKind(f.kind) == FormatTypeFixed && f.width > 0 && f.height > 0 && f.fromList == [])
        || (NormalizedKind(f.kind) == FormatTypeAuto && f.fromList != [] && f.width == 0 && f.height == 0))
    && InRange(f.paddingPercent, 0.0, 50.0)
  }

  predicate IsBackgroundKind(k: string)
  {
    k == "solid" || k == "blur" || k == "stretch" || k == "average"
  }

  predicate WellFormedBackground(bg: Background)
  {
    IsBackgroundKind(NormalizedKind(bg.kind)) && InRange(bg.darken, 0.0, 1.0)
  }

  predicate WellFormedWatermark(wm: Watermark)
  {
    TrimSpace(wm.font) != "" && wm.size > 0.0 && InRange(wm.opacity, 0.0, 1.0) && wm.outlineWidth >= 0.0
  }

  /** What validateProfile demands of one profile, given the configuration's maps. */
  predicate WellFormedProfile(c: Config, p: Profile)
  {
    && TrimSpace(p.backgroundRef) != "" && TrimSpace(p.formatRef) != ""
    && p.backgroundRef in c.backgrounds && p.formatRef in c.formats
    && (p.watermarkRef != "" ==> p.watermarkRef in c.watermarks)
    && (p.jpegQuality == 0 || 1 <= p.jpegQuality <= 100)
    && (p.paddingPercent.Some? ==> InRange(p.paddingPercent.value, 0.0, 50.0))
  }

  /** `ref` names a format whose normalised type is fixed. */
  predicate NamesFixedFormat(c: Config, ref: string)
  {
    ref in c.formats && NormalizedKind(c.formats[ref].kind) == FormatTypeFixed
  }

  /** The candidates of format `n`, if it is auto, all name formats whose normalised type is fixed. */
  predicate AutoCandidatesFixed(c: Config, n: string)
    requires n in c.formats
  {
    NormalizedKind(c.formats[n].kind) == FormatTypeAuto ==>
      forall k :: 0 <= k < |c.formats[n].fromList| ==> NamesFixedFormat(c, c.formats[n].fromList[k])
  }

  predicate AutoReferencesFixed(c: Config)
  {
    forall n :: n in c.formats ==> AutoCandidatesFixed(c, n)
  }

  predicate FormatsWellFormed(c: Config)
  {
    forall n :: n in c.formats ==> WellFormedFormat(c.formats[n])
  }

  predicate BackgroundsWellFormed(c: Config)
  {
    forall n :: n in c.backgrounds ==> WellFormedBackground(c.backgrounds[n])
  }

  predicate WatermarksWellFormed(c: Config)
  {
    forall n :: n in c.watermarks ==> WellFormedWatermark(c.watermarks[n])
  }

  predicate ProfilesWellFormed(c: Config)
  {
    forall n :: n in c.profiles ==> WellFormedProfile(c, c.profiles[n])
  }

  /** When Validate (applied to an already defaulted configuration) reports no error. */
  predicate ValidConfig(c: Config)
  {
    && 1 <= c.settings.jpegQuality <= 100
    && FormatsWellFormed(c)
    && AutoReferencesFixed(c)
    && BackgroundsWellFormed(c)
    && WatermarksWellFormed(c)
    && ProfilesWellFormed(c)
  }

  // ---------------------------------------------------------------- branch-and-return validators

  /** validateFormat: the first failing check decides the error. */
  function ValidateFormat(name: string, f: Format): (r: Option<ConfigError>)
    ensures r.None? <==> WellFormedFormat(f)
    ensures r.Some? ==> r.value.InvalidFormat? && r.value.name == name
    ensures NormalizedKind(f.kind) != FormatTypeFixed && NormalizedKind(f.kind) != FormatTypeAuto
      ==> r == Some(InvalidFormat(name, UnknownFormatType(f.kind)))
  {
    var k := NormalizedKind(f.kind);
    if k == FormatTypeFixed && (f.width <= 0 || f.height <= 0) then Some(InvalidFormat(name, FixedNeedsSize))
    else if k == FormatTypeFixed && |f.fromList| > 0 then Some(InvalidFormat(name, FixedHasFromList))
    else if k == FormatTypeAuto && |f.fromList| == 0 then Some(InvalidFormat(name, AutoNeedsFromList))
    else if k == FormatTypeAuto && (f.width != 0 || f.height != 0) then Some(InvalidFormat(name, AutoHasSize))
    else if k != FormatTypeFixed && k != FormatTypeAuto then Some(InvalidFormat(name, UnknownFormatType(f.kind)))
    else if f.paddingPercent < 0.0 || f.paddingPercent > 50.0 then Some(InvalidFormat(name, FormatPaddingOutOfRange))
    else None
  }

  /** validateBackground. */
  function ValidateBackground(name: string, bg: Background): (r: Option<ConfigError>)
    ensures r.None? <==> WellFormedBackground(bg)
    ensures !IsBackgroundKind(NormalizedKind(bg.kind)) ==> r == Some(InvalidBackground(name, UnknownBackgroundType(bg.kind)))
    ensures IsBackgroundKind(NormalizedKind(bg.kind)) && r.Some? ==> r == Some(InvalidBackground(name, DarkenOutOfRange))
  {
    if !IsBackgroundKind(NormalizedKind(bg.kind)) then Some(InvalidBackground(name, UnknownBackgroundType(bg.kind)))
    else if bg.darken < 0.0 || bg.darken > 1.0 then Some(InvalidBackground(name, DarkenOutOfRange))
    else None
  }

  /** validateWatermark. */
  function ValidateWatermark(name: string, wm: Watermark): (r: Option<ConfigError>)
    ensures r.None? <==> WellFormedWatermark(wm)
    ensures r.Some? ==> r.value.InvalidWatermark? && r.value.name == name
    ensures TrimSpace(wm.font) == "" ==> r == Some(InvalidWatermark(name, FontRequired))
  {
    if TrimSpace(wm.font) == "" then Some(InvalidWatermark(name, FontRequired))
    else if wm.size <= 0.0 then Some(InvalidWatermark(name, SizeNotPositive))
    else if wm.opacity < 0.0 || wm.opacity > 1.0 then Some(InvalidWatermark(name, OpacityOutOfRange))
    else if wm.outlineWidth < 0.0 then Some(InvalidWatermark(name, OutlineWidthNegative))
    else None
  }

  /** validateProfile: blank references first, then missing ones, then the numeric overrides. */
  function ValidateProfile(c: Config, name: string, p: Profile): (r: Option<ConfigError>)
    ensures r.None? <==> WellFormedProfile(c, p)
    ensures r.Some? ==> r.value.InvalidProfile? && r.value.name == name
    ensures TrimSpace(p.backgroundRef) == "" ==> r == Some(InvalidProfile(name, BackgroundRefRequired))
    ensures p.watermarkRef == "" && r.Some? ==> !r.value.profileProblem.WatermarkRefMissing?
  {
    if TrimSpace(p.backgroundRef) == "" then Some(InvalidProfile(name, BackgroundRefRequired))
    else if TrimSpace(p.formatRef) == "" then Some(InvalidProfile(name, FormatRefRequired))
    else if p.backgroundRef !in c.backgrounds then Some(InvalidProfile(name, BackgroundRefMissing(p.backgroundRef)))
    else if p.formatRef !in c.formats then Some(InvalidProfile(name, FormatRefMissing(p.formatRef)))
    else if p.watermarkRef != "" && p.watermarkRef !in c.watermarks then
      Some(InvalidProfile(name, WatermarkRefMissing(p.watermarkRef)))
    else if p.jpegQuality != 0 && (p.jpegQuality < 1 || p.jpegQuality > 100) then
      Some(InvalidProfile(name, ProfileQualityOutOfRange(p.jpegQuality)))
    else if p.paddingPercent.Some? && (p.paddingPercent.value < 0.0 || p.paddingPercent.value > 50.0) then
      Some(InvalidProfile(name, ProfilePaddingOutOfRange))
    else None
  }

  // ---------------------------------------------------------------- Validate

  /** The settings Validate leaves behind: quality 0 becomes 90; a blank assets path becomes
      "assets", a write that happens only once the quality check has passed. */
  function DefaultedSettings(s: Settings): (d: Settings)
  {
    var q := if s.jpegQuality == 0 then DefaultJpegQuality else s.jpegQuality;
    Settings(q, if 1 <= q <= 100 && TrimSpace(s.assetsPath) == "" then DefaultAssetsPath else s.assetsPath)
  }

  /**
   * Validate. The Go method writes the defaults through its pointer receiver; here the updated
   * copy is returned. Which error is reported first depends on Go's map order, so the
   * contract only says whether one is reported.
   */
  method Validate(c: Config) returns (validated: Config, err: Option<ConfigError>)
    ensures validated == c.(settings := DefaultedSettings(c.settings))
    ensures err.None? <==> ValidConfig(validated)
  {
    var q := c.settings.jpegQuality;
    if q == 0 {
      q := DefaultJpegQuality;
    }
    validated := c.(settings := c.settings.(jpegQuality := q));
    if q < 1 || q > 100 {
      return validated, Some(SettingsQualityOutOfRange(q));
    }
    if TrimSpace(c.settings.assetsPath) == "" {
      validated := validated.(settings := validated.settings.(assetsPath := DefaultAssetsPath));
    }
    err := CheckFormats(validated);
    if err.Some? {
      return;
    }
    err := CheckAutoReferences(validated);
    if err.Some? {
      return;
    }
    err := CheckBackgrounds(validated);
    if err.Some? {
      return;
    }
    err := CheckWatermarks(validated);
    if err.Some? {
      return;
    }
    err := CheckProfiles(validated);
  }

  /** The loop of Validate over the formats map. */
  method CheckFormats(c: Config) returns (err: Option<ConfigError>)
    ensures err.None? <==> FormatsWellFormed(c)
  {
    var todo := c.formats.Keys;
    while todo != {}
      invariant todo <= c.formats.Keys
      invariant forall n :: n in c.formats && n !in todo ==> WellFormedFormat(c.formats[n])
      decreases todo
    {
      var n :| n in todo;
      err := ValidateFormat(n, c.formats[n]);
      if err.Some? {
        return;
      }
      todo := todo - {n};
    }
    return None;
  }

  /** The loop of Validate that checks every auto format's candidates. */
  method CheckAutoReferences(c: Config) returns (err: Option<ConfigError>)
    ensures err.None? <==> AutoReferencesFixed(c)
  {
    var todo := c.formats.Keys;
    while todo != {}
      invariant todo <= c.formats.Keys
      invariant forall n :: n in c.formats && n !in todo ==> AutoCandidatesFixed(c, n)
      decreases todo
    {
      var n :| n in todo;
      err := CheckCandidates(c, n);
      if err.Some? {
        return;
      }
      todo := todo - {n};
    }
    return None;
  }

  /** The inner loop: the candidates of one auto format, in list order. */
  method CheckCandidates(c: Config, n: string) returns (err: Option<ConfigError>)
    requires n in c.formats
    ensures err.None? <==> AutoCandidatesFixed(c, n)
  {
    var format := c.formats[n];
    if NormalizedKind(format.kind) != FormatTypeAuto {
      return None;
    }
    var list := format.fromList;
    var i := 0;
    while i < |list|
      invariant 0 <= i <= |list|
      invariant forall k :: 0 <= k < i ==> NamesFixedFormat(c, list[k])
    {
      err := CheckCandidate(c, n, list[i]);
      if err.Some? {
        return;
      }
      forall k | 0 <= k < i + 1
        ensures NamesFixedFormat(c, list[k])
      {
        if k == i {
          assert NamesFixedFormat(c, list[i]);
        }
      }
      i := i + 1;
    }
    return None;
  }

  /** One candidate `ref` of the auto format `n`: it must name a format, and a fixed one. */
  method CheckCandidate(c: Config, n: string, ref: string) returns (err: Option<ConfigError>)
    ensures err.None? <==> NamesFixedFormat(c, ref)
    ensures ref !in c.formats ==> err == Some(UnknownFormatRef(n, ref))
    ensures ref in c.formats && !NamesFixedFormat(c, ref) ==> err == Some(NonFixedFormatRef(n, ref))
  {
    if ref !in c.formats {
      return Some(UnknownFormatRef(n, ref));
    }
    if NormalizedKind(c.formats[ref].kind) != FormatTypeFixed {
      return Some(NonFixedFormatRef(n, ref));
    }
    return None;
  }

  /** The loop of Validate over the backgrounds map. */
  method CheckBackgrounds(c: Config) returns (err: Option<ConfigError>)
    ensures err.None? <==> BackgroundsWellFormed(c)
  {
    var todo := c.backgrounds.Keys;
    while todo != {}
      invariant todo <= c.backgrounds.Keys
      invariant forall n :: n in c.backgrounds && n !in todo ==> WellFormedBackground(c.backgrounds[n])
      decreases todo
    {
      var n :| n in todo;
      err := ValidateBackground(n, c.backgrounds[n]);
      if err.Some? {
        return;
      }
      todo := todo - {n};
    }
    return None;
  }

  /** The loop of Validate over the watermarks map. */
  method CheckWatermarks(c: Config) returns (err: Option<ConfigError>)
    ensures err.None? <==> WatermarksWellFormed(c)
  {
    var todo := c.watermarks.Keys;
    while todo != {}
      invariant todo <= c.watermarks.Keys
      invariant forall n :: n in c.watermarks && n !in todo ==> WellFormedWatermark(c.watermarks[n])
      decreases todo
    {
      var n :| n in todo;
      err := ValidateWatermark(n, c.watermarks[n]);
      if err.Some? {
        return;
      }
      todo := todo - {n};
    }
    return None;
  }

  /** The loop of Validate over the profiles map. */
  method CheckProfiles(c: Config) returns (err: Option<ConfigError>)
    ensures err.None? <==> ProfilesWellFormed(c)
  {
    var todo := c.profiles.Keys;
    while todo != {}
      invariant todo <= c.profiles.Keys
      invariant forall n :: n in c.profiles && n !in todo ==> WellFormedProfile(c, c.profiles[n])
      decreases todo
    {
      var n :| n in todo;
      err := ValidateProfile(c, n, c.profiles[n]);
      if err.Some? {
        return;
      }
      todo := todo - {n};
    }
    return None;
  }

  // ---------------------------------------------------------------- ResolveProfile

  /** The assets path a resolved profile carries: the trimmed setting, or "assets" when blank. */
  function ResolvedAssetsPath(s: Settings): (p: string)
    ensures p != "" && TrimSpace(p) == p
    ensures TrimSpace(s.assetsPath) != "" ==> p == TrimSpace(s.assetsPath)
  {
    var t := TrimSpace(s.assetsPath);
    if t == "" then
      TrimSpaceOfTrimmed(DefaultAssetsPath);
      DefaultAssetsPath
    else
      TrimSpaceOfTrimmed(t);
      t
  }

  /** ResolveProfile: look every reference up, re-validate it, then merge override-else-default. */
  function ResolveProfile(c: Config, name: string): (r: Result<ResolvedProfile, ConfigError>)
    ensures name !in c.profiles <==> r == Err(ProfileNotFound(name))
    ensures r.Err? && r.error.ProfileNotFound? ==> name !in c.profiles
    ensures r.Ok? ==>
      var p := c.profiles[name];
      && name in c.profiles
      && r.value.name == name
      && p.formatRef in c.formats && r.value.format == c.formats[p.formatRef] && r.value.formatName == p.formatRef
      && WellFormedFormat(r.value.format)
      && p.backgroundRef in c.backgrounds && r.value.background == c.backgrounds[p.backgroundRef]
      && WellFormedBackground(r.value.background)
      && (r.value.watermark.None? <==> p.watermarkRef == "")
      && (r.value.watermark.Some? ==>
            p.watermarkRef in c.watermarks && r.value.watermark.value == c.watermarks[p.watermarkRef]
            && WellFormedWatermark(r.value.watermark.value))
      && r.value.jpegQuality == (if p.jpegQuality != 0 then p.jpegQuality else c.settings.jpegQuality)
      && r.value.paddingPercent == (if p.paddingPercent.Some? then p.paddingPercent.value else r.value.format.paddingPercent)
      && r.value.borderWidth == p.borderWidth && r.value.borderColor == p.borderColor
      && r.value.noUpscale == p.noUpscale
      && r.value.assetsPath == ResolvedAssetsPath(c.settings)
  {
    if name !in c.profiles then Err(ProfileNotFound(name))
    else
      var profile := c.profiles[name];
      if profile.formatRef !in c.formats then Err(FormatNotFound(profile.formatRef))
      else
        var format := c.formats[profile.formatRef];
        var fe := ValidateFormat(profile.formatRef, format);
        if fe.Some? then Err(fe.value)
        else if profile.backgroundRef !in c.backgrounds then Err(BackgroundNotFound(profile.backgroundRef))
        else
          var background := c.backgrounds[profile.backgroundRef];
          var be := ValidateBackground(profile.backgroundRef, background);
          if be.Some? then Err(be.value)
          else if profile.watermarkRef != "" && profile.watermarkRef !in c.watermarks then
            Err(WatermarkNotFound(profile.watermarkRef))
          else
            var we := if profile.watermarkRef != "" then ValidateWatermark(profile.watermarkRef, c.watermarks[profile.watermarkRef]) else None;
            if we.Some? then Err(we.value)
            else
              var watermark := if profile.watermarkRef != "" then Some(c.watermarks[profile.watermarkRef]) else None;
              Ok(ResolvedProfile(
                name := name,
                background := background,
                watermark := watermark,
                format := format,
                formatName := profile.formatRef,
                paddingPercent := if profile.paddingPercent.Some? then profile.paddingPercent.value else format.paddingPercent,
                borderWidth := profile.borderWidth,
                borderColor := profile.borderColor,
                noUpscale := profile.noUpscale,
                jpegQuality := if profile.jpegQuality != 0 then profile.jpegQuality else c.settings.jpegQuality,
                assetsPath := ResolvedAssetsPath(c.settings)))
  }

  // ---------------------------------------------------------------- properties

  /** After validation no auto format can reach another auto format: every candidate is a
      well-formed fixed format with a positive size and no candidate list of its own. */
  lemma ValidNoAutoChains(c: Config, n: string, k: nat)
    requires ValidConfig(c) && n in c.formats
    requires NormalizedKind(c.formats[n].kind) == FormatTypeAuto && k < |c.formats[n].fromList|
    ensures var ref := c.formats[n].fromList[k];
      && ref in c.formats
      && NormalizedKind(c.formats[ref].kind) == FormatTypeFixed
      && c.formats[ref].width > 0 && c.formats[ref].height > 0 && c.formats[ref].fromList == []
  {
    assert AutoCandidatesFixed(c, n);
    var ref := c.formats[n].fromList[k];
    assert NamesFixedFormat(c, ref);
    assert WellFormedFormat(c.formats[ref]);
  }

  /** Every profile of a validated configuration resolves, with quality in 1..100,
      padding in 0..50 and a non-blank assets path. */
  lemma ValidConfigResolves(c: Config, name: string)
    requires ValidConfig(c) && name in c.profiles
    ensures ResolveProfile(c, name).Ok?
    ensures var rp := ResolveProfile(c, name).value;
      && 1 <= rp.jpegQuality <= 100
      && 0.0 <= rp.paddingPercent <= 50.0
      && TrimSpace(rp.assetsPath) != ""
  {
    var p := c.profiles[name];
    assert WellFormedProfile(c, p);
    ReferencesValidate(c, p);
    var r := ResolveProfile(c, name);
    assert r.Ok?;
    assert WellFormedFormat(r.value.format);
  }

  /** The references of a well-formed profile of a validated configuration pass re-validation. */
  lemma ReferencesValidate(c: Config, p: Profile)
    requires ValidConfig(c) && WellFormedProfile(c, p)
    ensures ValidateFormat(p.formatRef, c.formats[p.formatRef]) == None
    ensures ValidateBackground(p.backgroundRef, c.backgrounds[p.backgroundRef]) == None
    ensures p.watermarkRef != "" ==> ValidateWatermark(p.watermarkRef, c.watermarks[p.watermarkRef]) == None
  {
    assert WellFormedFormat(c.formats[p.formatRef]);
    assert WellFormedBackground(c.backgrounds[p.backgroundRef]);
    if p.watermarkRef != "" {
      assert WellFormedWatermark(c.watermarks[p.watermarkRef]);
    }
  }

  /** A zero quality is replaced by 90 before the range check, so Validate accepts it. */
  lemma ZeroQualityDefaults(s: Settings)
    requires s.jpegQuality == 0
    ensures DefaultedSettings(s).jpegQuality == 90
    ensures TrimSpace(s.assetsPath) == "" ==> DefaultedSettings(s).assetsPath == "assets"
  {
  }

  /** A format whose type is " fixed" passes validation: the check trims before comparing. */
  lemma PaddedFixedTypeIsWellFormed(w: int, h: int)
    requires w > 0 && h > 0
    ensures WellFormedFormat(Format(" fixed", w, h, [], 0.0))
  {
    var t := TrimLeft(" fixed");
    assert TrimLeft("fixed") == "fixed";
    assert " fixed"[1..] == "fixed";
    assert TrimRight("fixed") == "fixed";
    assert ToLower("fixed") == "fixed";
  }

  /** config_test.go: an auto format that also carries a width is rejected by Validate. */
  lemma AutoWithSizeIsRejected()
    ensures !ValidConfig(AutoWithSizeConfig())
  {
    var c := AutoWithSizeConfig();
    var f := Format("auto", 100, 0, ["square"], 0.0);
    assert "auto" in c.formats && c.formats["auto"] == f;
    assert TrimLeft("auto") == "auto" && TrimRight("auto") == "auto";
    assert ToLower("auto") == "auto";
    assert NormalizedKind(f.kind) == FormatTypeAuto;
    assert !WellFormedFormat(f);
    assert !FormatsWellFormed(c);
  }

  /** The configuration of config_test.go's TestValidateRejectsAutoWithSize. */
  function AutoWithSizeConfig(): Config
  {
    Config(
      Settings(90, "assets"),
      map["black" := Background("solid", "#000000", 0.0, 0.0)],
      map["standard" := Watermark("roboto.ttf", 12.0, "#ffffff", 1.0, "", 0.0, 0.0, false, "", 0.0)],
      map["auto" := Format("auto", 100, 0, ["square"], 0.0), "square" := Format("fixed", 100, 100, [], 0.0)],
      map["default" := Profile("black", "standard", "auto", None, 0, "", false, 0)])
  }

  /** config_test.go: resolving an unknown profile fails with ErrProfileNotFound. */
  lemma MissingProfileNotFound(c: Config, name: string)
    requires name !in c.profiles
    ensures ResolveProfile(c, name) == Err(ProfileNotFound(name))
  {
  }
}
