/**
 * Model of pkg/instafix/processor.go: a processor holds a validated configuration and runs one
 * request through profile resolution, format selection, the watermark check and rendering,
 * in that order, deciding which failures are the caller's fault (UserError).
 */
module Processor {
  import opened Wrappers
  import opened Raster
  import opened Graphics
  import opened Configuration
  import opened FormatSelect
  import opened Render

  /** The underlying failure of a request. */
  datatype Failure =
    | ConfigFailure(configError: ConfigError)
    | FormatFailure(formatError: FormatError)
    | MissingWatermarkStyle      // "watermark text provided, but profile has no watermark_ref"
    | RenderFailure(renderError: RenderError)

  /** What Process returns on failure: a UserError wrapping the failure, or the failure as it is. */
  datatype ProcessError = UserError(err: Failure) | Failed(err: Failure)

  /** A successful request: the rendered image and the JPEG quality to encode it with. */
  datatype Processed = Processed(image: Drawing, quality: int)

  /** The processor; its configuration is set once, by NewProcessor, and never changed. */
  datatype Processor = Processor(cfg: Config)

  /** NewProcessor: validate (filling in the settings defaults) and keep the validated copy. */
  method NewProcessor(cfg: Config) returns (r: Result<Processor, ConfigError>)
    ensures r.Ok? <==> ValidConfig(cfg.(settings := DefaultedSettings(cfg.settings)))
    ensures r.Ok? ==> r.value.cfg == cfg.(settings := DefaultedSettings(cfg.settings))
  {
    var validated, err := Validate(cfg);
    if err.Some? {
      return Err(err.value);
    }
    return Ok(Processor(validated));
  }

  /** Process, as a function of the processor, the image library and the request. */
  function ProcessResult(lib: Imaging, p: Processor, src: Image, profileName: string, watermarkText: string)
    : Result<Processed, ProcessError>
  {
    match ResolveProfile(p.cfg, profileName)
    case Err(e) => if e.ProfileNotFound? then Err(UserError(ConfigFailure(e))) else Err(Failed(ConfigFailure(e)))
    case Ok(resolved) =>
      match SelectFormat(p.cfg.formats, resolved.format, src.width, src.height)
      case Err(fe) => Err(Failed(FormatFailure(fe)))
      case Ok(format) =>
        if watermarkText != "" && resolved.watermark.None? then Err(UserError(MissingWatermarkStyle))
        else
          match RenderSpec(lib, src, resolved, format, watermarkText)
          case Err(re) => Err(Failed(RenderFailure(re)))
          case Ok(image) => Ok(Processed(image, resolved.jpegQuality))
  }

  /** Process: a chain of steps, each returning early on failure. */
  method Process(lib: Imaging, p: Processor, src: Image, profileName: string, watermarkText: string)
    returns (r: Result<Processed, ProcessError>)
    ensures r == ProcessResult(lib, p, src, profileName, watermarkText)
  {
    var resolved := ResolveProfile(p.cfg, profileName);
    if resolved.Err? {
      if resolved.error.ProfileNotFound? {
        return Err(UserError(ConfigFailure(resolved.error)));
      }
      return Err(Failed(ConfigFailure(resolved.error)));
    }
    var format := ResolveFormat(p.cfg.formats, resolved.value.format, src.width, src.height);
    if format.Err? {
      return Err(Failed(FormatFailure(format.error)));
    }
    if watermarkText != "" && resolved.value.watermark.None? {
      return Err(UserError(MissingWatermarkStyle));
    }
    var result := RenderImage(lib, src, resolved.value, format.value, watermarkText);
    if result.Err? {
      return Err(Failed(RenderFailure(result.error)));
    }
    return Ok(Processed(result.value, resolved.value.jpegQuality));
  }

  // ---------------------------------------------------------------- properties

  /** A request fails as the caller's fault exactly when the profile is unknown, or when it asks
      for a watermark text that the profile has no style for (and the format was resolved). */
  lemma UserErrorsAreBadRequests(lib: Imaging, p: Processor, src: Image, profileName: string, watermarkText: string)
    ensures var r := ProcessResult(lib, p, src, profileName, watermarkText);
            (r.Err? && r.error.UserError?)
            <==> (|| profileName !in p.cfg.profiles
                  || (&& ResolveProfile(p.cfg, profileName).Ok?
                      && SelectFormat(p.cfg.formats, ResolveProfile(p.cfg, profileName).value.format, src.width, src.height).Ok?
                      && watermarkText != "" && ResolveProfile(p.cfg, profileName).value.watermark.None?))
  {
    var r := ProcessResult(lib, p, src, profileName, watermarkText);
    var resolved := ResolveProfile(p.cfg, profileName);
    if resolved.Err? {
      assert r.error.UserError? <==> resolved.error.ProfileNotFound?;
    } else {
      var format := SelectFormat(p.cfg.formats, resolved.value.format, src.width, src.height);
      if format.Err? {
        assert r == Err(Failed(FormatFailure(format.error)));
      } else if watermarkText != "" && resolved.value.watermark.None? {
        assert r == Err(UserError(MissingWatermarkStyle));
      } else {
        var rendered := RenderSpec(lib, src, resolved.value, format.value, watermarkText);
        if rendered.Err? {
          assert r == Err(Failed(RenderFailure(rendered.error)));
        } else {
          assert r.Ok?;
        }
      }
    }
  }

  /** The format is resolved before the watermark check, so a format error wins over a missing
      watermark style. */
  lemma FormatErrorComesFirst(lib: Imaging, p: Processor, src: Image, profileName: string, watermarkText: string)
    requires ResolveProfile(p.cfg, profileName).Ok?
    requires SelectFormat(p.cfg.formats, ResolveProfile(p.cfg, profileName).value.format, src.width, src.height).Err?
    ensures ProcessResult(lib, p, src, profileName, watermarkText)
         == Err(Failed(FormatFailure(
              SelectFormat(p.cfg.formats, ResolveProfile(p.cfg, profileName).value.format, src.width, src.height).error)))
  {
  }

  /** Without watermark text a request never fails for a watermark reason: neither a missing
      style nor a font that does not load. */
  lemma EmptyTextNeverFailsOnWatermark(lib: Imaging, p: Processor, src: Image, profileName: string)
    ensures var r := ProcessResult(lib, p, src, profileName, "");
            && r != Err(UserError(MissingWatermarkStyle))
            && !(r.Err? && r.error.err.RenderFailure? && r.error.err.renderError.FontLoadFailed?)
  {
    var r := ProcessResult(lib, p, src, profileName, "");
    var resolved := ResolveProfile(p.cfg, profileName);
    if resolved.Err? {
      assert r.error.err == ConfigFailure(resolved.error);
    } else {
      var format := SelectFormat(p.cfg.formats, resolved.value.format, src.width, src.height);
      if format.Err? {
        assert r == Err(Failed(FormatFailure(format.error)));
      } else {
        var rendered := RenderSpec(lib, src, resolved.value, format.value, "");
        RenderErrors(lib, src, resolved.value, format.value, "");
        if rendered.Err? {
          assert rendered.error == BadTargetSize(format.value.width, format.value.height);
          assert r == Err(Failed(RenderFailure(rendered.error)));
        } else {
          assert r.Ok?;
        }
      }
    }
  }

  /** Once the checks pass, the image is renderImage's and the quality the resolved profile's; a
      render error is passed on unwrapped, not as a UserError. */
  lemma SuccessCarriesQualityAndRender(lib: Imaging, p: Processor, src: Image, profileName: string, watermarkText: string)
    requires ResolveProfile(p.cfg, profileName).Ok?
    requires SelectFormat(p.cfg.formats, ResolveProfile(p.cfg, profileName).value.format, src.width, src.height).Ok?
    requires watermarkText == "" || ResolveProfile(p.cfg, profileName).value.watermark.Some?
    ensures var resolved := ResolveProfile(p.cfg, profileName).value;
            var format := SelectFormat(p.cfg.formats, resolved.format, src.width, src.height).value;
            var rendered := RenderSpec(lib, src, resolved, format, watermarkText);
            var r := ProcessResult(lib, p, src, profileName, watermarkText);
            && (rendered.Ok? ==> r == Ok(Processed(rendered.value, resolved.jpegQuality)))
            && (rendered.Err? ==> r == Err(Failed(RenderFailure(rendered.error))))
  {
  }

  /** A successful request resolved its profile, and its quality is that profile's. */
  lemma ProcessedQuality(lib: Imaging, p: Processor, src: Image, profileName: string, watermarkText: string)
    ensures var r := ProcessResult(lib, p, src, profileName, watermarkText);
            r.Ok? ==>
              && ResolveProfile(p.cfg, profileName).Ok?
              && r.value.quality == ResolveProfile(p.cfg, profileName).value.jpegQuality
  {
    var r := ProcessResult(lib, p, src, profileName, watermarkText);
    var resolved := ResolveProfile(p.cfg, profileName);
    if resolved.Ok? {
      var format := SelectFormat(p.cfg.formats, resolved.value.format, src.width, src.height);
      if format.Ok? && !(watermarkText != "" && resolved.value.watermark.None?) {
        var rendered := RenderSpec(lib, src, resolved.value, format.value, watermarkText);
        if rendered.Ok? {
          assert r == Ok(Processed(rendered.value, resolved.value.jpegQuality));
        } else {
          assert r.Err?;
        }
      } else {
        assert r.Err?;
      }
    } else {
      assert r.Err?;
    }
  }

  /** A processor over a validated configuration, as NewProcessor makes, only ever returns a JPEG
      quality in 1..100. */
  lemma ValidatedQualityInRange(lib: Imaging, c: Config, src: Image, profileName: string, watermarkText: string)
    requires ValidConfig(c)
    ensures var r := ProcessResult(lib, Processor(c), src, profileName, watermarkText);
            r.Ok? ==> 1 <= r.value.quality <= 100
  {
    ProcessedQuality(lib, Processor(c), src, profileName, watermarkText);
    if profileName in c.profiles {
      ValidConfigResolves(c, profileName);
    }
  }
}
