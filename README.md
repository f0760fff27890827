# instafix in Dafny

instafix turns a photo into a fixed-size, composited picture. A TOML configuration names
formats (fixed sizes, or "auto" lists of fixed sizes), backgrounds (solid, average, stretch,
blur), watermark styles and profiles. A request names a profile and an optional watermark
text. The processor runs these steps:

1. resolve the profile;
2. pick the output format (for "auto", the candidate whose aspect ratio is closest to the photo's);
3. check the watermark request;
4. render: background, optional border, the photo fitted and centred, optional watermark text
   with an outline.

A DNG/RAW upload is decoded through the largest JPEG preview embedded in it.

This project models that decision logic and its geometry, one module per Go file:

| module | file | form |
|---|---|---|
| `Configuration` | `config/config.go` | values and pure validators; `Validate` as a method whose loops walk the maps |
| `FormatSelect` | `pkg/instafix/format.go` | a specification function plus the selection loop as a method |
| `Processor` | `pkg/instafix/processor.go` | the request pipeline as a function, with the same chain as a method |
| `WatermarkAlign` | `pkg/instafix/watermark.go` | pure functions |
| `HexColor` | `pkg/instafix/color.go` | the `fmt.Sscanf`-based parser as a function; the averaging loop as a method |
| `Decode` | `pkg/instafix/decode.go` | the marker scan and the preview choice as loops proved against functions |
| `Render` | `pkg/instafix/render.go` | every drawing step as a method on the canvas, proved against a function giving its draw calls |
| `Stretch` | `pkg/instafix/render.go` | `stretchBackground` painting regions of an `array2` pixel buffer |

Helper modules:

- `Strs` holds the standard-library string functions the code relies on: `strings.TrimSpace`,
  `strings.ToLower`, `strings.Split`, `filepath.Ext` and the UTF-8 byte length behind `len`.
- `Raster` holds colours and images.
- `Graphics` holds the drawing context and the image library.
- `Wrappers` holds `Option` and `Result`.

The image library (`imaging`) is a datatype `Imaging` whose fields are functions with no
definition: decode, resize, fit, fill, blur, crop, compositing and font loading. Every
property proved holds for any library, with one exception: `Render.FittedPhotoInsideCanvas`
assumes the library's fit stays within the box it is given (`Render.FitStaysInBox`). The drawing context (`gg.Context`) is the class
`Graphics.Canvas`. Its field `ops` is the sequence of drawing calls made on it, in order, and
each drawing method appends to it. A rendered picture is therefore its size plus its call log
(`Render.Drawing`).

Floating-point values are `real`. Go's `int(x)` is `Render.Trunc`, which truncates toward
zero.

The 7-character hex form is not strict in the source. `fmt.Sscanf` with `%02x` reads up to
two hex digits and stops at the first other character, and nothing checks what is left. So
"#12345g" is accepted and reads as #123405 (`HexColor.LongFormTrailingNonHex`). Errors are datatypes: each Go `fmt.Errorf` becomes a constructor carrying the names it
mentions.

## Model

| member | source | states |
|---|---|---|
| Configuration.ValidateFormat | config/config.go:291-314 | passes exactly when the trimmed, lower-cased type is fixed with positive size and no from_list, or auto with a from_list and zero size, and padding is in 0..50; any other type is reported as an unknown type under the format's name |
| Configuration.ValidateBackground | config/config.go:316-326 | passes exactly when the trimmed, lower-cased type is solid, blur, stretch or average and darken is in 0..1; an unknown type is reported before darken |
| Configuration.ValidateWatermark | config/config.go:328-342 | passes exactly when the font is non-blank, size > 0, opacity in 0..1 and outline width >= 0; a blank font is the first error |
| Configuration.ValidateProfile | config/config.go:199-224 | passes exactly when background_ref and format_ref are non-blank and present, a non-empty watermark_ref is present, quality is 0 or 1..100 and padding is absent or 0..50; a blank background_ref is the first error; an empty watermark_ref is never the error |
| Configuration.Validate | config/config.go:150-197 | returns the configuration with the settings defaults filled in, and no error exactly when that configuration is valid as a whole |
| Configuration.CheckFormats | config/config.go:161-165 | no error exactly when every format validates |
| Configuration.CheckAutoReferences | config/config.go:166-179 | no error exactly when every auto format's from_list names only existing fixed formats |
| Configuration.CheckCandidates | config/config.go:170-178 | no error exactly when every from_list entry of this auto format names an existing fixed format |
| Configuration.CheckCandidate | config/config.go:171-177 | no error exactly when the reference names an existing fixed format; an unknown reference and a non-fixed one give their own errors |
| Configuration.CheckBackgrounds | config/config.go:180-184 | no error exactly when every background validates |
| Configuration.CheckWatermarks | config/config.go:185-189 | no error exactly when every watermark style validates |
| Configuration.CheckProfiles | config/config.go:190-194 | no error exactly when every profile validates against the configuration |
| Configuration.ResolvedAssetsPath | config/config.go:266-269 | the resolved assets path is never blank and is already trimmed; a non-blank setting is kept trimmed |
| Configuration.ResolveProfile | config/config.go:227-289 | an unknown name, and only that, fails with ProfileNotFound; on success every reference is looked up and validated, the watermark is absent exactly when watermark_ref is empty, and quality and padding are the profile's override or else the settings' and the format's value |
| Configuration.ValidNoAutoChains | config/config.go:166-179 | in a valid configuration every entry of an auto format's from_list names an existing fixed format with positive size and no from_list of its own, so auto formats never chain or cycle |
| Configuration.ValidConfigResolves | config/config.go:227-289 | in a valid configuration every existing profile resolves, with quality in 1..100, padding in 0..50 and a non-blank assets path |
| Configuration.ReferencesValidate | config/config.go:237-256 | for a valid configuration and profile, the formats, backgrounds and watermarks the profile names pass their validators again at resolution time |
| Configuration.ZeroQualityDefaults | config/config.go:151-159 | a zero quality setting becomes 90, and a blank assets path becomes "assets" |
| Configuration.PaddedFixedTypeIsWellFormed | config/config.go:291-296 | the type " fixed" with a positive size passes validation, because the type is trimmed |
| Configuration.AutoWithSizeIsRejected | config/config.go:300-306 | an auto format that also has a width is rejected |
| Configuration.MissingProfileNotFound | config/config.go:228-231 | an unknown profile name resolves to ProfileNotFound with that name |
| FormatSelect.Ratio | pkg/instafix/format.go:36 | a candidate's ratio exists exactly when its height is non-zero, and then ratio * height = width |
| FormatSelect.Scan | pkg/instafix/format.go:28-42 | a chosen candidate index is in range and names an existing fixed format |
| FormatSelect.ScanResult | pkg/instafix/format.go:28-46 | the loop succeeds exactly when every candidate exists and is fixed; its choice is the first candidate at the least ratio distance; otherwise the error names a bad candidate, as unknown or non-fixed |
| FormatSelect.SelectFormat | pkg/instafix/format.go:11-23 | a lower-cased "fixed" format is returned unchanged; a type that is neither fixed nor auto is an unknown type; an auto format with an empty list or a non-positive source size fails |
| FormatSelect.ResolveFormat | pkg/instafix/format.go:11-47 | the loop with best and bestDiff returns what SelectFormat specifies |
| FormatSelect.SelectFormatClosest | pkg/instafix/format.go:36-46 | a successful auto selection had a positive source size and a non-empty list of fixed candidates, and returns formats[n] for a non-empty name n that is the first candidate with the least ratio distance to the source |
| FormatSelect.BadCandidateFails | pkg/instafix/format.go:29-35 | one missing or non-fixed candidate makes the whole selection fail, whatever came before it |
| FormatSelect.PaddedTypeIsRejected | pkg/instafix/format.go:12-17 | " fixed" passes validation but is an unknown type here, because the type is lower-cased without being trimmed |
| FormatSelect.PortraitExample | pkg/instafix/processor_test.go:87-102 | a 1000x1250 photo with square, portrait and landscape candidates gets the 1080x1350 format |
| Processor.NewProcessor | pkg/instafix/processor.go:30-35 | succeeds exactly when the defaulted configuration is valid, and then keeps that defaulted copy |
| Processor.Process | pkg/instafix/processor.go:39-63 | the chain of early returns computes ProcessResult |
| Processor.UserErrorsAreBadRequests | pkg/instafix/processor.go:40-55 | a request fails with a UserError exactly when the profile is unknown, or text is given to a profile without a watermark style after the format was resolved |
| Processor.FormatErrorComesFirst | pkg/instafix/processor.go:48-55 | a format error is returned as is, before the watermark check |
| Processor.EmptyTextNeverFailsOnWatermark | pkg/instafix/processor.go:53-58 | without watermark text a request fails neither for a missing style nor for a font that does not load |
| Processor.SuccessCarriesQualityAndRender | pkg/instafix/processor.go:57-62 | past the checks, the result is the rendered picture with the profile's quality, and a render error is passed on without the UserError wrapper |
| Processor.ProcessedQuality | pkg/instafix/processor.go:40-62 | a successful request resolved its profile, and the quality returned is the resolved quality |
| Processor.ValidatedQualityInRange | pkg/instafix/processor.go:30-62 | a processor built on a valid configuration only returns qualities in 1..100 |
| WatermarkAlign.Horizontal | pkg/instafix/watermark.go:38-48 | the fraction is in {0, 0.5, 1}; it is 0 exactly for left and 1 exactly for right |
| WatermarkAlign.Vertical | pkg/instafix/watermark.go:50-60 | the fraction is in {0, 0.5, 1}; it is 0 exactly for top and 0.5 exactly for center or middle |
| WatermarkAlign.AnchorForAlign | pkg/instafix/watermark.go:5-63 | total; both fractions are in {0, 0.5, 1}, and each fraction fixes the coordinate: offset, middle plus offset, or size minus offset |
| WatermarkAlign.BlankAlignIsBottomCenter | pkg/instafix/watermark.go:8-11 | a blank align means bottom-center: centred at w/2 + offsetX, bottom at h - offsetY |
| WatermarkAlign.BlankAlignWords | pkg/instafix/watermark.go:8-19 | a blank align yields vertical bottom and horizontal center |
| WatermarkAlign.CenterAndBottom | pkg/instafix/watermark.go:45-60 | center gives (w/2 + offsetX, 0.5), and bottom gives (h - offsetY, 1) |
| WatermarkAlign.DefaultAlignSplits | pkg/instafix/watermark.go:10-15 | "bottom-center" splits into bottom and center |
| WatermarkAlign.TwoPartForm | pkg/instafix/watermark.go:15-19 | v-h sets the vertical anchor from v and the horizontal from h |
| WatermarkAlign.JoinedIsNormal | pkg/instafix/watermark.go:8 | trimming and lower-casing leave a lower-case v-h unchanged |
| WatermarkAlign.JoinedIsLower | pkg/instafix/watermark.go:8 | joining two lower-case words with a dash stays lower-case |
| WatermarkAlign.SingleWordForm | pkg/instafix/watermark.go:19-32 | the single-word table: top and bottom keep center horizontally; left and right keep center vertically; center and middle centre both; any other word is the horizontal anchor at the bottom |
| WatermarkAlign.ManyPartsKeepDefaults | pkg/instafix/watermark.go:13-16 | three or more dash-separated parts keep bottom and center |
| WatermarkAlign.LeftRightMirror | pkg/instafix/watermark.go:39-44 | left and right x coordinates are mirror images across the width |
| WatermarkAlign.HorizontalWord | pkg/instafix/watermark.go:24-26 | a lone left or right is centred vertically |
| HexColor.HexValue | pkg/instafix/color.go:34 | a hex digit's value is below 16 |
| HexColor.SkipFrom | pkg/instafix/color.go:34-41 | the scanner skips exactly the run of spaces before a field |
| HexColor.ScanHex | pkg/instafix/color.go:34-41 | a %1x or %02x field reads exactly when a hex digit follows the skipped spaces; it reads one or at most two digits, and its value fits the width |
| HexColor.ScanThree | pkg/instafix/color.go:34-41 | three fields scanned in a row each fit the width |
| HexColor.Expand | pkg/instafix/color.go:38 | d * 17 repeats the digit in both nibbles |
| HexColor.ParseTrimmed | pkg/instafix/color.go:25-48 | empty input and a missing '#' give their own errors; a success is opaque and came from a string of 4 or 7 bytes; any other length is a length error |
| HexColor.Channel | pkg/instafix/color.go:20 | c/255 is in [0,1], and is 0 and 1 exactly at the ends |
| HexColor.HexColorOrWhiteChannels | pkg/instafix/color.go:15-20 | setHexColor's colour keeps the opacity, is white on a parse error and otherwise the parsed channels over 255 |
| HexColor.SetHexColor | pkg/instafix/color.go:12-21 | sets exactly one colour on the canvas, the one HexColorOrWhite gives |
| HexColor.ShortTrimmedIsStrict | pkg/instafix/color.go:32-38 | a 4-byte colour parses only as '#' and three hex digits, each widened by 17 |
| HexColor.ShortFormIsStrict | pkg/instafix/color.go:32-38 | the same, for untrimmed input |
| HexColor.ParseOfTrimmed | pkg/instafix/color.go:24 | input without outer spaces parses the same as its trimmed form |
| HexColor.AsciiLength | pkg/instafix/color.go:31 | len of an ASCII string is its character count |
| HexColor.ShortTrimmedParses | pkg/instafix/color.go:32-38 | #rgb gives r*17, g*17, b*17, opaque |
| HexColor.ShortFormParses | pkg/instafix/color.go:32-38 | the same, through the trimming entry point |
| HexColor.LongTrimmedParses | pkg/instafix/color.go:39-45 | #rrggbb gives the three bytes, opaque |
| HexColor.LongFormParses | pkg/instafix/color.go:39-45 | the same, through the trimming entry point |
| HexColor.ScanDigitPair | pkg/instafix/color.go:41 | a %02x field over two hex digits reads their byte |
| HexColor.ScanLoneDigit | pkg/instafix/color.go:41 | a %02x field followed by a non-digit reads the single digit |
| HexColor.ScanPairAfterSpace | pkg/instafix/color.go:41 | a %02x field skips a leading space before its two digits |
| HexColor.InnerSpaceTrimmed | pkg/instafix/color.go:39-45 | Input shaped like "#a cdef" is accepted and reads a, cd, ef, because Sscanf skips the space |
| HexColor.LongFormSkipsInnerSpace | pkg/instafix/color.go:39-45 | the same, through the trimming entry point |
| HexColor.LongTrimmedTrailingNonHex | pkg/instafix/color.go:39-45 | six characters after '#' whose last is an ASCII non-hex character are accepted: the last field reads the lone fifth digit |
| HexColor.LongFormTrailingNonHex | pkg/instafix/color.go:39-45 | the same through the trimming entry point: "#12345g" reads as #123405, so the long form is not strict |
| HexColor.MalformedIsWhite | pkg/instafix/color.go:15-18 | a colour without a leading '#' falls back to white at the given opacity |
| HexColor.Pick | pkg/instafix/color.go:61 | a channel from RGBA() is below 2^16 |
| HexColor.AverageOf | pkg/instafix/color.go:51-75 | the average is always opaque, and an empty thumbnail gives opaque black |
| HexColor.ModAdd | pkg/instafix/color.go:62-64 | wrapping the uint64 accumulator at every addition equals wrapping the exact sum once |
| HexColor.AverageColor | pkg/instafix/color.go:51-75 | the nested accumulation loop returns AverageOf of the 32x32 thumbnail |
| HexColor.DivBound | pkg/instafix/color.go:68-72 | a sum of at most n*k values divided by n is at most k |
| HexColor.RowSumBound | pkg/instafix/color.go:59-66 | a row of n pixels sums to at most n * 0xFFFF |
| HexColor.GridSumBound | pkg/instafix/color.go:58-66 | m rows sum to at most m * width * 0xFFFF |
| HexColor.AverageIsExact | pkg/instafix/color.go:58-73 | for a thumbnail of at most 2^48 pixels no accumulator wraps, and each channel is (sum / count) >> 8 |
| HexColor.NoWrap | pkg/instafix/color.go:68-72 | under that bound the wrap and the uint8 cast change nothing |
| HexColor.Narrow | pkg/instafix/color.go:70-72 | a 16-bit channel v*257 shifted right by 8 is v again |
| HexColor.UniformRow | pkg/instafix/color.go:60-65 | a row whose channel is constant sums to n times that value |
| HexColor.UniformGrid | pkg/instafix/color.go:59-66 | a grid whose channel is constant sums to rows times width times that value |
| HexColor.UniformChannel | pkg/instafix/color.go:68-72 | a thumbnail whose channel is v everywhere averages to v |
| HexColor.UniformOpaqueAverage | pkg/instafix/color.go:51-75 | a uniformly coloured opaque thumbnail averages to its own colour |
| Decode.FindEOI | pkg/instafix/decode.go:69 | finds the first FF D9 at or after the start, or reports that there is none |
| Decode.ScanStreams | pkg/instafix/decode.go:65-78 | every span the scan finds starts at or after the loop position with FF D8 and ends just past the first FF D9 at or after start + 2, inside the data |
| Decode.ScanOrdered | pkg/instafix/decode.go:77-78 | each span ends before the next begins, because scanning resumes at end |
| Decode.Slices | pkg/instafix/decode.go:77 | each chunk is data[start:end] of its span |
| Decode.ExtractJPEGs | pkg/instafix/decode.go:63-81 | the loop that jumps to end returns Chunks; the end > len(data) guard can never fire |
| Decode.ChunkShape | pkg/instafix/decode.go:66-77 | every chunk is at least 4 bytes, starts with FF D8, ends with FF D9 and holds no earlier FF D9 after the SOI |
| Decode.ChunksInOrder | pkg/instafix/decode.go:77-78 | chunks are in increasing order and do not overlap |
| Decode.ShortInputHasNoChunks | pkg/instafix/decode.go:65 | empty and one-byte input give no chunks |
| Decode.NoEOIHasNoChunks | pkg/instafix/decode.go:69-72 | data without an FF D9 gives no chunks |
| Decode.ScanSkips | pkg/instafix/decode.go:65-68 | bytes other than FF are passed over |
| Decode.FindEOIAt | pkg/instafix/decode.go:69 | the first FF D9 at or after the start is what the search returns |
| Decode.WrappedStreamIsFound | pkg/instafix/decode_test.go:11-34 | one JPEG stream between bytes without FF is extracted exactly |
| Decode.Best | pkg/instafix/decode.go:46-56 | the chosen index names a candidate that decodes |
| Decode.LargestDecodable | pkg/instafix/decode.go:44-56 | the candidate loop with best and bestArea returns the decoded image Best chooses |
| Decode.DecodeDNGPreview | pkg/instafix/decode.go:38-61 | computes Preview for the library's decoder |
| Decode.BestIsFirstLargest | pkg/instafix/decode.go:46-56 | the choice decodes with positive area, larger than every earlier candidate and at least as large as every later one; no choice means no candidate decodes with positive area |
| Decode.PreviewIsFirstLargest | pkg/instafix/decode.go:38-61 | no chunks, and only that, is "no preview"; "undecodable" means every decodable chunk has zero area; a success is the first chunk of largest area |
| Decode.WrappedPreviewIsDecoded | pkg/instafix/decode_test.go:11-34 | a decodable JPEG wrapped in other bytes comes back as exactly its decoded image |
| Decode.DecodeImage | pkg/instafix/decode.go:15-36 | .dng and .raw in any case use only the preview; other names decode normally, then try the preview, and fail only when both fail |
| Decode.RawExtension | pkg/instafix/decode.go:21-24 | only the last extension decides, compared lower-cased |
| Decode.UpperDngIsRaw | pkg/instafix/decode.go:21-24 | ".DNG" takes the preview path |
| Strs.TrimLeft | config/config.go:157 | removes exactly the leading white space |
| Strs.TrimRight | config/config.go:157 | removes exactly the trailing white space |
| Strs.TrimSpace | config/config.go:157 | the result has no outer white space, and is empty exactly for blank input |
| Strs.TrimSpaceOfTrimmed | config/config.go:266 | trimming a trimmed string changes nothing |
| Strs.ToLower | pkg/instafix/watermark.go:8 | maps each character, lowering exactly the ASCII capitals |
| Strs.ToLowerOfLower | pkg/instafix/watermark.go:8 | lower-casing a lower-case string changes nothing |
| Strs.SplitCount | pkg/instafix/watermark.go:15-16 | splitting gives one more part than there are separators, and no part holds a separator |
| Strs.SplitJoin | pkg/instafix/watermark.go:15 | joining the parts with the separator gives back the string |
| Strs.SplitNoSep | pkg/instafix/watermark.go:19 | a string without a separator is its only part |
| Strs.SplitPair | pkg/instafix/watermark.go:16-18 | a-b splits into a and b |
| Strs.Ext | pkg/instafix/decode.go:21 | the extension is a suffix that is empty or a dot followed by no dot and no slash |
| Strs.ExtOfSuffix | pkg/instafix/decode.go:21 | a name ending in such a suffix has that suffix as its extension |
| Strs.Utf8Len | pkg/instafix/color.go:31 | len counts at least one byte per character |
| Strs.Utf8LenAscii | pkg/instafix/color.go:31 | len equals the character count exactly for ASCII strings |
| Raster.Premultiply | pkg/instafix/color.go:61 | an opaque 8-bit channel becomes v * 257 in 16 bits |
| Raster.RGBA | pkg/instafix/color.go:61 | RGBA() widens alpha to a * 257 |
| Raster.At | pkg/instafix/render.go:166-167 | a pixel outside the bounds is transparent |
| Graphics.Canvas.LoadFont | pkg/instafix/render.go:125 | loading a font succeeds as the library says, and only a successful load changes the canvas |
| Render.Trunc | pkg/instafix/render.go:28 | int(x) truncates toward zero |
| Render.Avail | pkg/instafix/render.go:84-92 | the space left after padding is at least 1 |
| Render.AvailAtMostCanvas | pkg/instafix/render.go:84-92 | padding never enlarges the available space beyond the canvas |
| Render.RatioAbove1Means | pkg/instafix/render.go:96-99 | scale > 1 means the photo is smaller than the space in that direction |
| Render.FitImage | pkg/instafix/render.go:80-108 | the photo is kept as is when asked not to upscale and it is smaller than the space, and otherwise fitted into the truncated space; it is centred on the canvas in both directions |
| Render.NoUpscaleKeepsOnlySmallPhotos | pkg/instafix/render.go:96-103 | the photo is kept unscaled exactly when noUpscale is set and it is smaller than the space in both directions |
| Render.NegativePaddingIsNone | pkg/instafix/render.go:84 | a negative padding acts as 0 |
| Render.FittedPhotoInsideCanvas | pkg/instafix/render.go:80-108 | when the library's fit stays in its box, the fitted photo and its truncated offsets lie inside the canvas |
| Render.BorderOps | pkg/instafix/render.go:110-118 | no border for a non-positive width; otherwise set the colour, the rectangle grown by the width on every side, and fill |
| Render.DrawBorder | pkg/instafix/render.go:110-118 | the canvas receives exactly BorderOps |
| Render.BackgroundOps | pkg/instafix/render.go:46-78 | a background is at most four calls, and every colour it sets has an opacity in (0, 1] |
| Render.DrawBackground | pkg/instafix/render.go:46-78 | the canvas receives exactly BackgroundOps for the type lower-cased |
| Render.BackgroundKindIsCaseInsensitiveOnly | pkg/instafix/render.go:47-49 | "SOLID" is solid, but " solid" falls to the default and clears to black, because the type is lower-cased without being trimmed |
| Render.SolidBackgroundClearsToHexOrWhite | pkg/instafix/render.go:48-50 | solid sets one opaque colour and clears: the parsed hex colour's channels, or white when the colour does not parse |
| Render.UnknownBackgroundClearsBlack | pkg/instafix/render.go:74-76 | any lower-cased type other than solid, average, stretch and blur clears the canvas to opaque black |
| Render.StretchBackgroundDrawsOnceOrNothing | pkg/instafix/render.go:55-60 | stretch draws one full-canvas image at (0,0), or nothing exactly when the stretch fails |
| Render.BlurDarkenIsCapped | pkg/instafix/render.go:61-73 | blur draws the blurred fill first; darken adds a black overlay only when positive, with opacity capped at 1 |
| Render.PathJoin | pkg/instafix/render.go:123 | joining with an empty part gives the other part, and two parts are joined with a slash |
| Render.FontPath | pkg/instafix/render.go:121-124 | an absolute font path is kept; a relative one is joined to the assets path |
| Render.OutlineRadius | pkg/instafix/render.go:132-135 | outline width 0 becomes 2, and any other value is kept |
| Render.Steps | pkg/instafix/render.go:137-138 | the number of offsets -w, -w+1, ... up to w |
| Render.DrawOutline | pkg/instafix/render.go:137-144 | the nested loop draws GridStamps |
| Render.DrawOutlineRow | pkg/instafix/render.go:138-143 | the inner loop draws RowStamps |
| Render.DrawOutlineIfAsked | pkg/instafix/render.go:131-145 | draws the outline colour and the stamps only when an outline is asked for |
| Render.DrawText | pkg/instafix/render.go:131-148 | draws the outline, then the text itself |
| Render.DrawColoredString | pkg/instafix/render.go:147-148 | sets the text colour and then draws the text once at the anchor |
| Render.DrawWatermark | pkg/instafix/render.go:120-150 | fails, leaving the canvas untouched, exactly when the font does not load, and otherwise draws WatermarkOps |
| Render.DrawFramed | pkg/instafix/render.go:27-35 | draws background, border and photo as FramedOps |
| Render.RenderImage | pkg/instafix/render.go:18-44 | computes RenderSpec |
| Render.RenderErrors | pkg/instafix/render.go:19-41 | a non-positive target size, and only that, is rejected up front; without a watermark nothing else fails; a font error names the font path that did not load; a picture has the format's size |
| Render.FramedStepOrder | pkg/instafix/render.go:27-35 | background calls first, then the three border calls when the width is positive, and last the photo at the truncated offsets |
| Render.RenderStepOrder | pkg/instafix/render.go:18-44 | the framed picture's calls come first, and the watermark's calls follow exactly when text and a style are present |
| Render.OffsetsWithinRadius | pkg/instafix/render.go:137-138 | every loop offset lies in [-w, w] |
| Render.RowStampsMembers | pkg/instafix/render.go:138-143 | a row's calls are exactly the stamps at its offsets |
| Render.GridStampsMembers | pkg/instafix/render.go:137-144 | the grid's calls are exactly the stamps at its pairs of offsets |
| Render.OutlineIsDiscLattice | pkg/instafix/render.go:137-144 | the outline draws exactly the lattice points strictly inside the disc of radius w, and nothing outside it |
| Render.StampMember | pkg/instafix/render.go:139-142 | a stamp is drawn exactly when dx^2 + dy^2 < w^2, at the anchor shifted by (dx, dy) |
| Render.TextCallOrder | pkg/instafix/render.go:131-148 | the text is drawn last, once, at the true anchor in the text colour; with an outline, the outline colour and the stamps come first |
| Render.WatermarkCallOrder | pkg/instafix/render.go:125-148 | the font is loaded first, and the text is placed by anchorForAlign on the canvas size |
| Render.DefaultOutlineHasNineStamps | pkg/instafix/render.go:133-144 | the default radius 2 draws 9 stamps |
| Render.RadiusTwoRow | pkg/instafix/render.go:138-143 | for radius 2, a row draws a stamp at each dx in -2..2 whose dx^2 + dy^2 is below 4 |
| Stretch.ColorToNRGBA | pkg/instafix/render.go:220-228 | keeps alpha, is the identity on opaque colours and maps fully transparent colours to transparent |
| Stretch.MakeRect | pkg/instafix/render.go:173 | image.Rect puts its corners in order, and keeps ordered ones |
| Stretch.Apply | pkg/instafix/render.go:171-201 | a layer leaves pixels outside its rectangle unchanged |
| Stretch.AllStages | pkg/instafix/render.go:170-201 | painting the ten stages in order gives the planned pixel |
| Stretch.EdgeRowOf | pkg/instafix/render.go:163-168 | topRow and bottomRow hold the edge sample's first and last rows |
| Stretch.Draw | pkg/instafix/render.go:171-195 | draw.Draw changes each buffer pixel as its layer says |
| Stretch.FillRect | pkg/instafix/render.go:230-235 | a uniform fill of the rectangle, and no change at all for an empty rectangle |
| Stretch.Snapshot | pkg/instafix/render.go:203 | the returned image has the buffer's size and pixels |
| Stretch.DrawStage | pkg/instafix/render.go:171-195 | drawing a region advances the buffer by one stage |
| Stretch.FillStage | pkg/instafix/render.go:198-201 | filling a corner advances the buffer by one stage |
| Stretch.SkippedStage | pkg/instafix/render.go:175-196 | a strip with no gap is skipped without changing the result |
| Stretch.PaintLayers | pkg/instafix/render.go:170-201 | the ten drawing steps leave every pixel as planned |
| Stretch.StretchBackground | pkg/instafix/render.go:152-204 | a non-positive canvas size and an empty fitted photo give their own errors; otherwise the result is the planned image of the canvas size |
| Stretch.StretchShowsPhoto | pkg/instafix/render.go:173 | inside the photo rectangle a pixel is the fitted pixel composited over black |
| Stretch.StretchShowsSideEdges | pkg/instafix/render.go:175-185 | left of the photo a pixel repeats the photo's first column in its row; right of it, the last column |
| Stretch.StretchShowsTopBottomEdges | pkg/instafix/render.go:186-196 | above the photo a pixel repeats the photo's first row in its column; below it, the last row |
| Stretch.StretchShowsCorners | pkg/instafix/render.go:198-201 | the four corners are flat, taking topRow[0], topRow[fitW-1], bottomRow[0] and bottomRow[fitW-1] from the edge sample |
| Stretch.CornerColorsFlat | pkg/instafix/render.go:206-218 | the first colour is a corner of topRow or bottomRow, and the second a corner of leftCol or rightCol |
| Stretch.CornerColorsAgree | pkg/instafix/render.go:206-218 | the corner colour cornerColorsFlat picks is the colour stretchBackground paints at that pixel |

## Left out

- Loading the configuration is not part of this model: `Load`, `LoadDefault`, `FindDefaultPath`, `fileExists` and TOML decoding. It is file-system and environment input.
- The command line (`cmd/cli`) and the HTTP service (`cmd/service`) are not part of this model. They are I/O plumbing around `DecodeImage` and `Process`.
- `io.ReadAll` in `DecodeImage` is left out. `Decode.DecodeImage` takes the bytes already read, so the read error path is not modelled.
- The image library is modelled by uninterpreted functions: `imaging.Decode` with auto-orientation, `Resize`, `Fit`, `Fill`, `Blur` and `Crop`, and `draw.Over` compositing. No resampling or blurring is modelled.
- Stretch: the nearest-neighbour resize of a one-pixel strip is taken to repeat that strip exactly. The side strips therefore copy the photo's edge pixels and do not resample them.
- Font rasterisation and `dc.Image()` are left out. A rendered picture is its size plus the sequence of drawing calls made on the context, not pixels.
- Floating point: ratios, padding, offsets, anchors and opacities are `real`. Rounding and NaN/Inf are not modelled, and a zero-height candidate has no ratio, so it is never chosen.
- Render.DrawOutline: the real-valued loop counters always terminate (`Render.Steps`). Go's `dy++` and `dx++` on `float64` stop changing the value once it reaches 2^53, so a huge outline width loops forever in the source. Validation accepts any width >= 0, and a large width already means about 4w² text stamps. Neither cost is visible in the model.
- Strs.Ext: follows the Unix rules of `filepath.Ext` only, with '/' as the one separator. `Strs.IsAbs` and `Render.FontPath` are Unix-only too: in Go on Windows, `\` is also a separator and paths such as `C:\x` are absolute.
- Strs.ToLower: lowers ASCII letters only. Go's `strings.ToLower` also maps non-ASCII letters. Every keyword compared against is ASCII; an input whose non-ASCII letters Go would lower to ASCII ones is the difference.
- Render.PathJoin: joins with a single slash and does not apply `filepath.Clean` (doubled slashes, dot and dot-dot segments).
- Configuration.Validate: picks each next key with `:|`, so the key order within each map is unspecified, like Go's map range. Only the order of the five passes is fixed. The contract states whether an error is reported, not which one when several are present. The validated copy is returned as a value rather than written through the pointer receiver.
- HexColor.AverageColor: does not model a pixel count `w * h` that overflows `int`. With a 32x32 thumbnail this cannot happen. The uint64 accumulators are kept as exact sums and wrapped where they are read, which `HexColor.ModAdd` shows is the same value.
- Decode.DecodeImage: when both decodes fail it returns `DecodeFailed`, not the library's own error value, because the library's errors are abstract.
- `UserError`'s `Error` and `Unwrap` methods are not modelled separately. `Processor.ProcessError` carries the wrapped failure directly, which is what `errors.Is` inspects.
- Error message texts (`fmt.Errorf` strings) are left out. Each error is a datatype constructor holding the names it reports.
