/**
 * Model of pkg/instafix/render.go apart from the stretch buffer: fitting the photo into the
 * padded canvas, the background, border and watermark draws on the gg context, and the order
 * in which renderImage makes them. Drawing is recorded as the sequence of context calls.
 */
module Render {
  import opened Wrappers
  import opened Strs
  import opened Raster
  import opened Graphics
  import opened Configuration
  import opened WatermarkAlign
  import opened HexColor
  import opened Stretch

  // ---------------------------------------------------------------- fitImage

  /** Go's int(x) on a float64: truncation toward zero. */
  function Trunc(x: real): (r: int)
    ensures 0.0 <= x ==> 0 <= r && r as real <= x < r as real + 1.0
    ensures x < 0.0 ==> r <= 0 && x <= r as real < x + 1.0
  {
    if x >= 0.0 then x.Floor else -((-x).Floor)
  }

  /** The room left for the photo along one side: padding is clamped to at least 0, taken off
      both ends as a percentage, and the result is never below one pixel. */
  function Avail(canvas: int, padding: real): (a: real)
    ensures a >= 1.0
  {
    var p := if padding > 0.0 then padding else 0.0;
    var room := canvas as real * (1.0 - (p * 2.0 / 100.0));
    if room < 1.0 then 1.0 else room
  }

  /** availW / srcW > 1, a zero source side dividing to +Inf. */
  predicate RatioAbove1(avail: real, size: nat)
  {
    size == 0 || avail / size as real > 1.0
  }

  /** With noUpscale the source is kept as it is when math.Min of the two ratios exceeds 1. */
  predicate KeepsSource(src: Image, availW: real, availH: real, noUpscale: bool)
  {
    noUpscale && RatioAbove1(availW, src.width) && RatioAbove1(availH, src.height)
  }

  /** The photo to draw and its top-left position on the canvas. */
  datatype Fitted = Fitted(img: Image, x: real, y: real)

  /** fitImage: the source unscaled, or imaging.Fit into the available box, centred. */
  function FitImage(lib: Imaging, src: Image, targetW: int, targetH: int, padding: real, noUpscale: bool): (f: Fitted)
    ensures KeepsSource(src, Avail(targetW, padding), Avail(targetH, padding), noUpscale) ==> f.img == src
    ensures !KeepsSource(src, Avail(targetW, padding), Avail(targetH, padding), noUpscale) ==>
      f.img == lib.fit(src, Avail(targetW, padding).Floor, Avail(targetH, padding).Floor)
    ensures f.x * 2.0 + f.img.width as real == targetW as real
    ensures f.y * 2.0 + f.img.height as real == targetH as real
  {
    var availW, availH := Avail(targetW, padding), Avail(targetH, padding);
    var img := if KeepsSource(src, availW, availH, noUpscale) then src
               else lib.fit(src, Trunc(availW), Trunc(availH));
    Fitted(img, (targetW as real - img.width as real) / 2.0, (targetH as real - img.height as real) / 2.0)
  }

  /** imaging.Fit only ever shrinks into the box it is given. */
  ghost predicate FitStaysInBox(lib: Imaging)
  {
    forall img: Image, w: int, h: int {:trigger lib.fit(img, w, h)} ::
      w >= 1 && h >= 1 ==> lib.fit(img, w, h).width <= w && lib.fit(img, w, h).height <= h
  }

  lemma AvailAtMostCanvas(canvas: int, padding: real)
    requires canvas >= 1
    ensures Avail(canvas, padding) <= canvas as real
  {
    var p := if padding > 0.0 then padding else 0.0;
    var c := canvas as real;
    assert c * (1.0 - (p * 2.0 / 100.0)) == c - c * (p * 2.0 / 100.0);
    assert c * (p * 2.0 / 100.0) >= 0.0;
  }

  lemma RatioAbove1Means(avail: real, size: nat)
    requires size > 0 && avail > 0.0
    ensures RatioAbove1(avail, size) <==> (size as real) < avail
  {
    var s := size as real;
    assert avail == (avail / s) * s;
    if avail / s > 1.0 {
      assert (avail / s) * s > 1.0 * s;
    } else {
      assert (avail / s) * s <= 1.0 * s;
    }
  }

  /** The photo always lies inside the canvas, on the float grid and after int() truncation. */
  lemma FittedPhotoInsideCanvas(lib: Imaging, src: Image, targetW: int, targetH: int, padding: real, noUpscale: bool)
    requires targetW >= 1 && targetH >= 1 && FitStaysInBox(lib)
    ensures var f := FitImage(lib, src, targetW, targetH, padding, noUpscale);
      && 0.0 <= f.x && f.x + f.img.width as real <= targetW as real
      && 0.0 <= f.y && f.y + f.img.height as real <= targetH as real
      && 0 <= Trunc(f.x) && Trunc(f.x) + f.img.width <= targetW
      && 0 <= Trunc(f.y) && Trunc(f.y) + f.img.height <= targetH
  {
    var availW, availH := Avail(targetW, padding), Avail(targetH, padding);
    AvailAtMostCanvas(targetW, padding);
    AvailAtMostCanvas(targetH, padding);
    if KeepsSource(src, availW, availH, noUpscale) {
      if src.width > 0 {
        RatioAbove1Means(availW, src.width);
      }
      if src.height > 0 {
        RatioAbove1Means(availH, src.height);
      }
    }
  }

  /** With noUpscale, a photo smaller than the room on both sides is drawn as it is; one that
      reaches the room on either side is fitted, as it always is without noUpscale. */
  lemma NoUpscaleKeepsOnlySmallPhotos(lib: Imaging, src: Image, targetW: int, targetH: int, padding: real, noUpscale: bool)
    requires src.width > 0 && src.height > 0
    ensures KeepsSource(src, Avail(targetW, padding), Avail(targetH, padding), noUpscale) <==>
      noUpscale && (src.width as real) < Avail(targetW, padding) && (src.height as real) < Avail(targetH, padding)
  {
    RatioAbove1Means(Avail(targetW, padding), src.width);
    RatioAbove1Means(Avail(targetH, padding), src.height);
  }

  /** A negative padding percentage fits like no padding at all. */
  lemma NegativePaddingIsNone(lib: Imaging, src: Image, targetW: int, targetH: int, padding: real, noUpscale: bool)
    requires padding < 0.0
    ensures FitImage(lib, src, targetW, targetH, padding, noUpscale) == FitImage(lib, src, targetW, targetH, 0.0, noUpscale)
  {
  }

  // ---------------------------------------------------------------- drawBorder

  /** The calls drawBorder makes: none for a non-positive width, otherwise the border colour
      and a filled rectangle reaching borderWidth beyond the photo on every side. */
  function BorderOps(x: real, y: real, w: real, h: real, borderWidth: int, borderColor: string): (ops: seq<Op>)
    ensures borderWidth <= 0 <==> ops == []
    ensures borderWidth > 0 ==> (
      && |ops| == 3 && ops[0] == SetColor(HexColorOrWhite(borderColor, 1.0)) && ops[2] == Fill
      && ops[1].DrawRectangle?
      && ops[1].x + borderWidth as real == x && ops[1].x + ops[1].w == x + w + borderWidth as real
      && ops[1].y + borderWidth as real == y && ops[1].y + ops[1].h == y + h + borderWidth as real)
  {
    if borderWidth <= 0 then []
    else
      var bw := borderWidth as real;
      [SetColor(HexColorOrWhite(borderColor, 1.0)), DrawRectangle(x - bw, y - bw, w + bw * 2.0, h + bw * 2.0), Fill]
  }

  method DrawBorder(dc: Canvas, x: real, y: real, w: real, h: real, borderWidth: int, borderColor: string)
    modifies dc
    ensures dc.ops == old(dc.ops) + BorderOps(x, y, w, h, borderWidth, borderColor)
  {
    if borderWidth <= 0 {
      return;
    }
    var bw := borderWidth as real;
    ghost var color := SetColor(HexColorOrWhite(borderColor, 1.0));
    ghost var rect := DrawRectangle(x - bw, y - bw, w + bw * 2.0, h + bw * 2.0);
    assert BorderOps(x, y, w, h, borderWidth, borderColor) == [color, rect, Fill];
    SetHexColor(dc, borderColor, 1.0);
    dc.Rectangle(x - bw, y - bw, w + bw * 2.0, h + bw * 2.0);
    assert dc.ops == old(dc.ops) + [color, rect];
    dc.FillPath();
  }

  // ---------------------------------------------------------------- drawBackground

  /** The background of a blur: imaging.Fill to the canvas with Lanczos, then imaging.Blur. */
  function Blurred(lib: Imaging, src: Image, bg: Background, width: int, height: int): Image
  {
    lib.blur(lib.fill(src, width, height, Lanczos), bg.blurRadius)
  }

  /** The calls drawBackground makes, chosen by the lower-cased (untrimmed) type. */
  function BackgroundOps(lib: Imaging, src: Image, bg: Background, width: int, height: int,
                         fitted: Image, fitX: int, fitY: int): (ops: seq<Op>)
    ensures |ops| <= 4
    ensures forall i :: 0 <= i < |ops| && ops[i].SetColor? ==> 0.0 < ops[i].color.a <= 1.0
  {
    var kind := ToLower(bg.kind);
    if kind == "solid" then
      [SetColor(HexColorOrWhite(bg.color, 1.0)), Clear]
    else if kind == "average" then
      var avg := AverageOf(lib.resize(src, 32, 32, Lanczos));
      [SetColor(RGBAf(Channel(avg.r), Channel(avg.g), Channel(avg.b), 1.0)), Clear]
    else if kind == "stretch" then
      var st := if width <= 0 || height <= 0 || fitted.width == 0 || fitted.height == 0 then None
                else Some(Stretched(lib, StretchPlan(lib, src, fitted, width, height, fitX, fitY), width, height));
      if st.None? then [] else [DrawImage(st.value, 0, 0)]
    else if kind == "blur" then
      [DrawImage(Blurred(lib, src, bg, width, height), 0, 0)]
      + if bg.darken > 0.0 then
          var darken := if bg.darken > 1.0 then 1.0 else bg.darken;
          [SetColor(RGBAf(0.0, 0.0, 0.0, darken)), DrawRectangle(0.0, 0.0, width as real, height as real), Fill]
        else []
    else
      [SetColor(RGBAf(0.0, 0.0, 0.0, 1.0)), Clear]
  }

  method DrawBackground(dc: Canvas, lib: Imaging, src: Image, bg: Background, width: int, height: int,
                        fitted: Image, fitX: int, fitY: int)
    modifies dc
    ensures dc.ops == old(dc.ops) + BackgroundOps(lib, src, bg, width, height, fitted, fitX, fitY)
  {
    var kind := ToLower(bg.kind);
    ghost var ops := BackgroundOps(lib, src, bg, width, height, fitted, fitX, fitY);
    if kind == "solid" {
      assert ops == [SetColor(HexColorOrWhite(bg.color, 1.0)), Clear];
      SetHexColor(dc, bg.color, 1.0);
      dc.ClearCanvas();
    } else if kind == "average" {
      var avg := AverageColor(lib, src);
      assert ops == [SetColor(RGBAf(Channel(avg.r), Channel(avg.g), Channel(avg.b), 1.0)), Clear];
      dc.SetRGBA(avg.r as real / 255.0, avg.g as real / 255.0, avg.b as real / 255.0, 1.0);
      dc.ClearCanvas();
    } else if kind == "stretch" {
      var stretched := StretchBackground(lib, src, fitted, width, height, fitX, fitY);
      if stretched.Err? {
        assert ops == [];
        return;
      }
      assert ops == [DrawImage(stretched.value, 0, 0)];
      dc.Draw(stretched.value, 0, 0);
    } else if kind == "blur" {
      var bgFill := lib.fill(src, width, height, Lanczos);
      var blurred := lib.blur(bgFill, bg.blurRadius);
      dc.Draw(blurred, 0, 0);
      if bg.darken > 0.0 {
        var darken := bg.darken;
        if darken > 1.0 {
          darken := 1.0;
        }
        ghost var shade := [SetColor(RGBAf(0.0, 0.0, 0.0, darken)), DrawRectangle(0.0, 0.0, width as real, height as real), Fill];
        assert ops == [DrawImage(blurred, 0, 0)] + shade;
        ghost var drawn := dc.ops;
        dc.SetRGBA(0.0, 0.0, 0.0, darken);
        dc.Rectangle(0.0, 0.0, width as real, height as real);
        dc.FillPath();
        assert dc.ops == drawn + shade;
        AppendAssoc(old(dc.ops), [DrawImage(blurred, 0, 0)], shade);
      } else {
        assert ops == [DrawImage(blurred, 0, 0)];
      }
    } else {
      assert ops == [SetColor(RGBAf(0.0, 0.0, 0.0, 1.0)), Clear];
      dc.SetRGB(0.0, 0.0, 0.0);
      dc.ClearCanvas();
    }
  }

  /** The type is lower-cased but not trimmed: "SOLID" is solid, " solid" is unknown and
      clears the canvas to black. */
  lemma BackgroundKindIsCaseInsensitiveOnly(lib: Imaging, src: Image, bg: Background, width: int, height: int,
                                            fitted: Image, fitX: int, fitY: int)
    ensures bg.kind == "SOLID" ==>
      BackgroundOps(lib, src, bg, width, height, fitted, fitX, fitY) == [SetColor(HexColorOrWhite(bg.color, 1.0)), Clear]
    ensures bg.kind == " solid" ==>
      BackgroundOps(lib, src, bg, width, height, fitted, fitX, fitY) == [SetColor(RGBAf(0.0, 0.0, 0.0, 1.0)), Clear]
  {
    if bg.kind == "SOLID" {
      UpperSolidLowers();
    }
    if bg.kind == " solid" {
      SpacedSolidLowers();
    }
  }

  lemma UpperSolidLowers()
    ensures ToLower("SOLID") == "solid"
  {
    var t := ToLower("SOLID");
    assert t[0] == 's' && t[1] == 'o' && t[2] == 'l' && t[3] == 'i' && t[4] == 'd';
  }

  lemma SpacedSolidLowers()
    ensures |ToLower(" solid")| == 6
  {
  }

  /** A solid background clears the whole canvas to one opaque colour: the parsed hex colour,
      or white when the string does not parse. */
  lemma SolidBackgroundClearsToHexOrWhite(lib: Imaging, src: Image, bg: Background, width: int, height: int,
                                          fitted: Image, fitX: int, fitY: int)
    requires ToLower(bg.kind) == "solid"
    ensures var ops := BackgroundOps(lib, src, bg, width, height, fitted, fitX, fitY);
      && |ops| == 2 && ops[0].SetColor? && ops[1] == Clear && ops[0].color.a == 1.0
      && (ParseHexColor(bg.color).Err? ==> ops[0].color == RGBAf(1.0, 1.0, 1.0, 1.0))
      && (ParseHexColor(bg.color).Ok? ==>
            var p := ParseHexColor(bg.color).value;
            ops[0].color == RGBAf(Channel(p.r), Channel(p.g), Channel(p.b), 1.0))
  {
    HexColorOrWhiteChannels(bg.color, 1.0);
  }

  /** Any type other than the four known ones clears the whole canvas to opaque black. */
  lemma UnknownBackgroundClearsBlack(lib: Imaging, src: Image, bg: Background, width: int, height: int,
                                     fitted: Image, fitX: int, fitY: int)
    requires ToLower(bg.kind) != "solid" && ToLower(bg.kind) != "average"
    requires ToLower(bg.kind) != "stretch" && ToLower(bg.kind) != "blur"
    ensures BackgroundOps(lib, src, bg, width, height, fitted, fitX, fitY) == [SetColor(RGBAf(0.0, 0.0, 0.0, 1.0)), Clear]
  {
  }

  /** A stretch that fails leaves the canvas untouched; a successful one is a single draw of
      the whole canvas. */
  lemma StretchBackgroundDrawsOnceOrNothing(lib: Imaging, src: Image, bg: Background, width: int, height: int,
                                            fitted: Image, fitX: int, fitY: int)
    requires ToLower(bg.kind) == "stretch"
    ensures var ops := BackgroundOps(lib, src, bg, width, height, fitted, fitX, fitY);
      && (ops == [] <==> width <= 0 || height <= 0 || fitted.width == 0 || fitted.height == 0)
      && (ops != [] ==> |ops| == 1 && ops[0].DrawImage? && ops[0].left == 0 && ops[0].top == 0
                        && ops[0].img.width == width && ops[0].img.height == height)
  {
  }

  /** The darkening rectangle of a blur is drawn only for a positive darken, at most fully black. */
  lemma BlurDarkenIsCapped(lib: Imaging, src: Image, bg: Background, width: int, height: int,
                           fitted: Image, fitX: int, fitY: int)
    requires ToLower(bg.kind) == "blur"
    ensures var ops := BackgroundOps(lib, src, bg, width, height, fitted, fitX, fitY);
      && ops[0] == DrawImage(Blurred(lib, src, bg, width, height), 0, 0)
      && (bg.darken <= 0.0 ==> |ops| == 1)
      && (bg.darken > 1.0 ==> |ops| == 4 && ops[1] == SetColor(RGBAf(0.0, 0.0, 0.0, 1.0)))
      && (0.0 < bg.darken <= 1.0 ==> |ops| == 4 && ops[1] == SetColor(RGBAf(0.0, 0.0, 0.0, bg.darken)))
  {
  }

  // ---------------------------------------------------------------- drawWatermark

  datatype RenderError =
    | BadTargetSize(width: int, height: int)   // "invalid target size: %dx%d"
    | FontLoadFailed(path: string)             // "load watermark font: %w"

  /** filepath.Join of two elements, empty elements being dropped (no lexical cleaning). */
  function PathJoin(dir: string, name: string): (p: string)
    ensures dir == "" ==> p == name
    ensures name == "" ==> p == dir
    ensures dir != "" && name != "" ==> p == dir + "/" + name
  {
    if dir == "" then name else if name == "" then dir else dir + "/" + name
  }

  /** The font file: an absolute path as given, a relative one under the assets directory. */
  function FontPath(font: string, assetsPath: string): (p: string)
    ensures IsAbs(font) ==> p == font
    ensures !IsAbs(font) ==> p == PathJoin(assetsPath, font)
  {
    if IsAbs(font) then font else PathJoin(assetsPath, font)
  }

  /** The outline radius: an outline width of 0 means 2. */
  function OutlineRadius(wm: Watermark): (w: real)
    ensures wm.outlineWidth == 0.0 ==> w == 2.0
    ensures wm.outlineWidth != 0.0 ==> w == wm.outlineWidth
  {
    if wm.outlineWidth == 0.0 then 2.0 else wm.outlineWidth
  }

  /** How many values -w, -w + 1, ... the loop `for d := -w; d <= w; d++` takes. */
  function Steps(w: real): (n: nat)
    ensures w >= 0.0 ==> (n - 1) as real <= w + w < n as real
    ensures w < 0.0 ==> n == 0
  {
    if w < 0.0 then 0 else (w + w).Floor + 1
  }

  /** The text stamped at offset (dx, dy) around the anchor, if that offset lies inside the disc. */
  function Stamp(text: string, a: Anchor, w: real, dx: real, dy: real): (ops: seq<Op>)
  {
    if dx * dx + dy * dy >= w * w then [] else [DrawStringAnchored(text, a.x + dx, a.y + dy, a.ax, a.ay)]
  }

  /** The k-th value, from 0, the loop variable of `for d := -w; d <= w; d++` takes. */
  function Offset(w: real, k: nat): real
  {
    -w + k as real
  }

  /** The stamps of one outline row dy, for the first n values of dx. */
  function RowStamps(text: string, a: Anchor, w: real, dy: real, n: nat): seq<Op>
  {
    if n == 0 then [] else RowStamps(text, a, w, dy, n - 1) + Stamp(text, a, w, Offset(w, n - 1), dy)
  }

  /** The stamps of the first m outline rows. */
  function GridStamps(text: string, a: Anchor, w: real, m: nat): seq<Op>
  {
    if m == 0 then [] else GridStamps(text, a, w, m - 1) + RowStamps(text, a, w, Offset(w, m - 1), Steps(w))
  }

  /** Every stamp of the outline is the text at an offset strictly inside the disc of radius w. */
  predicate InsideDisc(op: Op, text: string, a: Anchor, w: real)
  {
    && op.DrawStringAnchored? && op.text == text && op.ax == a.ax && op.ay == a.ay
    && (op.x - a.x) * (op.x - a.x) + (op.y - a.y) * (op.y - a.y) < w * w
  }

  /** The outline drawWatermark makes, when asked for: its colour, then the stamps. */
  function OutlineOps(text: string, wm: Watermark, a: Anchor): seq<Op>
  {
    if wm.outline then
      [SetColor(HexColorOrWhite(wm.outlineColor, wm.opacity))]
      + GridStamps(text, a, OutlineRadius(wm), Steps(OutlineRadius(wm)))
    else []
  }

  /** The calls drawWatermark makes after loading the font, for the anchor `a`: the outline,
      then the text colour and the text itself. */
  function TextOps(text: string, wm: Watermark, a: Anchor): seq<Op>
  {
    OutlineOps(text, wm, a) + TextItselfOps(text, wm, a)
  }

  /** The calls drawWatermark makes once the font has loaded. */
  function WatermarkOps(text: string, wm: Watermark, assetsPath: string, width: int, height: int): seq<Op>
  {
    [LoadFontFace(FontPath(wm.font, assetsPath), wm.size)]
    + TextOps(text, wm, AnchorForAlign(width, height, wm.align, wm.offsetX, wm.offsetY))
  }

  /** The outline loops of drawWatermark: the text stamped at every offset (dx, dy), both
      running from -w to w in steps of 1, with dx*dx + dy*dy < w*w, row by row. */
  method DrawOutline(dc: Canvas, text: string, a: Anchor, outlineWidth: real)
    modifies dc
    ensures dc.ops == old(dc.ops) + GridStamps(text, a, outlineWidth, Steps(outlineWidth))
  {
    var dy := -outlineWidth;
    ghost var m: nat := 0;
    while dy <= outlineWidth
      invariant dy == -outlineWidth + m as real && m <= Steps(outlineWidth)
      invariant dc.ops == old(dc.ops) + GridStamps(text, a, outlineWidth, m)
      decreases Steps(outlineWidth) - m
    {
      DrawOutlineRow(dc, text, a, outlineWidth, dy);
      dy := dy + 1.0;
      m := m + 1;
    }
  }

  /** The inner loop of the outline: one row dy of stamps. */
  method DrawOutlineRow(dc: Canvas, text: string, a: Anchor, outlineWidth: real, dy: real)
    modifies dc
    ensures dc.ops == old(dc.ops) + RowStamps(text, a, outlineWidth, dy, Steps(outlineWidth))
  {
    var dx := -outlineWidth;
    ghost var n: nat := 0;
    while dx <= outlineWidth
      invariant dx == -outlineWidth + n as real && n <= Steps(outlineWidth)
      invariant dc.ops == old(dc.ops) + RowStamps(text, a, outlineWidth, dy, n)
      decreases Steps(outlineWidth) - n
    {
      if dx * dx + dy * dy < outlineWidth * outlineWidth {
        dc.DrawString(text, a.x + dx, a.y + dy, a.ax, a.ay);
      }
      dx := dx + 1.0;
      n := n + 1;
    }
  }

  /** Concatenating the calls of the log is associative. */
  lemma AppendAssoc(first: seq<Op>, second: seq<Op>, third: seq<Op>)
    ensures (first + second) + third == first + (second + third)
  {
  }

  /** The outline part of drawWatermark. */
  method DrawOutlineIfAsked(dc: Canvas, text: string, wm: Watermark, a: Anchor)
    modifies dc
    ensures dc.ops == old(dc.ops) + OutlineOps(text, wm, a)
  {
    if wm.outline {
      var outlineWidth := OutlineRadius(wm);
      ghost var color := [SetColor(HexColorOrWhite(wm.outlineColor, wm.opacity))];
      ghost var stamps := GridStamps(text, a, outlineWidth, Steps(outlineWidth));
      assert OutlineOps(text, wm, a) == color + stamps;
      SetHexColor(dc, wm.outlineColor, wm.opacity);
      DrawOutline(dc, text, a, outlineWidth);
      AppendAssoc(old(dc.ops), color, stamps);
    } else {
      assert OutlineOps(text, wm, a) == [];
    }
  }

  /** The part of drawWatermark after the font has loaded. */
  method DrawText(dc: Canvas, text: string, wm: Watermark, a: Anchor)
    modifies dc
    ensures dc.ops == old(dc.ops) + TextOps(text, wm, a)
  {
    DrawOutlineIfAsked(dc, text, wm, a);
    DrawColoredString(dc, text, wm.color, wm.opacity, a.x, a.y, a.ax, a.ay);
    AppendAssoc(old(dc.ops), OutlineOps(text, wm, a), TextItselfOps(text, wm, a));
  }

  /** The text colour and the text at the anchor, drawn last by drawWatermark. */
  function TextItselfOps(text: string, wm: Watermark, a: Anchor): seq<Op>
  {
    [SetColor(HexColorOrWhite(wm.color, wm.opacity)), DrawStringAnchored(text, a.x, a.y, a.ax, a.ay)]
  }

  /** setHexColor, then DrawStringAnchored: the text in the given colour at (x, y). */
  method DrawColoredString(dc: Canvas, text: string, hex: string, opacity: real, x: real, y: real, ax: real, ay: real)
    modifies dc
    ensures dc.ops == old(dc.ops) + [SetColor(HexColorOrWhite(hex, opacity)), DrawStringAnchored(text, x, y, ax, ay)]
  {
    SetHexColor(dc, hex, opacity);
    dc.DrawString(text, x, y, ax, ay);
  }

  method DrawWatermark(dc: Canvas, lib: Imaging, text: string, wm: Watermark, assetsPath: string)
    returns (err: Option<RenderError>)
    modifies dc
    ensures err.None? <==> lib.fontLoads(FontPath(wm.font, assetsPath), wm.size)
    ensures err.Some? ==> err == Some(FontLoadFailed(FontPath(wm.font, assetsPath))) && dc.ops == old(dc.ops)
    ensures err.None? ==> dc.ops == old(dc.ops) + WatermarkOps(text, wm, assetsPath, dc.width, dc.height)
  {
    var fontPath := wm.font;
    if !IsAbs(fontPath) {
      fontPath := PathJoin(assetsPath, wm.font);
    }
    assert fontPath == FontPath(wm.font, assetsPath);
    var loaded := dc.LoadFont(lib, fontPath, wm.size);
    if !loaded {
      return Some(FontLoadFailed(fontPath));
    }
    var a := AnchorForAlign(dc.width, dc.height, wm.align, wm.offsetX, wm.offsetY);
    DrawText(dc, text, wm, a);
    AppendAssoc(old(dc.ops), [LoadFontFace(fontPath, wm.size)], TextOps(text, wm, a));
    return None;
  }

  // ---------------------------------------------------------------- renderImage

  /** What renderImage returns: the context's image, given by its size and the calls drawn on it. */
  datatype Drawing = Drawing(width: int, height: int, ops: seq<Op>)

  /** The photo renderImage draws, with its position, for a target size. */
  function FitFor(lib: Imaging, src: Image, resolved: ResolvedProfile, targetW: int, targetH: int): Fitted
  {
    FitImage(lib, src, targetW, targetH, resolved.paddingPercent, resolved.noUpscale)
  }

  /** The calls renderImage makes before the watermark: the background, the border and the photo
      at its truncated offsets. */
  function FramedOps(lib: Imaging, src: Image, resolved: ResolvedProfile, targetW: int, targetH: int): seq<Op>
  {
    var f := FitFor(lib, src, resolved, targetW, targetH);
    BackgroundOps(lib, src, resolved.background, targetW, targetH, f.img, Trunc(f.x), Trunc(f.y))
    + BorderOps(f.x, f.y, f.img.width as real, f.img.height as real, resolved.borderWidth, resolved.borderColor)
    + [DrawImage(f.img, Trunc(f.x), Trunc(f.y))]
  }

  /** Whether renderImage draws a watermark: only for a non-empty text and a profile with a style. */
  predicate WantsWatermark(resolved: ResolvedProfile, watermarkText: string)
  {
    watermarkText != "" && resolved.watermark.Some?
  }

  /** renderImage, as a function of its inputs. */
  function RenderSpec(lib: Imaging, src: Image, resolved: ResolvedProfile, format: Format, watermarkText: string)
    : Result<Drawing, RenderError>
  {
    var w, h := format.width, format.height;
    if w <= 0 || h <= 0 then Err(BadTargetSize(w, h))
    else if !WantsWatermark(resolved, watermarkText) then Ok(Drawing(w, h, FramedOps(lib, src, resolved, w, h)))
    else
      var wm := resolved.watermark.value;
      var fontPath := FontPath(wm.font, resolved.assetsPath);
      if !lib.fontLoads(fontPath, wm.size) then Err(FontLoadFailed(fontPath))
      else Ok(Drawing(w, h, FramedOps(lib, src, resolved, w, h) + WatermarkOps(watermarkText, wm, resolved.assetsPath, w, h)))
  }

  /** The first part of renderImage on a fresh canvas: background, border and photo. */
  method DrawFramed(dc: Canvas, lib: Imaging, src: Image, resolved: ResolvedProfile)
    modifies dc
    ensures dc.ops == old(dc.ops) + FramedOps(lib, src, resolved, dc.width, dc.height)
  {
    var f := FitImage(lib, src, dc.width, dc.height, resolved.paddingPercent, resolved.noUpscale);
    DrawBackground(dc, lib, src, resolved.background, dc.width, dc.height, f.img, Trunc(f.x), Trunc(f.y));
    ghost var background := BackgroundOps(lib, src, resolved.background, dc.width, dc.height, f.img, Trunc(f.x), Trunc(f.y));
    var imgW := f.img.width as real;
    var imgH := f.img.height as real;
    ghost var border := BorderOps(f.x, f.y, imgW, imgH, resolved.borderWidth, resolved.borderColor);
    if resolved.borderWidth > 0 {
      DrawBorder(dc, f.x, f.y, imgW, imgH, resolved.borderWidth, resolved.borderColor);
    } else {
      assert border == [];
    }
    dc.Draw(f.img, Trunc(f.x), Trunc(f.y));
    AppendAssoc(old(dc.ops), background, border);
    AppendAssoc(old(dc.ops), background + border, [DrawImage(f.img, Trunc(f.x), Trunc(f.y))]);
  }

  method RenderImage(lib: Imaging, src: Image, resolved: ResolvedProfile, format: Format, watermarkText: string)
    returns (r: Result<Drawing, RenderError>)
    ensures r == RenderSpec(lib, src, resolved, format, watermarkText)
  {
    var targetW, targetH := format.width, format.height;
    if targetW <= 0 || targetH <= 0 {
      return Err(BadTargetSize(targetW, targetH));
    }
    var dc := new Canvas(targetW, targetH);
    DrawFramed(dc, lib, src, resolved);
    assert dc.ops == FramedOps(lib, src, resolved, targetW, targetH) by {
      assert [] + FramedOps(lib, src, resolved, targetW, targetH) == FramedOps(lib, src, resolved, targetW, targetH);
    }
    if watermarkText != "" && resolved.watermark.Some? {
      var err := DrawWatermark(dc, lib, watermarkText, resolved.watermark.value, resolved.assetsPath);
      if err.Some? {
        return Err(err.value);
      }
    }
    return Ok(Drawing(dc.width, dc.height, dc.ops));
  }

  // ---------------------------------------------------------------- properties of renderImage

  /** renderImage fails only on a non-positive target size or, when it draws a watermark, on a font
      that does not load; without a watermark (empty text or no style) only the size can fail it. */
  lemma RenderErrors(lib: Imaging, src: Image, resolved: ResolvedProfile, format: Format, watermarkText: string)
    ensures var r := RenderSpec(lib, src, resolved, format, watermarkText);
            && (r == Err(BadTargetSize(format.width, format.height)) <==> format.width <= 0 || format.height <= 0)
            && (!WantsWatermark(resolved, watermarkText) ==> (r.Err? <==> format.width <= 0 || format.height <= 0))
            && (r.Err? && r.error.FontLoadFailed? ==>
                  && format.width > 0 && format.height > 0 && WantsWatermark(resolved, watermarkText)
                  && var wm := resolved.watermark.value;
                     r.error.path == FontPath(wm.font, resolved.assetsPath) && !lib.fontLoads(r.error.path, wm.size))
            && (r.Ok? ==> r.value.width == format.width && r.value.height == format.height)
  {
  }

  /** Before the watermark renderImage draws the background first, then the border when its width
      is positive, and the photo at its truncated offsets last. */
  lemma FramedStepOrder(lib: Imaging, src: Image, resolved: ResolvedProfile, targetW: int, targetH: int)
    ensures var ops := FramedOps(lib, src, resolved, targetW, targetH);
            var f := FitFor(lib, src, resolved, targetW, targetH);
            var background := BackgroundOps(lib, src, resolved.background, targetW, targetH, f.img, Trunc(f.x), Trunc(f.y));
            && |ops| == |background| + (if resolved.borderWidth > 0 then 3 else 0) + 1
            && ops[..|background|] == background
            && (resolved.borderWidth > 0 ==>
                  ops[|background|] == SetColor(HexColorOrWhite(resolved.borderColor, 1.0))
                  && ops[|background| + 1].DrawRectangle? && ops[|background| + 2] == Fill)
            && ops[|ops| - 1] == DrawImage(f.img, Trunc(f.x), Trunc(f.y))
  {
    var f := FitFor(lib, src, resolved, targetW, targetH);
    var background := BackgroundOps(lib, src, resolved.background, targetW, targetH, f.img, Trunc(f.x), Trunc(f.y));
    var border := BorderOps(f.x, f.y, f.img.width as real, f.img.height as real, resolved.borderWidth, resolved.borderColor);
    var ops := FramedOps(lib, src, resolved, targetW, targetH);
    assert ops == background + border + [DrawImage(f.img, Trunc(f.x), Trunc(f.y))];
    assert ops[..|background|] == background;
    assert ops[|background|..|background| + |border|] == border;
  }

  /** On success renderImage's calls are those before the watermark, followed by the watermark's
      exactly when it draws one. */
  lemma RenderStepOrder(lib: Imaging, src: Image, resolved: ResolvedProfile, format: Format, watermarkText: string)
    requires RenderSpec(lib, src, resolved, format, watermarkText).Ok?
    ensures var ops := RenderSpec(lib, src, resolved, format, watermarkText).value.ops;
            var framed := FramedOps(lib, src, resolved, format.width, format.height);
            && |framed| <= |ops|
            && ops[..|framed|] == framed
            && (!WantsWatermark(resolved, watermarkText) ==> |ops| == |framed|)
            && (WantsWatermark(resolved, watermarkText) ==>
                  ops[|framed|..] == WatermarkOps(watermarkText, resolved.watermark.value, resolved.assetsPath,
                                                  format.width, format.height))
  {
    var framed := FramedOps(lib, src, resolved, format.width, format.height);
    var ops := RenderSpec(lib, src, resolved, format, watermarkText).value.ops;
    if WantsWatermark(resolved, watermarkText) {
      var marks := WatermarkOps(watermarkText, resolved.watermark.value, resolved.assetsPath, format.width, format.height);
      assert ops == framed + marks;
      assert ops[..|framed|] == framed;
    }
  }

  // ---------------------------------------------------------------- properties of the watermark

  /** The k-th offset of the outline loop stays within [-w, w]. */
  lemma OffsetsWithinRadius(w: real, k: nat)
    requires k < Steps(w)
    ensures -w <= Offset(w, k) <= w
  {
  }

  /** The row stamps are the stamps of the row's offsets dx. */
  lemma {:induction false} RowStampsMembers(text: string, a: Anchor, w: real, dy: real, n: nat)
    ensures forall op :: op in RowStamps(text, a, w, dy, n)
                     <==> exists i: nat :: i < n && op in Stamp(text, a, w, Offset(w, i), dy)
  {
    if n > 0 {
      RowStampsMembers(text, a, w, dy, n - 1);
      assert RowStamps(text, a, w, dy, n) == RowStamps(text, a, w, dy, n - 1) + Stamp(text, a, w, Offset(w, n - 1), dy);
    }
  }

  /** The grid stamps are the stamps of the rows' offsets dy and the columns' offsets dx. */
  lemma {:induction false} GridStampsMembers(text: string, a: Anchor, w: real, m: nat)
    ensures forall op :: op in GridStamps(text, a, w, m)
                     <==> exists j: nat, i: nat :: j < m && i < Steps(w) && op in Stamp(text, a, w, Offset(w, i), Offset(w, j))
  {
    if m > 0 {
      GridStampsMembers(text, a, w, m - 1);
      RowStampsMembers(text, a, w, Offset(w, m - 1), Steps(w));
      assert GridStamps(text, a, w, m)
          == GridStamps(text, a, w, m - 1) + RowStamps(text, a, w, Offset(w, m - 1), Steps(w));
    }
  }

  /** The text stamped by the outline loops at the visited offsets dx = Offset(w, i) and
      dy = Offset(w, j), which lie inside the disc of radius w. */
  predicate LatticeStamp(op: Op, text: string, a: Anchor, w: real, j: nat, i: nat)
  {
    && j < Steps(w) && i < Steps(w)
    && Offset(w, i) * Offset(w, i) + Offset(w, j) * Offset(w, j) < w * w
    && op == DrawStringAnchored(text, a.x + Offset(w, i), a.y + Offset(w, j), a.ax, a.ay)
  }

  /** The outline of radius w stamps the text at exactly the offsets (dx, dy) the loops visit with
      dx * dx + dy * dy < w * w, and so every stamp lies strictly inside the disc. */
  lemma OutlineIsDiscLattice(text: string, a: Anchor, w: real)
    ensures forall op ::
              op in GridStamps(text, a, w, Steps(w)) <==> exists j: nat, i: nat :: LatticeStamp(op, text, a, w, j, i)
    ensures forall op :: op in GridStamps(text, a, w, Steps(w)) ==> InsideDisc(op, text, a, w)
  {
    var n := Steps(w);
    var grid := GridStamps(text, a, w, n);
    GridStampsMembers(text, a, w, n);
    forall op
      ensures op in grid <==> exists j: nat, i: nat :: LatticeStamp(op, text, a, w, j, i)
      ensures op in grid ==> InsideDisc(op, text, a, w)
    {
      if op in grid {
        var j: nat, i: nat :| j < n && i < n && op in Stamp(text, a, w, Offset(w, i), Offset(w, j));
        StampMember(text, a, w, Offset(w, i), Offset(w, j), op);
        assert LatticeStamp(op, text, a, w, j, i);
      }
      if exists j: nat, i: nat :: LatticeStamp(op, text, a, w, j, i) {
        var j: nat, i: nat :| LatticeStamp(op, text, a, w, j, i);
        StampMember(text, a, w, Offset(w, i), Offset(w, j), op);
      }
    }
  }

  /** A stamp holds the text at (dx, dy) from the anchor exactly when (dx, dy) is inside the disc,
      and that text lies inside the disc. */
  lemma StampMember(text: string, a: Anchor, w: real, dx: real, dy: real, op: Op)
    ensures op in Stamp(text, a, w, dx, dy)
            <==> (dx * dx + dy * dy < w * w && op == DrawStringAnchored(text, a.x + dx, a.y + dy, a.ax, a.ay))
    ensures op in Stamp(text, a, w, dx, dy) ==> InsideDisc(op, text, a, w)
  {
    if op in Stamp(text, a, w, dx, dy) {
      assert op.x - a.x == dx && op.y - a.y == dy;
    }
  }

  /** After the font has loaded, drawWatermark draws the text last, at the anchor, in the text
      colour; an outline, when asked for, comes first in its own colour. */
  lemma TextCallOrder(text: string, wm: Watermark, a: Anchor)
    ensures var ops := TextOps(text, wm, a);
            && |ops| >= 2
            && ops[|ops| - 2] == SetColor(HexColorOrWhite(wm.color, wm.opacity))
            && ops[|ops| - 1] == DrawStringAnchored(text, a.x, a.y, a.ax, a.ay)
            && (!wm.outline ==> |ops| == 2)
            && (wm.outline ==>
                  && ops[0] == SetColor(HexColorOrWhite(wm.outlineColor, wm.opacity))
                  && ops[1..|ops| - 2] == GridStamps(text, a, OutlineRadius(wm), Steps(OutlineRadius(wm))))
  {
    var outline := OutlineOps(text, wm, a);
    var last := [SetColor(HexColorOrWhite(wm.color, wm.opacity)), DrawStringAnchored(text, a.x, a.y, a.ax, a.ay)];
    assert TextOps(text, wm, a) == outline + last;
    if wm.outline {
      var grid := GridStamps(text, a, OutlineRadius(wm), Steps(OutlineRadius(wm)));
      assert outline == [SetColor(HexColorOrWhite(wm.outlineColor, wm.opacity))] + grid;
      assert (outline + last)[1..|outline + last| - 2] == grid;
    }
  }

  /** drawWatermark loads the font first, from the font path, and then makes the calls
      TextCallOrder describes at the anchor the alignment gives on the canvas. */
  lemma WatermarkCallOrder(text: string, wm: Watermark, assetsPath: string, width: int, height: int)
    ensures var ops := WatermarkOps(text, wm, assetsPath, width, height);
            && |ops| >= 3
            && ops[0] == LoadFontFace(FontPath(wm.font, assetsPath), wm.size)
            && ops[1..] == TextOps(text, wm, AnchorForAlign(width, height, wm.align, wm.offsetX, wm.offsetY))
  {
    TextCallOrder(text, wm, AnchorForAlign(width, height, wm.align, wm.offsetX, wm.offsetY));
  }

  /** With the default outline width 0 the radius is 2, and the outline stamps the text 9 times:
      the offsets (dx, dy) in {-1, 0, 1} x {-1, 0, 1}. */
  lemma DefaultOutlineHasNineStamps(text: string, a: Anchor)
    ensures |GridStamps(text, a, 2.0, Steps(2.0))| == 9
  {
    assert Steps(2.0) == 5;
    var rows := [-2.0, -1.0, 0.0, 1.0, 2.0];
    for m := 0 to 5
      invariant |GridStamps(text, a, 2.0, m)| == [0, 0, 3, 6, 9, 9][m]
    {
      assert Offset(2.0, m) == rows[m];
      RadiusTwoRow(text, a, rows[m]);
      assert GridStamps(text, a, 2.0, m + 1) == GridStamps(text, a, 2.0, m) + RowStamps(text, a, 2.0, rows[m], 5);
    }
  }

  /** A row dy of the radius-2 outline: its length is the number of dx in -2..2 inside the disc. */
  lemma RadiusTwoRow(text: string, a: Anchor, dy: real)
    ensures |RowStamps(text, a, 2.0, dy, 5)|
         == (if dy * dy < 4.0 then 1 else 0) + (if 1.0 + dy * dy < 4.0 then 2 else 0) + (if 4.0 + dy * dy < 4.0 then 2 else 0)
  {
    assert |RowStamps(text, a, 2.0, dy, 5)| == |RowStamps(text, a, 2.0, dy, 4)| + |Stamp(text, a, 2.0, 2.0, dy)|;
    assert |RowStamps(text, a, 2.0, dy, 4)| == |RowStamps(text, a, 2.0, dy, 3)| + |Stamp(text, a, 2.0, 1.0, dy)|;
    assert |RowStamps(text, a, 2.0, dy, 3)| == |RowStamps(text, a, 2.0, dy, 2)| + |Stamp(text, a, 2.0, 0.0, dy)|;
    assert |RowStamps(text, a, 2.0, dy, 2)| == |RowStamps(text, a, 2.0, dy, 1)| + |Stamp(text, a, 2.0, -1.0, dy)|;
    assert |RowStamps(text, a, 2.0, dy, 1)| == |Stamp(text, a, 2.0, -2.0, dy)|;
  }
}
