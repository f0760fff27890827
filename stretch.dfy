/**
 * Model of the "stretch" background of pkg/instafix/render.go: a buffer the size of the
 * canvas starts opaque black, receives the fitted photo in its rectangle, and every gap next
 * to the photo is filled by smearing the photo's nearest edge row or column outwards; the four
 * corner gaps get a flat colour from an edge sample of the source. The buffer is an array
 * written in place, each draw.Draw call being one pass over a clipped rectangle.
 */
module Stretch {
  import opened Wrappers
  import opened Raster
  import opened Graphics

  /** colorToNRGBA: the 16-bit premultiplied channels of RGBA(), each shifted down to 8 bits. */
  function ColorToNRGBA(c: NRGBA): (d: NRGBA)
    ensures d.a == c.a
    ensures c.a == 255 ==> d == c
    ensures c.a == 0 ==> d == Transparent
  {
    var p := RGBA(c);
    NRGBA(p.r / 256, p.g / 256, p.b / 256, p.a / 256)
  }

  // ---------------------------------------------------------------- rectangles and layers

  /** image.Rectangle: the half-open box [x0, x1) x [y0, y1). */
  datatype Rect = Rect(x0: int, y0: int, x1: int, y1: int)

  const NoRect: Rect := Rect(0, 0, 0, 0)

  predicate Inside(r: Rect, x: int, y: int)
  {
    r.x0 <= x < r.x1 && r.y0 <= y < r.y1
  }

  /** Rectangle.Empty. */
  predicate IsEmpty(r: Rect)
  {
    r.x0 >= r.x1 || r.y0 >= r.y1
  }

  function Min(a: int, b: int): int { if a <= b then a else b }
  function Max(a: int, b: int): int { if a <= b then b else a }

  /** image.Rect: the corners are swapped where needed so that the rectangle is well-formed. */
  function MakeRect(x0: int, y0: int, x1: int, y1: int): (r: Rect)
    ensures r.x0 <= r.x1 && r.y0 <= r.y1
    ensures x0 <= x1 && y0 <= y1 ==> r == Rect(x0, y0, x1, y1)
  {
    Rect(Min(x0, x1), Min(y0, y1), Max(x0, x1), Max(y0, y1))
  }

  /** What one draw.Draw call puts at a destination pixel. */
  datatype Paint =
    | Uniform(c: NRGBA)                         // image.NewUniform(c), draw.Src
    | Photo(img: Image, dx: int, dy: int)       // img placed at (dx, dy), draw.Over
    | EdgeColumn(img: Image, col: int, dy: int) // a one-column crop of img stretched sideways, draw.Src
    | EdgeRow(img: Image, row: int, dx: int)    // a one-row crop of img stretched up or down, draw.Src

  datatype Layer = Layer(rect: Rect, paint: Paint)

  function PaintAt(lib: Imaging, p: Paint, x: int, y: int, below: NRGBA): NRGBA
  {
    match p
    case Uniform(c) => c
    case Photo(img, dx, dy) => lib.over(At(img, x - dx, y - dy), below)
    case EdgeColumn(img, col, dy) => At(img, col, y - dy)
    case EdgeRow(img, row, dx) => At(img, x - dx, row)
  }

  /** The pixel at (x, y) after drawing layer `l` over a pixel that was `below`. */
  function Apply(lib: Imaging, l: Layer, x: int, y: int, below: NRGBA): (c: NRGBA)
    ensures !Inside(l.rect, x, y) ==> c == below
  {
    if Inside(l.rect, x, y) then PaintAt(lib, l.paint, x, y, below) else below
  }

  // ---------------------------------------------------------------- the plan of stretchBackground

  /** The ten draws of stretchBackground, in order; a skipped strip draw is an empty layer. */
  datatype Plan = Plan(
    base: Layer, photo: Layer,
    left: Layer, right: Layer, top: Layer, bottom: Layer,
    topLeft: Layer, topRight: Layer, bottomLeft: Layer, bottomRight: Layer)

  /** The colour of edge-sample pixel (x, row), as topRow and bottomRow hold it. */
  function EdgeColour(edge: Image, x: int, row: int): NRGBA
  {
    ColorToNRGBA(At(edge, x, row))
  }

  /** imaging.Fill(src, fitW, fitH, imaging.Center, imaging.NearestNeighbor). */
  function EdgeSample(lib: Imaging, src: Image, fitted: Image): Image
  {
    lib.fill(src, fitted.width, fitted.height, NearestNeighbor)
  }

  function StretchPlan(lib: Imaging, src: Image, fitted: Image, width: int, height: int, x0: int, y0: int): Plan
  {
    var fitW, fitH := fitted.width, fitted.height;
    var edge := EdgeSample(lib, src, fitted);
    Plan(
      Layer(MakeRect(0, 0, width, height), Uniform(OpaqueBlack)),
      Layer(MakeRect(x0, y0, x0 + fitW, y0 + fitH), Photo(fitted, x0, y0)),
      Layer(if x0 > 0 then MakeRect(0, y0, x0, y0 + fitH) else NoRect, EdgeColumn(fitted, 0, y0)),
      Layer(if width - (x0 + fitW) > 0 then MakeRect(x0 + fitW, y0, width, y0 + fitH) else NoRect,
            EdgeColumn(fitted, fitW - 1, y0)),
      Layer(if y0 > 0 then MakeRect(x0, 0, x0 + fitW, y0) else NoRect, EdgeRow(fitted, 0, x0)),
      Layer(if height - (y0 + fitH) > 0 then MakeRect(x0, y0 + fitH, x0 + fitW, height) else NoRect,
            EdgeRow(fitted, fitH - 1, x0)),
      Layer(MakeRect(0, 0, x0, y0), Uniform(EdgeColour(edge, 0, 0))),
      Layer(MakeRect(x0 + fitW, 0, width, y0), Uniform(EdgeColour(edge, fitW - 1, 0))),
      Layer(MakeRect(0, y0 + fitH, x0, height), Uniform(EdgeColour(edge, 0, fitH - 1))),
      Layer(MakeRect(x0 + fitW, y0 + fitH, width, height), Uniform(EdgeColour(edge, fitW - 1, fitH - 1))))
  }

  /** The final colour of buffer pixel (x, y): the last draw covering it wins. */
  function Pixel(lib: Imaging, p: Plan, x: int, y: int): NRGBA
  {
    var c0 := Apply(lib, p.base, x, y, Transparent);
    var c1 := Apply(lib, p.photo, x, y, c0);
    var c2 := Apply(lib, p.left, x, y, c1);
    var c3 := Apply(lib, p.right, x, y, c2);
    var c4 := Apply(lib, p.top, x, y, c3);
    var c5 := Apply(lib, p.bottom, x, y, c4);
    var c6 := Apply(lib, p.topLeft, x, y, c5);
    var c7 := Apply(lib, p.topRight, x, y, c6);
    var c8 := Apply(lib, p.bottomLeft, x, y, c7);
    Apply(lib, p.bottomRight, x, y, c8)
  }

  /** Draw number k of the plan, counting from 0. */
  function LayerOf(p: Plan, k: nat): Layer
    requires k < 10
  {
    match k
    case 0 => p.base
    case 1 => p.photo
    case 2 => p.left
    case 3 => p.right
    case 4 => p.top
    case 5 => p.bottom
    case 6 => p.topLeft
    case 7 => p.topRight
    case 8 => p.bottomLeft
    case _ => p.bottomRight
  }

  /** The colour of pixel (x, y) once the first k draws are done over the zeroed buffer. */
  function Stage(lib: Imaging, p: Plan, k: nat, x: int, y: int): NRGBA
    requires k <= 10
  {
    if k == 0 then Transparent else Apply(lib, LayerOf(p, k - 1), x, y, Stage(lib, p, k - 1, x, y))
  }

  lemma AllStages(lib: Imaging, p: Plan, x: int, y: int)
    ensures Stage(lib, p, 10, x, y) == Pixel(lib, p, x, y)
  {
    assert Stage(lib, p, 1, x, y) == Apply(lib, p.base, x, y, Transparent);
    assert Stage(lib, p, 2, x, y) == Apply(lib, p.photo, x, y, Stage(lib, p, 1, x, y));
    assert Stage(lib, p, 3, x, y) == Apply(lib, p.left, x, y, Stage(lib, p, 2, x, y));
    assert Stage(lib, p, 4, x, y) == Apply(lib, p.right, x, y, Stage(lib, p, 3, x, y));
    assert Stage(lib, p, 5, x, y) == Apply(lib, p.top, x, y, Stage(lib, p, 4, x, y));
    assert Stage(lib, p, 6, x, y) == Apply(lib, p.bottom, x, y, Stage(lib, p, 5, x, y));
    assert Stage(lib, p, 7, x, y) == Apply(lib, p.topLeft, x, y, Stage(lib, p, 6, x, y));
    assert Stage(lib, p, 8, x, y) == Apply(lib, p.topRight, x, y, Stage(lib, p, 7, x, y));
    assert Stage(lib, p, 9, x, y) == Apply(lib, p.bottomLeft, x, y, Stage(lib, p, 8, x, y));
  }

  function Stretched(lib: Imaging, p: Plan, width: nat, height: nat): Image
  {
    Raster(width, height, seq(height, y => seq(width, x => Pixel(lib, p, x, y))))
  }

  datatype StretchError =
    | BadStretchSize(width: int, height: int)   // "invalid stretch size: %dx%d"
    | EmptyFitted                               // "invalid fitted size"

  // ---------------------------------------------------------------- drawing into the buffer

  /** draw.Draw of one layer into the buffer, clipped to the buffer's bounds. */
  method Draw(buf: array2<NRGBA>, lib: Imaging, l: Layer)
    modifies buf
    ensures forall x, y :: 0 <= x < buf.Length0 && 0 <= y < buf.Length1 ==>
      buf[x, y] == Apply(lib, l, x, y, old(buf[x, y]))
  {
    var xHi := Min(l.rect.x1, buf.Length0);
    var yLo, yHi := Max(l.rect.y0, 0), Min(l.rect.y1, buf.Length1);
    var x := Max(l.rect.x0, 0);
    while x < xHi
      invariant forall i, j :: 0 <= i < buf.Length0 && 0 <= j < buf.Length1 ==>
        buf[i, j] == if i < x then Apply(lib, l, i, j, old(buf[i, j])) else old(buf[i, j])
    {
      var y := yLo;
      while y < yHi
        invariant forall i, j :: 0 <= i < buf.Length0 && 0 <= j < buf.Length1 ==>
          buf[i, j] == if i < x || (i == x && j < y) then Apply(lib, l, i, j, old(buf[i, j])) else old(buf[i, j])
      {
        buf[x, y] := PaintAt(lib, l.paint, x, y, buf[x, y]);
        y := y + 1;
      }
      x := x + 1;
    }
  }

  /** fillRect: a uniform colour over a rectangle; an empty rectangle is not drawn at all. */
  method FillRect(buf: array2<NRGBA>, lib: Imaging, r: Rect, c: NRGBA)
    modifies buf
    ensures forall x, y :: 0 <= x < buf.Length0 && 0 <= y < buf.Length1 ==>
      buf[x, y] == Apply(lib, Layer(r, Uniform(c)), x, y, old(buf[x, y]))
    ensures IsEmpty(r) ==> unchanged(buf)
  {
    if IsEmpty(r) {
      return;
    }
    Draw(buf, lib, Layer(r, Uniform(c)));
  }

  /** The buffer as an image value: pixel (x, y) of the image is buf[x, y]. */
  method Snapshot(buf: array2<NRGBA>) returns (img: Image)
    ensures img.width == buf.Length0 && img.height == buf.Length1
    ensures forall x, y :: 0 <= x < buf.Length0 && 0 <= y < buf.Length1 ==> img.rows[y][x] == buf[x, y]
  {
    var rows: seq<seq<NRGBA>> := [];
    var y := 0;
    while y < buf.Length1
      invariant y <= buf.Length1 && |rows| == y
      invariant forall j :: 0 <= j < y ==> |rows[j]| == buf.Length0
      invariant forall i, j :: 0 <= j < y && 0 <= i < buf.Length0 ==> rows[j][i] == buf[i, j]
    {
      var row: seq<NRGBA> := [];
      var x := 0;
      while x < buf.Length0
        invariant x <= buf.Length0 && |row| == x
        invariant forall i :: 0 <= i < x ==> row[i] == buf[i, y]
      {
        row := row + [buf[x, y]];
        x := x + 1;
      }
      rows := rows + [row];
      y := y + 1;
    }
    img := Raster(buf.Length0, buf.Length1, rows);
  }

  /** Every pixel of the buffer has its colour after the first k draws of the plan. */
  ghost predicate Staged(buf: array2<NRGBA>, lib: Imaging, p: Plan, k: nat)
    requires k <= 10
    reads buf
  {
    forall x, y :: 0 <= x < buf.Length0 && 0 <= y < buf.Length1 ==> buf[x, y] == Stage(lib, p, k, x, y)
  }

  /** Draw number k of the plan, on a buffer holding the first k. */
  method DrawStage(buf: array2<NRGBA>, lib: Imaging, l: Layer, ghost p: Plan, ghost k: nat)
    requires k < 10 && l == LayerOf(p, k) && Staged(buf, lib, p, k)
    modifies buf
    ensures Staged(buf, lib, p, k + 1)
  {
    Draw(buf, lib, l);
  }

  /** Corner fill number k of the plan, on a buffer holding the first k draws. */
  method FillStage(buf: array2<NRGBA>, lib: Imaging, r: Rect, c: NRGBA, ghost p: Plan, ghost k: nat)
    requires k < 10 && Layer(r, Uniform(c)) == LayerOf(p, k) && Staged(buf, lib, p, k)
    modifies buf
    ensures Staged(buf, lib, p, k + 1)
  {
    FillRect(buf, lib, r, c);
  }

  /** A strip draw that is skipped leaves the buffer as the plan's empty layer would. */
  lemma SkippedStage(buf: array2<NRGBA>, lib: Imaging, p: Plan, k: nat)
    requires k < 10 && LayerOf(p, k).rect == NoRect && Staged(buf, lib, p, k)
    ensures Staged(buf, lib, p, k + 1)
  {
  }

  // ---------------------------------------------------------------- stretchBackground

  /** The ten draws of stretchBackground on the zeroed buffer: black, the photo, the four edge
      strips of the gaps that exist, and the four corner fills. */
  method PaintLayers(bg: array2<NRGBA>, lib: Imaging, src: Image, fitted: Image, width: int, height: int, x0: int, y0: int, topRow: seq<NRGBA>, bottomRow: seq<NRGBA>)
    requires width > 0 && height > 0 && fitted.width > 0 && fitted.height > 0
    requires |topRow| == fitted.width && |bottomRow| == fitted.width
    requires topRow[0] == EdgeColour(EdgeSample(lib, src, fitted), 0, 0)
    requires topRow[fitted.width - 1] == EdgeColour(EdgeSample(lib, src, fitted), fitted.width - 1, 0)
    requires bottomRow[0] == EdgeColour(EdgeSample(lib, src, fitted), 0, fitted.height - 1)
    requires bottomRow[fitted.width - 1] == EdgeColour(EdgeSample(lib, src, fitted), fitted.width - 1, fitted.height - 1)
    requires Staged(bg, lib, StretchPlan(lib, src, fitted, width, height, x0, y0), 0)
    modifies bg
    ensures Staged(bg, lib, StretchPlan(lib, src, fitted, width, height, x0, y0), 10)
  {
    var fitW, fitH := fitted.width, fitted.height;
    ghost var p := StretchPlan(lib, src, fitted, width, height, x0, y0);
    DrawStage(bg, lib, Layer(MakeRect(0, 0, width, height), Uniform(OpaqueBlack)), p, 0);
    DrawStage(bg, lib, Layer(MakeRect(x0, y0, x0 + fitW, y0 + fitH), Photo(fitted, x0, y0)), p, 1);

    if x0 > 0 {
      DrawStage(bg, lib, Layer(MakeRect(0, y0, x0, y0 + fitH), EdgeColumn(fitted, 0, y0)), p, 2);
    } else {
      SkippedStage(bg, lib, p, 2);
    }
    var rightPad := width - (x0 + fitW);
    if rightPad > 0 {
      DrawStage(bg, lib, Layer(MakeRect(x0 + fitW, y0, width, y0 + fitH), EdgeColumn(fitted, fitW - 1, y0)), p, 3);
    } else {
      SkippedStage(bg, lib, p, 3);
    }
    if y0 > 0 {
      DrawStage(bg, lib, Layer(MakeRect(x0, 0, x0 + fitW, y0), EdgeRow(fitted, 0, x0)), p, 4);
    } else {
      SkippedStage(bg, lib, p, 4);
    }
    var bottomPad := height - (y0 + fitH);
    if bottomPad > 0 {
      DrawStage(bg, lib, Layer(MakeRect(x0, y0 + fitH, x0 + fitW, height), EdgeRow(fitted, fitH - 1, x0)), p, 5);
    } else {
      SkippedStage(bg, lib, p, 5);
    }

    FillStage(bg, lib, MakeRect(0, 0, x0, y0), topRow[0], p, 6);
    FillStage(bg, lib, MakeRect(x0 + fitW, 0, width, y0), topRow[fitW - 1], p, 7);
    FillStage(bg, lib, MakeRect(0, y0 + fitH, x0, height), bottomRow[0], p, 8);
    FillStage(bg, lib, MakeRect(x0 + fitW, y0 + fitH, width, height), bottomRow[fitW - 1], p, 9);
  }

  /** stretchBackground: errors for an empty canvas or an empty fitted photo; otherwise the
      buffer holds, at every pixel, the colour of the last of the ten draws covering it. */
  method StretchBackground(lib: Imaging, src: Image, fitted: Image, width: int, height: int, x0: int, y0: int)
    returns (r: Result<Image, StretchError>)
    ensures width <= 0 || height <= 0 ==> r == Err(BadStretchSize(width, height))
    ensures width > 0 && height > 0 && (fitted.width == 0 || fitted.height == 0) ==> r == Err(EmptyFitted)
    ensures width > 0 && height > 0 && fitted.width > 0 && fitted.height > 0 ==>
      r == Ok(Stretched(lib, StretchPlan(lib, src, fitted, width, height, x0, y0), width, height))
  {
    if width <= 0 || height <= 0 {
      return Err(BadStretchSize(width, height));
    }
    var fitW, fitH := fitted.width, fitted.height;
    if fitW == 0 || fitH == 0 {
      return Err(EmptyFitted);
    }
    ghost var p := StretchPlan(lib, src, fitted, width, height, x0, y0);

    var edgeSample := lib.fill(src, fitW, fitH, NearestNeighbor);
    var topRow: seq<NRGBA> := [];
    var bottomRow: seq<NRGBA> := [];
    for x := 0 to fitW
      invariant |topRow| == x && |bottomRow| == x
      invariant forall i :: 0 <= i < x ==> topRow[i] == EdgeColour(edgeSample, i, 0)
      invariant forall i :: 0 <= i < x ==> bottomRow[i] == EdgeColour(edgeSample, i, fitH - 1)
    {
      topRow := topRow + [ColorToNRGBA(At(edgeSample, x, 0))];
      bottomRow := bottomRow + [ColorToNRGBA(At(edgeSample, x, fitH - 1))];
    }

    var bg := new NRGBA[width, height]((x, y) => Transparent);
    PaintLayers(bg, lib, src, fitted, width, height, x0, y0, topRow, bottomRow);

    forall x, y | 0 <= x < width && 0 <= y < height
      ensures bg[x, y] == Pixel(lib, p, x, y)
    {
      AllStages(lib, p, x, y);
    }

    var img := Snapshot(bg);
    assert img.rows == Stretched(lib, p, width, height).rows by {
      forall y | 0 <= y < height
        ensures img.rows[y] == Stretched(lib, p, width, height).rows[y]
      {
      }
    }
    return Ok(img);
  }

  // ---------------------------------------------------------------- what the buffer shows

  /** Pixel (x, y) of the background stretchBackground returns. */
  function Shown(lib: Imaging, src: Image, fitted: Image, width: int, height: int, x0: int, y0: int, x: int, y: int): NRGBA
  {
    Pixel(lib, StretchPlan(lib, src, fitted, width, height, x0, y0), x, y)
  }

  /** The photo's rectangle shows the fitted photo composited over opaque black. */
  lemma StretchShowsPhoto(lib: Imaging, src: Image, fitted: Image, width: int, height: int, x0: int, y0: int, x: int, y: int)
    requires fitted.width > 0 && fitted.height > 0
    requires 0 <= x < width && 0 <= y < height
    requires x0 <= x < x0 + fitted.width && y0 <= y < y0 + fitted.height
    ensures Shown(lib, src, fitted, width, height, x0, y0, x, y) == lib.over(At(fitted, x - x0, y - y0), OpaqueBlack)
  {
  }

  /** Left and right of the photo, every pixel repeats the photo pixel of the same row in
      the nearest column. */
  lemma StretchShowsSideEdges(lib: Imaging, src: Image, fitted: Image, width: int, height: int, x0: int, y0: int, x: int, y: int)
    requires fitted.width > 0 && fitted.height > 0
    requires 0 <= x < width && 0 <= y < height && y0 <= y < y0 + fitted.height
    ensures x < x0 ==> Shown(lib, src, fitted, width, height, x0, y0, x, y) == At(fitted, 0, y - y0)
    ensures x0 + fitted.width <= x ==>
      Shown(lib, src, fitted, width, height, x0, y0, x, y) == At(fitted, fitted.width - 1, y - y0)
  {
  }

  /** Above and below the photo, every pixel repeats the photo pixel of the same column in
      the nearest row. */
  lemma StretchShowsTopBottomEdges(lib: Imaging, src: Image, fitted: Image, width: int, height: int, x0: int, y0: int, x: int, y: int)
    requires fitted.width > 0 && fitted.height > 0
    requires 0 <= x < width && 0 <= y < height && x0 <= x < x0 + fitted.width
    ensures y < y0 ==> Shown(lib, src, fitted, width, height, x0, y0, x, y) == At(fitted, x - x0, 0)
    ensures y0 + fitted.height <= y ==>
      Shown(lib, src, fitted, width, height, x0, y0, x, y) == At(fitted, x - x0, fitted.height - 1)
  {
  }

  /** The four corner gaps are flat, each in the colour of the matching corner of the edge sample. */
  lemma StretchShowsCorners(lib: Imaging, src: Image, fitted: Image, width: int, height: int, x0: int, y0: int, x: int, y: int)
    requires fitted.width > 0 && fitted.height > 0
    requires 0 <= x < width && 0 <= y < height
    ensures x < x0 && y < y0 ==>
      Shown(lib, src, fitted, width, height, x0, y0, x, y) == EdgeColour(EdgeSample(lib, src, fitted), 0, 0)
    ensures x0 + fitted.width <= x && y < y0 ==>
      Shown(lib, src, fitted, width, height, x0, y0, x, y) == EdgeColour(EdgeSample(lib, src, fitted), fitted.width - 1, 0)
    ensures x < x0 && y0 + fitted.height <= y ==>
      Shown(lib, src, fitted, width, height, x0, y0, x, y) == EdgeColour(EdgeSample(lib, src, fitted), 0, fitted.height - 1)
    ensures x0 + fitted.width <= x && y0 + fitted.height <= y ==>
      Shown(lib, src, fitted, width, height, x0, y0, x, y)
      == EdgeColour(EdgeSample(lib, src, fitted), fitted.width - 1, fitted.height - 1)
  {
  }

  // ---------------------------------------------------------------- cornerColorsFlat

  /** cornerColorsFlat: the pair of edge colours for a corner pixel, from the top or bottom
      row and the left or right column; a pixel in no other corner counts as bottom-right.
      The Go function only reads the indices of the branch it takes; the requires ask for all
      four corners of every row and column at once, which is stronger than each branch needs.
      cornerColorsFlat has no caller in the source, so this changes no behaviour. */
  function CornerColorsFlat(x: int, y: int, x0: int, y0: int, fitW: int, fitH: int,
                            topRow: seq<NRGBA>, bottomRow: seq<NRGBA>,
                            leftCol: seq<NRGBA>, rightCol: seq<NRGBA>): (pair: (NRGBA, NRGBA))
    requires 1 <= fitW <= |topRow| && fitW <= |bottomRow|
    requires 1 <= fitH <= |leftCol| && fitH <= |rightCol|
    ensures pair.0 in {topRow[0], topRow[fitW - 1], bottomRow[0], bottomRow[fitW - 1]}
    ensures pair.1 in {leftCol[0], rightCol[0], leftCol[fitH - 1], rightCol[fitH - 1]}
  {
    if x < x0 && y < y0 then (topRow[0], leftCol[0])
    else if x >= x0 + fitW && y < y0 then (topRow[fitW - 1], rightCol[0])
    else if x < x0 && y >= y0 + fitH then (bottomRow[0], leftCol[fitH - 1])
    else (bottomRow[fitW - 1], rightCol[fitH - 1])
  }

  /** The edge-sample row that stretchBackground keeps as topRow (row 0) or bottomRow. */
  function EdgeRowOf(edge: Image, row: int, n: nat): (r: seq<NRGBA>)
    ensures |r| == n && forall i :: 0 <= i < n ==> r[i] == EdgeColour(edge, i, row)
  {
    seq(n, i => EdgeColour(edge, i, row))
  }

  /** In each corner gap the stretched background has the first colour cornerColorsFlat gives
      for that pixel, taken from the same edge rows. */
  lemma CornerColorsAgree(lib: Imaging, src: Image, fitted: Image, width: int, height: int, x0: int, y0: int,
                          x: int, y: int, leftCol: seq<NRGBA>, rightCol: seq<NRGBA>)
    requires fitted.width > 0 && fitted.height > 0
    requires fitted.height <= |leftCol| && fitted.height <= |rightCol|
    requires 0 <= x < width && 0 <= y < height
    requires (x < x0 || x0 + fitted.width <= x) && (y < y0 || y0 + fitted.height <= y)
    ensures Shown(lib, src, fitted, width, height, x0, y0, x, y)
         == CornerColorsFlat(x, y, x0, y0, fitted.width, fitted.height,
                             EdgeRowOf(EdgeSample(lib, src, fitted), 0, fitted.width),
                             EdgeRowOf(EdgeSample(lib, src, fitted), fitted.height - 1, fitted.width),
                             leftCol, rightCol).0
  {
    StretchShowsCorners(lib, src, fitted, width, height, x0, y0, x, y);
  }
}
