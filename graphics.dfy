/**
 * The external capabilities the core calls into, kept uninterpreted: the `imaging` resampling
 * and blur functions, draw.Over compositing of one pixel, and font loading are fields of a
 * record of functions; the gg drawing context is a canvas that records, in order, the calls
 * made on it.
 */
module Graphics {
  import opened Wrappers
  import opened Raster

  datatype Filter = Lanczos | NearestNeighbor

  /** The image library, as functions the model knows nothing about. */
  datatype Imaging = Imaging(
    fit: (Image, int, int) -> Image,              // imaging.Fit(img, w, h, imaging.Lanczos)
    fill: (Image, int, int, Filter) -> Image,     // imaging.Fill(img, w, h, imaging.Center, filter)
    resize: (Image, int, int, Filter) -> Image,   // imaging.Resize(img, w, h, filter)
    blur: (Image, real) -> Image,                 // imaging.Blur(img, sigma)
    over: (NRGBA, NRGBA) -> NRGBA,                // draw.Over of a source pixel onto a destination pixel
    fontLoads: (string, real) -> bool,            // whether gg's LoadFontFace(path, size) succeeds
    decode: seq<Byte> -> Option<Image>)           // imaging.Decode with AutoOrientation(true); None on error

  /** gg's current colour: channels and alpha as fractions. */
  datatype RGBAf = RGBAf(r: real, g: real, b: real, a: real)

  /** One call on the gg context. */
  datatype Op =
    | SetColor(color: RGBAf)
    | Clear
    | DrawRectangle(x: real, y: real, w: real, h: real)
    | Fill
    | DrawImage(img: Image, left: int, top: int)
    | LoadFontFace(path: string, size: real)
    | DrawStringAnchored(text: string, x: real, y: real, ax: real, ay: real)

  /** gg.Context of a fixed size; `ops` is everything drawn on it so far. */
  class Canvas {
    const width: int
    const height: int
    var ops: seq<Op>

    /** gg.NewContext. */
    constructor (w: int, h: int)
      ensures width == w && height == h && ops == []
    {
      width, height := w, h;
      ops := [];
    }

    method SetRGBA(r: real, g: real, b: real, a: real)
      modifies this
      ensures ops == old(ops) + [SetColor(RGBAf(r, g, b, a))]
    {
      ops := ops + [SetColor(RGBAf(r, g, b, a))];
    }

    method SetRGB(r: real, g: real, b: real)
      modifies this
      ensures ops == old(ops) + [SetColor(RGBAf(r, g, b, 1.0))]
    {
      ops := ops + [SetColor(RGBAf(r, g, b, 1.0))];
    }

    method ClearCanvas()
      modifies this
      ensures ops == old(ops) + [Clear]
    {
      ops := ops + [Clear];
    }

    method Rectangle(x: real, y: real, w: real, h: real)
      modifies this
      ensures ops == old(ops) + [DrawRectangle(x, y, w, h)]
    {
      ops := ops + [DrawRectangle(x, y, w, h)];
    }

    method FillPath()
      modifies this
      ensures ops == old(ops) + [Fill]
    {
      ops := ops + [Fill];
    }

    method Draw(img: Image, x: int, y: int)
      modifies this
      ensures ops == old(ops) + [DrawImage(img, x, y)]
    {
      ops := ops + [DrawImage(img, x, y)];
    }

    method DrawString(text: string, x: real, y: real, ax: real, ay: real)
      modifies this
      ensures ops == old(ops) + [DrawStringAnchored(text, x, y, ax, ay)]
    {
      ops := ops + [DrawStringAnchored(text, x, y, ax, ay)];
    }

    /** LoadFontFace: on failure nothing is recorded and the context keeps its face. */
    method LoadFont(lib: Imaging, path: string, size: real) returns (ok: bool)
      modifies this
      ensures ok == lib.fontLoads(path, size)
      ensures ops == if ok then old(ops) + [LoadFontFace(path, size)] else old(ops)
    {
      ok := lib.fontLoads(path, size);
      if ok {
        ops := ops + [LoadFontFace(path, size)];
      }
    }
  }
}
