/**
 * The pixel and image values the core reads: Go's color.NRGBA, the 16-bit alpha-premultiplied
 * values color.Color.RGBA() returns, and an image as rows of NRGBA pixels whose At gives the
 * zero colour outside its bounds, as image.NRGBA.At does.
 */
module Raster {

  type Byte = x: int | 0 <= x < 256
  type Word16 = x: int | 0 <= x < 0x1_0000

  /** color.NRGBA: 8-bit channels, not premultiplied. */
  datatype NRGBA = NRGBA(r: Byte, g: Byte, b: Byte, a: Byte)

  /** What color.Color.RGBA() returns: 16-bit channels, premultiplied by alpha. */
  datatype RGBA64 = RGBA64(r: Word16, g: Word16, b: Word16, a: Word16)

  const OpaqueBlack: NRGBA := NRGBA(0, 0, 0, 255)
  const Transparent: NRGBA := NRGBA(0, 0, 0, 0)

  /** One channel of NRGBA.RGBA(): widened to 16 bits by v | v << 8, then premultiplied. */
  function Premultiply(v: Byte, a: Byte): (w: Word16)
    ensures a == 255 ==> w == v * 257
  {
    var wide := v * 0x101;
    assert wide * a <= 0xFFFF * 0xFF;
    (wide * a) / 0xFF
  }

  /** color.NRGBA.RGBA(). */
  function RGBA(c: NRGBA): (p: RGBA64)
    ensures p.a == c.a * 257
  {
    RGBA64(Premultiply(c.r, c.a), Premultiply(c.g, c.a), Premultiply(c.b, c.a), c.a * 0x101)
  }

  datatype Raster = Raster(width: nat, height: nat, rows: seq<seq<NRGBA>>)

  predicate WellFormed(r: Raster)
  {
    |r.rows| == r.height && forall y :: 0 <= y < |r.rows| ==> |r.rows[y]| == r.width
  }

  /** An image with bounds (0, 0)-(width, height). */
  type Image = r: Raster | WellFormed(r) witness Raster(0, 0, [])

  /** image.NRGBA.At: the pixel inside the bounds, the zero colour outside. */
  function At(img: Image, x: int, y: int): (c: NRGBA)
    ensures !(0 <= x < img.width && 0 <= y < img.height) ==> c == Transparent
  {
    if 0 <= x < img.width && 0 <= y < img.height then img.rows[y][x] else Transparent
  }
}
