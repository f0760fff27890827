/**
 * Model of pkg/instafix/watermark.go: anchorForAlign turns an alignment keyword and pixel
 * offsets into a text anchor point and the anchor fractions of the text box.
 * The parse is total: an unknown word never fails, it only picks a default.
 */
module WatermarkAlign {
  import opened Strs

  /** The point (x, y) and the fractions (ax, ay) passed to DrawStringAnchored. */
  datatype Anchor = Anchor(x: real, y: real, ax: real, ay: real)

  const DefaultAlign: string := "bottom-center"

  predicate IsFraction(f: real)
  {
    f == 0.0 || f == 0.5 || f == 1.0
  }

  /** Trimmed, lower-cased, and "bottom-center" when nothing is left. */
  function NormalizedAlign(align: string): string
  {
    var a := ToLower(TrimSpace(align));
    if a == "" then DefaultAlign else a
  }

  /** The (vertical, horizontal) anchor words chosen from the dash-separated parts. */
  function AnchorWords(align: string): (vh: (string, string))
  {
    var parts := Split(NormalizedAlign(align), '-');
    if |parts| == 2 then (parts[0], parts[1])
    else if |parts| == 1 then
      var w := parts[0];
      if w == "top" || w == "bottom" then (w, "center")
      else if w == "left" || w == "right" then ("center", w)
      else if w == "center" || w == "middle" then ("center", "center")
      else ("bottom", w)
    else ("bottom", "center")
  }

  /** The horizontal switch: the x coordinate and ax for a horizontal word. */
  function Horizontal(word: string, w: real, offsetX: real): (xa: (real, real))
    ensures IsFraction(xa.1)
    ensures xa.1 == 0.0 <==> word == "left"
    ensures xa.1 == 1.0 <==> word == "right"
  {
    if word == "left" then (offsetX, 0.0)
    else if word == "right" then (w - offsetX, 1.0)
    else (w / 2.0 + offsetX, 0.5)
  }

  /** The vertical switch: the y coordinate and ay for a vertical word. */
  function Vertical(word: string, h: real, offsetY: real): (ya: (real, real))
    ensures IsFraction(ya.1)
    ensures ya.1 == 0.0 <==> word == "top"
    ensures ya.1 == 0.5 <==> (word == "center" || word == "middle")
  {
    if word == "top" then (offsetY, 0.0)
    else if word == "center" || word == "middle" then (h / 2.0 + offsetY, 0.5)
    else (h - offsetY, 1.0)
  }

  /** anchorForAlign: total, and the fractions are always 0, 0.5 or 1. */
  function AnchorForAlign(width: int, height: int, align: string, offsetX: real, offsetY: real): (a: Anchor)
    ensures IsFraction(a.ax) && IsFraction(a.ay)
    ensures a.ax == 0.0 ==> a.x == offsetX
    ensures a.ax == 1.0 ==> a.x == width as real - offsetX
    ensures a.ax == 0.5 ==> a.x == width as real / 2.0 + offsetX
    ensures a.ay == 0.0 ==> a.y == offsetY
    ensures a.ay == 0.5 ==> a.y == height as real / 2.0 + offsetY
    ensures a.ay == 1.0 ==> a.y == height as real - offsetY
  {
    var (v, h) := AnchorWords(align);
    var (x, ax) := Horizontal(h, width as real, offsetX);
    var (y, ay) := Vertical(v, height as real, offsetY);
    Anchor(x, y, ax, ay)
  }

  // ---------------------------------------------------------------- properties

  /** A blank alignment means bottom-center: centred horizontally, on the bottom edge. */
  lemma BlankAlignIsBottomCenter(width: int, height: int, align: string, offsetX: real, offsetY: real)
    requires AllSpace(align)
    ensures AnchorWords(align) == ("bottom", "center")
    ensures AnchorForAlign(width, height, align, offsetX, offsetY)
         == Anchor(width as real / 2.0 + offsetX, height as real - offsetY, 0.5, 1.0)
  {
    BlankAlignWords(align);
    CenterAndBottom(width as real, height as real, offsetX, offsetY);
  }

  /** "center" on the horizontal axis and "bottom" on the vertical one. */
  lemma CenterAndBottom(w: real, h: real, offsetX: real, offsetY: real)
    ensures Horizontal("center", w, offsetX) == (w / 2.0 + offsetX, 0.5)
    ensures Vertical("bottom", h, offsetY) == (h - offsetY, 1.0)
  {
    assert "center" != "left" && "center" != "right";
    assert "bottom" != "top" && "bottom" != "center" && "bottom" != "middle";
  }

  /** A blank alignment is read as the words of the default, "bottom-center". */
  lemma BlankAlignWords(align: string)
    requires AllSpace(align)
    ensures AnchorWords(align) == ("bottom", "center")
  {
    assert TrimSpace(align) == "";
    assert NormalizedAlign(align) == DefaultAlign;
    DefaultAlignSplits();
    assert Split(NormalizedAlign(align), '-') == ["bottom", "center"];
  }

  /** "bottom-center" splits into its two words. */
  lemma DefaultAlignSplits()
    ensures Split(DefaultAlign, '-') == ["bottom", "center"]
  {
    SplitPair("bottom", "center", '-');
    assert "bottom" + ['-'] + "center" == DefaultAlign;
  }

  /** A word that is already in normal form: lower-case, no dash, no surrounding space. */
  predicate PlainWord(s: string)
  {
    IsLower(s) && '-' !in s && (s == "" || (!IsSpace(s[0]) && !IsSpace(s[|s| - 1])))
  }

  /** The two-part form "v-h" puts v on the vertical axis and h on the horizontal one. */
  lemma TwoPartForm(v: string, h: string)
    requires PlainWord(v) && PlainWord(h)
    ensures AnchorWords(v + "-" + h) == (v, h)
  {
    JoinedIsNormal(v, h);
    SplitPair(v, h, '-');
  }

  /** Two plain words joined by a dash are already trimmed and lower-case. */
  lemma JoinedIsNormal(v: string, h: string)
    requires PlainWord(v) && PlainWord(h)
    ensures NormalizedAlign(v + "-" + h) == v + "-" + h
  {
    var s := v + "-" + h;
    assert s[0] == (if v == "" then '-' else v[0]);
    assert s[|s| - 1] == (if h == "" then '-' else h[|h| - 1]);
    TrimSpaceOfTrimmed(s);
    JoinedIsLower(v, h);
    ToLowerOfLower(s);
  }

  /** Joining lower-case words with a dash keeps the result lower-case. */
  lemma JoinedIsLower(v: string, h: string)
    requires IsLower(v) && IsLower(h)
    ensures IsLower(v + "-" + h)
  {
    var s := v + "-" + h;
    forall i | 0 <= i < |s| ensures !('A' <= s[i] <= 'Z') {
      if i < |v| { assert s[i] == v[i]; } else if i > |v| { assert s[i] == h[i - |v| - 1]; }
    }
  }

  /** The single-word table: top/bottom keep center horizontally, left/right keep center
      vertically, center/middle centre both, and any other word is horizontal over bottom. */
  lemma SingleWordForm(w: string)
    requires PlainWord(w) && w != ""
    ensures AnchorWords(w) ==
      if w == "top" || w == "bottom" then (w, "center")
      else if w == "left" || w == "right" then ("center", w)
      else if w == "center" || w == "middle" then ("center", "center")
      else ("bottom", w)
  {
    TrimSpaceOfTrimmed(w);
    ToLowerOfLower(w);
    SplitNoSep(w, '-');
  }

  /** Three or more dash-separated parts keep the defaults: bottom, center. */
  lemma ManyPartsKeepDefaults(align: string)
    requires Count(NormalizedAlign(align), '-') >= 2
    ensures AnchorWords(align) == ("bottom", "center")
  {
    SplitCount(NormalizedAlign(align), '-');
  }

  /** Left and right anchors mirror each other about the vertical centre line. */
  lemma LeftRightMirror(width: int, height: int, offsetX: real, offsetY: real)
    ensures AnchorForAlign(width, height, "left", offsetX, offsetY).x
          + AnchorForAlign(width, height, "right", offsetX, offsetY).x == width as real
  {
    HorizontalWord("left");
    HorizontalWord("right");
  }

  /** A horizontal word on its own keeps the vertical centre. */
  lemma HorizontalWord(w: string)
    requires w == "left" || w == "right"
    ensures AnchorWords(w) == ("center", w)
  {
    assert PlainWord(w);
    SingleWordForm(w);
  }
}
