/**
  The geometry and text of the tag drawn above each shown box: the box's
  width and height, the font size derived from the width, the padded
  background rectangle sitting on the box's top edge, the text anchor, and
  the text `<label> <percentage>%`.
 */
module TagLayout {
  import opened Text
  import opened Detections

  /** A rectangle as the canvas API takes it: left, top, width, height. */
  datatype Rect = Rect(x: real, y: real, w: real, h: real)

  /** A measured text width: opaque, but never negative. */
  type Length = w: real | w >= 0.0

  const Padding: real := 4.0
  const MinFontSize: real := 14.0
  const MaxFontSize: real := 24.0

  /** The rectangle stroked for a detection: `(x1, y1, x2 - x1, y2 - y1)`. */
  function BoxOf(b: BBox): Rect {
    Rect(b.x1, b.y1, b.x2 - b.x1, b.y2 - b.y1)
  }

  /** `Math.max(14, Math.min(24, width / 5))`. */
  function FontSize(width: real): (f: real)
    ensures MinFontSize <= f <= MaxFontSize
    ensures 70.0 <= width <= 120.0 ==> f == width / 5.0
    ensures width <= 70.0 ==> f == MinFontSize
    ensures width >= 120.0 ==> f == MaxFontSize
  {
    var scaled := width / 5.0;
    var capped := if scaled < MaxFontSize then scaled else MaxFontSize;
    if capped > MinFontSize then capped else MinFontSize
  }

  /** A wider box never gets a smaller font. */
  lemma FontSizeMonotone(w1: real, w2: real)
    requires w1 <= w2
    ensures FontSize(w1) <= FontSize(w2)
  {
  }

  /**
    The tag's background: left edge at the box's left edge `x1`, bottom edge
    on the box's top edge `y1`, as wide as the text plus 4 on each side, as
    tall as the font plus 4 above and below.
   */
  function TagBackground(x1: real, y1: real, fontSize: real, textWidth: Length): Rect {
    Rect(x1, y1 - fontSize - Padding * 2.0, textWidth + Padding * 2.0, fontSize + Padding * 2.0)
  }

  /** Where `fillText` puts the text: `(x1 + 4, y1 - 4)`, the baseline's left end. */
  datatype Point = Point(x: real, y: real)

  function TextAnchor(x1: real, y1: real): Point {
    Point(x1 + Padding, y1 - Padding)
  }

  /**
    The background sits on the box's top edge, starting at its left edge, and
    is the text's size plus the padding on each side. The text fits it with
    the padding on every side: its left
    end is 4 right of the background's left edge, its right end 4 left of
    the right edge, its baseline 4 above the bottom edge, and a font-size
    tall line above the baseline leaves 4 to the top edge.
   */
  lemma TextInsideBackground(x1: real, y1: real, fontSize: real, textWidth: Length)
    ensures var r := TagBackground(x1, y1, fontSize, textWidth);
            var p := TextAnchor(x1, y1);
            && r.x == x1 && r.y + r.h == y1
            && r.w == textWidth + 2.0 * Padding && r.h == fontSize + 2.0 * Padding
            && p.x - r.x == Padding
            && (r.x + r.w) - (p.x + textWidth) == Padding
            && (r.y + r.h) - p.y == Padding
            && (p.y - fontSize) - r.y == Padding
  {
  }

  /** `${det.label} ${Math.round(det.confidence * 100)}%`. */
  function TagText(name: Utf16, confidence: real): Utf16 {
    name + [Space] + Decimal(Percentage(confidence)) + [Percent]
  }

  /**
    The text starts with the label and a space, ends with `%`, and no space
    follows the label's: the space after the label is the text's last one.
   */
  lemma TagTextShape(name: Utf16, confidence: real)
    ensures var t := TagText(name, confidence);
            && |t| >= |name| + 3
            && t[..|name|] == name && t[|name|] == Space && t[|t| - 1] == Percent
            && (forall i :: |name| < i < |t| ==> t[i] != Space)
  {
    var t := TagText(name, confidence);
    var d := Decimal(Percentage(confidence));
    DecimalShape(Percentage(confidence));
    assert t[..|name|] == name;
    forall i | |name| < i < |t|
      ensures t[i] != Space
    {
      if i < |t| - 1 {
        assert t[i] == d[i - |name| - 1];
        assert d[i - |name| - 1] in d;
      }
    }
  }

  /**
    A tag's text determines the label and the printed percentage: the label
    is everything before the last space, the percentage the number between
    that space and the closing `%`.
   */
  lemma TagTextDetermines(n1: Utf16, c1: real, n2: Utf16, c2: real)
    requires TagText(n1, c1) == TagText(n2, c2)
    ensures n1 == n2 && Percentage(c1) == Percentage(c2)
  {
    var t := TagText(n1, c1);
    TagTextShape(n1, c1);
    TagTextShape(n2, c2);
    assert |n1| == |n2|;
    var d1, d2 := Decimal(Percentage(c1)), Decimal(Percentage(c2));
    assert d1 == t[|n1| + 1..|t| - 1] == d2;
    DecimalInjective(Percentage(c1), Percentage(c2));
  }
}
