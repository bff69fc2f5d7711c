/**
  The output canvas' 2D context, reduced to what the overlay uses: the
  drawing state it sets (stroke and fill styles, line width, shadow, font
  size) and the calls it makes (`clearRect` over the whole surface,
  `strokeRect`, `fillRect`, `fillText`, `measureText`). Each drawing call
  appends a command to a log, recording the state it was drawn with; what
  the surface shows is the part of the log after the last full clear.
 */
module Drawing {
  import opened Text
  import opened Colors
  import opened TagLayout

  datatype Command =
    | Clear
    | StrokeRect(style: Color, lineWidth: real, shadowColor: Color, shadowBlur: real, rect: Rect)
    | FillRect(style: Color, shadowColor: Color, shadowBlur: real, rect: Rect)
    | FillText(style: Color, fontSize: real, shadowColor: Color, shadowBlur: real, text: Utf16, at: Point)

  /** The drawing state of the context. Only the font size varies; the font is always bold sans-serif. */
  datatype Settings = Settings(
    strokeStyle: Color, fillStyle: Color, lineWidth: real,
    shadowColor: Color, shadowBlur: real, fontSize: real)

  /** A fresh context: black strokes and fills, 1px lines, no shadow, a 10px font. */
  const InitialSettings := Settings(Black, Black, 1.0, TransparentBlack, 0.0, 10.0)

  /** The commands since the last full clear: what the surface shows, in painting order. */
  function Picture(log: seq<Command>): seq<Command> {
    if log == [] then []
    else if log[|log| - 1] == Clear then []
    else Picture(log[..|log| - 1]) + [log[|log| - 1]]
  }

  /** Whatever was drawn before, a full clear followed by clear-free drawing shows exactly that drawing. */
  lemma {:induction false} PictureAfterClear(before: seq<Command>, drawing: seq<Command>)
    requires Clear !in drawing
    ensures Picture(before + ([Clear] + drawing)) == drawing
  {
    var log := before + ([Clear] + drawing);
    if drawing == [] {
      assert log[|log| - 1] == Clear;
    } else {
      var last := drawing[|drawing| - 1];
      assert log[..|log| - 1] == before + ([Clear] + drawing[..|drawing| - 1]);
      PictureAfterClear(before, drawing[..|drawing| - 1]);
      assert drawing == drawing[..|drawing| - 1] + [last];
    }
  }

  class Canvas {
    const width: nat
    const height: nat
    /** `measureText(text).width` in a bold sans-serif font of the given size: font metrics are not modelled. */
    const measure: (Utf16, real) -> Length

    var strokeStyle: Color
    var fillStyle: Color
    var lineWidth: real
    var shadowColor: Color
    var shadowBlur: real
    var fontSize: real
    /** Every drawing call made on this context, oldest first. */
    var log: seq<Command>

    function Current(): Settings
      reads this
    {
      Settings(strokeStyle, fillStyle, lineWidth, shadowColor, shadowBlur, fontSize)
    }

    constructor (width: nat, height: nat, measure: (Utf16, real) -> Length)
      ensures this.width == width && this.height == height && this.measure == measure
      ensures Current() == InitialSettings && log == []
    {
      this.width, this.height, this.measure := width, height, measure;
      strokeStyle, fillStyle, lineWidth := Black, Black, 1.0;
      shadowColor, shadowBlur, fontSize := TransparentBlack, 0.0, 10.0;
      log := [];
    }

    /** `clearRect(0, 0, canvas.width, canvas.height)`. */
    method ClearAll()
      modifies this`log
      ensures log == old(log) + [Command.Clear]
      ensures Picture(log) == []
    {
      log := log + [Command.Clear];
    }

    /** `strokeRect(x, y, w, h)` with the current stroke style, line width and shadow. */
    method StrokeRect(x: real, y: real, w: real, h: real)
      modifies this`log
      ensures log == old(log) + [Command.StrokeRect(strokeStyle, lineWidth, shadowColor, shadowBlur, Rect(x, y, w, h))]
    {
      log := log + [Command.StrokeRect(strokeStyle, lineWidth, shadowColor, shadowBlur, Rect(x, y, w, h))];
    }

    /** `fillRect(x, y, w, h)` with the current fill style and shadow. */
    method FillRect(x: real, y: real, w: real, h: real)
      modifies this`log
      ensures log == old(log) + [Command.FillRect(fillStyle, shadowColor, shadowBlur, Rect(x, y, w, h))]
    {
      log := log + [Command.FillRect(fillStyle, shadowColor, shadowBlur, Rect(x, y, w, h))];
    }

    /** `fillText(text, x, y)` with the current fill style, font and shadow. */
    method FillText(text: Utf16, x: real, y: real)
      modifies this`log
      ensures log == old(log) + [Command.FillText(fillStyle, fontSize, shadowColor, shadowBlur, text, Point(x, y))]
    {
      log := log + [Command.FillText(fillStyle, fontSize, shadowColor, shadowBlur, text, Point(x, y))];
    }

    /** `measureText(text).width` at the current font size. */
    method MeasureText(text: Utf16) returns (w: Length)
      ensures w == measure(text, fontSize)
    {
      w := measure(text, fontSize);
    }
  }
}
