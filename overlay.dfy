/**
  The overlay renderer: what one call of `drawDetections` draws, stated as
  a command sequence, and the page session that owns the current detection
  list and redraws it when the slider moves, when results arrive, and
  clears it when the user goes back.
 */
module Overlay {
  import opened Text
  import opened Colors
  import opened Detections
  import opened TagLayout
  import opened Drawing

  const BoxLineWidth: real := 4.0
  const BoxShadowBlur: real := 4.0

  /** The three commands drawn for one shown detection: its box, its tag's background, its tag's text. */
  function DetectionCommands(d: Detection, measure: (Utf16, real) -> Length): seq<Command> {
    var box := BoxOf(d.bbox);
    var color := LabelColor(d.name);
    var fontSize := FontSize(box.w);
    var text := TagText(d.name, d.confidence);
    [ StrokeRect(color, BoxLineWidth, Black, BoxShadowBlur, box),
      FillRect(color, Black, 0.0, TagBackground(box.x, box.y, fontSize, measure(text, fontSize))),
      FillText(White, fontSize, Black, 0.0, text, TextAnchor(box.x, box.y)) ]
  }

  /** The commands `draw` produces for each detection of `shown`, one detection after another. */
  function DrawEach(shown: seq<Detection>, draw: Detection -> seq<Command>): seq<Command> {
    if shown == [] then []
    else DrawEach(shown[..|shown| - 1], draw) + draw(shown[|shown| - 1])
  }

  /** The drawing step of the overlay, as the function `forEach` is given. */
  function Drawer(measure: (Utf16, real) -> Length): Detection -> seq<Command> {
    d => DetectionCommands(d, measure)
  }

  /** The commands for a list of shown detections, drawn one after another. */
  function DrawAll(shown: seq<Detection>, measure: (Utf16, real) -> Length): seq<Command> {
    DrawEach(shown, Drawer(measure))
  }

  /** Everything one call of `drawDetections(detections, threshold)` draws. */
  function RenderLog(detections: seq<Detection>, threshold: real, measure: (Utf16, real) -> Length): seq<Command> {
    [Clear] + DrawAll(Visible(detections, threshold), measure)
  }

  /** The context's drawing state once the detections `shown` have been drawn from state `s`. */
  function SettingsAfter(s: Settings, shown: seq<Detection>): Settings {
    if shown == [] then s else SettingsAfterDetection(shown[|shown| - 1])
  }

  /** The context's drawing state once detection `d` has been drawn, from any state. */
  function SettingsAfterDetection(d: Detection): Settings {
    Settings(LabelColor(d.name), White, BoxLineWidth, Black, 0.0, FontSize(BoxOf(d.bbox).w))
  }

  /** A drawing step that issues three commands and never clears. */
  ghost predicate ThreeCommands(draw: Detection -> seq<Command>) {
    forall d :: |draw(d)| == 3 && Clear !in draw(d)
  }

  /** Each detection costs three commands. */
  lemma {:induction false} DrawEachLength(shown: seq<Detection>, draw: Detection -> seq<Command>)
    requires ThreeCommands(draw)
    ensures |DrawEach(shown, draw)| == 3 * |shown|
  {
    if shown != [] {
      DrawEachLength(shown[..|shown| - 1], draw);
    }
  }

  /** Drawing the shown detections never clears the surface. */
  lemma {:induction false} DrawEachNoClear(shown: seq<Detection>, draw: Detection -> seq<Command>)
    requires ThreeCommands(draw)
    ensures Clear !in DrawEach(shown, draw)
  {
    if shown != [] {
      DrawEachNoClear(shown[..|shown| - 1], draw);
      assert Clear !in draw(shown[|shown| - 1]);
    }
  }

  /**
    The commands for the k-th shown detection are the k-th group of three:
    detections are drawn in the order received, later ones over earlier ones.
   */
  lemma {:induction false} DrawEachGroup(shown: seq<Detection>, draw: Detection -> seq<Command>, k: nat)
    requires ThreeCommands(draw) && k < |shown|
    ensures |DrawEach(shown, draw)| == 3 * |shown|
    ensures DrawEach(shown, draw)[3 * k..3 * k + 3] == draw(shown[k])
  {
    var prefix := shown[..|shown| - 1];
    DrawEachLength(shown, draw);
    DrawEachLength(prefix, draw);
    var all := DrawEach(shown, draw);
    assert all == DrawEach(prefix, draw) + draw(shown[|shown| - 1]);
    if k < |prefix| {
      DrawEachGroup(prefix, draw, k);
      assert all[3 * k..3 * k + 3] == DrawEach(prefix, draw)[3 * k..3 * k + 3];
      assert shown[k] == prefix[k];
    }
  }

  /** A log holding a clear and the drawing of the first `i` shown detections, extended by the drawing of the next one, holds the drawing of the first `i + 1`. */
  lemma DrawEachExtend(before: seq<Command>, shown: seq<Detection>, i: nat, draw: Detection -> seq<Command>,
                       log: seq<Command>)
    requires i < |shown|
    requires log == before + ([Clear] + DrawEach(shown[..i], draw)) + draw(shown[i])
    ensures log == before + ([Clear] + DrawEach(shown[..i + 1], draw))
  {
    assert shown[..i + 1][..i] == shown[..i];
  }

  /** Drawing one more detection leaves the state that detection sets. */
  lemma SettingsExtend(s: Settings, shown: seq<Detection>, i: nat)
    requires i < |shown|
    ensures SettingsAfter(s, shown[..i + 1]) == SettingsAfterDetection(shown[i])
  {
  }

  /** The overlay's drawing step issues three commands and never clears. */
  lemma DetectionCommandsThree(measure: (Utf16, real) -> Length)
    ensures ThreeCommands(Drawer(measure))
  {
  }

  /**
    After a render the surface shows exactly the drawing of the shown
    detections, whatever was drawn before: the picture depends on nothing
    but the detections, the threshold and the font metrics.
   */
  lemma RenderReplacesPicture(before: seq<Command>, detections: seq<Detection>, threshold: real,
                              measure: (Utf16, real) -> Length)
    ensures Picture(before + RenderLog(detections, threshold, measure))
            == DrawAll(Visible(detections, threshold), measure)
  {
    DetectionCommandsThree(measure);
    DrawEachNoClear(Visible(detections, threshold), Drawer(measure));
    PictureAfterClear(before, DrawAll(Visible(detections, threshold), measure));
  }

  /** A log that received a clear and then the drawing of the shown detections received exactly the render. */
  lemma RenderLogged(before: seq<Command>, log: seq<Command>, detections: seq<Detection>, threshold: real,
                     measure: (Utf16, real) -> Length)
    requires log == before + ([Clear] + DrawEach(Visible(detections, threshold), Drawer(measure)))
    ensures log == before + RenderLog(detections, threshold, measure)
    ensures Picture(log) == DrawAll(Visible(detections, threshold), measure)
  {
    RenderReplacesPicture(before, detections, threshold, measure);
  }

  /** Rendering the same detections at the same threshold twice shows the same picture as rendering once. */
  lemma RenderIdempotent(before: seq<Command>, detections: seq<Detection>, threshold: real,
                         measure: (Utf16, real) -> Length)
    ensures var once := before + RenderLog(detections, threshold, measure);
            Picture(once + RenderLog(detections, threshold, measure)) == Picture(once)
  {
    var once := before + RenderLog(detections, threshold, measure);
    RenderReplacesPicture(before, detections, threshold, measure);
    RenderReplacesPicture(once, detections, threshold, measure);
  }

  /** No detections: the render is the clear and nothing else. */
  lemma EmptyRender(threshold: real, measure: (Utf16, real) -> Length)
    ensures Count([], threshold) == 0
    ensures RenderLog([], threshold, measure) == [Clear]
  {
  }

  /**
    One detection is drawn as its box stroked in the label's colour with a
    4px line and a blurred black shadow; then the tag background, filled in
    the same colour without blur, its left edge on the box's left edge and
    its bottom edge on the box's top edge; then the tag text in white, in a
    font of 14 to 24px, 4px in from the background's lower-left corner.
   */
  lemma DetectionDrawing(d: Detection, measure: (Utf16, real) -> Length)
    ensures var cmds := DetectionCommands(d, measure);
            var box := BoxOf(d.bbox);
            && |cmds| == 3
            && cmds[0].StrokeRect?
            && cmds[0].style == LabelColor(d.name)
            && cmds[0].rect == box
            && cmds[0].lineWidth == BoxLineWidth && cmds[0].shadowBlur == BoxShadowBlur
            && cmds[1].FillRect?
            && cmds[1].style == LabelColor(d.name)
            && cmds[1].shadowBlur == 0.0
            && cmds[1].rect.x == box.x
            && cmds[1].rect.y + cmds[1].rect.h == box.y
            && cmds[2].FillText?
            && cmds[2].style == White
            && cmds[2].shadowBlur == 0.0
            && cmds[2].text == TagText(d.name, d.confidence)
            && MinFontSize <= cmds[2].fontSize <= MaxFontSize
            && cmds[2].at == Point(box.x + Padding, box.y - Padding)
  {
  }

  /**
    The render is the clear followed by three commands per shown detection,
    the k-th shown detection's commands at positions 3k+1 to 3k+3.
   */
  lemma RenderedDetection(detections: seq<Detection>, threshold: real, measure: (Utf16, real) -> Length, k: nat)
    requires k < Count(detections, threshold)
    ensures |RenderLog(detections, threshold, measure)| == 1 + 3 * Count(detections, threshold)
    ensures RenderLog(detections, threshold, measure)[3 * k + 1..3 * k + 4]
            == DetectionCommands(Visible(detections, threshold)[k], measure)
  {
    var shown := Visible(detections, threshold);
    var draw := Drawer(measure);
    DetectionCommandsThree(measure);
    DrawEachGroup(shown, draw, k);
    var drawing := DrawEach(shown, draw);
    assert RenderLog(detections, threshold, measure) == [Clear] + drawing;
    SliceAfterClear(drawing, 3 * k, 3 * k + 3);
    assert drawing[3 * k..3 * k + 3] == DetectionCommands(shown[k], measure);
  }

  /** Behind the leading clear, positions shift by one. */
  lemma SliceAfterClear(drawing: seq<Command>, i: nat, j: nat)
    requires i <= j <= |drawing|
    ensures ([Clear] + drawing)[i + 1..j + 1] == drawing[i..j]
  {
  }

  /** Two shown detections with the same label get the same box colour and the same tag colour. */
  lemma SameLabelSameColors(detections: seq<Detection>, threshold: real, measure: (Utf16, real) -> Length,
                            j: nat, k: nat)
    requires j < Count(detections, threshold) && k < Count(detections, threshold)
    requires Visible(detections, threshold)[j].name == Visible(detections, threshold)[k].name
    ensures var log := RenderLog(detections, threshold, measure);
            && |log| == 1 + 3 * Count(detections, threshold)
            && log[3 * j + 1].StrokeRect? && log[3 * k + 1].StrokeRect?
            && log[3 * j + 2].FillRect? && log[3 * k + 2].FillRect?
            && log[3 * j + 1].style == log[3 * k + 1].style == log[3 * j + 2].style == log[3 * k + 2].style
  {
    var log := RenderLog(detections, threshold, measure);
    var shown := Visible(detections, threshold);
    RenderedDetection(detections, threshold, measure, j);
    RenderedDetection(detections, threshold, measure, k);
    GroupElements(log, 3 * j + 1, DetectionCommands(shown[j], measure));
    GroupElements(log, 3 * k + 1, DetectionCommands(shown[k], measure));
  }

  /** The elements of a group of three read off a slice. */
  lemma GroupElements(log: seq<Command>, i: nat, group: seq<Command>)
    requires i + 3 <= |log| && log[i..i + 3] == group
    ensures |group| == 3 && log[i] == group[0] && log[i + 1] == group[1] && log[i + 2] == group[2]
  {
  }

  /** Three single appends are one append of three. */
  lemma AppendThree(before: seq<Command>, a: Command, b: Command, c: Command)
    ensures before + [a] + [b] + [c] == before + [a, b, c]
  {
  }

  /** The page's state: the output canvas, the detections of the current image, and the controls it writes. */
  class Session {
    const canvas: Canvas
    /** `currentDetections`. */
    var currentDetections: seq<Detection>
    /** The confidence slider's position, a whole percentage. */
    var sliderValue: int
    /** The slider's caption, `${value}%`. */
    var sliderCaption: Utf16
    /** The number written into the object counter. */
    var objectCount: nat

    /** `let currentDetections = []`; the slider, its caption and the counter start as the page's markup has them. */
    constructor (canvas: Canvas, sliderValue: int, sliderCaption: Utf16, objectCount: nat)
      ensures this.canvas == canvas && currentDetections == []
      ensures this.sliderValue == sliderValue && this.sliderCaption == sliderCaption
      ensures this.objectCount == objectCount
    {
      this.canvas := canvas;
      currentDetections := [];
      this.sliderValue := sliderValue;
      this.sliderCaption := sliderCaption;
      this.objectCount := objectCount;
    }

    /** `drawDetections(detections, threshold)`. */
    method DrawDetections(detections: seq<Detection>, threshold: real)
      modifies canvas, this`objectCount
      ensures canvas.log == old(canvas.log) + RenderLog(detections, threshold, canvas.measure)
      ensures Picture(canvas.log) == DrawAll(Visible(detections, threshold), canvas.measure)
      ensures canvas.Current() == SettingsAfter(old(canvas.Current()), Visible(detections, threshold))
      ensures objectCount == Count(detections, threshold)
    {
      canvas.ClearAll();
      var visible := Visible(detections, threshold);
      objectCount := |visible|;
      ghost var draw := Drawer(canvas.measure);
      for i := 0 to |visible|
        invariant canvas.log == old(canvas.log) + ([Clear] + DrawEach(visible[..i], draw))
        invariant canvas.Current() == SettingsAfter(old(canvas.Current()), visible[..i])
        invariant objectCount == |visible|
      {
        DrawDetection(visible[i]);
        DrawEachExtend(old(canvas.log), visible, i, draw, canvas.log);
        SettingsExtend(old(canvas.Current()), visible, i);
      }
      assert visible[..|visible|] == visible;
      RenderLogged(old(canvas.log), canvas.log, detections, threshold, canvas.measure);
    }

    /** The body of the `forEach` over the shown detections: box, tag background, tag text. */
    method DrawDetection(det: Detection)
      modifies canvas
      ensures canvas.log == old(canvas.log) + Drawer(canvas.measure)(det)
      ensures canvas.Current() == SettingsAfterDetection(det)
    {
      ghost var before := canvas.log;
      ghost var box := BoxOf(det.bbox);
      var x1, y1, x2, y2 := det.bbox.x1, det.bbox.y1, det.bbox.x2, det.bbox.y2;
      var width, height := x2 - x1, y2 - y1;
      assert Rect(x1, y1, width, height) == box;
      var color := GetLabelColor(det.name);

      canvas.strokeStyle := color;
      canvas.lineWidth := BoxLineWidth;
      canvas.shadowColor := Black;
      canvas.shadowBlur := BoxShadowBlur;
      canvas.StrokeRect(x1, y1, width, height);
      ghost var stroke := Command.StrokeRect(color, BoxLineWidth, Black, BoxShadowBlur, box);
      assert canvas.log == before + [stroke];
      canvas.shadowBlur := 0.0;

      canvas.fillStyle := color;
      var fontSize := FontSize(width);
      canvas.fontSize := fontSize;
      var text := TagText(det.name, det.confidence);
      var textWidth := canvas.MeasureText(text);
      assert canvas.fillStyle == color && canvas.shadowColor == Black && canvas.shadowBlur == 0.0;
      canvas.FillRect(x1, y1 - fontSize - Padding * 2.0, textWidth + Padding * 2.0, fontSize + Padding * 2.0);
      ghost var background := Command.FillRect(color, Black, 0.0, TagBackground(box.x, box.y, fontSize, textWidth));
      assert canvas.log == before + [stroke] + [background];

      canvas.fillStyle := White;
      canvas.FillText(text, x1 + Padding, y1 - Padding);
      ghost var caption := Command.FillText(White, fontSize, Black, 0.0, text, TextAnchor(box.x, box.y));
      assert canvas.log == before + [stroke] + [background] + [caption];
      AppendThree(before, stroke, background, caption);
      assert [stroke, background, caption] == DetectionCommands(det, canvas.measure);
      assert canvas.Current() == Settings(color, White, BoxLineWidth, Black, 0.0, fontSize);
    }

    /** The slider's `input` handler: caption `${value}%`, then a redraw at `value / 100`. */
    method OnSliderInput(value: int)
      modifies this, canvas
      ensures sliderValue == value && sliderCaption == Decimal(value) + [Percent]
      ensures currentDetections == old(currentDetections)
      ensures canvas.log == old(canvas.log) + RenderLog(currentDetections, SliderThreshold(value), canvas.measure)
      ensures Picture(canvas.log) == DrawAll(Visible(currentDetections, SliderThreshold(value)), canvas.measure)
      ensures canvas.Current() == SettingsAfter(old(canvas.Current()), Visible(currentDetections, SliderThreshold(value)))
      ensures objectCount == Count(currentDetections, SliderThreshold(value))
    {
      sliderValue := value;
      sliderCaption := Decimal(value) + [Percent];
      DrawDetections(currentDetections, SliderThreshold(value));
    }

    /** Results from the backend: they become the current detections and are drawn at the slider's threshold. */
    method OnDetectionsReceived(detections: seq<Detection>)
      modifies this, canvas
      ensures currentDetections == detections
      ensures sliderValue == old(sliderValue) && sliderCaption == old(sliderCaption)
      ensures canvas.log == old(canvas.log) + RenderLog(detections, SliderThreshold(sliderValue), canvas.measure)
      ensures Picture(canvas.log) == DrawAll(Visible(detections, SliderThreshold(sliderValue)), canvas.measure)
      ensures canvas.Current() == SettingsAfter(old(canvas.Current()), Visible(detections, SliderThreshold(sliderValue)))
      ensures objectCount == Count(detections, SliderThreshold(sliderValue))
    {
      currentDetections := detections;
      DrawDetections(currentDetections, SliderThreshold(sliderValue));
    }

    /** The back button: the detections are dropped and the whole canvas is cleared. */
    method OnBack()
      modifies this, canvas
      ensures currentDetections == []
      ensures canvas.log == old(canvas.log) + [Clear] && Picture(canvas.log) == []
      ensures canvas.Current() == old(canvas.Current())
      ensures sliderValue == old(sliderValue) && sliderCaption == old(sliderCaption)
      ensures objectCount == old(objectCount)
    {
      currentDetections := [];
      canvas.ClearAll();
    }
  }
}
