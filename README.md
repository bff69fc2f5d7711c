# Detection overlay model

This project models the browser-side overlay of an object-detection web page
(`static/script.js`). The backend returns detections, each with a label, a
confidence and a bounding box. The page keeps them as `currentDetections` and
draws the ones whose confidence reaches the slider's threshold onto the output
canvas. Each shown detection is drawn as three things:

- a box stroked in a colour hashed from its label;
- a filled tag background sitting on the box's top edge;
- the text `<label> <percentage>%` in white.

The model has six modules:

- `Text` (`text.dfy`): JavaScript strings as sequences of UTF-16 code units,
  and the decimal text of an integer as a template literal prints it, with its
  read-back.
- `Colors` (`label_color.dfy`): the colours, and the label colour hash. The
  hash is a specification function over the label's code units plus the loop
  of `getLabelColor` as a method proved to agree with it. The hash state is an
  unbounded integer, and the ECMAScript ToInt32 wrap is applied only inside
  `hash << 5`, exactly as the Number arithmetic of the source does.
- `Detections` (`detections.dfy`): detections, the slider's threshold
  (`value / 100`), the threshold filter and the object count. `Math.round`
  and the printed percentage are here too.
- `TagLayout` (`tag_layout.dfy`): the box rectangle, the clamped font size,
  the tag background, the text anchor and the tag text.
- `Drawing` (`canvas.dfy`): the 2D context as a class. It holds the drawing
  state the overlay sets and an append-only log of drawing commands: `Clear`,
  `StrokeRect`, `FillRect` and `FillText`, each recording the state it was
  drawn with. What the surface shows (`Picture`) is the part of the log after
  the last full clear.
- `Overlay` (`overlay.dfy`): what one render draws, as a function
  (`RenderLog`). The page state is the class `Session`, with `drawDetections`,
  the body of its `forEach`, and the three handlers that change
  `currentDetections` or redraw: slider input, results from the backend, and
  the back button. `DrawDetections`, `OnSliderInput` and
  `OnDetectionsReceived` are each proved to append exactly `RenderLog` to the
  canvas log. `DrawDetection` appends the three commands of one detection,
  and `OnBack` appends a single `Clear`.

Confidences, thresholds and coordinates are `real`. The width that
`measureText` reports is a parameter of the canvas: a function from text and
font size to a non-negative length.

## Model

| member | source | states |
|---|---|---|
| Colors.LabelColor | static/script.js:22-29 | the colour is `hsl(h, 70%, 50%)` with `0 <= h < 360`; the empty label gets hue 0 |
| Colors.GetLabelColor | static/script.js:22-29 | the loop over the label's code units yields exactly the colour of the hash specification `LabelColor` |
| Colors.ToInt32Wraps | static/script.js:25 | ToInt32 gives the 32-bit two's complement value congruent to its argument modulo 2^32 and leaves 32-bit values alone |
| Colors.ShiftLeft5Bounds | static/script.js:25 | `hash << 5` is a 32-bit value, and equals `32 * hash` while the magnitude of `hash` is below 2^26 |
| Colors.StepWithoutWrap | static/script.js:25 | while the state is within ±2^26, one step is `31 * hash + code` |
| Colors.HashGrowth | static/script.js:23-26 | the magnitude of the hash is at most `length * (2^31 + 65535)` |
| Colors.HashIsSafeInteger | static/script.js:23-26 | for labels of up to four million code units every state is below 2^53 in magnitude, so the source's Number arithmetic is exact |
| Colors.CatHue | static/script.js:22-29 | the label "cat" passes through states 99, 3166 and 98262 and gets hue 342 |
| Detections.VisibleMembership | static/script.js:147 | a detection is shown if and only if it was received and its confidence is at least the threshold, equality included |
| Detections.VisibleAppend | static/script.js:147 | filtering distributes over concatenation, so shown detections keep the order they were received in |
| Detections.VisibleSingleton | static/script.js:147 | one detection is shown alone exactly when it reaches the threshold |
| Detections.SliderShows | static/script.js:66-69 | at slider position `v` a detection is shown if and only if `100 * confidence >= v` |
| Detections.VisibleAllAbove | static/script.js:147 | every shown detection reaches the threshold, and a list whose every detection reaches it is shown whole |
| Detections.CountAtMostTotal | static/script.js:147-148 | the object count never exceeds the number of detections received |
| Detections.VisibleNested | static/script.js:147 | for `t1 <= t2`, filtering at `t1` and then at `t2` is filtering at `t2` |
| Detections.CountMonotone | static/script.js:147-148 | the object count never grows as the threshold rises |
| Detections.CatAndDog | static/script.js:66-69 | with "cat" at 0.92 and "dog" at 0.40, the slider at 50 shows only the cat and the slider at 30 counts two |
| Detections.Round | static/script.js:168 | `Math.round(x)` is the integer within half of `x`, halves rounded up |
| Detections.Percentage | static/script.js:168 | a confidence in `[0, 1]` prints as a percentage in `[0, 100]` |
| Text.NatDigitsShape | static/script.js:168 | the decimal text of a natural number is non-empty, all digits, and has no leading zero |
| Text.DecimalShape | static/script.js:168 | the decimal text of an integer is non-empty and holds neither a space nor a percent sign |
| Text.DigitsRoundTrip | static/script.js:168 | reading back the digits of `n` gives `n` |
| Text.DecimalRoundTrip | static/script.js:168 | the decimal text of `n` starts with a minus sign exactly when `n < 0` and its digits read back to the magnitude of `n` |
| Text.DecimalInjective | static/script.js:168 | different integers never print alike |
| TagLayout.FontSize | static/script.js:166 | the font size lies in `[14, 24]`, is `width / 5` for widths from 70 to 120, 14 below and 24 above |
| TagLayout.FontSizeMonotone | static/script.js:166 | a wider box never gets a smaller font |
| TagLayout.TextInsideBackground | static/script.js:170-177 | the background has left edge `x1`, bottom edge `y1`, width `textWidth + 8` and height `fontSize + 8`; the text anchored at `(x1 + 4, y1 - 4)` keeps 4 to every edge |
| TagLayout.TagTextShape | static/script.js:168 | the tag text starts with the label and a space, ends with `%`, and its last space is the one after the label |
| TagLayout.TagTextDetermines | static/script.js:168 | the tag text determines the label and the printed percentage |
| Drawing.PictureAfterClear | static/script.js:144 | after a full clear followed by drawing without clears, the surface shows exactly that drawing, whatever came before |
| Drawing.Canvas.ClearAll | static/script.js:63 | `clearRect` over the whole canvas appends a clear and leaves an empty picture |
| Drawing.Canvas.StrokeRect | static/script.js:161 | `strokeRect` appends a stroke with the current stroke style, line width and shadow |
| Drawing.Canvas.FillRect | static/script.js:173 | `fillRect` appends a fill with the current fill style and shadow |
| Drawing.Canvas.FillText | static/script.js:177 | `fillText` appends a text command with the current fill style, font size and shadow |
| Drawing.Canvas.MeasureText | static/script.js:169 | the measured width is the font metrics' width of the text at the current font size |
| Overlay.DrawEachLength | static/script.js:150-178 | drawing `n` detections issues `3n` commands |
| Overlay.DrawEachNoClear | static/script.js:150-178 | drawing the shown detections never clears the surface |
| Overlay.DrawEachGroup | static/script.js:150-178 | the k-th group of three commands is the drawing of the k-th shown detection, in received order |
| Overlay.DetectionCommandsThree | static/script.js:150-178 | the drawing of one detection is three commands, none of them a clear |
| Overlay.DetectionDrawing | static/script.js:151-177 | a detection's commands are: its box stroked in the label's colour with a 4px line and shadow blur 4; the background filled in the same colour without blur, on the box's top edge; and the tag text in white at 14 to 24px, anchored at `(x1 + 4, y1 - 4)`, 4px in from the background's lower-left corner |
| Overlay.RenderedDetection | static/script.js:140-179 | a render is one clear plus three commands per shown detection, the k-th shown detection's at positions `3k+1` to `3k+3` |
| Overlay.SameLabelSameColors | static/script.js:154-165 | two shown detections with the same label get the same box colour and tag colour |
| Overlay.RenderReplacesPicture | static/script.js:140-179 | after a render the surface shows the drawing of the shown detections, whatever was drawn before |
| Overlay.RenderIdempotent | static/script.js:140-179 | rendering the same detections at the same threshold twice shows the same picture as rendering once |
| Overlay.EmptyRender | static/script.js:140-179 | with no detections the count is 0 and the render is a clear and nothing else |
| Overlay.Session.constructor | static/script.js:18 | the current detections start empty; the canvas, the slider's value, its caption and the counter are those given |
| Overlay.Session.DrawDetections | static/script.js:140-179 | the canvas log is extended by exactly the render; the surface shows the drawing of the shown detections; the drawing state is the one the last shown detection set; the counter is the number shown |
| Overlay.Session.DrawDetection | static/script.js:150-178 | one iteration appends that detection's three commands and leaves the drawing state it sets |
| Overlay.Session.OnSliderInput | static/script.js:66-69 | the caption becomes `${value}%` and the current detections are redrawn at `value / 100` |
| Overlay.Session.OnDetectionsReceived | static/script.js:119-122 | the received detections become current and are drawn at the slider's threshold |
| Overlay.Session.OnBack | static/script.js:57-64 | the current detections become empty and the canvas is cleared; nothing else in the model changes |

## Left out

- `handleFile` and its MIME check, `FileReader` and the image `onload` (static/script.js:74-97): browser file plumbing.
- The drag-and-drop, click and file-input listeners (static/script.js:32-55): event wiring only.
- `detectObjects` (static/script.js:99-130): the `fetch` request, form data, timing, the processing-time caption, error alerts and loader toggling are network and DOM I/O. Only the effect of a successful response is modelled, as `OnDetectionsReceived`.
- `resizeCanvas`, `downloadResult` and the resize handler (static/script.js:132-138, 181-204): the canvas size is a constructor parameter, and the export and the empty handler change nothing the overlay draws. In the source, setting the canvas size for each new image also clears the bitmap and resets every context setting to its default. The model keeps one canvas across images, with a fixed size and the settings the last detection left. Nothing drawn differs, because every render starts with a full clear and sets all the state it uses before each drawing call.
- The section visibility toggling and the file-input reset in the back handler (static/script.js:58-60): DOM presentation only.
- Font metrics and pixels: `measureText` is a parameter of the canvas, and shadows and strokes are recorded, not rasterised. The font is recorded by its size alone, since the family and weight never vary.
- Floating point: confidences and coordinates are exact reals, and `Math.round` is `floor(x + 0.5)` over reals. The hash uses unbounded integers, which agree with Number arithmetic while states stay below 2^53 (`Colors.HashIsSafeInteger`).
- Strings are UTF-16 code units; characters outside the Basic Multilingual Plane are their two surrogate units, as `charCodeAt` sees them.
- Overlay.Session.OnSliderInput: the slider's value arrives as a string and is printed as it is. The model prints the integer it denotes, which is the same text for the canonical integers a range input produces.
- Decimal printing of very large or fractional numbers (exponent notation) is not modelled: only integers are printed.
- The initial slider value, caption and object counter come from the page's markup, which is not part of this model: `Overlay.Session.constructor` takes them as parameters.
