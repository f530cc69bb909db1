# Bounding-box annotation widget, modelled in Dafny

The widget is a single browser page. You upload one image, drag rectangles
("boxes") over it, give each box a label from a user-managed label list,
and save the boxes as JSON in the original image's pixel coordinates. All
of its logic lives in one `DOMContentLoaded` closure in
`static/js/script.js`. This project models that closure's state and
handlers:

- **Scaling** (`scaling.dfy`). When an image decodes, a scale ratio fits it
  into a 640 x 480 canvas, and the canvas size is derived from that ratio.
  The model proves that the ratio lies in `(0, 1]` and is exactly 1 for an
  image that already fits. The scaled image fits the canvas, and no larger
  ratio would. The rounded canvas size is within half a pixel of the exact
  scaled size.
- **Annotations** (`annotations.dfy`). This module holds the box and label
  values, the normalization of a mouse drag into a box, and the
  relabelling pass. A box is made only when the drag is strictly longer
  than 5 px on both axes (a drag of exactly 5 px is discarded: the test at
  `script.js:152` is `> 5`), and it spans exactly from one drag point to
  the other. The module also proves how deleting or adding a label preserves
  two invariants: label names are unique, and every box label is a current
  label name or the sentinel `"unlabeled"`.
- **Export** (`export.dfy`). Each box is mapped back to original pixels as
  `Math.round(coordinate / ratio)`. Drawn boxes export with
  `x_min <= x_max` and `y_min <= y_max`. Each exported bound is the
  rounding of the exact value, halves rounded up. Mapping a coordinate to original
  pixels and back to the display moves it by at most `ratio / 2`.
- **Text** (`text.dfy`). This module models JavaScript's `trim` as applied
  to new label names, and the filename stem `name.split(".")[0]`.
- **Widget** (`widget.dfy`). The class `Annotator` holds the closure's
  variables as fields. It has one method per handler; each handler keeps
  the invariant `Valid()` and states the whole new state. Decoding a new
  image clears the boxes but leaves a drag in progress. `RelabelBoxes` is
  not a handler: it is the shared in-place pass behind the two `forEach`
  loops of `addNewLabel` and the label delete button, and only the
  handlers that call it keep `Valid()`.
- **Numeric** (`numeric.dfy`). `Math.round`, `Math.min` and `Math.abs` over
  exact reals.

## Model

| member | source | states |
|---|---|---|
| `Numeric.Round` | static/js/script.js:81-82 | `Math.round(v)` is the one integer `n` with `v - 0.5 < n <= v + 0.5`: the nearest integer, halves rounded up |
| `Numeric.Min` | static/js/script.js:77 | `Math.min` returns one of its arguments and is at most both |
| `Numeric.Abs` | static/js/script.js:152-157 | `Math.abs` returns the value or its negation and is non-negative |
| `Numeric.RoundMonotone` | static/js/script.js:390-393 | `Math.round` preserves order |
| `Text.IsTrimmable` | static/js/script.js:227 | the code points `trim` strips: ECMAScript WhiteSpace (TAB, VT, FF, SP, NBSP, ZWNBSP, the Unicode space separators) and LineTerminator (LF, CR, LS, PS) |
| `Text.Trim` | static/js/script.js:227 | the trimmed name sits inside the input between two all-whitespace parts and neither starts nor ends with a trimmable code point; it is empty exactly when the input is all whitespace |
| `Text.LeadingTrimmable` | static/js/script.js:227 | the whitespace `trim` strips at the front is the longest all-whitespace prefix |
| `Text.TrailingTrimmable` | static/js/script.js:227 | the whitespace `trim` strips at the back is the longest all-whitespace suffix |
| `Text.Stem` | static/js/script.js:62 | the stem is a dot-free prefix of the file name that ends at the first `.` or at the end of the name |
| `Text.StemOfDottedName` | static/js/script.js:62 | the stem of `base + "." + ext` is `base` for a dot-free `base` |
| `Text.StemStopsAtFirstDot` | static/js/script.js:62 | "scan.v2.png" has stem "scan": everything after the first dot is dropped |
| `Scaling.ScaleRatio` | static/js/script.js:71-78 | the ratio is in `(0, 1]` and equals 1 exactly when the image fits 640 x 480; the scaled image fits, and an oversized image exactly fills one of the two bounds |
| `Scaling.ScaleRatioIsLargest` | static/js/script.js:73-77 | no ratio at most 1 that keeps the image inside 640 x 480 is larger than the computed ratio (aspect-preserving best fit) |
| `Scaling.DisplaySize` | static/js/script.js:80-82 | the rounded canvas size is at most 640 x 480 and non-negative, equals the image size when the image fits, and each dimension is the rounding of the exactly scaled one (`w * r - 0.5 < width <= w * r + 0.5`), so the aspect ratio is kept up to half a pixel |
| `Scaling.UnscaledWhenFits` | static/js/script.js:71-82 | an image that already fits gets a canvas of exactly its own size |
| `Scaling.WideImageExample` | static/js/script.js:69-82 | a 1000 x 500 image gets ratio 0.64 and a 640 x 320 canvas |
| `Annotations.HasLabel` | static/js/script.js:228 | `labels.some(...)` scans from the front and holds exactly when some label has the given name |
| `Annotations.DefaultLabel` | static/js/script.js:158 | a new box's label is the first label's name when labels exist and is otherwise `"unlabeled"`; either way it is the sentinel or a current name |
| `Annotations.NormalizeDrag` | static/js/script.js:148-159 | a box is produced exactly when both drag extents strictly exceed 5 px; it is larger than 5 x 5, carries the given label, contains both drag points and has them as opposite corners, whatever the drag direction |
| `Annotations.FivePixelDragDiscarded` | static/js/script.js:152 | a drag from (10,10) to (5,5) is discarded: the threshold is strict |
| `Annotations.NarrowDragDiscarded` | static/js/script.js:152 | a 3 x 20 drag is discarded |
| `Annotations.RelabelOne` | static/js/script.js:282-283 | one step of a relabelling pass: a box with the old label takes the new one and keeps its geometry; any other box is unchanged (also the body at lines 237-238) |
| `Annotations.Relabel` | static/js/script.js:281-285 | the relabelling pass keeps order and size, gives every box labelled `from` the label `to`, and leaves every other box as it was |
| `Annotations.RelabelRemovesOld` | static/js/script.js:281-285 | after relabelling to a different name no box keeps the old name, and boxes with other labels are untouched |
| `Annotations.RelabelKeepsDrawn` | static/js/script.js:236-240 | relabelling keeps every box larger than the drag threshold |
| `Annotations.RemoveAt` | static/js/script.js:279 | `splice(index, 1)` removes exactly that entry and keeps the order of the rest |
| `Annotations.RemoveKeepsDistinct` | static/js/script.js:279 | removing a label keeps label names pairwise distinct |
| `Annotations.RemoveKeepsOtherNames` | static/js/script.js:279 | removing a label keeps every other label name available |
| `Annotations.RemovedNameIsGone` | static/js/script.js:278-279 | with unique names, the deleted label's name is held by no remaining label |
| `Annotations.DeleteLabelKeepsLabelsKnown` | static/js/script.js:276-285 | after a label is deleted and its boxes are relabelled, every box label is `"unlabeled"` or a remaining name; no box keeps the deleted name unless it is the sentinel |
| `Annotations.AddLabelKeepsInvariants` | static/js/script.js:228-240 | appending a fresh label keeps names distinct and keeps every box label known, with or without the pass that gives `"unlabeled"` boxes the new name |
| `Annotations.DeleteCatExample` | static/js/script.js:278-285 | with labels cat and dog, deleting cat moves a cat box to dog |
| `Export.ToOriginal` | static/js/script.js:390-393 | `Math.round(coordinate / scaleRatio)` is the integer within `(q - 0.5, q + 0.5]` of the exact quotient `q` |
| `Export.SpanStaysOrdered` | static/js/script.js:390-393 | a span of non-negative length keeps its ends ordered after dividing by the ratio and rounding |
| `Export.ExportBox` | static/js/script.js:389-394 | one exported entry has ordered bounds for a box of non-negative size, each bound the rounding of `coordinate / ratio` (`q - 0.5 < bound <= q + 0.5`), and the box's label |
| `Export.ExportAll` | static/js/script.js:389-400 | the export has one entry per box, in order, each the mapping of that box |
| `Export.ExportAllOrdered` | static/js/script.js:389-393 | every drawn box exports with `x_min <= x_max` and `y_min <= y_max` |
| `Export.RoundTripWithinHalfPixel` | static/js/script.js:390-393 | scaling an exported coordinate back to the display lands within `ratio / 2` (at most half a pixel) of the original display coordinate |
| `Export.UnscaledExportIsExact` | static/js/script.js:390 | at ratio 1 an integral display coordinate exports unchanged |
| `Widget.Annotator.constructor` | static/js/script.js:3-22 | the initial state: ratio 1, zero size, filename "annotated_image", no image, not drawing, draw tool, no boxes, no labels |
| `Widget.Annotator.SelectTool` | static/js/script.js:36-48 | the tool buttons set the current tool and nothing else |
| `Widget.Annotator.ChooseFile` | static/js/script.js:58-62 | choosing a file sets the filename base to the name's stem; choosing none changes nothing |
| `Widget.Annotator.ReaderLoaded` | static/js/script.js:65-66 | once the file is read an image object exists |
| `Widget.Annotator.ImageDecoded` | static/js/script.js:67-96 | decoding stores the size, sets the ratio to `ScaleRatio`, clears the boxes and yields a canvas of at most 640 x 480 |
| `Widget.Annotator.MouseDown` | static/js/script.js:110-123 | without an image nothing changes; otherwise the anchor is recorded, and a drag starts only in the draw tool |
| `Widget.Annotator.MouseUp` | static/js/script.js:140-165 | outside a draw-tool drag nothing changes; otherwise the drag ends and exactly the normalized box, if any, is appended after the unchanged earlier boxes |
| `Widget.Annotator.MouseLeave` | static/js/script.js:168-174 | leaving the canvas cancels any drag and leaves the boxes alone |
| `Widget.Annotator.RelabelBoxes` | static/js/script.js:236-240 | the in-place `forEach` pass shared by the label handlers (also lines 281-285) leaves `boxes` equal to `Relabel` of the old boxes; it keeps no invariant of its own |
| `Widget.Annotator.AddNewLabel` | static/js/script.js:226-250 | an empty trimmed name or an existing name is refused with nothing changed; otherwise exactly one label is appended, and if it is the only label the `"unlabeled"` boxes take its name; the invariants are kept |
| `Widget.Annotator.DeleteLabel` | static/js/script.js:276-289 | the label at `index` is spliced out, its boxes move to the new first label or `"unlabeled"`, other boxes are untouched, and the invariants are kept |
| `Widget.Annotator.ChangeBoxLabel` | static/js/script.js:341-344 | only the label of the box at `index` changes, to the selected option |
| `Widget.Annotator.DeleteBox` | static/js/script.js:351-355 | exactly the box at `index` is removed and the rest keep their order |
| `Widget.Annotator.Save` | static/js/script.js:374-402 | saving is refused without an image or without boxes; otherwise the payload names `stem + ".jpg"` and `stem + "_annotations.json"`, has the original size and the labels, and has one entry per box in order, each the exported box with ordered bounds |

## Left out

- Canvas rendering is not modelled: `redrawCanvas`, the preview rectangle
  drawn by `handleMouseMove` (which changes no state), label text, colours
  and canvas resizing are graphics side effects.
- Building the label and annotation lists, cursors and button classes is
  DOM work and is not modelled. Only the effects of their callbacks on
  `labels` and `boxes` are modelled. The label item's own click handler
  only logs a message.
- `Widget.Annotator.ChangeBoxLabel` requires the new value to be
  `"unlabeled"` or a current label name. That covers every option the
  selector can offer. The model does not track which of these options the
  selector actually shows.
- File intake through `FileReader` and `Image` is asynchronous browser
  I/O. It is modelled as three events: the file is chosen, the file is
  read, and the image is decoded. The decoded width and height are
  parameters. A failed load is not modelled.
- `activeBoxIndex` (line 20) has no field in `Annotator`: it is declared
  and never read or written again, so it holds no state.
- Mouse positions are taken as canvas coordinates. The subtraction of
  the canvas bounding rectangle is left to the caller.
- `downloadJson` (blob, object URL, anchor click), `alert` and
  `console.log` are I/O. The payload and the alert cases are returned as
  `SaveOutcome` and `AddOutcome` values.
- Clearing the label input field after a label is added is DOM work and
  is not modelled.
- `getRandomColor` uses `Math.random`, so the colour is an opaque
  parameter of `AddNewLabel`.
- The commented-out `fetch` to `/save_annotation` is not modelled. `app.py`
  is not part of this model: its Flask routes only render the page or
  return a stub success.
- Floating-point error is not modelled. Coordinates and ratios are exact
  reals, and `Math.round(v)` is `Floor(v + 0.5)`. A zero image dimension
  is modelled with JavaScript's `Infinity` quotient, which `Math.min`
  never picks.
