/**
 * The state kept by the annotation widget's page script and the handlers
 * that change it: tool buttons, file intake, mouse gestures on the canvas,
 * the label list, the per-box label selector and delete button, and the
 * save button. Each handler is one method; the DOM updates, canvas redraws
 * and alerts that follow each change are not part of the model.
 */
module Widget {
  import opened Text
  import opened Scaling
  import opened Annotations
  import opened Export

  datatype Tool = Draw | Move

  /** What `addNewLabel` did: added the label, or alerted about the name. */
  datatype AddOutcome = Added | EmptyName | AlreadyExists

  /** What the save button did: alerted that there is nothing to save, or built the payload. */
  datatype SaveOutcome = NoImage | NoAnnotations | Saved(file: AnnotationFile)

  /** The file-name base used before any file is chosen. */
  const DefaultFilename: string := "annotated_image"

  class Annotator {
    /** Whether an image object exists (`image` is not null). */
    var hasImage: bool
    var originalWidth: nat
    var originalHeight: nat
    var scaleRatio: real
    var currentFilename: string
    var isDrawing: bool
    var startX: real
    var startY: real
    var currentTool: Tool
    var boxes: seq<Box>
    var labels: seq<Label>

    /**
     * The widget's invariant: the ratio is a shrink factor, a drag is only
     * in progress over an image, every box is larger than the drag threshold,
     * label names are unique, and every box carries the sentinel or the name
     * of a current label.
     */
    ghost predicate Valid()
      reads this
    {
      && 0.0 < scaleRatio <= 1.0
      && (isDrawing ==> hasImage)
      && AllDrawn(boxes)
      && DistinctNames(labels)
      && LabelsKnown(boxes, labels)
    }

    /** The state when the page script starts. */
    constructor ()
      ensures Valid()
      ensures !hasImage && !isDrawing && currentTool == Draw
      ensures scaleRatio == 1.0 && originalWidth == 0 && originalHeight == 0
      ensures startX == 0.0 && startY == 0.0
      ensures currentFilename == DefaultFilename
      ensures boxes == [] && labels == []
    {
      scaleRatio := 1.0;
      originalWidth := 0;
      originalHeight := 0;
      currentFilename := DefaultFilename;
      hasImage := false;
      isDrawing := false;
      startX := 0.0;
      startY := 0.0;
      boxes := [];
      labels := [];
      currentTool := Draw;
    }

    /** The "draw" and "move" tool buttons. */
    method SelectTool(tool: Tool)
      requires Valid()
      modifies this`currentTool
      ensures Valid() && currentTool == tool
    {
      currentTool := tool;
    }

    /**
     * A file was picked: its name's stem becomes the base for the exported
     * file names. Picking nothing changes nothing.
     */
    method ChooseFile(file: Option<string>)
      requires Valid()
      modifies this`currentFilename
      ensures Valid()
      ensures currentFilename == if file.Some? then Stem(file.value) else old(currentFilename)
    {
      if file.Some? {
        currentFilename := Stem(file.value);
      }
    }

    /** The file reader finished: a (not yet decoded) image object now exists. */
    method ReaderLoaded()
      requires Valid()
      modifies this`hasImage
      ensures Valid() && hasImage
    {
      hasImage := true;
    }

    /**
     * The image decoded with size `w` x `h`: the ratio is recomputed, the
     * boxes are cleared, and the canvas size is returned.
     */
    method ImageDecoded(w: nat, h: nat) returns (display: Size)
      requires Valid()
      modifies this`originalWidth, this`originalHeight, this`scaleRatio, this`boxes
      ensures Valid()
      ensures originalWidth == w && originalHeight == h
      ensures scaleRatio == ScaleRatio(w, h)
      ensures boxes == []
      ensures display == DisplaySize(w, h)
      ensures display.width <= MaxWidth && display.height <= MaxHeight
    {
      originalWidth := w;
      originalHeight := h;
      scaleRatio := 1.0;
      if w > MaxWidth || h > MaxHeight {
        scaleRatio := ScaleRatio(w, h);
      }
      display := DisplaySize(w, h);
      boxes := [];
    }

    /** Mouse-down at canvas point (x, y): records the anchor and starts a drag in the draw tool. */
    method MouseDown(x: real, y: real)
      requires Valid()
      modifies this`startX, this`startY, this`isDrawing
      ensures Valid()
      ensures !hasImage ==> startX == old(startX) && startY == old(startY) && isDrawing == old(isDrawing)
      ensures hasImage ==> startX == x && startY == y
      ensures isDrawing == if hasImage && currentTool == Draw then true else old(isDrawing)
    {
      if !hasImage {
        return;
      }
      startX := x;
      startY := y;
      if currentTool == Draw {
        isDrawing := true;
      }
    }

    /**
     * Mouse-up at canvas point (x, y): ends a drag in the draw tool and
     * appends the box it spans, if it is large enough, with the default
     * label. Outside a draw-tool drag nothing changes.
     */
    method MouseUp(x: real, y: real)
      requires Valid()
      modifies this`isDrawing, this`boxes
      ensures Valid()
      ensures !old(isDrawing) || currentTool != Draw ==> isDrawing == old(isDrawing) && boxes == old(boxes)
      ensures old(isDrawing) && currentTool == Draw ==>
        var drag := NormalizeDrag(startX, startY, x, y, DefaultLabel(labels));
        && !isDrawing
        && boxes == if drag.Some? then old(boxes) + [drag.value] else old(boxes)
    {
      if !isDrawing || currentTool != Draw {
        return;
      }
      isDrawing := false;
      var drag := NormalizeDrag(startX, startY, x, y, DefaultLabel(labels));
      if drag.Some? {
        boxes := boxes + [drag.value];
      }
    }

    /** The pointer left the canvas: any drag is cancelled without a box. */
    method MouseLeave()
      requires Valid()
      modifies this`isDrawing
      ensures Valid() && !isDrawing
    {
      if isDrawing {
        isDrawing := false;
      }
    }

    /**
     * The in-place `forEach` pass over `boxes` that gives every box labelled
     * `from` the label `to`, shared by `AddNewLabel` and `DeleteLabel`. It is
     * not a handler and does not keep `Valid()` by itself: `DeleteLabel`
     * calls it while the box labels are briefly out of step with `labels`.
     */
    method RelabelBoxes(from: string, to: string)
      modifies this`boxes
      ensures boxes == Relabel(old(boxes), from, to)
    {
      var i := 0;
      while i < |boxes|
        invariant 0 <= i <= |boxes| == |old(boxes)|
        invariant forall k :: 0 <= k < i ==> boxes[k] == RelabelOne(old(boxes)[k], from, to)
        invariant forall k :: i <= k < |boxes| ==> boxes[k] == old(boxes)[k]
      {
        if boxes[i].labelName == from {
          boxes := boxes[i := boxes[i].(labelName := to)];
        }
        i := i + 1;
      }
    }

    /**
     * `addNewLabel` with the input field's text and the colour picked for
     * the label: an empty trimmed name or an existing name is refused and
     * nothing changes; otherwise the label is appended, and if it is the
     * only label every "unlabeled" box takes its name.
     */
    method AddNewLabel(input: string, color: string) returns (outcome: AddOutcome)
      requires Valid()
      modifies this`labels, this`boxes
      ensures Valid()
      ensures outcome == if Trim(input) == [] then EmptyName
                         else if HasLabel(old(labels), Trim(input)) then AlreadyExists
                         else Added
      ensures outcome.Added? ==> labels == old(labels) + [Label(Trim(input), color)]
      ensures outcome.Added? ==>
        boxes == if old(labels) == [] then Relabel(old(boxes), Unlabeled, Trim(input)) else old(boxes)
      ensures !outcome.Added? ==> labels == old(labels) && boxes == old(boxes)
    {
      var name := Trim(input);
      if name != [] && !HasLabel(labels, name) {
        AddLabelKeepsInvariants(boxes, labels, Label(name, color));
        RelabelKeepsDrawn(boxes, Unlabeled, name);
        labels := labels + [Label(name, color)];
        if |labels| == 1 {
          RelabelBoxes(Unlabeled, name);
        }
        outcome := Added;
      } else if name == [] {
        outcome := EmptyName;
      } else {
        outcome := AlreadyExists;
      }
    }

    /**
     * The delete button of the label at `index`: the label is spliced out
     * and its boxes move to the new first label, or to "unlabeled".
     */
    method DeleteLabel(index: nat)
      requires Valid() && index < |labels|
      modifies this`labels, this`boxes
      ensures Valid()
      ensures labels == RemoveAt(old(labels), index)
      ensures boxes == Relabel(old(boxes), old(labels)[index].name, DefaultLabel(labels))
      ensures old(labels)[index].name != Unlabeled ==>
        forall i :: 0 <= i < |boxes| ==> boxes[i].labelName != old(labels)[index].name
    {
      var gone := labels[index].name;
      DeleteLabelKeepsLabelsKnown(boxes, labels, index);
      RemoveKeepsDistinct(labels, index);
      labels := RemoveAt(labels, index);
      RelabelKeepsDrawn(boxes, gone, DefaultLabel(labels));
      RelabelBoxes(gone, DefaultLabel(labels));
    }

    /**
     * The label selector of the box at `index` changed to `value`, which is
     * one of the selector's options: "unlabeled" or a current label name.
     */
    method ChangeBoxLabel(index: nat, value: string)
      requires Valid() && index < |boxes|
      requires value == Unlabeled || HasLabel(labels, value)
      modifies this`boxes
      ensures Valid()
      ensures boxes == old(boxes)[index := old(boxes)[index].(labelName := value)]
    {
      boxes := boxes[index := boxes[index].(labelName := value)];
    }

    /** The delete button of the box at `index`: the box is spliced out. */
    method DeleteBox(index: nat)
      requires Valid() && index < |boxes|
      modifies this`boxes
      ensures Valid()
      ensures boxes == RemoveAt(old(boxes), index)
    {
      boxes := RemoveAt(boxes, index);
    }

    /**
     * The save button: refused without an image or without boxes; otherwise
     * the payload lists every box, in order, in original-image pixels with
     * ordered bounds, together with the labels and the file names.
     */
    method Save() returns (outcome: SaveOutcome)
      requires Valid()
      ensures !hasImage ==> outcome == NoImage
      ensures hasImage && boxes == [] ==> outcome == NoAnnotations
      ensures hasImage && boxes != [] ==> outcome.Saved?
      ensures outcome.Saved? ==>
        var f := outcome.file;
        && f.imageFilename == currentFilename + ".jpg"
        && f.downloadName == currentFilename + "_annotations.json"
        && f.imageWidth == originalWidth && f.imageHeight == originalHeight
        && f.labels == labels
        && |f.boxes| == |boxes|
        && forall k :: 0 <= k < |boxes| ==>
             && f.boxes[k] == ExportBox(boxes[k], scaleRatio)
             && f.boxes[k].xMin <= f.boxes[k].xMax
             && f.boxes[k].yMin <= f.boxes[k].yMax
    {
      if !hasImage {
        return NoImage;
      }
      if |boxes| == 0 {
        return NoAnnotations;
      }
      ExportAllOrdered(boxes, scaleRatio);
      var file := AnnotationFile(
        currentFilename + ".jpg", originalWidth, originalHeight,
        ExportAll(boxes, scaleRatio), labels, currentFilename + "_annotations.json");
      return Saved(file);
    }
  }
}
