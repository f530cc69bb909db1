/**
 * The values the widget keeps in its `boxes` and `labels` lists, the
 * normalization of a mouse drag into a box, and the relabelling pass the
 * label handlers run over the boxes.
 */
module Annotations {
  import opened Numeric

  /** The label a box carries when no named label applies. */
  const Unlabeled: string := "unlabeled"

  /** A drag must exceed this many pixels on both axes to create a box. */
  const MinDrag: real := 5.0

  datatype Option<T> = None | Some(value: T)

  /** A label's colour is an opaque string chosen when the label is added. */
  datatype Label = Label(name: string, color: string)

  /** A box in canvas (display) coordinates; `x`, `y` is its top-left corner. */
  datatype Box = Box(x: real, y: real, width: real, height: real, labelName: string)

  predicate Contains(b: Box, px: real, py: real)
  {
    b.x <= px <= b.x + b.width && b.y <= py <= b.y + b.height
  }

  /**
   * `labels.some((l) => l.name === name)`: scans the labels from the front
   * and holds exactly when some label is called `name`.
   */
  predicate HasLabel(labels: seq<Label>, name: string)
    ensures HasLabel(labels, name) <==> exists i :: 0 <= i < |labels| && labels[i].name == name
  {
    labels != [] && (labels[0].name == name || HasLabel(labels[1..], name))
  }

  predicate DistinctNames(labels: seq<Label>)
  {
    forall i, j :: 0 <= i < j < |labels| ==> labels[i].name != labels[j].name
  }

  /** Every box carries the sentinel or the name of a current label. */
  predicate LabelsKnown(boxes: seq<Box>, labels: seq<Label>)
  {
    forall i :: 0 <= i < |boxes| ==> boxes[i].labelName == Unlabeled || HasLabel(labels, boxes[i].labelName)
  }

  /** Every box is as large as a completed drag makes it. */
  predicate AllDrawn(boxes: seq<Box>)
  {
    forall i :: 0 <= i < |boxes| ==> boxes[i].width > MinDrag && boxes[i].height > MinDrag
  }

  /** The label a new box or a relabelled box gets: the first label, else the sentinel. */
  function DefaultLabel(labels: seq<Label>): (name: string)
    ensures name == Unlabeled || HasLabel(labels, name)
    ensures labels != [] ==> name == labels[0].name
  {
    if |labels| > 0 then labels[0].name else Unlabeled
  }

  /**
   * The box a mouse-down at (sx, sy) and mouse-up at (ex, ey) produce, or
   * nothing when the drag is not strictly longer than 5 px on both axes.
   * The box spans exactly from one drag point to the other, whatever the
   * drag direction.
   */
  function NormalizeDrag(sx: real, sy: real, ex: real, ey: real, name: string): (b: Option<Box>)
    ensures b.Some? <==> Abs(ex - sx) > MinDrag && Abs(ey - sy) > MinDrag
    ensures b.Some? ==> b.value.width > MinDrag && b.value.height > MinDrag
    ensures b.Some? ==> b.value.labelName == name
    ensures b.Some? ==> Contains(b.value, sx, sy) && Contains(b.value, ex, ey)
    ensures b.Some? ==> {b.value.x, b.value.x + b.value.width} == {sx, ex}
    ensures b.Some? ==> {b.value.y, b.value.y + b.value.height} == {sy, ey}
  {
    var width, height := ex - sx, ey - sy;
    if Abs(width) > MinDrag && Abs(height) > MinDrag then
      Some(Box(Min(sx, ex), Min(sy, ey), Abs(width), Abs(height), name))
    else None
  }

  /** A drag from (10, 10) to (5, 5) is exactly 5 px on each axis and is discarded. */
  lemma FivePixelDragDiscarded()
    ensures NormalizeDrag(10.0, 10.0, 5.0, 5.0, Unlabeled) == None
  {
  }

  /** A drag 3 px wide and 20 px high is discarded. */
  lemma NarrowDragDiscarded()
    ensures NormalizeDrag(0.0, 0.0, 3.0, 20.0, Unlabeled) == None
  {
  }

  /**
   * One step of a relabelling pass: a box labelled `from` takes the label
   * `to` and keeps its geometry; any other box is left as it was.
   */
  function RelabelOne(b: Box, from: string, to: string): (c: Box)
    ensures c.x == b.x && c.y == b.y && c.width == b.width && c.height == b.height
    ensures b.labelName == from ==> c.labelName == to
    ensures b.labelName != from ==> c == b
  {
    if b.labelName == from then b.(labelName := to) else b
  }

  /**
   * The boxes after a pass that gives every box labelled `from` the label
   * `to`: geometry and order are kept, and only those boxes change.
   */
  function Relabel(boxes: seq<Box>, from: string, to: string): (r: seq<Box>)
    ensures |r| == |boxes|
    ensures forall i :: 0 <= i < |r| ==> r[i] == RelabelOne(boxes[i], from, to)
  {
    seq(|boxes|, i requires 0 <= i < |boxes| => RelabelOne(boxes[i], from, to))
  }

  /** After relabelling, no box is left with the old label (unless it is the new one). */
  lemma RelabelRemovesOld(boxes: seq<Box>, from: string, to: string)
    requires from != to
    ensures forall i :: 0 <= i < |boxes| ==> Relabel(boxes, from, to)[i].labelName != from
    ensures forall i :: 0 <= i < |boxes| && boxes[i].labelName != from ==> Relabel(boxes, from, to)[i] == boxes[i]
  {
  }

  /** Relabelling keeps every box's size. */
  lemma RelabelKeepsDrawn(boxes: seq<Box>, from: string, to: string)
    requires AllDrawn(boxes)
    ensures AllDrawn(Relabel(boxes, from, to))
  {
  }

  /** The labels after `labels.splice(index, 1)`. */
  function RemoveAt<T>(s: seq<T>, index: nat): (r: seq<T>)
    requires index < |s|
    ensures |r| == |s| - 1
    ensures forall k :: 0 <= k < index ==> r[k] == s[k]
    ensures forall k :: index <= k < |r| ==> r[k] == s[k + 1]
  {
    s[..index] + s[index + 1..]
  }

  /** Removing an entry keeps the remaining names pairwise distinct. */
  lemma RemoveKeepsDistinct(labels: seq<Label>, index: nat)
    requires index < |labels| && DistinctNames(labels)
    ensures DistinctNames(RemoveAt(labels, index))
  {
    var rest := RemoveAt(labels, index);
    forall i, j | 0 <= i < j < |rest|
      ensures rest[i].name != rest[j].name
    {
      var i', j' := if i < index then i else i + 1, if j < index then j else j + 1;
      assert rest[i] == labels[i'] && rest[j] == labels[j'];
    }
  }

  /**
   * With names distinct, the only name lost by removing the label at
   * `index` is that label's own name.
   */
  lemma RemoveKeepsOtherNames(labels: seq<Label>, index: nat, name: string)
    requires index < |labels| && DistinctNames(labels)
    requires HasLabel(labels, name) && name != labels[index].name
    ensures HasLabel(RemoveAt(labels, index), name)
  {
    var i :| 0 <= i < |labels| && labels[i].name == name;
    var rest := RemoveAt(labels, index);
    if i < index {
      assert rest[i].name == name;
    } else {
      assert i > index;
      assert rest[i - 1].name == name;
    }
  }

  /** The name removed with the label at `index` is held by no remaining label. */
  lemma RemovedNameIsGone(labels: seq<Label>, index: nat)
    requires index < |labels| && DistinctNames(labels)
    ensures !HasLabel(RemoveAt(labels, index), labels[index].name)
  {
    var rest := RemoveAt(labels, index);
    forall k | 0 <= k < |rest|
      ensures rest[k].name != labels[index].name
    {
      assert rest[k] == labels[if k < index then k else k + 1];
    }
  }

  /**
   * Deleting the label at `index` and relabelling its boxes to the new
   * default keeps every box's label known, and leaves no box with the
   * deleted name unless that name is the sentinel itself.
   */
  lemma DeleteLabelKeepsLabelsKnown(boxes: seq<Box>, labels: seq<Label>, index: nat)
    requires index < |labels| && DistinctNames(labels) && LabelsKnown(boxes, labels)
    ensures var rest := RemoveAt(labels, index);
      var after := Relabel(boxes, labels[index].name, DefaultLabel(rest));
      && LabelsKnown(after, rest)
      && (labels[index].name != Unlabeled ==> forall i :: 0 <= i < |after| ==> after[i].labelName != labels[index].name)
  {
    var gone := labels[index].name;
    var rest := RemoveAt(labels, index);
    var after := Relabel(boxes, gone, DefaultLabel(rest));
    forall i | 0 <= i < |after|
      ensures after[i].labelName == Unlabeled || HasLabel(rest, after[i].labelName)
    {
      if boxes[i].labelName != gone && boxes[i].labelName != Unlabeled {
        RemoveKeepsOtherNames(labels, index, boxes[i].labelName);
      }
    }
    if gone != Unlabeled {
      RemovedNameIsGone(labels, index);
    }
  }

  /**
   * Appending a label with a fresh name keeps names distinct and every box's
   * label known, whether or not the sentinel boxes are handed the new name.
   */
  lemma AddLabelKeepsInvariants(boxes: seq<Box>, labels: seq<Label>, added: Label)
    requires DistinctNames(labels) && LabelsKnown(boxes, labels) && !HasLabel(labels, added.name)
    ensures DistinctNames(labels + [added])
    ensures LabelsKnown(boxes, labels + [added])
    ensures LabelsKnown(Relabel(boxes, Unlabeled, added.name), labels + [added])
  {
    var grown := labels + [added];
    assert grown[|labels|].name == added.name;
    forall i | 0 <= i < |boxes| && HasLabel(labels, boxes[i].labelName)
      ensures HasLabel(grown, boxes[i].labelName)
    {
      var k :| 0 <= k < |labels| && labels[k].name == boxes[i].labelName;
      assert grown[k].name == boxes[i].labelName;
    }
  }

  /** Labels "cat" and "dog"; deleting "cat" moves its box to "dog". */
  lemma DeleteCatExample(color: string)
    ensures var labels := [Label("cat", color), Label("dog", color)];
      Relabel([Box(0.0, 0.0, 10.0, 10.0, "cat")], "cat", DefaultLabel(RemoveAt(labels, 0)))
        == [Box(0.0, 0.0, 10.0, 10.0, "dog")]
  {
    var labels := [Label("cat", color), Label("dog", color)];
    assert RemoveAt(labels, 0) == [Label("dog", color)];
  }
}
