/**
 * Turning the four output tensors into detection records:
 * `_create_coco_ssd_object_structure` builds one record from slot `i`, and
 * `coco_ssd_analyse` keeps, in index order, the slots `i < top_k` whose score
 * reaches the threshold.
 */
module Detections {
  import opened Wrappers
  import opened Conversions
  import opened Quantization

  /** The four output tensors after `invoke()`, squeezed, with the
      quantization entries of their details: slot 0 boxes (rows of
      `ymin, xmin, ymax, xmax`), slot 1 class ids, slot 2 scores, slot 3 count. */
  datatype OutputTensors = OutputTensors(
    boxes: seq<seq<real>>, boxesQuant: Quantization,
    classIds: seq<real>, classIdsQuant: Quantization,
    scores: seq<real>, scoresQuant: Quantization,
    count: real, countQuant: Quantization)

  function Boxes(o: OutputTensors): seq<seq<real>> { DequantizeRows(o.boxesQuant, o.boxes) }
  function ClassIds(o: OutputTensors): seq<real> { Dequantize(o.classIdsQuant, o.classIds) }
  function Scores(o: OutputTensors): seq<real> { Dequantize(o.scoresQuant, o.scores) }

  /** The value under `"id_str"`: the label text, or the class id value itself. */
  datatype LabelValue = Label(text: string) | RawId(id: real)

  /** The `"bbox"` dictionary, in normalised coordinates. */
  datatype BBox = BBox(xmin: real, ymin: real, xmax: real, ymax: real)

  /** One element of `objects_data['objects']`. */
  datatype Detection = Detection(id: int, idStr: LabelValue, score: real, bbox: BBox)

  /** What makes building the records raise. */
  datatype ObjectError =
    | IndexOutOfRange  // a tensor has no slot `i`
    | BoxUnpack        // a box row does not have four values

  /** `self._labels.get(c, c)`: a float key finds the int key of equal value,
      and a class id with no such key is returned as it is. */
  function Lookup(labels: map<int, string>, c: real): (v: LabelValue)
    ensures v.Label? <==> exists k :: k in labels && k as real == c
    ensures forall k :: k in labels && k as real == c ==> v == Label(labels[k])
    ensures v.RawId? ==> v.id == c
  {
    if c == c.Floor as real && c.Floor in labels then Label(labels[c.Floor]) else RawId(c)
  }

  /** `ymin, xmin, ymax, xmax = boxes[i]`. */
  function Unpack(row: seq<real>): BBox
    requires |row| == 4
  {
    BBox(row[1], row[0], row[3], row[2])
  }

  predicate InUnit(x: real) { 0.0 <= x <= 1.0 }

  /** `np.maximum(0.0, ...)` on the minima and `np.minimum(1.0, ...)` on the maxima. */
  function Clamp(b: BBox): (c: BBox)
    ensures c.xmin >= 0.0 && c.ymin >= 0.0 && c.xmax <= 1.0 && c.ymax <= 1.0
    ensures c.xmin >= b.xmin && c.ymin >= b.ymin && c.xmax <= b.xmax && c.ymax <= b.ymax
    ensures b.xmin >= 0.0 ==> c.xmin == b.xmin
    ensures b.ymin >= 0.0 ==> c.ymin == b.ymin
    ensures b.xmax <= 1.0 ==> c.xmax == b.xmax
    ensures b.ymax <= 1.0 ==> c.ymax == b.ymax
    ensures b.xmin < 0.0 ==> c.xmin == 0.0
    ensures b.ymin < 0.0 ==> c.ymin == 0.0
    ensures b.xmax > 1.0 ==> c.xmax == 1.0
    ensures b.ymax > 1.0 ==> c.ymax == 1.0
  {
    BBox(if b.xmin < 0.0 then 0.0 else b.xmin,
         if b.ymin < 0.0 then 0.0 else b.ymin,
         if b.xmax > 1.0 then 1.0 else b.xmax,
         if b.ymax > 1.0 then 1.0 else b.ymax)
  }

  /** A box inside the unit square is kept, and clamping twice is clamping once. */
  lemma ClampKeepsUnitBoxes(b: BBox)
    ensures InUnit(b.xmin) && InUnit(b.ymin) && InUnit(b.xmax) && InUnit(b.ymax) ==> Clamp(b) == b
    ensures Clamp(Clamp(b)) == Clamp(b)
  {
  }

  /** Clamping is one-sided: it neither orders the corners nor bounds a
      minimum by 1 or a maximum by 0. */
  lemma ClampIsOneSided()
    ensures var c := Clamp(BBox(0.8, 0.0, 0.2, 1.0)); c.xmin > c.xmax
    ensures Clamp(BBox(1.5, -0.5, 2.0, -0.25)).xmin == 1.5
    ensures Clamp(BBox(1.5, -0.5, 2.0, -0.25)).ymax == -0.25
  {
  }

  /** `_create_coco_ssd_object_structure(i)`, in the order in which it reads the tensors. */
  function MakeDetection(o: OutputTensors, labels: map<int, string>, i: nat): (r: Result<Detection, ObjectError>)
    ensures r.Success? <==> i < |o.boxes| && |o.boxes[i]| == 4 && i < |o.classIds| && i < |o.scores|
    ensures i >= |o.boxes| ==> r == Failure(IndexOutOfRange)
    ensures i < |o.boxes| && |o.boxes[i]| != 4 ==> r == Failure(BoxUnpack)
    ensures r.Failure? && i < |o.boxes| && |o.boxes[i]| == 4 ==> r.error == IndexOutOfRange
    ensures r.Success? ==>
      var d := r.value;
      && d.id == Trunc(ClassIds(o)[i])
      && d.idStr == Lookup(labels, ClassIds(o)[i])
      && d.score == Scores(o)[i]
      && d.bbox == Clamp(Unpack(Boxes(o)[i]))
  {
    var boxes, classIds, scores := Boxes(o), ClassIds(o), Scores(o);
    if i >= |boxes| then Failure(IndexOutOfRange)
    else if |boxes[i]| != 4 then Failure(BoxUnpack)
    else if i >= |classIds| || i >= |scores| then Failure(IndexOutOfRange)
    else
      var c := classIds[i];
      Success(Detection(Trunc(c), Lookup(labels, c), scores[i], Clamp(Unpack(boxes[i]))))
  }

  /** Only the bounding box of a record depends on the box tensor. */
  lemma BoxOnlyDeterminesBBox(o: OutputTensors, labels: map<int, string>, i: nat, boxes: seq<seq<real>>, q: Quantization)
    requires MakeDetection(o, labels, i).Success?
    requires i < |boxes| && |boxes[i]| == 4
    ensures var d, d' := MakeDetection(o, labels, i).value, MakeDetection(o.(boxes := boxes, boxesQuant := q), labels, i).value;
      d'.id == d.id && d'.idStr == d.idStr && d'.score == d.score
  {
  }

  /** The indices `i < n` whose score reaches the threshold, in increasing order. */
  function SelectIndices(scores: seq<real>, threshold: real, n: int): (idx: seq<nat>)
    requires n <= |scores|
    ensures |idx| <= if n < 0 then 0 else n
    ensures forall k :: 0 <= k < |idx| ==> idx[k] < n && scores[idx[k]] >= threshold
    ensures forall i :: 0 <= i < n && scores[i] >= threshold ==> i in idx
    ensures forall k, l :: 0 <= k < l < |idx| ==> idx[k] < idx[l]
  {
    if n <= 0 then []
    else
      var prefix := SelectIndices(scores, threshold, n - 1);
      if scores[n - 1] >= threshold then prefix + [n - 1] else prefix
  }

  /** What slot `i` contributes: nothing below the threshold, a record at or
      above it, or the error that reading the slot raises. */
  function Slot(o: OutputTensors, labels: map<int, string>, threshold: real, i: nat): Result<Option<Detection>, ObjectError> {
    var scores := Scores(o);
    if i >= |scores| then Failure(IndexOutOfRange)
    else if scores[i] < threshold then Success(None)
    else
      match MakeDetection(o, labels, i)
      case Failure(e) => Failure(e)
      case Success(d) => Success(Some(d))
  }

  /** `[self._create_coco_ssd_object_structure(i) for i in range(n) if scores[i] >= threshold]`. */
  function BuildUpTo(o: OutputTensors, labels: map<int, string>, threshold: real, n: int): Result<seq<Detection>, ObjectError>
    decreases n
  {
    if n <= 0 then Success([])
    else
      match BuildUpTo(o, labels, threshold, n - 1)
      case Failure(e) => Failure(e)
      case Success(objs) =>
        match Slot(o, labels, threshold, n - 1)
        case Failure(e) => Failure(e)
        case Success(None) => Success(objs)
        case Success(Some(d)) => Success(objs + [d])
  }

  function BuildObjects(o: OutputTensors, labels: map<int, string>, threshold: real, topK: int): Result<seq<Detection>, ObjectError> {
    BuildUpTo(o, labels, threshold, topK)
  }

  /** Every slot below `n` can be read. */
  ghost predicate SlotsReadable(o: OutputTensors, labels: map<int, string>, threshold: real, n: int) {
    forall i: nat :: i < n ==> Slot(o, labels, threshold, i).Success?
  }

  /** The selection succeeds exactly when every slot below `top_k` can be read. */
  lemma {:induction false} BuildUpToSucceeds(o: OutputTensors, labels: map<int, string>, threshold: real, n: int)
    ensures BuildUpTo(o, labels, threshold, n).Success? <==> SlotsReadable(o, labels, threshold, n)
    decreases n
  {
    if n > 0 {
      var i: nat := n - 1;
      BuildUpToSucceeds(o, labels, threshold, i);
      if SlotsReadable(o, labels, threshold, n) {
        assert SlotsReadable(o, labels, threshold, i);
        assert Slot(o, labels, threshold, i).Success?;
      } else {
        var j: nat :| j < n && !Slot(o, labels, threshold, j).Success?;
        if j < i {
          assert !SlotsReadable(o, labels, threshold, i);
        }
      }
    }
  }

  /** A successful selection lists, in index order, one record per slot below
      `top_k` whose score reaches the threshold; `top_k` is then at most the
      number of score slots. */
  lemma {:induction false} BuildUpToContents(o: OutputTensors, labels: map<int, string>, threshold: real, n: int)
    requires BuildUpTo(o, labels, threshold, n).Success?
    ensures n <= |Scores(o)|
    ensures var idx, objs := SelectIndices(Scores(o), threshold, n), BuildUpTo(o, labels, threshold, n).value;
      |objs| == |idx| && forall k :: 0 <= k < |idx| ==> MakeDetection(o, labels, idx[k]) == Success(objs[k])
    decreases n
  {
    if n > 0 {
      var i: nat := n - 1;
      BuildUpToContents(o, labels, threshold, i);
      var scores := Scores(o);
      var idx, objs := SelectIndices(scores, threshold, i), BuildUpTo(o, labels, threshold, i).value;
      var s := Slot(o, labels, threshold, i);
      if s.value.Some? {
        assert SelectIndices(scores, threshold, n) == idx + [i];
        assert BuildUpTo(o, labels, threshold, n).value == objs + [s.value.value];
      }
    }
  }

  /** A failed selection fails with the error of the first slot that cannot be read. */
  lemma {:induction false} BuildUpToFirstError(o: OutputTensors, labels: map<int, string>, threshold: real, n: int)
    requires BuildUpTo(o, labels, threshold, n).Failure?
    ensures exists i: nat ::
      && i < n
      && Slot(o, labels, threshold, i) == Failure(BuildUpTo(o, labels, threshold, n).error)
      && SlotsReadable(o, labels, threshold, i)
    decreases n
  {
    var i: nat := n - 1;
    var prev := BuildUpTo(o, labels, threshold, i);
    if prev.Failure? {
      BuildUpToFirstError(o, labels, threshold, i);
    } else {
      BuildUpToSucceeds(o, labels, threshold, i);
    }
  }

  /** Slot `i` can be read exactly when the score tensor has it and, if its score
      reaches the threshold, the record can be built. */
  lemma SlotReadable(o: OutputTensors, labels: map<int, string>, threshold: real, i: nat)
    ensures Slot(o, labels, threshold, i).Success? <==>
      i < |o.scores| && (Scores(o)[i] >= threshold ==> MakeDetection(o, labels, i).Success?)
    ensures i >= |o.scores| ==> Slot(o, labels, threshold, i) == Failure(IndexOutOfRange)
    ensures i < |o.scores| && Scores(o)[i] < threshold ==> Slot(o, labels, threshold, i) == Success(None)
    ensures i < |o.scores| && Scores(o)[i] >= threshold && MakeDetection(o, labels, i).Failure? ==>
      Slot(o, labels, threshold, i) == Failure(MakeDetection(o, labels, i).error)
  {
  }

  /** The count tensor (slot 3) is read but does not influence the records. */
  lemma {:induction false} CountIsIgnored(o: OutputTensors, labels: map<int, string>, threshold: real, n: int, count: real, q: Quantization)
    ensures BuildUpTo(o.(count := count, countQuant := q), labels, threshold, n) == BuildUpTo(o, labels, threshold, n)
    decreases n
  {
    var o' := o.(count := count, countQuant := q);
    if n > 0 {
      CountIsIgnored(o, labels, threshold, n - 1, count, q);
      assert Slot(o', labels, threshold, n - 1) == Slot(o, labels, threshold, n - 1);
    }
  }

  /** Three scores `[0.9, 0.5, 0.05]` with threshold 0.6 select slot 0 only. */
  lemma OneOfThreeSelected()
    ensures SelectIndices([0.9, 0.5, 0.05], 0.6, 3) == [0]
  {
  }

  /** The raw box `(ymin, xmin, ymax, xmax) = (-0.1, 0.2, 1.2, 0.8)` becomes
      `xmin 0.2, ymin 0.0, xmax 0.8, ymax 1.0`. */
  lemma ClampExample()
    ensures Clamp(Unpack([-0.1, 0.2, 1.2, 0.8])) == BBox(0.2, 0.0, 0.8, 1.0)
  {
  }

  /** An unknown class id falls back to the id value, not to its text. */
  lemma UnknownIdFallsBack(labels: map<int, string>)
    requires 999 !in labels
    ensures Lookup(labels, 999.0) == RawId(999.0)
  {
  }
}
