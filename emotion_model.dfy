/** `GenericONNXModel` of models/emotion_model.py: what `predict` does around
    the inference call (the batch axis, squeezing, the softmax gate, one
    labelled record per score, the stable descending sort) and
    `get_model_info`. Inference itself, softmax and the percentage text are
    floating-point work and stay abstract: the session's `run` function and
    the two functions of FloatOps. */
module EmotionModel {
  import opened Wrappers
  import opened Ranking
  import opened Wire
  import Text

  /** One entry of the input shape ONNX reports: a fixed size, a symbolic
      name, or nothing. */
  datatype Dim = Fixed(size: nat) | Symbolic(name: string) | Unknown

  function Product(dims: seq<nat>): nat {
    if dims == [] then 1 else dims[0] * Product(dims[1..])
  }

  datatype Tensor = Tensor(shape: seq<nat>, data: seq<real>)

  /** A numpy array: a shape and its entries in row-major order. */
  type NdArray = t: Tensor | |t.data| == Product(t.shape) witness Tensor([], [0.0])

  /** An onnxruntime inference session: runs the network on one input. */
  datatype Session = Session(run: NdArray -> NdArray)

  /** The fields `predict` and `get_model_info` read. */
  datatype OnnxModel = OnnxModel(session: Option<Session>, inputShape: Option<seq<Dim>>, labels: Option<seq<string>>)

  /** `_softmax`: float numerics, left abstract, but shape-preserving as
      `e_x / e_x.sum()` is: one output per input. */
  type Softmax = f: seq<real> -> seq<real> | forall xs :: |f(xs)| == |xs|
    witness (xs: seq<real>) => xs

  /** `_softmax` and the "%.2f%%" formatting. */
  datatype FloatOps = FloatOps(softmax: Softmax, percent: real -> string)

  /** The exceptions `predict` raises: RuntimeError for a missing session;
      numpy's ValueError for `np.max` of an empty array inside `_softmax`;
      numpy's TypeErrors for iterating a 0-d array and for `float()` of an
      array that is not a single value. */
  datatype PredictError = SessionNotInitialized | EmptySoftmax | ZeroDimIteration | NonScalarScore

  /** `np.expand_dims(image, axis=0)`. */
  function WithBatchAxis(t: NdArray): (r: NdArray)
    ensures r.shape == [1] + t.shape && r.data == t.data
  {
    assert ([1] + t.shape)[1..] == t.shape;
    Tensor([1] + t.shape, t.data)
  }

  /** The input `predict` hands to the session: a 3-D image gains a leading
      batch axis of size 1, any other rank is passed on as it is. */
  function ExpandBatch(image: NdArray): NdArray {
    if |image.shape| == 3 then WithBatchAxis(image) else image
  }

  /** The shape numpy's `squeeze()` leaves: every axis of size 1 removed. */
  function DropUnitDims(dims: seq<nat>): (r: seq<nat>)
    ensures Product(r) == Product(dims)
    ensures forall i :: 0 <= i < |r| ==> r[i] != 1
    ensures |r| <= |dims|
    ensures |dims| == 1 ==> r == if dims[0] == 1 then [] else dims
  {
    if dims == [] then []
    else if dims[0] == 1 then DropUnitDims(dims[1..])
    else
      var rest := DropUnitDims(dims[1..]);
      assert ([dims[0]] + rest)[1..] == rest;
      [dims[0]] + rest
  }

  /** Squeezing works axis by axis: the axes of `a + b` that survive are
      those of `a` followed by those of `b`, each in its order. With the
      one-axis case this determines DropUnitDims completely. */
  lemma {:induction false} DropUnitDimsAppend(a: seq<nat>, b: seq<nat>)
    ensures DropUnitDims(a + b) == DropUnitDims(a) + DropUnitDims(b)
  {
    if a != [] {
      assert (a + b)[0] == a[0] && (a + b)[1..] == a[1..] + b;
      DropUnitDimsAppend(a[1..], b);
    } else {
      assert a + b == b;
    }
  }

  function Squeeze(t: NdArray): NdArray {
    Tensor(DropUnitDims(t.shape), t.data)
  }

  /** The squeezed first output of the session on the (batched) image. */
  function Output(s: Session, image: NdArray): NdArray {
    Squeeze(s.run(ExpandBatch(image)))
  }

  /** The "auto softmax" condition: rank at least 1 and a first axis of more
      than one entry. */
  predicate SoftmaxApplies(shape: seq<nat>) {
    |shape| > 0 && shape[0] > 1
  }

  /** The scores `predict` enumerates. */
  function Scores(p: NdArray, ops: FloatOps): seq<real> {
    if SoftmaxApplies(p.shape) then ops.softmax(p.data) else p.data
  }

  /** The label of score `i`: `labels[i]` when the label list is non-empty and
      long enough, otherwise "Class_<i>". */
  function LabelFor(labels: Option<seq<string>>, i: nat): string {
    if labels.Some? && |labels.value| > 0 && i < |labels.value| then labels.value[i]
    else "Class_" + Text.NatToString(i)
  }

  /** One record per score, in score order, before sorting. */
  function Records(scores: seq<real>, labels: Option<seq<string>>, percent: real -> string): (rs: seq<Emotion>)
    ensures |rs| == |scores|
  {
    seq(|scores|, i requires 0 <= i < |scores| => Emotion(LabelFor(labels, i), scores[i], percent(scores[i])))
  }

  /** What `predict` returns or raises. */
  function Predicted(m: OnnxModel, image: NdArray, ops: FloatOps): Result<seq<Emotion>, PredictError> {
    if m.session.None? then Failure(SessionNotInitialized)
    else
      var predictions := Output(m.session.value, image);
      if |predictions.shape| == 0 then Failure(ZeroDimIteration)
      else if SoftmaxApplies(predictions.shape) && |predictions.data| == 0 then Failure(EmptySoftmax)
      else if |predictions.shape| > 1 then
        if predictions.shape[0] == 0 then Success([]) else Failure(NonScalarScore)
      else Success(SortByConfidence(Records(Scores(predictions, ops), m.labels, ops.percent)))
  }

  /** `GenericONNXModel.predict`: the list is built by a loop of appends and
      then sorted in place. */
  method Predict(m: OnnxModel, image: NdArray, ops: FloatOps) returns (r: Result<seq<Emotion>, PredictError>)
    ensures r == Predicted(m, image, ops)
  {
    if m.session.None? {
      return Failure(SessionNotInitialized);
    }
    var input := image;
    if |input.shape| == 3 {
      input := WithBatchAxis(input);
    }
    var predictions := Squeeze(m.session.value.run(input));
    assert predictions == Output(m.session.value, image);
    if |predictions.shape| == 0 {
      return Failure(ZeroDimIteration);
    }
    var scores := predictions.data;
    if SoftmaxApplies(predictions.shape) {
      if |scores| == 0 {
        return Failure(EmptySoftmax);
      }
      scores := ops.softmax(scores);
    }
    if |predictions.shape| > 1 {
      if predictions.shape[0] == 0 {
        return Success([]);
      }
      return Failure(NonScalarScore);
    }
    var results: seq<Emotion> := [];
    for i := 0 to |scores|
      invariant results == Records(scores, m.labels, ops.percent)[..i]
    {
      results := results + [Emotion(LabelFor(m.labels, i), scores[i], ops.percent(scores[i]))];
    }
    assert scores == Scores(predictions, ops);
    assert results == Records(scores, m.labels, ops.percent);
    var list := new Emotion[|results|](k requires 0 <= k < |results| => results[k]);
    assert list[..] == results;
    SortInPlace(list);
    r := Success(list[..]);
  }

  /** What the session receives: a 3-D image with a leading batch axis of
      size 1, any other rank unchanged, and in every case the same entries. */
  lemma BatchAxisRule(t: NdArray)
    ensures |t.shape| == 3 ==> ExpandBatch(t).shape == [1] + t.shape
    ensures |t.shape| != 3 ==> ExpandBatch(t) == t
    ensures ExpandBatch(t).data == t.data && Product(ExpandBatch(t).shape) == Product(t.shape)
  {
  }

  /** After squeezing, a rank-1 output never has a single entry, so softmax is
      applied exactly when there are at least two scores. */
  lemma SoftmaxGate(s: Session, image: NdArray)
    ensures var p := Output(s, image);
      |p.shape| == 1 ==> (SoftmaxApplies(p.shape) <==> |p.data| >= 2)
  {
    var p := Output(s, image);
    if |p.shape| == 1 {
      assert p.shape[1..] == [];
      assert Product(p.shape) == p.shape[0];
    }
  }

  /** A present session is required; otherwise "ONNX session not initialized". */
  lemma NoSessionNoPrediction(m: OnnxModel, image: NdArray, ops: FloatOps)
    ensures Predicted(m, image, ops) == Failure(SessionNotInitialized) <==> m.session.None?
  {
  }

  /** What the outputs of rank other than 1 give: a 0-d output cannot be
      iterated; a higher-rank output with at least two rows but no entries
      fails inside `_softmax`; otherwise rows of a higher-rank output are not
      single values, unless there are no rows. */
  lemma OtherRanks(m: OnnxModel, image: NdArray, ops: FloatOps)
    requires m.session.Some?
    ensures var p := Output(m.session.value, image);
      var r := Predicted(m, image, ops);
      && (|p.shape| == 0 ==> r == Failure(ZeroDimIteration))
      && (|p.shape| > 1 ==>
            r == if p.shape[0] == 0 then Success([])
                 else if |p.data| == 0 then Failure(EmptySoftmax)
                 else Failure(NonScalarScore))
  {
    var p := Output(m.session.value, image);
    if |p.shape| > 1 {
      assert p.shape[0] != 1;
    }
  }

  /** The softmax failure happens exactly for a squeezed output of rank at
      least 2 with two or more rows and a later axis of size 0, such as (2, 0). */
  lemma EmptySoftmaxShapes(m: OnnxModel, image: NdArray, ops: FloatOps)
    requires m.session.Some?
    ensures var p := Output(m.session.value, image);
      Predicted(m, image, ops) == Failure(EmptySoftmax) <==>
        |p.shape| >= 2 && p.shape[0] >= 2 && Product(p.shape[1..]) == 0
  {
    var p := Output(m.session.value, image);
    if |p.shape| > 0 {
      assert p.shape == [p.shape[0]] + p.shape[1..];
      assert Product(p.shape) == p.shape[0] * Product(p.shape[1..]);
      if |p.shape| == 1 {
        assert Product(p.shape[1..]) == 1;
      }
      if p.shape[0] >= 2 && Product(p.shape[1..]) == 0 {
        assert p.shape[0] > 1;
      }
    }
  }

  /** For a rank-1 output: exactly one record per score, holding the score's
      label and value, ordered by non-increasing confidence, with equal
      confidences in score order. */
  lemma RankedRecords(m: OnnxModel, image: NdArray, ops: FloatOps)
    requires m.session.Some? && |Output(m.session.value, image).shape| == 1
    ensures var scores := Scores(Output(m.session.value, image), ops);
      var records := Records(scores, m.labels, ops.percent);
      var r := Predicted(m, image, ops);
      && r.Success?
      && |r.value| == |scores| == |Output(m.session.value, image).data|
      && multiset(r.value) == multiset(records)
      && IsStableRanking(r.value, records)
      && forall i :: 0 <= i < |scores| ==> Emotion(LabelFor(m.labels, i), scores[i], ops.percent(scores[i])) in r.value
  {
    var p := Output(m.session.value, image);
    assert Product(p.shape) == p.shape[0] * Product(p.shape[1..]) == p.shape[0];
    var scores := Scores(p, ops);
    var records := Records(scores, m.labels, ops.percent);
    var ranked := SortByConfidence(records);
    SortIsPermutation(records);
    SortCharacterization(records, ranked);
    forall i | 0 <= i < |scores|
      ensures Emotion(LabelFor(m.labels, i), scores[i], ops.percent(scores[i])) in ranked
    {
      assert records[i] in multiset(records);
    }
  }

  /** Labels: the model's own label when there is one for that index, and
      otherwise a "Class_" name that differs for every index. */
  lemma LabelRule(labels: Option<seq<string>>, i: nat, j: nat)
    ensures labels.Some? && i < |labels.value| ==> LabelFor(labels, i) == labels.value[i]
    ensures labels.None? || i >= |labels.value| ==> LabelFor(labels, i) == "Class_" + Text.NatToString(i)
    ensures (i != j && LabelFor(labels, i) == "Class_" + Text.NatToString(i)
             && LabelFor(labels, j) == "Class_" + Text.NatToString(j))
        ==> LabelFor(labels, i) != LabelFor(labels, j)
  {
    if i != j {
      Text.NatToStringInjective(i, j);
      var p := "Class_";
      assert (p + Text.NatToString(i))[|p|..] == Text.NatToString(i);
      assert (p + Text.NatToString(j))[|p|..] == Text.NatToString(j);
    }
  }

  function DimJson(d: Dim): Json {
    match d
    case Fixed(n) => JInt(n)
    case Symbolic(name) => JStr(name)
    case Unknown => JNull
  }

  function ShapeJson(shape: Option<seq<Dim>>): (j: Json)
    ensures shape.Some? ==> j.JArr? && |j.items| == |shape.value|
  {
    if shape.None? then JNull
    else JArr(seq(|shape.value|, i requires 0 <= i < |shape.value| => DimJson(shape.value[i])))
  }

  function LabelsJson(labels: Option<seq<string>>): (j: Json)
    ensures labels.Some? ==> j.JArr? && |j.items| == |labels.value|
  {
    if labels.None? then JNull
    else JArr(seq(|labels.value|, i requires 0 <= i < |labels.value| => JStr(labels.value[i])))
  }

  function ReadDim(j: Json): Option<Dim> {
    match j
    case JInt(n) => if n >= 0 then Some(Fixed(n)) else None
    case JStr(name) => Some(Symbolic(name))
    case JNull => Some(Unknown)
    case _ => None
  }

  function ReadShape(j: Json): Option<Option<seq<Dim>>> {
    if j.JNull? then Some(None)
    else if j.JArr? && forall i :: 0 <= i < |j.items| ==> ReadDim(j.items[i]).Some? then
      Some(Some(seq(|j.items|, i requires 0 <= i < |j.items| && ReadDim(j.items[i]).Some? => ReadDim(j.items[i]).value)))
    else None
  }

  function ReadLabels(j: Json): Option<Option<seq<string>>> {
    if j.JNull? then Some(None)
    else if j.JArr? && forall i :: 0 <= i < |j.items| ==> j.items[i].JStr? then
      Some(Some(seq(|j.items|, i requires 0 <= i < |j.items| && j.items[i].JStr? => j.items[i].s)))
    else None
  }

  /** `get_model_info`: a dictionary with exactly the two keys "input_shape"
      and "labels". */
  function GetModelInfo(m: OnnxModel): (info: Json)
    ensures info.JObj? && info.fields.Keys == {"input_shape", "labels"}
  {
    JObj(map["input_shape" := ShapeJson(m.inputShape), "labels" := LabelsJson(m.labels)])
  }

  /** ... whose two values are the stored input shape and labels, unchanged. */
  lemma ModelInfoRoundTrip(m: OnnxModel)
    ensures ReadShape(GetModelInfo(m).fields["input_shape"]) == Some(m.inputShape)
    ensures ReadLabels(GetModelInfo(m).fields["labels"]) == Some(m.labels)
  {
    var info := GetModelInfo(m);
    if m.inputShape.Some? {
      var j := info.fields["input_shape"];
      var shape := m.inputShape.value;
      forall i | 0 <= i < |shape| ensures ReadDim(j.items[i]) == Some(shape[i]) {
        assert j.items[i] == DimJson(shape[i]);
      }
      assert ReadShape(j).value.value == shape;
    }
    if m.labels.Some? {
      var j := info.fields["labels"];
      assert ReadLabels(j).value.value == m.labels.value;
    }
  }
}
