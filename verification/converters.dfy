/** Converters between Python values and engine data: `python2input`,
    `input2python`, `python2weight`, `weight2python`, `cw_vec2python` and
    `python2training_set`. Each decoder is strict: the first item it cannot
    convert aborts the whole decode with a `std::logic_error`. */
module Converters {
  import opened Outcomes
  import opened PyObjects
  import opened Lvq

  const INPUT_NO_SIZE := "Invalid input (can't get size)"
  const INPUT_NOT_ITERABLE := "Invalid input (should be iterable)"
  const INPUT_BAD_VALUE := "Invalid input value"
  const WEIGHTS_NO_SIZE := "Invalid weights (can't get size)"
  const WEIGHTS_NOT_ITERABLE := "Invalid weights (should be iterable)"
  const WEIGHT_BAD_VALUE := "Invalid weight (should be double)"
  const SET_NO_SIZE := "Invalid training set (can't get size)"
  const SET_NOT_ITERABLE := "Invalid training set (should be iterable)"
  // The closing parenthesis is missing in the binding's own message too.
  const SET_NOT_TUPLE := "Invalid training set ((input, cluster) tuples expected"
  const CLUSTER_NOT_INT := "Invalid cluster (integer expected)"
  const CLUSTER_NEGATIVE := "Invalid cluster (must be >= 0)"

  // ---------------------------------------------------------------- weights

  /** The weights loop of `python2weight`: every item must coerce to a double. */
  function ToReals(xs: seq<PyVal>): (r: Result<seq<real>>)
    ensures r.Ok? <==> forall i :: 0 <= i < |xs| ==> AsDouble(xs[i]).Some?
    ensures r.Ok? ==> |r.value| == |xs|
    ensures r.Ok? ==> forall i :: 0 <= i < |xs| ==> AsDouble(xs[i]) == Some(r.value[i])
    ensures r.Throw? ==> r.x == LogicError(WEIGHT_BAD_VALUE)
  {
    if xs == [] then Ok([])
    else
      match AsDouble(xs[0])
      case None => Throw(LogicError(WEIGHT_BAD_VALUE))
      case Some(w) =>
        var rest :- ToReals(xs[1..]);
        Ok([w] + rest)
  }

  /** `python2weight`. There is no None branch: None is rejected like any
      other non-number. The vector is built with `push_back`, so its length is
      the number of items the iterator yields. */
  function ToWeight(v: PyVal): (r: Result<seq<real>>)
    ensures Size(v).None? ==> r == Throw(LogicError(WEIGHTS_NO_SIZE))
    ensures Size(v).Some? && Iterate(v).None? ==> r == Throw(LogicError(WEIGHTS_NOT_ITERABLE))
    ensures r.Ok? <==>
      Size(v).Some? && Iterate(v).Some? &&
      forall i :: 0 <= i < |Iterate(v).value| ==> AsDouble(Iterate(v).value[i]).Some?
    ensures r.Ok? ==> |r.value| == |Iterate(v).value|
    ensures r.Ok? ==> forall i :: 0 <= i < |r.value| ==> AsDouble(Iterate(v).value[i]) == Some(r.value[i])
    ensures Size(v).Some? && Iterate(v).Some? && r.Throw? ==> r.x == LogicError(WEIGHT_BAD_VALUE)
  {
    match Size(v)
    case None => Throw(LogicError(WEIGHTS_NO_SIZE))
    case Some(_) =>
      match Iterate(v)
      case None => Throw(LogicError(WEIGHTS_NOT_ITERABLE))
      case Some(xs) => ToReals(xs)
  }

  /** `weight2python`: a tuple holding `weight[i]` at position i. */
  function FromWeight(w: seq<real>): (r: PyVal)
    ensures r.PyTuple? && |r.items| == |w|
    ensures forall i :: 0 <= i < |w| ==> r.items[i] == PyFloat(w[i])
  {
    PyTuple(seq(|w|, i requires 0 <= i < |w| => PyFloat(w[i])))
  }

  /** Encoding weights and decoding them again gives back the same weights. */
  lemma WeightRoundTrip(w: seq<real>)
    ensures ToWeight(FromWeight(w)) == Ok(w)
  {
    var r := ToWeight(FromWeight(w));
    assert r.Ok?;
    assert r.value == w;
  }

  /** Decoding a sequence of floats and encoding the result gives the same
      floats back, as a tuple (a list comes back as a tuple). */
  lemma WeightDecodeEncode(v: PyVal)
    requires Iterate(v).Some? && Size(v).Some?
    requires forall i :: 0 <= i < |Iterate(v).value| ==> Iterate(v).value[i].PyFloat?
    ensures ToWeight(v).Ok?
    ensures FromWeight(ToWeight(v).value) == PyTuple(Iterate(v).value)
  {
  }

  // ----------------------------------------------------------------- inputs

  /** The i-th element of a decoded input stands for the i-th Python item:
      undefined exactly for None, otherwise the item's numeric value. */
  predicate Denotes(e: RealX, v: PyVal) {
    match e
    case Undef => v.PyNone?
    case Def(x) => !v.PyNone? && AsDouble(v) == Some(x)
  }

  /** An item `python2input` accepts: None or something that coerces to a double. */
  predicate NumberOrNone(v: PyVal) {
    v.PyNone? || AsDouble(v).Some?
  }

  /** One element of `python2input`. */
  function ToRealX(v: PyVal): Result<RealX> {
    if v.PyNone? then Ok(Undef)
    else
      match AsDouble(v)
      case None => Throw(LogicError(INPUT_BAD_VALUE))
      case Some(x) => Ok(Def(x))
  }

  /** The element loop of `python2input`. */
  function ToRealXs(xs: seq<PyVal>): (r: Result<Input>)
    ensures r.Ok? <==> forall i :: 0 <= i < |xs| ==> NumberOrNone(xs[i])
    ensures r.Ok? ==> |r.value| == |xs|
    ensures r.Ok? ==> forall i :: 0 <= i < |xs| ==> Denotes(r.value[i], xs[i])
    ensures r.Throw? ==> r.x == LogicError(INPUT_BAD_VALUE)
  {
    if xs == [] then Ok([])
    else
      var e :- ToRealX(xs[0]);
      var rest :- ToRealXs(xs[1..]);
      Ok([e] + rest)
  }

  /** `python2input`. The vector is allocated with the reported size and
      filled by position, so the object must not lie about its length. */
  function ToInput(v: PyVal): (r: Result<Input>)
    requires Coherent(v)
    ensures Size(v).None? ==> r == Throw(LogicError(INPUT_NO_SIZE))
    ensures Size(v).Some? && Iterate(v).None? ==> r == Throw(LogicError(INPUT_NOT_ITERABLE))
    ensures r.Ok? <==>
      Size(v).Some? && Iterate(v).Some? &&
      forall i :: 0 <= i < |Iterate(v).value| ==> NumberOrNone(Iterate(v).value[i])
    ensures r.Ok? ==> Size(v) == Some(|r.value|)
    ensures r.Ok? ==> forall i :: 0 <= i < |r.value| ==> Denotes(r.value[i], Iterate(v).value[i])
    ensures Size(v).Some? && Iterate(v).Some? && r.Throw? ==> r.x == LogicError(INPUT_BAD_VALUE)
  {
    match Size(v)
    case None => Throw(LogicError(INPUT_NO_SIZE))
    case Some(_) =>
      match Iterate(v)
      case None => Throw(LogicError(INPUT_NOT_ITERABLE))
      case Some(xs) => ToRealXs(xs)
  }

  /** One element of `input2python`. */
  function PyOfRealX(e: RealX): PyVal {
    match e
    case Undef => PyNone
    case Def(x) => PyFloat(x)
  }

  /** `input2python`: a tuple of length `rank()` holding None exactly at the
      undefined positions and the value everywhere else. */
  function FromInput(x: Input): (r: PyVal)
    ensures r.PyTuple? && |r.items| == |x|
    ensures forall i :: 0 <= i < |x| ==> (r.items[i].PyNone? <==> x[i].Undef?)
    ensures forall i :: 0 <= i < |x| ==> x[i].Def? ==> r.items[i] == PyFloat(x[i].x)
  {
    PyTuple(seq(|x|, i requires 0 <= i < |x| => PyOfRealX(x[i])))
  }

  /** Encoding an input and decoding it again gives back the same input,
      undefined markers included. */
  lemma InputRoundTrip(x: Input)
    ensures ToInput(FromInput(x)) == Ok(x)
  {
    var t := FromInput(x);
    var r := ToInput(t);
    assert forall i :: 0 <= i < |t.items| ==> NumberOrNone(t.items[i]);
    assert r.Ok?;
    forall i | 0 <= i < |x|
      ensures r.value[i] == x[i]
    {
      assert Denotes(r.value[i], t.items[i]);
    }
    assert r.value == x;
  }

  /** Decoding a sequence of floats and Nones and encoding the result gives
      the same items back, as a tuple. */
  lemma InputDecodeEncode(v: PyVal)
    requires Coherent(v) && Iterate(v).Some? && Size(v).Some?
    requires forall i :: 0 <= i < |Iterate(v).value| ==>
               Iterate(v).value[i].PyNone? || Iterate(v).value[i].PyFloat?
    ensures ToInput(v).Ok?
    ensures FromInput(ToInput(v).value) == PyTuple(Iterate(v).value)
  {
  }

  // --------------------------------------------------- (cluster, weight) pairs

  /** One element of `cw_vec2python`: `Py_BuildValue("(nd)", first, second)`. */
  function PyOfClusterWeight(cw: ClusterWeight): PyVal {
    PyTuple([PyInt(FromSize(cw.cluster)), PyFloat(cw.weight)])
  }

  /** `cw_vec2python`: the pairs in the engine's order, one tuple each; nothing
      is sorted, dropped or merged. */
  function FromClusterWeights(cws: seq<ClusterWeight>): (r: PyVal)
    ensures r.PyTuple? && |r.items| == |cws|
    ensures forall i :: 0 <= i < |cws| ==>
              r.items[i] == PyTuple([PyInt(FromSize(cws[i].cluster)), PyFloat(cws[i].weight)])
  {
    PyTuple(seq(|cws|, i requires 0 <= i < |cws| => PyOfClusterWeight(cws[i])))
  }

  /** The encoding of pair lists loses nothing: different pair lists (even
      ones differing only in order or repetition) give different tuples. */
  lemma ClusterWeightsInjective(a: seq<ClusterWeight>, b: seq<ClusterWeight>)
    requires FromClusterWeights(a) == FromClusterWeights(b)
    ensures a == b
  {
  }

  // ----------------------------------------------------------- training sets

  /** An item the training-set decoder may safely unpack: tuples must have
      both components, and the input component must not lie about its length. */
  predicate PairShaped(t: PyVal) {
    t.PyTuple? ==> |t.items| >= 2 && Coherent(t.items[0])
  }


  /** A label `python2training_set` accepts: a Python 2 `int` that is not negative. */
  predicate ValidLabel(v: PyVal) {
    v.PyInt? && v.i >= 0
  }

  /** One iteration of `python2training_set`. The input component is decoded
      before the label is looked at, so a bad input wins over a bad label. */
  function ToRecord(t: PyVal): (r: Result<Record>)
    requires PairShaped(t)
    ensures r.Ok? <==> t.PyTuple? && ToInput(t.items[0]).Ok? && ValidLabel(t.items[1])
    ensures r.Ok? ==> r.value == Record(ToInput(t.items[0]).value, t.items[1].i)
    ensures !t.PyTuple? ==> r == Throw(LogicError(SET_NOT_TUPLE))
    ensures t.PyTuple? && ToInput(t.items[0]).Throw? ==> r == Throw(ToInput(t.items[0]).x)
    ensures t.PyTuple? && ToInput(t.items[0]).Ok? && !t.items[1].PyInt? ==>
              r == Throw(LogicError(CLUSTER_NOT_INT))
    ensures t.PyTuple? && ToInput(t.items[0]).Ok? && t.items[1].PyInt? && t.items[1].i < 0 ==>
              r == Throw(LogicError(CLUSTER_NEGATIVE))
  {
    if !t.PyTuple? then Throw(LogicError(SET_NOT_TUPLE))
    else
      var input :- ToInput(t.items[0]);
      var cluster := t.items[1];
      if !cluster.PyInt? then Throw(LogicError(CLUSTER_NOT_INT))
      else if cluster.i < 0 then Throw(LogicError(CLUSTER_NEGATIVE))
      else Ok(Record(input, cluster.i))
  }

  /** Every item the record loop reaches is `PairShaped`: the items up to and
      including the first one that fails to decode. Later items are never
      looked at, so they may have any shape. */
  predicate ShapedUpToFailure(xs: seq<PyVal>)
    decreases |xs|
  {
    xs != [] ==> PairShaped(xs[0]) && (ToRecord(xs[0]).Ok? ==> ShapedUpToFailure(xs[1..]))
  }

  /** The items a training-set object yields are `ShapedUpToFailure`. */
  predicate RecordsWellFormed(v: PyVal) {
    Iterate(v).Some? ==> ShapedUpToFailure(Iterate(v).value)
  }

  /** The record loop of `python2training_set`: records are appended in
      iteration order, and the first item that fails decides the error. */
  function ToRecords(xs: seq<PyVal>): (r: Result<TrainingSet>)
    requires ShapedUpToFailure(xs)
    ensures r.Ok? <==> forall i :: 0 <= i < |xs| ==> PairShaped(xs[i]) && ToRecord(xs[i]).Ok?
    ensures r.Ok? ==> |r.value| == |xs|
    ensures r.Ok? ==> forall i :: 0 <= i < |xs| ==> PairShaped(xs[i]) && ToRecord(xs[i]) == Ok(r.value[i])
    ensures r.Throw? ==>
      exists k :: 0 <= k < |xs| && PairShaped(xs[k]) && ToRecord(xs[k]) == Throw(r.x) &&
                  forall j :: 0 <= j < k ==> PairShaped(xs[j]) && ToRecord(xs[j]).Ok?
  {
    if xs == [] then Ok([])
    else
      var head :- ToRecord(xs[0]);
      var rest := ToRecords(xs[1..]);
      if rest.Throw? then
        ghost var k :| 0 <= k < |xs[1..]| && PairShaped(xs[1..][k]) && ToRecord(xs[1..][k]) == Throw(rest.x) &&
                       forall j :: 0 <= j < k ==> PairShaped(xs[1..][j]) && ToRecord(xs[1..][j]).Ok?;
        assert ToRecord(xs[k + 1]) == Throw(rest.x);
        assert forall j :: 0 <= j < k + 1 ==> PairShaped(xs[j]) && ToRecord(xs[j]).Ok?;
        Throw(rest.x)
      else
        Ok([head] + rest.value)
  }

  /** `python2training_set`. */
  function ToTrainingSet(v: PyVal): (r: Result<TrainingSet>)
    requires RecordsWellFormed(v)
    ensures Size(v).None? ==> r == Throw(LogicError(SET_NO_SIZE))
    ensures Size(v).Some? && Iterate(v).None? ==> r == Throw(LogicError(SET_NOT_ITERABLE))
    ensures r.Ok? <==>
      Size(v).Some? && Iterate(v).Some? &&
      forall i :: 0 <= i < |Iterate(v).value| ==>
        PairShaped(Iterate(v).value[i]) && ToRecord(Iterate(v).value[i]).Ok?
    ensures r.Ok? ==> |r.value| == |Iterate(v).value|
    ensures r.Ok? ==> forall i :: 0 <= i < |r.value| ==>
              PairShaped(Iterate(v).value[i]) && ToRecord(Iterate(v).value[i]) == Ok(r.value[i])
    ensures Size(v).Some? && Iterate(v).Some? && r.Throw? ==>
      exists k :: 0 <= k < |Iterate(v).value| && PairShaped(Iterate(v).value[k]) &&
                  ToRecord(Iterate(v).value[k]) == Throw(r.x) &&
                  forall j :: 0 <= j < k ==> PairShaped(Iterate(v).value[j]) && ToRecord(Iterate(v).value[j]).Ok?
  {
    match Size(v)
    case None => Throw(LogicError(SET_NO_SIZE))
    case Some(_) =>
      match Iterate(v)
      case None => Throw(LogicError(SET_NOT_ITERABLE))
      case Some(xs) => ToRecords(xs)
  }

  /** A training set whose labels are in order of appearance: the decoded
      labels are exactly the Python labels, position by position. */
  lemma TrainingSetLabels(v: PyVal)
    requires RecordsWellFormed(v) && ToTrainingSet(v).Ok?
    ensures forall i :: 0 <= i < |ToTrainingSet(v).value| ==>
              Iterate(v).value[i].PyTuple? && ValidLabel(Iterate(v).value[i].items[1]) &&
              ToTrainingSet(v).value[i].cluster == Iterate(v).value[i].items[1].i
  {
  }

  /** `(1.0, None)` decodes to a rank-2 input whose second element is
      undefined, and encodes back to `(1.0, None)`. */
  lemma MissingValueExample()
    ensures ToInput(PyTuple([PyFloat(1.0), PyNone])) == Ok([Def(1.0), Undef])
    ensures FromInput([Def(1.0), Undef]) == PyTuple([PyFloat(1.0), PyNone])
  {
    InputRoundTrip([Def(1.0), Undef]);
    assert FromInput([Def(1.0), Undef]).items == [PyFloat(1.0), PyNone];
  }

  /** Labels are checked strictly: a float label and a negative label are
      both refused, each with its own message. */
  lemma LabelExamples()
    ensures ToRecord(PyTuple([PyTuple([]), PyFloat(1.0)])) == Throw(LogicError(CLUSTER_NOT_INT))
    ensures ToRecord(PyTuple([PyTuple([]), PyInt(-1)])) == Throw(LogicError(CLUSTER_NEGATIVE))
    ensures ToRecord(PyTuple([PyTuple([]), PyInt(3)])) == Ok(Record([], 3))
    ensures ToRecord(PyList([PyTuple([]), PyInt(3)])) == Throw(LogicError(SET_NOT_TUPLE))
  {
  }

  /** Decoding stops at the first bad record: `[[], ()]` fails on its first
      item, and the empty tuple after it is never unpacked. */
  lemma StopsAtFirstBadRecord()
    ensures RecordsWellFormed(PyList([PyList([]), PyTuple([])]))
    ensures ToTrainingSet(PyList([PyList([]), PyTuple([])])) == Throw(LogicError(SET_NOT_TUPLE))
  {
  }
}
