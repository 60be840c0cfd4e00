/** The per-method bindings of `liblvq.lvq`. Every binding follows one
    template: parse the arguments, decode them, call the engine on the
    object's own pointer, encode the result, all under `wrap_X` with sentinel
    NULL. Decoding happens before the engine call, so a call that fails to
    decode leaves every engine exactly as it was. */
module Bindings {
  import opened Outcomes
  import opened PyObjects
  import opened Lvq
  import opened Args
  import opened Converters
  import opened Host

  const FORMAT_N: seq<Unit> := [SsizeUnit]
  const FORMAT_O: seq<Unit> := [ObjUnit]
  const FORMAT_ON: seq<Unit> := [ObjUnit, SsizeUnit]
  const FORMAT_OD: seq<Unit> := [ObjUnit, DoubleUnit]
  const FORMAT_OND: seq<Unit> := [ObjUnit, SsizeUnit, DoubleUnit]
  const FORMAT_OIII: seq<Unit> := [ObjUnit, UIntUnit, UIntUnit, UIntUnit]

  /** A pending RuntimeError for exception `x`, as `wrap_X` raises it. */
  function Raised<S>(h: Host<S>, x: Exc): Host<S> {
    h.(err := Some(RuntimeError(Message(x))))
  }

  // ------------------------------------------------------------- templates

  /** A binding body on a bound object: decode, call the engine on the
      object's engine, encode. */
  function Method<S, A, R>(h: Host<S>, self: ObjId, decoded: Result<A>,
                           call: (S, A) -> Step<S, R>, encode: R -> PyVal): Exec<S, Ret>
    requires Bound(h, self)
  {
    match decoded
    case Throw(x) => Threw(h, x)
    case Ok(a) =>
      var p := h.objects[self].value;
      var step := call(h.engines[p], a);
      var h' := h.(engines := h.engines[p := step.after]);
      match step.out
      case Throw(x) => Threw(h', x)
      case Ok(v) => Returned(h', Ref(encode(v)))
  }

  /** Replacing a live engine's state in place does not disturb ownership. */
  lemma ReplacingEngineKeepsValid<S>(h: Host<S>, p: EngineId, s: S)
    requires Valid(h) && p in h.engines
    ensures Valid(h.(engines := h.engines[p := s]))
  {
    var h' := h.(engines := h.engines[p := s]);
    forall e | e in h'.engines
      ensures exists o :: Owns(h', o, e)
    {
      var o :| Owns(h, o, e);
      assert Owns(h', o, e);
    }
  }

  /** A binding on a bound object under `wrap_X`. A decode failure never
      reaches the engine; otherwise only the object's own engine changes, and
      the result is NULL exactly when an error is pending. */
  function MethodEntry<S, A, R>(h: Host<S>, self: ObjId, decoded: Result<A>,
                                call: (S, A) -> Step<S, R>, encode: R -> PyVal): (out: (Host<S>, Ret))
    requires Bound(h, self)
    ensures decoded.Throw? ==> out == (Raised(h, decoded.x), Null)
    ensures decoded.Ok? ==>
      var p := h.objects[self].value;
      var step := call(h.engines[p], decoded.value);
      && out.0.engines == h.engines[p := step.after]
      && (step.out.Ok? ==> out == (h.(engines := h.engines[p := step.after]), Ref(encode(step.out.value))))
      && (step.out.Throw? ==> out == (Raised(h.(engines := h.engines[p := step.after]), step.out.x), Null))
    ensures out.0.objects == h.objects && out.0.engines.Keys == h.engines.Keys
    ensures out.0.released == h.released && out.0.nextEngine == h.nextEngine && out.0.nextObj == h.nextObj
    ensures h.err.None? ==> (out.1 == Null <==> out.0.err.Some?)
    ensures Valid(h) ==> Valid(out.0)
  {
    var run := Method(h, self, decoded, call, encode);
    assert Valid(h) ==> Valid(run.host) by {
      if Valid(h) && decoded.Ok? {
        var p := h.objects[self].value;
        ReplacingEngineKeepsValid(h, p, call(h.engines[p], decoded.value).after);
      }
    }
    assert Valid(h) ==> Valid(WrapX(Null, run).0) by {
      if Valid(h) { WrapXKeepsValid(Null, run); }
    }
    WrapX(Null, run)
  }

  /** A binding that only reads the engine: same as `MethodEntry`, and no
      engine state changes at all. */
  function QueryEntry<S, A, R>(h: Host<S>, self: ObjId, decoded: Result<A>,
                               call: (S, A) -> Result<R>, encode: R -> PyVal): (out: (Host<S>, Ret))
    requires Bound(h, self)
    ensures out.0.engines == h.engines && out.0.objects == h.objects && out.0.released == h.released
    ensures decoded.Throw? ==> out == (Raised(h, decoded.x), Null)
    ensures decoded.Ok? && call(h.engines[h.objects[self].value], decoded.value).Ok? ==>
              out == (h, Ref(encode(call(h.engines[h.objects[self].value], decoded.value).value)))
    ensures decoded.Ok? && call(h.engines[h.objects[self].value], decoded.value).Throw? ==>
              out == (Raised(h, call(h.engines[h.objects[self].value], decoded.value).x), Null)
    ensures h.err.None? ==> (out.1 == Null <==> out.0.err.Some?)
    ensures Valid(h) ==> Valid(out.0)
  {
    var p := h.objects[self].value;
    assert h.engines[p := h.engines[p]] == h.engines;
    MethodEntry(h, self, decoded, (s: S, a: A) => Step(s, call(s, a)), encode)
  }

  /** A static binding (`METH_STATIC`): no instance is involved, so the only
      state it can change is the pending error. */
  function StaticEntry<S, A, R>(h: Host<S>, decoded: Result<A>, call: A -> Result<R>,
                                encode: R -> PyVal): (out: (Host<S>, Ret))
    ensures out.0.(err := h.err) == h
    ensures decoded.Throw? ==> out == (Raised(h, decoded.x), Null)
    ensures decoded.Ok? && call(decoded.value).Ok? ==> out == (h, Ref(encode(call(decoded.value).value)))
    ensures decoded.Ok? && call(decoded.value).Throw? ==> out == (Raised(h, call(decoded.value).x), Null)
    ensures h.err.None? ==> (out.1 == Null <==> out.0.err.Some?)
    ensures Valid(h) ==> Valid(out.0)
  {
    var run :=
      match decoded
      case Throw(x) => Threw(h, x)
      case Ok(a) =>
        match call(a)
        case Throw(x) => Threw(h, x)
        case Ok(v) => Returned(h, Ref(encode(v)));
    assert Valid(h) ==> Valid(WrapX(Null, run).0) by {
      if Valid(h) { WrapXKeepsValid(Null, run); }
    }
    WrapX(Null, run)
  }

  // -------------------------------------------------------------- decoders

  /** "O" then `python2input`. */
  function DecodeInput(pending: bool, args: seq<PyVal>): (r: Result<Input>)
    requires Accepts(pending, args, FORMAT_O) ==> Coherent(args[0])
    ensures !Accepts(pending, args, FORMAT_O) ==> r == Throw(LogicError(INVALID_ARGUMENTS))
    ensures Accepts(pending, args, FORMAT_O) ==> r == ToInput(args[0])
  {
    var a :- ParseArgs(pending, args, FORMAT_O);
    ToInput(a[0].obj)
  }

  /** "On" then `python2input`: an input and a cluster index or count. */
  function DecodeInputSize(pending: bool, args: seq<PyVal>): (r: Result<(Input, SizeT)>)
    requires Accepts(pending, args, FORMAT_ON) ==> Coherent(args[0])
    ensures !Accepts(pending, args, FORMAT_ON) ==> r == Throw(LogicError(INVALID_ARGUMENTS))
    ensures Accepts(pending, args, FORMAT_ON) && ToInput(args[0]).Throw? ==> r == Throw(ToInput(args[0]).x)
    ensures Accepts(pending, args, FORMAT_ON) && ToInput(args[0]).Ok? ==>
              r == Ok((ToInput(args[0]).value, SizeOf(args[1])))
  {
    var a :- ParseArgs(pending, args, FORMAT_ON);
    var input :- ToInput(a[0].obj);
    Ok((input, a[1].size))
  }

  /** "Od" then `python2input`: an input and a weight threshold. */
  function DecodeInputDouble(pending: bool, args: seq<PyVal>): (r: Result<(Input, real)>)
    requires Accepts(pending, args, FORMAT_OD) ==> Coherent(args[0])
    ensures !Accepts(pending, args, FORMAT_OD) ==> r == Throw(LogicError(INVALID_ARGUMENTS))
    ensures Accepts(pending, args, FORMAT_OD) && ToInput(args[0]).Throw? ==> r == Throw(ToInput(args[0]).x)
    ensures Accepts(pending, args, FORMAT_OD) && ToInput(args[0]).Ok? ==>
              r == Ok((ToInput(args[0]).value, DoubleOf(args[1])))
  {
    var a :- ParseArgs(pending, args, FORMAT_OD);
    var input :- ToInput(a[0].obj);
    Ok((input, a[1].dbl))
  }

  /** "Ond" then `python2input`: an input, a cluster and a learning factor. */
  function DecodeInputSizeDouble(pending: bool, args: seq<PyVal>): (r: Result<(Input, SizeT, real)>)
    requires Accepts(pending, args, FORMAT_OND) ==> Coherent(args[0])
    ensures !Accepts(pending, args, FORMAT_OND) ==> r == Throw(LogicError(INVALID_ARGUMENTS))
    ensures Accepts(pending, args, FORMAT_OND) && ToInput(args[0]).Throw? ==> r == Throw(ToInput(args[0]).x)
    ensures Accepts(pending, args, FORMAT_OND) && ToInput(args[0]).Ok? ==>
              r == Ok((ToInput(args[0]).value, SizeOf(args[1]), DoubleOf(args[2])))
  {
    var a :- ParseArgs(pending, args, FORMAT_OND);
    var input :- ToInput(a[0].obj);
    Ok((input, a[1].size, a[2].dbl))
  }

  /** "n": a cluster index. */
  function DecodeSize(pending: bool, args: seq<PyVal>): (r: Result<SizeT>)
    ensures !Accepts(pending, args, FORMAT_N) ==> r == Throw(LogicError(INVALID_ARGUMENTS))
    ensures Accepts(pending, args, FORMAT_N) ==> r == Ok(SizeOf(args[0]))
  {
    var a :- ParseArgs(pending, args, FORMAT_N);
    Ok(a[0].size)
  }

  /** "On" then `python2weight`: weights and a count. */
  function DecodeWeightSize(pending: bool, args: seq<PyVal>): (r: Result<(seq<real>, SizeT)>)
    ensures !Accepts(pending, args, FORMAT_ON) ==> r == Throw(LogicError(INVALID_ARGUMENTS))
    ensures Accepts(pending, args, FORMAT_ON) && ToWeight(args[0]).Throw? ==> r == Throw(ToWeight(args[0]).x)
    ensures Accepts(pending, args, FORMAT_ON) && ToWeight(args[0]).Ok? ==>
              r == Ok((ToWeight(args[0]).value, SizeOf(args[1])))
  {
    var a :- ParseArgs(pending, args, FORMAT_ON);
    var weight :- ToWeight(a[0].obj);
    Ok((weight, a[1].size))
  }

  /** "Od" then `python2weight`: weights and a threshold. */
  function DecodeWeightDouble(pending: bool, args: seq<PyVal>): (r: Result<(seq<real>, real)>)
    ensures !Accepts(pending, args, FORMAT_OD) ==> r == Throw(LogicError(INVALID_ARGUMENTS))
    ensures Accepts(pending, args, FORMAT_OD) && ToWeight(args[0]).Throw? ==> r == Throw(ToWeight(args[0]).x)
    ensures Accepts(pending, args, FORMAT_OD) && ToWeight(args[0]).Ok? ==>
              r == Ok((ToWeight(args[0]).value, DoubleOf(args[1])))
  {
    var a :- ParseArgs(pending, args, FORMAT_OD);
    var weight :- ToWeight(a[0].obj);
    Ok((weight, a[1].dbl))
  }

  /** "O" then `python2training_set`. */
  function DecodeTrainingSet(pending: bool, args: seq<PyVal>): (r: Result<TrainingSet>)
    requires Accepts(pending, args, FORMAT_O) ==> RecordsWellFormed(args[0])
    ensures !Accepts(pending, args, FORMAT_O) ==> r == Throw(LogicError(INVALID_ARGUMENTS))
    ensures Accepts(pending, args, FORMAT_O) ==> r == ToTrainingSet(args[0])
  {
    var a :- ParseArgs(pending, args, FORMAT_O);
    ToTrainingSet(a[0].obj)
  }

  /** "OIII" then `python2training_set`: a training set and the three
      unsigned tunables, all of them required. */
  function DecodeTrain(pending: bool, args: seq<PyVal>): (r: Result<(TrainingSet, UInt, UInt, UInt)>)
    requires Accepts(pending, args, FORMAT_OIII) ==> RecordsWellFormed(args[0])
    ensures !Accepts(pending, args, FORMAT_OIII) ==> r == Throw(LogicError(INVALID_ARGUMENTS))
    ensures Accepts(pending, args, FORMAT_OIII) && ToTrainingSet(args[0]).Throw? ==>
              r == Throw(ToTrainingSet(args[0]).x)
    ensures Accepts(pending, args, FORMAT_OIII) && ToTrainingSet(args[0]).Ok? ==>
              r == Ok((ToTrainingSet(args[0]).value, UIntOf(args[1]), UIntOf(args[2]), UIntOf(args[3])))
  {
    var a :- ParseArgs(pending, args, FORMAT_OIII);
    var records :- ToTrainingSet(a[0].obj);
    Ok((records, a[1].u, a[2].u, a[3].u))
  }

  // -------------------------------------------------------------- bindings

  /** The engine `self` owns. */
  function EngineOf<S>(h: Host<S>, self: ObjId): S
    requires Bound(h, self)
  {
    h.engines[h.objects[self].value]
  }

  /** `lvq.set(input, cluster)`: returns None. */
  function Set<S>(eng: Engine<S>, h: Host<S>, self: ObjId, args: seq<PyVal>): (out: (Host<S>, Ret))
    requires Bound(h, self)
    requires Accepts(h.err.Some?, args, FORMAT_ON) ==> Coherent(args[0])
    ensures DecodeInputSize(h.err.Some?, args).Throw? ==> out.0.engines == h.engines && out.1 == Null
    ensures DecodeInputSize(h.err.Some?, args).Ok? ==>
      var (input, cluster) := DecodeInputSize(h.err.Some?, args).value;
      var step := eng.setRep(EngineOf(h, self), input, cluster);
      out.0.engines == h.engines[h.objects[self].value := step.after] &&
      out.1 == (if step.out.Ok? then Ref(PyNone) else Null)
    ensures h.err.None? ==> (out.1 == Null <==> out.0.err.Some?)
    ensures Valid(h) ==> Valid(out.0)
  {
    MethodEntry(h, self, DecodeInputSize(h.err.Some?, args),
                (s: S, a: (Input, SizeT)) => eng.setRep(s, a.0, a.1), (_: ()) => PyNone)
  }

  /** `lvq.get(cluster)`: the representative, encoded as an input tuple. */
  function Get<S>(eng: Engine<S>, h: Host<S>, self: ObjId, args: seq<PyVal>): (out: (Host<S>, Ret))
    requires Bound(h, self)
    ensures out.0.engines == h.engines
    ensures DecodeSize(h.err.Some?, args).Throw? ==> out.1 == Null
    ensures DecodeSize(h.err.Some?, args).Ok? ==>
      var rep := eng.getRep(EngineOf(h, self), DecodeSize(h.err.Some?, args).value);
      out.1 == (if rep.Ok? then Ref(FromInput(rep.value)) else Null)
    ensures h.err.None? ==> (out.1 == Null <==> out.0.err.Some?)
    ensures Valid(h) ==> Valid(out.0)
  {
    QueryEntry(h, self, DecodeSize(h.err.Some?, args),
               (s: S, cluster: SizeT) => eng.getRep(s, cluster), FromInput)
  }

  /** `lvq.train1(input, cluster, lfactor)`: one training step; returns the
      engine's squared-norm delta as a float. */
  function Train1<S>(eng: Engine<S>, h: Host<S>, self: ObjId, args: seq<PyVal>): (out: (Host<S>, Ret))
    requires Bound(h, self)
    requires Accepts(h.err.Some?, args, FORMAT_OND) ==> Coherent(args[0])
    ensures DecodeInputSizeDouble(h.err.Some?, args).Throw? ==> out.0.engines == h.engines && out.1 == Null
    ensures DecodeInputSizeDouble(h.err.Some?, args).Ok? ==>
      var (input, cluster, lfactor) := DecodeInputSizeDouble(h.err.Some?, args).value;
      var step := eng.train1(EngineOf(h, self), input, cluster, lfactor);
      out.0.engines == h.engines[h.objects[self].value := step.after] &&
      out.1 == (if step.out.Ok? then Ref(PyFloat(step.out.value)) else Null)
    ensures h.err.None? ==> (out.1 == Null <==> out.0.err.Some?)
    ensures Valid(h) ==> Valid(out.0)
  {
    MethodEntry(h, self, DecodeInputSizeDouble(h.err.Some?, args),
                (s: S, a: (Input, SizeT, real)) => eng.train1(s, a.0, a.1, a.2), (d: real) => PyFloat(d))
  }

  /** `lvq.train(set, conv_win, max_div_cnt, max_tlc)`: returns None. */
  function Train<S>(eng: Engine<S>, h: Host<S>, self: ObjId, args: seq<PyVal>): (out: (Host<S>, Ret))
    requires Bound(h, self)
    requires Accepts(h.err.Some?, args, FORMAT_OIII) ==> RecordsWellFormed(args[0])
    ensures DecodeTrain(h.err.Some?, args).Throw? ==> out.0.engines == h.engines && out.1 == Null
    ensures DecodeTrain(h.err.Some?, args).Ok? ==>
      var (records, convWin, maxDivCnt, maxTlc) := DecodeTrain(h.err.Some?, args).value;
      var step := eng.train(EngineOf(h, self), records, convWin, maxDivCnt, maxTlc);
      out.0.engines == h.engines[h.objects[self].value := step.after] &&
      out.1 == (if step.out.Ok? then Ref(PyNone) else Null)
    ensures h.err.None? ==> (out.1 == Null <==> out.0.err.Some?)
    ensures Valid(h) ==> Valid(out.0)
  {
    MethodEntry(h, self, DecodeTrain(h.err.Some?, args),
                (s: S, a: (TrainingSet, UInt, UInt, UInt)) => eng.train(s, a.0, a.1, a.2, a.3),
                (_: ()) => PyNone)
  }

  /** `lvq.classify(input)`: the cluster index as an int. */
  function Classify<S>(eng: Engine<S>, h: Host<S>, self: ObjId, args: seq<PyVal>): (out: (Host<S>, Ret))
    requires Bound(h, self)
    requires Accepts(h.err.Some?, args, FORMAT_O) ==> Coherent(args[0])
    ensures out.0.engines == h.engines
    ensures DecodeInput(h.err.Some?, args).Throw? ==> out.1 == Null
    ensures DecodeInput(h.err.Some?, args).Ok? ==>
      var c := eng.classify(EngineOf(h, self), DecodeInput(h.err.Some?, args).value);
      out.1 == (if c.Ok? then Ref(PyInt(FromSize(c.value))) else Null)
    ensures h.err.None? ==> (out.1 == Null <==> out.0.err.Some?)
    ensures Valid(h) ==> Valid(out.0)
  {
    QueryEntry(h, self, DecodeInput(h.err.Some?, args),
               (s: S, input: Input) => eng.classify(s, input), (c: SizeT) => PyInt(FromSize(c)))
  }

  /** `lvq.classify_weight(input)`: the weight vector as a tuple of floats. */
  function ClassifyWeight<S>(eng: Engine<S>, h: Host<S>, self: ObjId, args: seq<PyVal>): (out: (Host<S>, Ret))
    requires Bound(h, self)
    requires Accepts(h.err.Some?, args, FORMAT_O) ==> Coherent(args[0])
    ensures out.0.engines == h.engines
    ensures DecodeInput(h.err.Some?, args).Throw? ==> out.1 == Null
    ensures DecodeInput(h.err.Some?, args).Ok? ==>
      var w := eng.classifyWeight(EngineOf(h, self), DecodeInput(h.err.Some?, args).value);
      out.1 == (if w.Ok? then Ref(FromWeight(w.value)) else Null)
    ensures h.err.None? ==> (out.1 == Null <==> out.0.err.Some?)
    ensures Valid(h) ==> Valid(out.0)
  {
    QueryEntry(h, self, DecodeInput(h.err.Some?, args),
               (s: S, input: Input) => eng.classifyWeight(s, input), FromWeight)
  }

  /** Static `lvq.best(weights, n)`: the engine's pairs, in its order. */
  function Best<S>(eng: Engine<S>, h: Host<S>, args: seq<PyVal>): (out: (Host<S>, Ret))
    ensures out.0.(err := h.err) == h
    ensures DecodeWeightSize(h.err.Some?, args).Throw? ==> out.1 == Null
    ensures DecodeWeightSize(h.err.Some?, args).Ok? ==>
      var (weight, n) := DecodeWeightSize(h.err.Some?, args).value;
      var cws := eng.best(weight, n);
      out.1 == (if cws.Ok? then Ref(FromClusterWeights(cws.value)) else Null)
    ensures h.err.None? ==> (out.1 == Null <==> out.0.err.Some?)
  {
    StaticEntry(h, DecodeWeightSize(h.err.Some?, args),
                (a: (seq<real>, SizeT)) => eng.best(a.0, a.1), FromClusterWeights)
  }

  /** `lvq.classify_best(input, n)`: the engine's pairs, in its order. */
  function ClassifyBest<S>(eng: Engine<S>, h: Host<S>, self: ObjId, args: seq<PyVal>): (out: (Host<S>, Ret))
    requires Bound(h, self)
    requires Accepts(h.err.Some?, args, FORMAT_ON) ==> Coherent(args[0])
    ensures out.0.engines == h.engines
    ensures DecodeInputSize(h.err.Some?, args).Throw? ==> out.1 == Null
    ensures DecodeInputSize(h.err.Some?, args).Ok? ==>
      var (input, n) := DecodeInputSize(h.err.Some?, args).value;
      var cws := eng.classifyBest(EngineOf(h, self), input, n);
      out.1 == (if cws.Ok? then Ref(FromClusterWeights(cws.value)) else Null)
    ensures h.err.None? ==> (out.1 == Null <==> out.0.err.Some?)
    ensures Valid(h) ==> Valid(out.0)
  {
    QueryEntry(h, self, DecodeInputSize(h.err.Some?, args),
               (s: S, a: (Input, SizeT)) => eng.classifyBest(s, a.0, a.1), FromClusterWeights)
  }

  /** Static `lvq.weight_threshold(weights, wthres)`: the engine's pairs, in its order. */
  function WeightThreshold<S>(eng: Engine<S>, h: Host<S>, args: seq<PyVal>): (out: (Host<S>, Ret))
    ensures out.0.(err := h.err) == h
    ensures DecodeWeightDouble(h.err.Some?, args).Throw? ==> out.1 == Null
    ensures DecodeWeightDouble(h.err.Some?, args).Ok? ==>
      var (weight, wthres) := DecodeWeightDouble(h.err.Some?, args).value;
      var cws := eng.weightThreshold(weight, wthres);
      out.1 == (if cws.Ok? then Ref(FromClusterWeights(cws.value)) else Null)
    ensures h.err.None? ==> (out.1 == Null <==> out.0.err.Some?)
  {
    StaticEntry(h, DecodeWeightDouble(h.err.Some?, args),
                (a: (seq<real>, real)) => eng.weightThreshold(a.0, a.1), FromClusterWeights)
  }

  /** `lvq.classify_weight_threshold(input, wthres)`: the engine's pairs, in its order. */
  function ClassifyWeightThreshold<S>(eng: Engine<S>, h: Host<S>, self: ObjId, args: seq<PyVal>): (out: (Host<S>, Ret))
    requires Bound(h, self)
    requires Accepts(h.err.Some?, args, FORMAT_OD) ==> Coherent(args[0])
    ensures out.0.engines == h.engines
    ensures DecodeInputDouble(h.err.Some?, args).Throw? ==> out.1 == Null
    ensures DecodeInputDouble(h.err.Some?, args).Ok? ==>
      var (input, wthres) := DecodeInputDouble(h.err.Some?, args).value;
      var cws := eng.classifyWeightThreshold(EngineOf(h, self), input, wthres);
      out.1 == (if cws.Ok? then Ref(FromClusterWeights(cws.value)) else Null)
    ensures h.err.None? ==> (out.1 == Null <==> out.0.err.Some?)
    ensures Valid(h) ==> Valid(out.0)
  {
    QueryEntry(h, self, DecodeInputDouble(h.err.Some?, args),
               (s: S, a: (Input, real)) => eng.classifyWeightThreshold(s, a.0, a.1), FromClusterWeights)
  }

  /** `lvq.learn_rate(set)`: the engine's learn rate as a float. */
  function LearnRate<S>(eng: Engine<S>, h: Host<S>, self: ObjId, args: seq<PyVal>): (out: (Host<S>, Ret))
    requires Bound(h, self)
    requires Accepts(h.err.Some?, args, FORMAT_O) ==> RecordsWellFormed(args[0])
    ensures out.0.engines == h.engines
    ensures DecodeTrainingSet(h.err.Some?, args).Throw? ==> out.1 == Null
    ensures DecodeTrainingSet(h.err.Some?, args).Ok? ==>
      var lrate := eng.learnRate(EngineOf(h, self), DecodeTrainingSet(h.err.Some?, args).value);
      out.1 == (if lrate.Ok? then Ref(PyFloat(lrate.value)) else Null)
    ensures h.err.None? ==> (out.1 == Null <==> out.0.err.Some?)
    ensures Valid(h) ==> Valid(out.0)
  {
    QueryEntry(h, self, DecodeTrainingSet(h.err.Some?, args),
               (s: S, records: TrainingSet) => eng.learnRate(s, records), (d: real) => PyFloat(d))
  }

  // ------------------------------------------------ decoding precedes the engine

  /** A `set` call whose arguments do not decode gives the same outcome
      whatever the engine is: the engine is never called. */
  lemma SetDecodeFailureSkipsEngine<S>(e1: Engine<S>, e2: Engine<S>, h: Host<S>, self: ObjId, args: seq<PyVal>)
    requires Bound(h, self)
    requires Accepts(h.err.Some?, args, FORMAT_ON) ==> Coherent(args[0])
    requires DecodeInputSize(h.err.Some?, args).Throw?
    ensures Set(e1, h, self, args) == Set(e2, h, self, args)
    ensures Set(e1, h, self, args) == (Raised(h, DecodeInputSize(h.err.Some?, args).x), Null)
  {
  }

  /** The same for `train`: a bad training set or a bad tunable never reaches the engine. */
  lemma TrainDecodeFailureSkipsEngine<S>(e1: Engine<S>, e2: Engine<S>, h: Host<S>, self: ObjId, args: seq<PyVal>)
    requires Bound(h, self)
    requires Accepts(h.err.Some?, args, FORMAT_OIII) ==> RecordsWellFormed(args[0])
    requires DecodeTrain(h.err.Some?, args).Throw?
    ensures Train(e1, h, self, args) == Train(e2, h, self, args)
    ensures Train(e1, h, self, args) == (Raised(h, DecodeTrain(h.err.Some?, args).x), Null)
  {
  }

  /** The same for `train1`. */
  lemma Train1DecodeFailureSkipsEngine<S>(e1: Engine<S>, e2: Engine<S>, h: Host<S>, self: ObjId, args: seq<PyVal>)
    requires Bound(h, self)
    requires Accepts(h.err.Some?, args, FORMAT_OND) ==> Coherent(args[0])
    requires DecodeInputSizeDouble(h.err.Some?, args).Throw?
    ensures Train1(e1, h, self, args) == Train1(e2, h, self, args)
    ensures Train1(e1, h, self, args) == (Raised(h, DecodeInputSizeDouble(h.err.Some?, args).x), Null)
  {
  }

  /** A training record with a negative label makes `train` fail with the
      label's message, before the engine is reached. */
  lemma TrainRejectsNegativeLabel<S>(eng: Engine<S>, h: Host<S>, self: ObjId)
    requires Bound(h, self) && h.err.None?
    ensures var args := [PyList([PyTuple([PyTuple([PyFloat(0.0)]), PyInt(-1)])]), PyInt(1), PyInt(2), PyInt(3)];
            Train(eng, h, self, args) == (h.(err := Some(RuntimeError(CLUSTER_NEGATIVE))), Null)
  {
    var record := PyTuple([PyTuple([PyFloat(0.0)]), PyInt(-1)]);
    var args := [PyList([record]), PyInt(1), PyInt(2), PyInt(3)];
    assert ToRecord(record) == Throw(LogicError(CLUSTER_NEGATIVE));
    assert ToTrainingSet(args[0]) == Throw(LogicError(CLUSTER_NEGATIVE));
    assert DecodeTrain(false, args) == Throw(LogicError(CLUSTER_NEGATIVE));
  }
}
