/** A session of calls into the extension module: objects are created with
    `tp_new`, (re)initialised with `tp_init`, used through their methods and
    finalised with `tp_dealloc`, in any order and with any arguments. The
    ownership invariant holds after every call, so over a whole session no
    engine is dereferenced after deletion, deleted twice, or leaked. */
module Session {
  import opened Outcomes
  import opened PyObjects
  import opened Lvq
  import opened Args
  import opened Converters
  import opened Host
  import opened Lifecycle
  import opened Bindings

  /** One call the interpreter makes into the module: a type slot or one of
      the eleven methods; or the interpreter handling the exception a failed
      call raised (an `except` clause), which clears the error indicator. */
  datatype Call =
    | ErrorHandled
    | NewCall(allocOk: bool, args: seq<PyVal>)
    | InitCall(self: ObjId, args: seq<PyVal>)
    | DeallocCall(self: ObjId)
    | SetCall(self: ObjId, args: seq<PyVal>)
    | GetCall(self: ObjId, args: seq<PyVal>)
    | Train1Call(self: ObjId, args: seq<PyVal>)
    | TrainCall(self: ObjId, args: seq<PyVal>)
    | ClassifyCall(self: ObjId, args: seq<PyVal>)
    | ClassifyWeightCall(self: ObjId, args: seq<PyVal>)
    | BestCall(args: seq<PyVal>)
    | ClassifyBestCall(self: ObjId, args: seq<PyVal>)
    | WeightThresholdCall(args: seq<PyVal>)
    | ClassifyWeightThresholdCall(self: ObjId, args: seq<PyVal>)
    | LearnRateCall(self: ObjId, args: seq<PyVal>)

  /** The interpreter issues `call` on `h`: `tp_init` and `tp_dealloc` only
      on objects `tp_new` made, and methods only on objects whose field is
      set, with argument objects whose length and iteration agree. */
  predicate Issuable<S>(h: Host<S>, call: Call) {
    match call
    case ErrorHandled => true
    case NewCall(_, _) => true
    case InitCall(o, _) => o in h.objects
    case DeallocCall(o) => o in h.objects
    case SetCall(o, args) =>
      Bound(h, o) && (Accepts(h.err.Some?, args, FORMAT_ON) ==> Coherent(args[0]))
    case GetCall(o, _) => Bound(h, o)
    case Train1Call(o, args) =>
      Bound(h, o) && (Accepts(h.err.Some?, args, FORMAT_OND) ==> Coherent(args[0]))
    case TrainCall(o, args) =>
      Bound(h, o) && (Accepts(h.err.Some?, args, FORMAT_OIII) ==> RecordsWellFormed(args[0]))
    case ClassifyCall(o, args) =>
      Bound(h, o) && (Accepts(h.err.Some?, args, FORMAT_O) ==> Coherent(args[0]))
    case ClassifyWeightCall(o, args) =>
      Bound(h, o) && (Accepts(h.err.Some?, args, FORMAT_O) ==> Coherent(args[0]))
    case BestCall(_) => true
    case ClassifyBestCall(o, args) =>
      Bound(h, o) && (Accepts(h.err.Some?, args, FORMAT_ON) ==> Coherent(args[0]))
    case WeightThresholdCall(_) => true
    case ClassifyWeightThresholdCall(o, args) =>
      Bound(h, o) && (Accepts(h.err.Some?, args, FORMAT_OD) ==> Coherent(args[0]))
    case LearnRateCall(o, args) =>
      Bound(h, o) && (Accepts(h.err.Some?, args, FORMAT_O) ==> RecordsWellFormed(args[0]))
  }

  /** Calls served by a type slot, and the handling of an exception, as opposed
      to method calls. */
  predicate SlotOrHandler(call: Call) {
    call.ErrorHandled? || call.NewCall? || call.InitCall? || call.DeallocCall?
  }

  /** The state after an issuable slot call or exception handling. */
  function ApplySlot<S>(eng: Engine<S>, h: Host<S>, call: Call): (h': Host<S>)
    requires Issuable(h, call) && SlotOrHandler(call)
    ensures Valid(h) ==> Valid(h')
    ensures h'.nextEngine >= h.nextEngine
  {
    assert Valid(h) ==> Valid(h.(err := None)) by {
      if Valid(h) { ValidIgnoresErr(h, None); }
    }
    match call
    case ErrorHandled => h.(err := None)
    case NewCall(allocOk, args) => NewEntry(eng, h, allocOk, args).0
    case InitCall(o, args) => InitEntry(eng, h, o, args).0
    case DeallocCall(o) => DeallocEntry(h, o).0
  }

  /** The state after an issuable method call. */
  function ApplyMethod<S>(eng: Engine<S>, h: Host<S>, call: Call): (h': Host<S>)
    requires Issuable(h, call) && !SlotOrHandler(call)
    ensures Valid(h) ==> Valid(h')
    ensures h'.nextEngine == h.nextEngine
  {
    match call
    case SetCall(o, args) => Set(eng, h, o, args).0
    case GetCall(o, args) => Get(eng, h, o, args).0
    case Train1Call(o, args) => Train1(eng, h, o, args).0
    case TrainCall(o, args) => Train(eng, h, o, args).0
    case ClassifyCall(o, args) => Classify(eng, h, o, args).0
    case ClassifyWeightCall(o, args) => ClassifyWeight(eng, h, o, args).0
    case BestCall(args) => Best(eng, h, args).0
    case ClassifyBestCall(o, args) => ClassifyBest(eng, h, o, args).0
    case WeightThresholdCall(args) => WeightThreshold(eng, h, args).0
    case ClassifyWeightThresholdCall(o, args) => ClassifyWeightThreshold(eng, h, o, args).0
    case LearnRateCall(o, args) => LearnRate(eng, h, o, args).0
  }

  /** The state after one issuable call, through its `wrap_X` entry point. */
  function Apply<S>(eng: Engine<S>, h: Host<S>, call: Call): (h': Host<S>)
    requires Issuable(h, call)
    ensures Valid(h) ==> Valid(h')
    ensures h'.nextEngine >= h.nextEngine
    ensures !SlotOrHandler(call) ==> h'.nextEngine == h.nextEngine
  {
    if SlotOrHandler(call) then ApplySlot(eng, h, call) else ApplyMethod(eng, h, call)
  }

  /** A session: every issuable call is applied in order; a call the
      interpreter would never issue in that state is not part of it. */
  function Run<S>(eng: Engine<S>, h: Host<S>, calls: seq<Call>): Host<S>
    decreases |calls|
  {
    if |calls| == 0 then h
    else
      var h1 := if Issuable(h, calls[0]) then Apply(eng, h, calls[0]) else h;
      Run(eng, h1, calls[1..])
  }

  /** The ownership invariant holds across any session that starts in it. */
  lemma {:induction false} RunKeepsValid<S>(eng: Engine<S>, h: Host<S>, calls: seq<Call>)
    requires Valid(h)
    ensures Valid(Run(eng, h, calls))
    decreases |calls|
  {
    if |calls| > 0 {
      var h1 := if Issuable(h, calls[0]) then Apply(eng, h, calls[0]) else h;
      RunKeepsValid(eng, h1, calls[1..]);
    }
  }

  /** A failed call does not poison the session: once the exception is
      handled, `liblvq.lvq(d, c)` allocates a fresh engine again. */
  lemma HandledErrorAllowsNew<S>(eng: Engine<S>, h: Host<S>, args: seq<PyVal>)
    requires h.err.Some?
    requires Accepts(false, args, CREATE_FORMAT)
    requires eng.construct(SizeOf(args[0]), SizeOf(args[1])).Ok?
    ensures var h' := Run(eng, h, [ErrorHandled, NewCall(true, args)]);
            && h'.err.None?
            && h'.nextEngine == h.nextEngine + 1
            && h.nextObj in h'.objects
            && h'.objects[h.nextObj] == Some(h.nextEngine)
  {
    var calls := [ErrorHandled, NewCall(true, args)];
    var h1 := h.(err := None);
    assert Run(eng, h, calls) == Run(eng, h1, calls[1..]);
    assert calls[1..][1..] == [];
  }

  /** Over a whole session from a fresh module: no engine is deleted twice,
      no engine is deleted while an object still points at it, and every
      engine ever allocated is either still owned by an object or deleted. */
  lemma {:induction false} SessionNeverLeaksOrDoubleFrees<S>(eng: Engine<S>, calls: seq<Call>)
    ensures var h := Run(eng, Host(map[], 0, map[], 0, [], None), calls);
            && (forall i, j :: 0 <= i < j < |h.released| ==> h.released[i] != h.released[j])
            && (forall o :: o in h.objects && h.objects[o].Some? ==> h.objects[o].value !in h.released)
            && (forall e: EngineId :: e < h.nextEngine ==>
                  (e in h.released) != (exists o :: Owns(h, o, e)))
  {
    var h0: Host<S> := Host(map[], 0, map[], 0, [], None);
    RunKeepsValid(eng, h0, calls);
    var h := Run(eng, h0, calls);
    forall e: EngineId | e < h.nextEngine
      ensures (e in h.released) != (exists o :: Owns(h, o, e))
    {
      if e in h.released {
        var i :| 0 <= i < |h.released| && h.released[i] == e;
        assert e !in h.engines;
      }
    }
  }
}
