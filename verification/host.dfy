/** The state the binding works on and the exception-to-sentinel adapter
    `wrap_X`. The state holds the owned-pointer field of every `liblvq.lvq`
    object, the engines alive on the C++ heap, the order in which engines
    were deleted, and Python's pending-error indicator. */
module Host {
  import opened Outcomes
  import opened PyObjects

  /** Identity of one `lvq_t` allocated with `new`. */
  type EngineId = nat

  /** A pending Python exception. */
  datatype PyErr = RuntimeError(msg: string) | MemoryError

  datatype Host<S> = Host(
    objects: map<ObjId, Option<EngineId>>,  // the `lvq` field of every allocated Python object; None is NULL
    nextObj: nat,                           // where the next Python object is allocated
    engines: map<EngineId, S>,              // engines currently alive
    nextEngine: nat,                        // where the next engine is allocated
    released: seq<EngineId>,                // every `delete lvq` so far, in order
    err: Option<PyErr>                      // PyErr_Occurred()
  )

  /** What a C++ function does to the state: it returns a value or throws,
      and in both cases leaves the state it reached behind. */
  datatype Exec<S, R> = Returned(host: Host<S>, value: R) | Threw(host: Host<S>, x: Exc)

  /** `wrap_X(xres, fn, args...)`, given the outcome of `fn(args...)`: a normal
      return passes through untouched; any exception becomes the sentinel
      `xres` plus a pending RuntimeError carrying `what()`, or "Unknown exception". */
  function WrapX<S, R>(xres: R, run: Exec<S, R>): (out: (Host<S>, R))
    ensures run.Returned? ==> out == (run.host, run.value)
    ensures run.Threw? ==> out.1 == xres
    ensures run.Threw? ==> out.0 == run.host.(err := Some(RuntimeError(Message(run.x))))
  {
    match run
    case Returned(h, r) => (h, r)
    case Threw(h, x) => (h.(err := Some(RuntimeError(Message(x)))), xres)
  }

  /** The host's calling convention: the result is the sentinel exactly when
      an error is pending. `wrap_X` keeps it for any `fn` that keeps it on its
      normal returns; no exception is ever swallowed without an error. */
  lemma WrapXSignalsFailure<S, R>(xres: R, run: Exec<S, R>)
    requires run.Returned? ==> (run.value == xres <==> run.host.err.Some?)
    ensures WrapX(xres, run).1 == xres <==> WrapX(xres, run).0.err.Some?
    ensures run.Threw? ==> WrapX(xres, run).0.err == Some(RuntimeError(Message(run.x)))
  {
  }

  /** Python object `o` owns engine `e`. */
  predicate Owns<S>(h: Host<S>, o: ObjId, e: EngineId) {
    o in h.objects && h.objects[o] == Some(e)
  }

  /** Object `o` holds a live engine, so its methods may dereference the field. */
  predicate Bound<S>(h: Host<S>, o: ObjId) {
    o in h.objects && h.objects[o].Some? && h.objects[o].value in h.engines
  }

  /** Every object was allocated before the object counter's current value. */
  predicate ObjectsCounted<S>(h: Host<S>) {
    forall o :: o in h.objects ==> o < h.nextObj
  }

  /** A non-NULL field points at a live engine. */
  predicate FieldsLive<S>(h: Host<S>) {
    forall o :: o in h.objects && h.objects[o].Some? ==> h.objects[o].value in h.engines
  }

  /** No two objects share an engine. */
  predicate Exclusive<S>(h: Host<S>) {
    forall o1, o2 ::
      o1 in h.objects && o2 in h.objects && h.objects[o1].Some? && h.objects[o1] == h.objects[o2]
      ==> o1 == o2
  }

  /** Every live engine was allocated before the engine counter's current value. */
  predicate EnginesCounted<S>(h: Host<S>) {
    forall e :: e in h.engines ==> e < h.nextEngine
  }

  /** Every live engine has an owner. */
  ghost predicate AllOwned<S>(h: Host<S>) {
    forall e :: e in h.engines ==> exists o :: Owns(h, o, e)
  }

  /** Every deleted engine was allocated, is no longer alive, and was deleted once. */
  predicate LogSound<S>(h: Host<S>) {
    && (forall i :: 0 <= i < |h.released| ==> h.released[i] < h.nextEngine && h.released[i] !in h.engines)
    && (forall i, j :: 0 <= i < j < |h.released| ==> h.released[i] != h.released[j])
  }

  /** Every engine ever allocated is alive or deleted. */
  predicate NoLeak<S>(h: Host<S>) {
    forall e: EngineId :: e < h.nextEngine ==> e in h.engines || e in h.released
  }

  /** The ownership invariant: a field is NULL or points at a live engine; no
      two objects share an engine; every live engine has an owner; allocation
      counters are fresh; no engine was deleted twice or is deleted yet alive;
      and every engine ever allocated is alive or deleted, so none leaks. */
  ghost predicate Valid<S>(h: Host<S>) {
    && ObjectsCounted(h)
    && FieldsLive(h)
    && Exclusive(h)
    && EnginesCounted(h)
    && AllOwned(h)
    && LogSound(h)
    && NoLeak(h)
  }

  /** Raising or clearing a Python error does not touch ownership. */
  lemma ValidIgnoresErr<S>(h: Host<S>, e: Option<PyErr>)
    requires Valid(h)
    ensures Valid(h.(err := e))
  {
    var h' := h.(err := e);
    forall x | x in h'.engines
      ensures exists o :: Owns(h', o, x)
    {
      var o :| Owns(h, o, x);
      assert Owns(h', o, x);
    }
  }

  /** `wrap_X` keeps the ownership invariant of whatever state `fn` left. */
  lemma WrapXKeepsValid<S, R>(xres: R, run: Exec<S, R>)
    requires Valid(run.host)
    ensures Valid(WrapX(xres, run).0)
  {
    if run.Threw? {
      ValidIgnoresErr(run.host, Some(RuntimeError(Message(run.x))));
    }
  }
}
