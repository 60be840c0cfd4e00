/** The life cycle of the owned engine pointer of a `liblvq.lvq` object:
    `liblvq__lvq__create`, `liblvq__lvq__destroy`, `liblvq__lvq__new`,
    `liblvq__lvq__init`, and their `wrap_X` entry points. */
module Lifecycle {
  import opened Outcomes
  import opened PyObjects
  import opened Lvq
  import opened Args
  import opened Host

  /** `parse_args(args, "nn", &dimension, &clusters)`. */
  const CREATE_FORMAT: seq<Unit> := [SsizeUnit, SsizeUnit]

  /** `tp_init`'s failure code in the host's convention. */
  const INIT_FAILURE: int := -1

  /** The sentinel the binding actually hands `wrap_X` for `init`. */
  const INIT_SENTINEL_AS_WRITTEN: int := 1

  /** Storing a freshly allocated engine in a NULL field does not disturb ownership. */
  lemma BindFreshKeepsValid<S>(h: Host<S>, o: ObjId, s: S)
    requires Valid(h) && o in h.objects && h.objects[o].None?
    ensures Valid(h.(objects := h.objects[o := Some(h.nextEngine)],
                     engines := h.engines[h.nextEngine := s],
                     nextEngine := h.nextEngine + 1))
  {
    var id := h.nextEngine;
    var h' := h.(objects := h.objects[o := Some(id)], engines := h.engines[id := s], nextEngine := id + 1);
    forall e | e in h'.engines
      ensures exists o' :: Owns(h', o', e)
    {
      if e == id {
        assert Owns(h', o, e);
      } else {
        var o' :| Owns(h, o', e);
        assert Owns(h', o', e);
      }
    }
    forall e: EngineId | e < h'.nextEngine
      ensures e in h'.engines || e in h'.released
    {
      if e != id {
        assert e in h.engines || e in h.released;
      }
    }
  }

  /** `liblvq__lvq__create`: parse the dimension and cluster count, construct
      an engine, and only then store it in the (NULL) field. If either step
      throws, nothing has changed. */
  function Create<S>(eng: Engine<S>, h: Host<S>, o: ObjId, args: seq<PyVal>): (r: Exec<S, ()>)
    requires o in h.objects && h.objects[o].None?
    ensures r.Returned? <==>
      Accepts(h.err.Some?, args, CREATE_FORMAT) && eng.construct(SizeOf(args[0]), SizeOf(args[1])).Ok?
    ensures r.Threw? ==> r.host == h
    ensures !Accepts(h.err.Some?, args, CREATE_FORMAT) ==> r == Threw(h, LogicError(INVALID_ARGUMENTS))
    ensures r.Returned? ==>
      && r.host.objects == h.objects[o := Some(h.nextEngine)]
      && r.host.engines == h.engines[h.nextEngine := eng.construct(SizeOf(args[0]), SizeOf(args[1])).value]
      && r.host.nextEngine == h.nextEngine + 1
      && r.host.nextObj == h.nextObj && r.host.released == h.released && r.host.err == h.err
    ensures Valid(h) ==> Valid(r.host)
    ensures Valid(h) && r.Returned? ==> Bound(r.host, o)
  {
    match ParseArgs(h.err.Some?, args, CREATE_FORMAT)
    case Throw(x) => Threw(h, x)
    case Ok(a) =>
      match eng.construct(a[0].size, a[1].size)
      case Throw(x) => Threw(h, x)
      case Ok(s) =>
        var id := h.nextEngine;
        var h' := h.(objects := h.objects[o := Some(id)],
                     engines := h.engines[id := s],
                     nextEngine := id + 1);
        assert Valid(h) ==> Valid(h') by {
          if Valid(h) { BindFreshKeepsValid(h, o, s); }
        }
        Returned(h', ())
  }

  /** `liblvq__lvq__destroy`: the field is cleared before the engine is
      deleted, and only a non-NULL engine is deleted. It always returns 0. */
  function Destroy<S>(h: Host<S>, o: ObjId): (r: Exec<S, int>)
    requires o in h.objects
    ensures r.Returned? && r.value == 0
    ensures r.host.objects == h.objects[o := None]
    ensures h.objects[o].None? ==> r.host == h
    ensures h.objects[o].Some? ==>
      && r.host.engines == h.engines - {h.objects[o].value}
      && r.host.released == h.released + [h.objects[o].value]
    ensures r.host.nextObj == h.nextObj && r.host.nextEngine == h.nextEngine && r.host.err == h.err
    ensures Valid(h) ==> Valid(r.host)
  {
    var lvq := h.objects[o];
    var h1 := h.(objects := h.objects[o := None]);
    var h2 := if lvq.Some? then h1.(engines := h1.engines - {lvq.value}, released := h1.released + [lvq.value]) else h1;
    assert Valid(h) ==> Valid(h2) by {
      if Valid(h) {
        forall e | e in h2.engines
          ensures exists o' :: Owns(h2, o', e)
        {
          var o' :| Owns(h, o', e);
          assert o' != o;
          assert Owns(h2, o', e);
        }
        if lvq.Some? {
          forall i | 0 <= i < |h.released|
            ensures h.released[i] != lvq.value
          {
          }
        }
      }
    }
    Returned(h2, 0)
  }

  /** Destroying twice in a row is the same as destroying once: the second
      call finds the field NULL and deletes nothing. */
  lemma DestroyIdempotent<S>(h: Host<S>, o: ObjId)
    requires o in h.objects
    ensures Destroy(Destroy(h, o).host, o).host == Destroy(h, o).host
    ensures |Destroy(Destroy(h, o).host, o).host.released| <= |h.released| + 1
  {
  }

  /** Allocating a fresh Python object with a NULL field does not disturb ownership. */
  lemma AllocKeepsValid<S>(h: Host<S>)
    requires Valid(h)
    ensures Valid(h.(objects := h.objects[h.nextObj := None], nextObj := h.nextObj + 1))
  {
    var h1 := h.(objects := h.objects[h.nextObj := None], nextObj := h.nextObj + 1);
    forall e | e in h1.engines
      ensures exists o' :: Owns(h1, o', e)
    {
      var o' :| Owns(h, o', e);
      assert Owns(h1, o', e);
    }
  }

  /** `liblvq__lvq__new`: allocate the Python object (a failed allocation
      returns NULL with the allocator's MemoryError pending), then create.
      The fresh object's field starts NULL, so if create throws the object
      is left unbound, never half-constructed. */
  function New<S>(eng: Engine<S>, h: Host<S>, allocOk: bool, args: seq<PyVal>): (r: Exec<S, Ret>)
    ensures !allocOk ==> r == Returned(h.(err := Some(MemoryError)), Null)
    ensures allocOk ==> h.nextObj in r.host.objects && r.host.nextObj == h.nextObj + 1
    ensures allocOk && r.Threw? ==>
      r.host.objects == h.objects[h.nextObj := None] && r.host.engines == h.engines && r.host.err == h.err
    ensures allocOk && r.Returned? ==> r.value == Ref(PyLvq(h.nextObj)) && r.host.err == h.err
    ensures allocOk && r.Returned? && Valid(h) ==> Bound(r.host, h.nextObj)
    ensures allocOk ==> (r.Returned? <==>
      Accepts(h.err.Some?, args, CREATE_FORMAT) && eng.construct(SizeOf(args[0]), SizeOf(args[1])).Ok?)
    ensures allocOk && r.Returned? ==>
      r.host.objects == h.objects[h.nextObj := Some(h.nextEngine)] && r.host.nextEngine == h.nextEngine + 1
    ensures Valid(h) ==> Valid(r.host)
  {
    if !allocOk then
      assert Valid(h) ==> Valid(h.(err := Some(MemoryError))) by {
        if Valid(h) { ValidIgnoresErr(h, Some(MemoryError)); }
      }
      Returned(h.(err := Some(MemoryError)), Null)
    else
      var o := h.nextObj;
      var h1 := h.(objects := h.objects[o := None], nextObj := o + 1);
      assert Valid(h) ==> Valid(h1) by {
        if Valid(h) { AllocKeepsValid(h); }
      }
      match Create(eng, h1, o, args)
      case Threw(h2, x) => Threw(h2, x)
      case Returned(h2, _) => Returned(h2, Ref(PyLvq(o)))
  }

  /** `liblvq__lvq__init`: destroy, then create. Whatever the object owned
      before is released first; if create then throws, the field stays NULL. */
  function Init<S>(eng: Engine<S>, h: Host<S>, o: ObjId, args: seq<PyVal>): (r: Exec<S, int>)
    requires o in h.objects
    ensures o in r.host.objects
    ensures h.objects[o].Some? ==> r.host.released == h.released + [h.objects[o].value]
    ensures Valid(h) && h.objects[o].Some? ==> h.objects[o].value !in r.host.engines
    ensures h.objects[o].None? ==> r.host.released == h.released
    ensures r.Threw? ==> r.host.objects[o].None?
    ensures r.Returned? ==> r.value == 0 && r.host.objects[o] == Some(h.nextEngine)
    ensures r.Returned? <==>
      Accepts(h.err.Some?, args, CREATE_FORMAT) && eng.construct(SizeOf(args[0]), SizeOf(args[1])).Ok?
    ensures r.host.err == h.err
    ensures Valid(h) ==> Valid(r.host)
    ensures Valid(h) && r.Returned? ==> Bound(r.host, o)
  {
    var h1 := Destroy(h, o).host;
    match Create(eng, h1, o, args)
    case Threw(h2, x) => Threw(h2, x)
    case Returned(h2, _) => Returned(h2, 0)
  }

  /** `init` wrapped with a chosen failure sentinel. */
  function InitEntryWith<S>(xres: int, eng: Engine<S>, h: Host<S>, o: ObjId, args: seq<PyVal>): (out: (Host<S>, int))
    requires o in h.objects
  {
    WrapX(xres, Init(eng, h, o, args))
  }

  /** `init`'s entry point as the binding writes it: failures are reported as 1. */
  function InitEntryAsWritten<S>(eng: Engine<S>, h: Host<S>, o: ObjId, args: seq<PyVal>): (out: (Host<S>, int))
    requires o in h.objects
    ensures out.1 >= 0
    ensures out.0.err.Some? && h.err.None? ==> out.1 == INIT_SENTINEL_AS_WRITTEN
  {
    InitEntryWith(INIT_SENTINEL_AS_WRITTEN, eng, h, o, args)
  }

  /** `init`'s entry point with the host's failure code: the result is
      negative exactly when an error is pending, and the ownership invariant holds. */
  function InitEntry<S>(eng: Engine<S>, h: Host<S>, o: ObjId, args: seq<PyVal>): (out: (Host<S>, int))
    requires o in h.objects
    ensures h.err.None? ==> (out.1 < 0 <==> out.0.err.Some?)
    ensures out.1 == 0 || out.1 == INIT_FAILURE
    ensures Valid(h) ==> Valid(out.0)
  {
    WrapXSignalsFailure(INIT_FAILURE, Init(eng, h, o, args));
    assert Valid(h) ==> Valid(WrapX(INIT_FAILURE, Init(eng, h, o, args)).0) by {
      if Valid(h) { WrapXKeepsValid(INIT_FAILURE, Init(eng, h, o, args)); }
    }
    InitEntryWith(INIT_FAILURE, eng, h, o, args)
  }

  /** `tp_new`'s entry point: NULL exactly when an error is pending. */
  function NewEntry<S>(eng: Engine<S>, h: Host<S>, allocOk: bool, args: seq<PyVal>): (out: (Host<S>, Ret))
    ensures h.err.None? ==> (out.1 == Null <==> out.0.err.Some?)
    ensures out.1 == Null || out.1 == Ref(PyLvq(h.nextObj))
    ensures Valid(h) ==> Valid(out.0)
  {
    assert Valid(h) ==> Valid(WrapX(Null, New(eng, h, allocOk, args)).0) by {
      if Valid(h) { WrapXKeepsValid(Null, New(eng, h, allocOk, args)); }
    }
    WrapX(Null, New(eng, h, allocOk, args))
  }

  /** `tp_dealloc`: `destroy` under `wrap_X` with sentinel 0. Destroy never
      throws, so no error is ever raised from a finalizer. */
  function DeallocEntry<S>(h: Host<S>, o: ObjId): (out: (Host<S>, int))
    requires o in h.objects
    ensures out.1 == 0 && out.0.err == h.err
    ensures o in out.0.objects
    ensures out.0.objects[o].None?
    ensures Valid(h) ==> Valid(out.0)
  {
    WrapX(0, Destroy(h, o))
  }

  /** Calling `liblvq.lvq(d, c)` runs `new` and then `init` with the same
      arguments, so create runs twice: the engine `new` built is released by
      `init` and replaced by a different one; nothing is leaked or freed twice. */
  lemma ConstructReplacesEngine<S>(eng: Engine<S>, h: Host<S>, args: seq<PyVal>)
    requires Valid(h) && h.err.None?
    requires NewEntry(eng, h, true, args).1.Ref?
    ensures var (h1, _) := NewEntry(eng, h, true, args);
            var o := h.nextObj;
            Bound(h1, o) &&
            var first := h1.objects[o].value;
            var (h2, r) := InitEntry(eng, h1, o, args);
            && r == 0
            && Bound(h2, o)
            && h2.objects[o].value != first
            && h2.released == h1.released + [first]
            && first !in h2.engines
            && Valid(h2)
  {
  }

  /** As written, `__init__` on a bound object with arguments that do not
      parse releases the engine, leaves the object unbound and a RuntimeError
      pending, yet returns 1, which the host (testing for a negative result)
      takes for success. */
  lemma InitAsWrittenHidesFailure<S>(eng: Engine<S>, s: S)
    ensures var h: Host<S> := Host(map[0 := Some(0)], 1, map[0 := s], 1, [], None);
            var out := InitEntryAsWritten(eng, h, 0, []);
            && out.0.err == Some(RuntimeError(INVALID_ARGUMENTS))
            && out.1 == 1 && !(out.1 < 0)
            && out.0.objects[0].None?
            && out.0.released == [0]
            && out.0.engines == map[]
  {
  }
}
