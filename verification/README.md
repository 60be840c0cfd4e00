# liblvq Python binding — a Dafny model

This project models the Python 2 binding of the liblvq learning-vector-quantization
library (`liblvq.cxx`). It covers the layer where Python values meet the C++ engine:

- the converters between Python objects and engine data: `python2input`, `input2python`,
  `python2weight`, `weight2python`, `cw_vec2python` and `python2training_set`;
- `parse_args`, which checks arguments against a `PyArg_ParseTuple` format;
- the exception-to-sentinel adapter `wrap_X`;
- the life cycle of the single engine pointer a `liblvq.lvq` object owns: `create`,
  `destroy`, `new`, `init`, and the `tp_dealloc` entry;
- the eleven method bindings, each built on one template: parse, decode, call the engine,
  encode, all under `wrap_X`.

The `ml::lvq` engine is not part of this model. `Lvq.Engine<S>` is a record of function
values over an engine state `S` that the model never looks inside. Every engine operation
may throw. A mutating operation returns the state it leaves plus its outcome.

Layout, one module per file:

| file | module | contents |
|---|---|---|
| `outcomes.dfy` | `Outcomes` | `Option`, `Result`, C++ exceptions, the message `wrap_X` reports |
| `pyobject.dfy` | `PyObjects` | Python values (`PyVal`), `PyObject_Size`, iteration, `PyFloat_AsDouble`, `size_t` wrap-around |
| `engine.dfy` | `Lvq` | extended reals, inputs, (cluster, weight) pairs, training records, the engine interface |
| `converters.dfy` | `Converters` | the six converters and their round-trip lemmas |
| `args.dfy` | `Args` | format units "O", "n", "d" and "I", plus `parse_args` |
| `host.dfy` | `Host` | object fields, live engines, the release log, the pending error, `wrap_X`, the ownership invariant |
| `lifecycle.dfy` | `Lifecycle` | create / destroy / new / init and their entry points |
| `bindings.dfy` | `Bindings` | the method template, per-method argument decoders, and the eleven bindings |
| `session.dfy` | `Session` | arbitrary sequences of `tp_new`, `tp_init`, `tp_dealloc` and method calls, with exceptions handled in between |

`Host.Valid` is the ownership invariant every lifecycle step and every binding preserves:

- each object's field is NULL or points at a live engine;
- no two objects share an engine;
- every live engine has an owner;
- allocation counters are fresh;
- no engine appears twice in the release log, and no released engine is still alive;
- every engine ever allocated is either alive or in the release log, so no engine leaks.

Behaviour of the binding that the model keeps:

- Every failure reaches Python as a `RuntimeError` carrying the thrown message. No other
  exception type is raised, apart from the allocator's `MemoryError` in `new`. Every
  `parse_args` failure reads "Invalid arguments".
- Formats are exact: no argument is optional. `train` takes exactly four ("OIII").
- A method dereferences the object's engine field without checking it. The model makes a
  bound object a precondition of every instance binding.
- The module defines a single type, `liblvq.lvq`, and no module-level functions.

## Model

| member | source | states |
|---|---|---|
| Host.WrapX | liblvq.cxx:85-100 | a normal return of `fn` passes through unchanged; an exception yields the sentinel and a pending RuntimeError carrying `what()`, or "Unknown exception" for a non-`std::exception` throw |
| Host.WrapXSignalsFailure | liblvq.cxx:85-100 | if `fn` only returns the sentinel when an error is pending, the wrapped call returns the sentinel exactly when an error is pending; no exception is swallowed without an error |
| Host.WrapXKeepsValid | liblvq.cxx:85-100 | raising the RuntimeError does not disturb engine ownership |
| Args.Convert | liblvq.cxx:125-131 | per format unit: "O" takes anything, untouched; "n" takes exactly the ints and longs in the C long range and stores the size_t congruent to the value modulo 2^64 (the value itself when non-negative); "d" takes exactly what `PyFloat_AsDouble` takes and stores that double; "I" takes exactly the ints and longs and stores the value modulo 2^32; floats are refused by "n" and "I" |
| Args.ConvertAll | liblvq.cxx:125-131 | the left-to-right conversion succeeds exactly when every argument converts under its unit, and then holds each argument's conversion at its position |
| Args.ParseArgs | liblvq.cxx:125-131 | succeeds exactly when no error was pending, the arity is exact and every argument converts; the parsed arguments are the per-unit conversions in order; every failure is "Invalid arguments" |
| Args.ClusterIndexRoundTrip | liblvq.cxx:529-541 | a cluster index returned as a Python int, passed back through "n", reaches the same cluster even at 2^63 and above |
| Args.NegativeIndexWraps | liblvq.cxx:466-476 | a negative index reaches the engine as its size_t wrap-around |
| Converters.ToReals | liblvq.cxx:150-161 | the weight loop accepts exactly when every item coerces to a double; item i becomes weight i; otherwise "Invalid weight (should be double)" |
| Converters.ToWeight | liblvq.cxx:141-166 | no length gives "can't get size"; not iterable gives "should be iterable"; None is refused like any non-number; the result has one weight per iterated item, in order |
| Converters.FromWeight | liblvq.cxx:176-185 | a tuple of the same length whose item i is the float `weight[i]` |
| Converters.WeightRoundTrip | liblvq.cxx:141-185 | decoding an encoded weight vector gives back the same vector |
| Converters.WeightDecodeEncode | liblvq.cxx:141-185 | decoding a sequence of floats and encoding the result gives the same floats, as a tuple |
| Converters.ToRealXs | liblvq.cxx:204-216 | the element loop accepts exactly when every item is None or numeric; element i is undefined exactly when item i is None and otherwise holds the item's value; otherwise "Invalid input value" |
| Converters.ToInput | liblvq.cxx:195-221 | the two "can't get size" / "should be iterable" failures; success exactly when every item is None or numeric; the rank equals the reported size; element i stands for item i |
| Converters.FromInput | liblvq.cxx:231-249 | a tuple of length `rank()` with None exactly at undefined elements and the value elsewhere |
| Converters.InputRoundTrip | liblvq.cxx:195-249 | decoding an encoded input gives back the same input, undefined markers in place |
| Converters.InputDecodeEncode | liblvq.cxx:195-249 | decoding a sequence of floats and Nones and encoding the result gives the same items, as a tuple |
| Converters.MissingValueExample | liblvq.cxx:195-249 | `(1.0, None)` decodes to rank 2 with element 1 undefined and encodes back to `(1.0, None)` |
| Converters.FromClusterWeights | liblvq.cxx:259-269 | a tuple of the same length whose item i is `(cw_vec[i].first, cw_vec[i].second)` |
| Converters.ClusterWeightsInjective | liblvq.cxx:259-269 | distinct pair lists encode to distinct tuples, so nothing is sorted, dropped or merged |
| Converters.ToRecord | liblvq.cxx:293-315 | an item is accepted exactly when it is a tuple whose input decodes and whose label is a non-negative Python int; a non-tuple, a bad input, a non-int label and a negative label each fail with their own message, the input checked before the label |
| Converters.ToRecords | liblvq.cxx:290-317 | records are appended in iteration order, one per item; the error is that of the first item that fails |
| Converters.ToTrainingSet | liblvq.cxx:281-320 | the size and iterability failures; otherwise success exactly when every item decodes, with record i decoded from item i; on failure, the error of the first item that fails, every earlier item having decoded |
| Converters.StopsAtFirstBadRecord | liblvq.cxx:290-317 | `[[], ()]` fails with "Invalid training set ((input, cluster) tuples expected" on its first item; the short tuple after it is never unpacked, so the precondition admits it |
| Converters.TrainingSetLabels | liblvq.cxx:281-320 | every decoded label is the corresponding Python label, which was a non-negative int |
| Converters.LabelExamples | liblvq.cxx:295-313 | a float label, a negative label and a list instead of a tuple are each refused with their message; a good record decodes |
| Lifecycle.Create | liblvq.cxx:330-342 | succeeds exactly when "nn" parses and the engine constructs; on success the field holds a fresh engine; on failure nothing has changed |
| Lifecycle.Destroy | liblvq.cxx:352-359 | always returns 0; the field becomes NULL; an owned engine is deleted and logged once; a NULL field changes nothing |
| Lifecycle.DestroyIdempotent | liblvq.cxx:352-359 | destroying twice is the same as destroying once |
| Lifecycle.DeallocEntry | liblvq.cxx:362-364 | `wrap_X` around `destroy` returns 0, which the `void` finalizer discards; no error is raised and the field is left NULL |
| Lifecycle.New | liblvq.cxx:381-394 | a failed allocation returns NULL with MemoryError pending; otherwise the new object exists; it comes back exactly when "nn" parses and the engine constructs, bound to the freshly allocated engine; if create throws it is left unbound |
| Lifecycle.NewEntry | liblvq.cxx:397-403 | NULL exactly when an error is pending, otherwise the new object; ownership preserved |
| Lifecycle.Init | liblvq.cxx:416-428 | the previously owned engine is released before anything else; if create then fails the field stays NULL; on success it holds a fresh engine different from every earlier one |
| Lifecycle.InitEntryAsWritten | liblvq.cxx:431-437 | with sentinel 1, the result is never negative, even when an error is pending |
| Lifecycle.InitAsWrittenHidesFailure | liblvq.cxx:431-437 | `__init__()` without arguments on a bound object releases its engine, leaves the object unbound and "Invalid arguments" pending, yet returns 1, which the host's negative-result test takes for success |
| Lifecycle.InitEntry | liblvq.cxx:431-437 | with the corrected sentinel -1, the result is negative exactly when an error is pending; ownership preserved |
| Lifecycle.ConstructReplacesEngine | liblvq.cxx:381-437 | `lvq(d, c)` runs new and then init: the first engine is released, the object ends up owning a different one, and nothing is leaked or freed twice |
| Bindings.MethodEntry | liblvq.cxx:110-113 | a decode failure leaves everything but the pending error untouched and returns NULL; otherwise only the object's own engine changes; NULL exactly when an error is pending |
| Bindings.QueryEntry | liblvq.cxx:110-113 | a read-only binding changes no engine; it returns the encoded result, or NULL with the error |
| Bindings.StaticEntry | liblvq.cxx:110-113 | a static binding changes nothing but the pending error |
| Bindings.DecodeInput | liblvq.cxx:529-534 | "O" errors come before input errors; the result is `python2input` of the argument |
| Bindings.DecodeInputSize | liblvq.cxx:444-452 | "On" errors come before input errors; the result is the decoded input and the size_t argument |
| Bindings.DecodeInputDouble | liblvq.cxx:638-647 | "Od" errors come before input errors; the result is the decoded input and the threshold |
| Bindings.DecodeInputSizeDouble | liblvq.cxx:484-491 | "Ond" errors come before input errors; the result is the input, the cluster and the factor |
| Bindings.DecodeSize | liblvq.cxx:466-469 | "n" either fails with "Invalid arguments" or yields the size_t argument |
| Bindings.DecodeWeightSize | liblvq.cxx:572-578 | "On" errors come before weight errors; the result is the weights and the count |
| Bindings.DecodeWeightDouble | liblvq.cxx:614-622 | "Od" errors come before weight errors; the result is the weights and the threshold |
| Bindings.DecodeTrainingSet | liblvq.cxx:663-668 | "O" errors come before training-set errors; the result is `python2training_set` of the argument |
| Bindings.DecodeTrain | liblvq.cxx:506-514 | all four "OIII" arguments are required, and their errors come before training-set errors; the tunables are masked to unsigned int |
| Bindings.Set | liblvq.cxx:444-460 | on a decode failure no engine changes; otherwise the engine's `set` gets the decoded input and cluster and None is returned |
| Bindings.Get | liblvq.cxx:466-478 | no engine changes; the representative comes back encoded as an input tuple |
| Bindings.Train1 | liblvq.cxx:484-500 | on a decode failure no engine changes; otherwise `train1` gets the decoded arguments and its delta is returned as a float |
| Bindings.Train | liblvq.cxx:506-523 | on a decode failure no engine changes; otherwise `train` gets the decoded set and tunables and None is returned |
| Bindings.Classify | liblvq.cxx:529-543 | no engine changes; the engine's cluster index comes back as a Python int |
| Bindings.ClassifyWeight | liblvq.cxx:549-566 | no engine changes; the engine's weights come back as a tuple of floats |
| Bindings.Best | liblvq.cxx:572-587 | static: touches no object; the engine's pairs come back in the engine's order |
| Bindings.ClassifyBest | liblvq.cxx:593-608 | no engine changes; the engine's pairs come back in the engine's order |
| Bindings.WeightThreshold | liblvq.cxx:614-632 | static: touches no object; the engine's pairs come back in the engine's order |
| Bindings.ClassifyWeightThreshold | liblvq.cxx:638-657 | no engine changes; the engine's pairs come back in the engine's order |
| Bindings.LearnRate | liblvq.cxx:663-677 | no engine changes; the engine's learn rate comes back as a float |
| Bindings.SetDecodeFailureSkipsEngine | liblvq.cxx:444-458 | a `set` whose arguments do not decode gives the same outcome for any two engines, so no engine was called |
| Bindings.Train1DecodeFailureSkipsEngine | liblvq.cxx:484-498 | the same for `train1` |
| Bindings.TrainDecodeFailureSkipsEngine | liblvq.cxx:506-521 | the same for `train` |
| Bindings.TrainRejectsNegativeLabel | liblvq.cxx:506-521 | `train` with a record labelled -1 returns NULL with "Invalid cluster (must be >= 0)" pending and leaves the engine as it was |
| Session.Apply | liblvq.cxx:765-804 | any call the interpreter can make through the type's slots and methods, and the handling of a raised exception, keeps the ownership invariant and never reuses an engine identity |
| Session.RunKeepsValid | liblvq.cxx:330-364 | the ownership invariant holds after any session of calls that starts in it |
| Session.HandledErrorAllowsNew | liblvq.cxx:381-394 | after a failed call, once the exception is handled, `liblvq.lvq(d, c)` with valid sizes allocates a fresh engine, binds it to the new object and leaves no error pending |
| Session.SessionNeverLeaksOrDoubleFrees | liblvq.cxx:352-359 | from a fresh module, after any session: no engine is deleted twice, no object points at a deleted engine, and every engine ever allocated is either owned by an object or deleted, never both |

## Left out

- The `ml::lvq` engine (training, distances, `best` / `weight_threshold` ordering, learn rate) is not part of this model. Its operations are opaque function values, and no ordering of their results is assumed.
- Engine construction is a function of its two arguments. A construction that fails only sometimes, for example on memory exhaustion, is not modelled. The Python-object allocation outcome is the parameter `allocOk`.
- Reference counting is not modelled, so the no-leak property covers engines only, not Python objects. The converters do leak items and iterators when they throw. `new` leaks its object when create throws. The finalizer never calls `tp_free`.
- The type, method and module tables and `initliblvq` are declarative registration and are left out. Static methods are modelled as bindings without an instance.
- Iterators that raise part-way are not modelled. `PyIter_Next` then ends the loop with an error pending.
- Objects that coerce through `__float__`, `__int__` or `__index__` are not modelled; a `PyObject` never counts as numeric. `bool` is not distinguished from `int`.
- Floating point is abstracted to reals. This covers `double` rounding, the overflow of a huge long converted to double, and the narrowing of `learn_rate`'s result to `float`.
- Keyword arguments are not modelled. The binding ignores `kwds`.
- Converters.ToInput: requires that an object's reported length equals the number of items it yields, since the vector is filled by position. A lying object is not modelled.
- Converters.ToTrainingSet: requires every tuple the loop reaches to have at least two items. This covers the items up to and including the first failing record. The input component of such a tuple must not lie about its length. Short tuples are not modelled. `PyTuple_GetItem` returns NULL for a missing item and raises IndexError. An empty tuple then fails with "Invalid input (can't get size)". A one-item tuple with a non-empty input fails with "Invalid input value", because the IndexError is already pending. A one-item tuple whose input is empty reaches `PyInt_Check(NULL)` and dereferences a null pointer.
- Bindings.Train: carries the same training-set precondition as Converters.ToTrainingSet, and so does Bindings.LearnRate.
- Bindings.Get: the engine's `get`, `classify`, `classify_weight`, `classify_best`, `classify_weight_threshold` and `learn_rate` are assumed to be `const` and to leave the engine unchanged. `Lvq.Engine` types them as queries that return no new state. The `ml::lvq` header is not part of this model. The "no engine changes" clauses of Bindings.Get, Bindings.Classify, Bindings.ClassifyWeight, Bindings.ClassifyBest, Bindings.ClassifyWeightThreshold and Bindings.LearnRate rest on this assumption.
- Bindings.Train1: assumes `lvq_t::base_t` (the extended real `realx_t`) stores its double first, with nothing before it. `parse_args` writes the "d" argument through a `double *` into a `base_t`. `Py_BuildValue("d", ...)` reads the returned `base_t` through C varargs as a double. The model reads both as plain reals, and the layout is not part of this model.
- Converters.FromInput: makes the same layout assumption for `Py_BuildValue("d", input[i])`. A defined element is read back as its value.
- Bindings.Set: like every instance binding, requires a bound object. The binding dereferences the field without checking it.
- Pending errors at decoding time: the converters are modelled as running with no error pending. `parse_args` runs first and refuses any call made with an error already pending.
- `unit_test/lvq.py` exercises an API this binding does not have, so it is not used. `setup.py` is build packaging.

## Findings

| source | as written | input that shows it | evidently intended | confidence | as-written member | corrected member |
|---|---|---|---|---|---|---|
| liblvq.cxx:436 | `init`'s `wrap_X` sentinel is 1 | `obj.__init__()` on a bound `lvq` object: its engine is released, the object is left unbound and "Invalid arguments" is pending, yet `tp_init` returns 1, and the host treats only a negative result as failure | return -1, the host's `tp_init` failure code, so that a failed `__init__` raises | medium, not executed | Lifecycle.InitAsWrittenHidesFailure | Lifecycle.InitEntry |
