/** `parse_args`: `PyArg_ParseTuple` against a fixed format, turned into a
    `std::logic_error("Invalid arguments")` when it fails. Only the format
    units the binding uses are modelled ("O", "n", "d", "I"), with Python 2.7
    semantics on an LP64 platform. */
module Args {
  import opened Outcomes
  import opened PyObjects

  /** One unit of a format string. */
  datatype Unit =
    | ObjUnit     // "O": any object, untouched
    | SsizeUnit   // "n": an integer in the C long range, stored into a size_t
    | DoubleUnit  // "d": anything PyFloat_AsDouble accepts
    | UIntUnit    // "I": an integer, masked to an unsigned int (no range check)

  /** A parsed argument. */
  datatype Arg = ObjArg(obj: PyVal) | SizeArg(size: SizeT) | DoubleArg(dbl: real) | UIntArg(u: UInt)

  const INVALID_ARGUMENTS := "Invalid arguments"

  /** The argument kind each unit produces. */
  predicate Fits(u: Unit, a: Arg) {
    match u
    case ObjUnit => a.ObjArg?
    case SsizeUnit => a.SizeArg?
    case DoubleUnit => a.DoubleArg?
    case UIntUnit => a.UIntArg?
  }

  /** Converting one argument; None where `PyArg_ParseTuple` raises. Floats are
      refused by "n" and "I"; a long outside the C long range overflows "n";
      "I" keeps the low 32 bits of any integer. */
  function Convert(u: Unit, v: PyVal): (r: Option<Arg>)
    ensures r.Some? ==> Fits(u, r.value)
    ensures u == ObjUnit ==> r == Some(ObjArg(v))
    ensures u != ObjUnit && r.Some? ==> v.PyInt? || v.PyLong? || (u == DoubleUnit && v.PyFloat?)
    ensures u == SsizeUnit ==>
      (r.Some? <==> IntegerValue(v).Some? && -0x8000_0000_0000_0000 <= IntegerValue(v).value < 0x8000_0000_0000_0000)
    ensures u == SsizeUnit && r.Some? ==>
      r.value.size % 0x1_0000_0000_0000_0000 == IntegerValue(v).value % 0x1_0000_0000_0000_0000
    ensures u == SsizeUnit && r.Some? && IntegerValue(v).value >= 0 ==> r.value.size == IntegerValue(v).value
    ensures u == DoubleUnit ==> (r.Some? <==> AsDouble(v).Some?)
    ensures u == DoubleUnit && r.Some? ==> r.value == DoubleArg(AsDouble(v).value)
    ensures u == UIntUnit ==> (r.Some? <==> IntegerValue(v).Some?)
    ensures u == UIntUnit && r.Some? ==>
      r.value.u % 0x1_0000_0000 == IntegerValue(v).value % 0x1_0000_0000
  {
    match u
    case ObjUnit => Some(ObjArg(v))
    case SsizeUnit =>
      (match v
       case PyInt(n) => Some(SizeArg(ToSize(n)))
       case PyLong(n) =>
         if -0x8000_0000_0000_0000 <= n < 0x8000_0000_0000_0000 then Some(SizeArg(ToSize(n))) else None
       case _ => None)
    case DoubleUnit =>
      (match AsDouble(v)
       case Some(x) => Some(DoubleArg(x))
       case None => None)
    case UIntUnit =>
      (match v
       case PyInt(n) => Some(UIntArg(n % 0x1_0000_0000))
       case PyLong(n) => Some(UIntArg(n % 0x1_0000_0000))
       case _ => None)
  }

  /** Whether `parse_args` lets a call through: no error was already pending
      (it tests `PyErr_Occurred`), the arity is exact and every argument converts. */
  predicate Accepts(pending: bool, args: seq<PyVal>, fmt: seq<Unit>) {
    && !pending
    && |args| == |fmt|
    && forall i :: 0 <= i < |fmt| ==> Convert(fmt[i], args[i]).Some?
  }

  /** Converting the arguments left to right. */
  function ConvertAll(args: seq<PyVal>, fmt: seq<Unit>): (r: Option<seq<Arg>>)
    requires |args| == |fmt|
    ensures r.Some? <==> forall i :: 0 <= i < |fmt| ==> Convert(fmt[i], args[i]).Some?
    ensures r.Some? ==> |r.value| == |fmt|
    ensures r.Some? ==> forall i :: 0 <= i < |fmt| ==> Convert(fmt[i], args[i]) == Some(r.value[i])
  {
    if fmt == [] then Some([])
    else
      match Convert(fmt[0], args[0])
      case None => None
      case Some(a) =>
        match ConvertAll(args[1..], fmt[1..])
        case None => None
        case Some(rest) => Some([a] + rest)
  }

  /** `parse_args`. Whatever went wrong, the exception says only "Invalid arguments". */
  function ParseArgs(pending: bool, args: seq<PyVal>, fmt: seq<Unit>): (r: Result<seq<Arg>>)
    ensures r.Ok? <==> Accepts(pending, args, fmt)
    ensures r.Ok? ==> |r.value| == |fmt|
    ensures r.Ok? ==> forall i :: 0 <= i < |fmt| ==> Convert(fmt[i], args[i]) == Some(r.value[i])
    ensures r.Throw? ==> r.x == LogicError(INVALID_ARGUMENTS)
  {
    if pending || |args| != |fmt| then Throw(LogicError(INVALID_ARGUMENTS))
    else
      match ConvertAll(args, fmt)
      case None => Throw(LogicError(INVALID_ARGUMENTS))
      case Some(a) => Ok(a)
  }

  /** The `size_t` an "n" argument is stored as. */
  function SizeOf(v: PyVal): SizeT
    requires Convert(SsizeUnit, v).Some?
  {
    Convert(SsizeUnit, v).value.size
  }

  /** The double a "d" argument is stored as. */
  function DoubleOf(v: PyVal): real
    requires Convert(DoubleUnit, v).Some?
  {
    Convert(DoubleUnit, v).value.dbl
  }

  /** The unsigned int an "I" argument is stored as. */
  function UIntOf(v: PyVal): UInt
    requires Convert(UIntUnit, v).Some?
  {
    Convert(UIntUnit, v).value.u
  }

  /** A cluster index the binding hands out (`Py_BuildValue("n", ...)`) and the
      caller passes back through "n" denotes the same cluster, even past 2^63. */
  lemma ClusterIndexRoundTrip(c: SizeT)
    ensures Convert(SsizeUnit, PyInt(FromSize(c))) == Some(SizeArg(c))
  {
  }

  /** A negative index passed through "n" reaches the engine wrapped around. */
  lemma NegativeIndexWraps(n: Long)
    requires n < 0
    ensures Convert(SsizeUnit, PyInt(n)) == Some(SizeArg(n + 0x1_0000_0000_0000_0000))
  {
  }
}
