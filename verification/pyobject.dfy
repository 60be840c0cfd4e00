/** The slice of the Python 2 object model the binding touches: the values a
    caller can pass, and the C-API queries the converters make of them. */
module PyObjects {
  import opened Outcomes

  /** A C `long` (LP64): the value range of a Python 2 `int` and of `Py_ssize_t`. */
  type Long = n: int | -0x8000_0000_0000_0000 <= n < 0x8000_0000_0000_0000

  /** A C `size_t`. */
  type SizeT = n: int | 0 <= n < 0x1_0000_0000_0000_0000

  /** A C `unsigned int`. */
  type UInt = n: int | 0 <= n < 0x1_0000_0000

  /** Identity of a Python `liblvq.lvq` object. */
  type ObjId = nat

  /** A Python value as seen through the C API. */
  datatype PyVal =
    | PyNone                          // the None singleton
    | PyInt(i: Long)                  // a Python 2 `int`
    | PyLong(l: int)                  // a Python 2 `long`
    | PyFloat(f: real)                // a `float` (abstracted to a real)
    | PyTuple(items: seq<PyVal>)
    | PyList(items: seq<PyVal>)
    | PyLvq(obj: ObjId)               // a `liblvq.lvq` instance
      /** Any other object, described by what `len()` and `iter()` make of it:
          `len` is None when it has no length, `iter` None when it is not iterable. */
    | PyObject(len: Option<nat>, iter: Option<seq<PyVal>>)

  /** A `PyObject *` result: NULL, or a reference to a value. */
  datatype Ret = Null | Ref(v: PyVal)

  /** `PyObject_Size`: None where the C call returns -1. */
  function Size(v: PyVal): Option<nat> {
    match v
    case PyTuple(xs) => Some(|xs|)
    case PyList(xs) => Some(|xs|)
    case PyObject(n, _) => n
    case _ => None
  }

  /** The items `PyObject_GetIter` and `PyIter_Next` yield, in order; None
      where `PyObject_GetIter` returns NULL. */
  function Iterate(v: PyVal): Option<seq<PyVal>> {
    match v
    case PyTuple(xs) => Some(xs)
    case PyList(xs) => Some(xs)
    case PyObject(_, it) => it
    case _ => None
  }

  /** An object whose reported length agrees with the number of items its
      iterator yields (every tuple and list; an arbitrary object may lie). */
  predicate Coherent(v: PyVal) {
    Size(v).Some? && Iterate(v).Some? ==> Size(v).value == |Iterate(v).value|
  }

  /** `PyFloat_AsDouble`: floats, ints and longs coerce; anything else sets an error. */
  function AsDouble(v: PyVal): Option<real> {
    match v
    case PyFloat(x) => Some(x)
    case PyInt(n) => Some(n as real)
    case PyLong(n) => Some(n as real)
    case _ => None
  }

  /** The mathematical value of a Python 2 `int` or `long`; None for anything else. */
  function IntegerValue(v: PyVal): Option<int> {
    match v
    case PyInt(n) => Some(n)
    case PyLong(n) => Some(n)
    case _ => None
  }

  /** `Py_BuildValue("n", c)` with a `size_t` argument: the bits are read back
      as a `Py_ssize_t`, so indices from 2^63 on come out negative. */
  function FromSize(c: SizeT): Long {
    if c < 0x8000_0000_0000_0000 then c else c - 0x1_0000_0000_0000_0000
  }

  /** Storing a `Py_ssize_t` into a `size_t`: two's complement wrap-around. */
  function ToSize(n: Long): SizeT {
    n % 0x1_0000_0000_0000_0000
  }
}
