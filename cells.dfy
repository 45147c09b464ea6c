/** Raw cell values as the workbook loader hands them over, and the per-cell
    normalisation that turns each of them into a JSON-safe value. */
module Cells {

  /** A Python value that is an instance of `int` or `float`. A `bool` is one
      too, because `bool` is a subclass of `int`. A float is kept as its
      opaque IEEE 754 bit pattern: nothing here interprets it. */
  datatype Number = Int(i: int) | Float(bits: bv64) | Bool(b: bool)

  /** A raw cell value. `Empty` is Python's `None`; `Other` is any other
      library object (a date, a time, an error sentinel, ...), of type `O`. */
  datatype RawValue<O> = Empty | Numeric(n: Number) | Text(s: string) | Other(obj: O)

  /** A normalised cell: either a number that is written out as it is, or a string. */
  datatype Cell = Num(n: Number) | Str(s: string)

  /** The Python types a raw value can have. */
  datatype PyType = NoneType | BoolType | IntType | FloatType | StrType | ObjectType

  function TypeOf<O>(v: RawValue<O>): PyType
  {
    match v
    case Empty => NoneType
    case Numeric(Int(_)) => IntType
    case Numeric(Float(_)) => FloatType
    case Numeric(Bool(_)) => BoolType
    case Text(_) => StrType
    case Other(_) => ObjectType
  }

  /** `issubclass(t, base)` among these types: a type is a subclass of itself
      and of `object`, and `bool` is a subclass of `int`. */
  predicate IsSubclass(t: PyType, base: PyType)
  {
    t == base || base == ObjectType || (t == BoolType && base == IntType)
  }

  /** `isinstance(v, bases)` with a tuple of classes. */
  predicate IsInstance<O>(v: RawValue<O>, bases: seq<PyType>)
  {
    bases != [] && (IsSubclass(TypeOf(v), bases[0]) || IsInstance(v, bases[1..]))
  }

  /** The check `isinstance(value, (int, float))` accepts exactly the numbers,
      booleans included. */
  lemma {:induction false} IntOrFloatInstances<O>(v: RawValue<O>)
    ensures IsInstance(v, [IntType, FloatType]) <==> v.Numeric?
  {
    var t := TypeOf(v);
    assert [IntType, FloatType][1..] == [FloatType];
    assert [FloatType][1..] == [];
    assert IsInstance(v, [FloatType]) <==> IsSubclass(t, FloatType);
    assert IsInstance(v, [IntType, FloatType]) <==> IsSubclass(t, IntType) || IsSubclass(t, FloatType);
  }

  /** `str(v)` for the values that reach it: a string converts to itself; the
      text of any other object is library-defined, given as `str`. */
  function PyStr<O>(v: RawValue<O>, str: O -> string): string
    requires v.Text? || v.Other?
  {
    if v.Text? then v.s else str(v.obj)
  }

  /** The classification applied to every cell: `None` becomes `""`, an
      instance of `int` or `float` is kept as it is, anything else becomes its
      string conversion. */
  function Normalise<O>(v: RawValue<O>, str: O -> string): (c: Cell)
    ensures c.Num? <==> v.Numeric?
    ensures v.Numeric? ==> c.n == v.n
    ensures v.Empty? ==> c == Str("")
    ensures v.Text? ==> c == Str(v.s)
    ensures v.Other? ==> c == Str(str(v.obj))
  {
    IntOrFloatInstances(v);
    if v.Empty? then Str("")
    else if IsInstance(v, [IntType, FloatType]) then Num(v.n)
    else Str(PyStr(v, str))
  }

  /** A boolean passes through as a boolean: it is not turned into the text
      "True" or "False". */
  lemma BooleansPassThrough<O>(b: bool, str: O -> string)
    ensures IsSubclass(BoolType, IntType)
    ensures Normalise(Numeric(Bool(b)), str) == Num(Bool(b))
  {
  }

  /** A string result says where it came from: an empty cell gives "", which
      is also what a cell holding the text "" gives. */
  lemma {:induction false} StringResultOrigin<O>(v: RawValue<O>, str: O -> string, s: string)
    requires Normalise(v, str) == Str(s)
    ensures (v.Empty? && s == "") || v == Text(s) || (v.Other? && s == str(v.obj))
    ensures Normalise(Empty, str) == Normalise(Text(""), str)
  {
  }
}
