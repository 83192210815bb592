/**
 * Values as the F1 service sees them after the upstream JSON has been
 * decoded: every record is a Python dict from field names to JSON scalars.
 * The module states the few pieces of Python semantics the service leans
 * on: `dict.get`, truthiness, `==`, and `<`, which raises a TypeError when
 * its operands are of incomparable kinds.
 */
module PyValues {

  /** A JSON scalar. A float is kept as an exact number of thousandths. */
  datatype Json = JNull | JInt(i: int) | JReal(milli: int) | JStr(s: string)

  /** A decoded JSON object (a Python dict). */
  type Record = map<string, Json>

  /** The only exception the modelled code can raise. */
  datatype Fault = TypeError

  /** A value, or the exception computing it raised; usable with `:-`. */
  datatype Result<T> = Ok(value: T) | Err(fault: Fault) {
    predicate IsFailure()
    {
      Err?
    }

    function PropagateFailure<U>(): Result<U>
      requires Err?
    {
      Err(fault)
    }

    function Extract(): T
      requires Ok?
    {
      value
    }
  }

  datatype Option<T> = None | Some(value: T)

  /** `r.get(k)`: a missing key reads as None, like a JSON null. */
  function Get(r: Record, k: string): Json
  {
    if k in r then r[k] else JNull
  }

  /** `r.get(k, d)`. */
  function GetOr(r: Record, k: string, d: Json): Json
  {
    if k in r then r[k] else d
  }

  predicate IsNumber(v: Json)
  {
    v.JInt? || v.JReal?
  }

  /** The value of a number in thousandths. */
  function Milli(v: Json): int
    requires IsNumber(v)
  {
    if v.JInt? then v.i * 1000 else v.milli
  }

  /** Python truthiness: None, zero and the empty string are false. */
  predicate Truthy(v: Json)
  {
    match v
    case JNull => false
    case JInt(i) => i != 0
    case JReal(m) => m != 0
    case JStr(s) => s != ""
  }

  /** An empty dict is false in Python, any other dict is true. */
  predicate RecordTruthy(r: Record)
  {
    r != map[]
  }

  /** Python `==`: an int equals a float of the same value, other kinds never mix. */
  predicate PyEq(a: Json, b: Json)
  {
    if IsNumber(a) && IsNumber(b) then Milli(a) == Milli(b) else a == b
  }

  /** `a < b` does not raise: both are numbers or both are strings. */
  predicate Comparable(a: Json, b: Json)
  {
    (IsNumber(a) && IsNumber(b)) || (a.JStr? && b.JStr?)
  }

  /** Python's string order: by code point, a proper prefix first. */
  predicate StrLess(x: string, y: string)
  {
    if x == [] then y != []
    else if y == [] then false
    else x[0] < y[0] || (x[0] == y[0] && StrLess(x[1..], y[1..]))
  }

  /** Python `a < b` on comparable operands. */
  predicate Less(a: Json, b: Json)
    requires Comparable(a, b)
  {
    if a.JStr? then StrLess(a.s, b.s) else Milli(a) < Milli(b)
  }

  /** Neither operand is the larger: Python's sort treats them as equal. */
  predicate Equivalent(a: Json, b: Json)
    requires Comparable(a, b)
  {
    !Less(a, b) && !Less(b, a)
  }

  lemma {:induction false} StrLessIrreflexive(x: string)
    ensures !StrLess(x, x)
  {
    if x != [] {
      StrLessIrreflexive(x[1..]);
    }
  }

  lemma {:induction false} StrLessTransitive(x: string, y: string, z: string)
    requires StrLess(x, y) && StrLess(y, z)
    ensures StrLess(x, z)
  {
    if x != [] && y != [] && z != [] && x[0] == y[0] == z[0] {
      StrLessTransitive(x[1..], y[1..], z[1..]);
    }
  }

  lemma {:induction false} StrLessTrichotomy(x: string, y: string)
    ensures x == y || StrLess(x, y) || StrLess(y, x)
  {
    if x != [] && y != [] && x[0] == y[0] {
      StrLessTrichotomy(x[1..], y[1..]);
      if x[1..] == y[1..] {
        assert x == [x[0]] + x[1..] && y == [y[0]] + y[1..];
      }
    }
  }

  lemma LessIrreflexive(a: Json)
    requires Comparable(a, a)
    ensures !Less(a, a)
  {
    if a.JStr? {
      StrLessIrreflexive(a.s);
    }
  }

  lemma LessTransitive(a: Json, b: Json, c: Json)
    requires Comparable(a, b) && Comparable(b, c)
    requires Less(a, b) && Less(b, c)
    ensures Comparable(a, c) && Less(a, c)
  {
    if a.JStr? {
      StrLessTransitive(a.s, b.s, c.s);
    }
  }

  /** Sorting is well defined: "not less than" is total and transitive. */
  lemma NotLessTransitive(a: Json, b: Json, c: Json)
    requires Comparable(a, b) && Comparable(b, c)
    requires !Less(b, a) && !Less(c, b)
    ensures Comparable(a, c) && !Less(c, a)
  {
    if a.JStr? {
      StrLessTrichotomy(a.s, b.s);
      StrLessTrichotomy(b.s, c.s);
      if StrLess(c.s, a.s) {
        if a.s == b.s {
        } else {
          StrLessTransitive(c.s, a.s, b.s);
        }
      }
    }
  }

  /** `a < b <= c` gives `a < c`. */
  lemma LessNotLessTransitive(a: Json, b: Json, c: Json)
    requires Comparable(a, b) && Comparable(b, c)
    requires Less(a, b) && !Less(c, b)
    ensures Comparable(a, c) && Less(a, c)
  {
    if a.JStr? {
      StrLessTrichotomy(b.s, c.s);
      if b.s != c.s {
        StrLessTransitive(a.s, b.s, c.s);
      }
    }
  }

  lemma LessAsymmetric(a: Json, b: Json)
    requires Comparable(a, b)
    ensures !(Less(a, b) && Less(b, a))
  {
    if a.JStr? && StrLess(a.s, b.s) && StrLess(b.s, a.s) {
      StrLessTransitive(a.s, b.s, a.s);
      StrLessIrreflexive(a.s);
    }
  }
}
