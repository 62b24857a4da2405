/**
 * Small shared vocabulary: optional values, results with an error, and the
 * handful of Python numeric conventions the roof engine relies on.
 */
module Common {

  /** A value that may be absent: a "-" cell, a null cell, a lookup that found nothing. */
  datatype Option<+T> = None | Some(value: T)

  /** A computation that either produced a value or raised an error. */
  datatype Result<+T, +E> = Success(value: T) | Failure(error: E)

  /** A step that either completed or raised an error, with no value. */
  datatype Outcome<+E> = Pass | Fail(error: E)

  /**
   * A numpy float64 value: a real, an infinity (its sign is not tracked), or
   * not-a-number. numpy divides by zero without raising.
   */
  datatype Float = Finite(value: real) | Infinite | NaN

  /** numpy's a / b on finite values: a non-zero over zero is infinite, zero over zero is NaN. */
  function Divide(a: real, b: real): Float
  {
    if b != 0.0 then Finite(a / b) else if a != 0.0 then Infinite else NaN
  }

  /** numpy's a / b for a finite a: a finite value over an infinity is 0. */
  function DivideBy(a: real, b: Float): Float
  {
    match b
    case Finite(d) => Divide(a, d)
    case Infinite => Finite(0.0)
    case NaN => NaN
  }

  /** numpy's a * b for a finite a: zero times an infinity is NaN. */
  function Times(a: real, b: Float): Float
  {
    match b
    case Finite(d) => Finite(a * d)
    case Infinite => if a == 0.0 then NaN else Infinite
    case NaN => NaN
  }

  function Abs(x: real): real
  {
    if x < 0.0 then -x else x
  }

  /**
   * Python's `int(x)` on a float: truncation toward zero. The result is the
   * integer between zero and x that is nearest to x.
   */
  function Trunc(x: real): (r: int)
    ensures 0.0 <= x ==> 0 <= r && r as real <= x < r as real + 1.0
    ensures x < 0.0 ==> r <= 0 && r as real - 1.0 < x <= r as real
  {
    if x >= 0.0 then x.Floor else -((-x).Floor)
  }

  /** Reading a `defaultdict(int)`: a key never added reads as 0. */
  function Lookup<K>(m: map<K, int>, k: K): int
  {
    if k in m then m[k] else 0
  }

  /** ASCII upper-casing, as Python's `str.upper()` acts on the category codes. */
  function UpperChar(c: char): char
  {
    if 'a' <= c <= 'z' then (c as int - 32) as char else c
  }

  function Upper(s: string): (r: string)
    ensures |r| == |s|
    ensures forall i :: 0 <= i < |s| ==> r[i] == UpperChar(s[i])
  {
    if s == [] then [] else [UpperChar(s[0])] + Upper(s[1..])
  }
}
