/**
 * Cell values read from the external `latlongdata` table, and Python's int() and float()
 * applied to them. What int() and float() make of a piece of text is not modelled: it is
 * supplied as the two functions of a `Parsers` value.
 */
module Values {
  import opened Wrappers

  /** A database cell as the driver hands it to Python. */
  datatype Raw =
    | Null                  // SQL NULL, Python None
    | Int(i: int)           // an integer column
    | Float(x: real)        // a floating-point or decimal column
    | Text(s: string)       // a character column

  /** What int() and float() return for a string, None where they raise ValueError. */
  datatype Parsers = Parsers(textToInt: string -> Option<int>, textToFloat: string -> Option<real>)

  /** int() of a float: truncation toward zero. */
  function TruncateTowardZero(x: real): (n: int)
    ensures 0.0 <= x ==> n as real <= x < n as real + 1.0
    ensures x < 0.0 ==> n as real - 1.0 < x <= n as real
  {
    if x >= 0.0 then x.Floor else -((-x).Floor)
  }

  /** Python's int(v); None where it raises TypeError (None) or ValueError (bad text). */
  function ToInt(v: Raw, ps: Parsers): (r: Option<int>)
    ensures v.Null? ==> r.None?
    ensures v.Int? ==> r == Some(v.i)
    ensures v.Float? ==> r.Some? && r.value == TruncateTowardZero(v.x)
    ensures v.Text? ==> r == ps.textToInt(v.s)
  {
    match v
    case Null => None
    case Int(i) => Some(i)
    case Float(x) => Some(TruncateTowardZero(x))
    case Text(s) => ps.textToInt(s)
  }

  /** Python's float(v); None where it raises TypeError (None) or ValueError (bad text). */
  function ToFloat(v: Raw, ps: Parsers): (r: Option<real>)
    ensures v.Null? ==> r.None?
    ensures v.Int? || v.Float? ==> r.Some?
    ensures v.Int? ==> r.value == v.i as real
    ensures v.Float? ==> r.value == v.x
    ensures v.Text? ==> r == ps.textToFloat(v.s)
  {
    match v
    case Null => None
    case Int(i) => Some(i as real)
    case Float(x) => Some(x)
    case Text(s) => ps.textToFloat(s)
  }

  /** On a numeric cell, int(v) is int(float(v)): both convert, and int() truncates the float. */
  lemma NumericIntIsTruncatedFloat(v: Raw, ps: Parsers)
    requires v.Int? || v.Float?
    ensures ToInt(v, ps).Some? && ToFloat(v, ps).Some?
    ensures ToInt(v, ps).value == TruncateTowardZero(ToFloat(v, ps).value)
  {
    if v.Int? {
      assert (v.i as real).Floor == v.i;
      assert (-(v.i as real)).Floor == -v.i;
    }
  }
}
