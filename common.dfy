/** Values shared by the server and client models: nullable values, results
    carrying an error message, `Array.prototype.map`, and the decimal text
    JavaScript produces for an integer (`n.toString()`, template literals). */
module Common {

  /** A nullable value: a column that may hold SQL NULL, an optional field. */
  datatype Option<T> = None | Some(value: T) {
    /** `x || d` in JavaScript for a column whose non-null values are all kept. */
    function GetOr(default: T): T {
      match this
      case Some(v) => v
      case None => default
    }
  }

  /** The outcome of an operation that may throw `new Error(message)`. */
  datatype Result<T> = Ok(value: T) | Err(error: string)

  /** `s.map(f)`: one result per element, in the same order. */
  function Map<T, U>(f: T -> U, s: seq<T>): (r: seq<U>)
    ensures |r| == |s|
    ensures forall i :: 0 <= i < |s| ==> r[i] == f(s[i])
  {
    if s == [] then [] else [f(s[0])] + Map(f, s[1..])
  }

  predicate IsDigit(c: char) {
    '0' as int <= c as int <= '9' as int
  }

  function DigitChar(d: nat): (c: char)
    requires d < 10
    ensures IsDigit(c) && c as int - '0' as int == d
  {
    ('0' as int + d) as char
  }

  /** The decimal text of a natural number, without leading zeros. */
  function NatToString(n: nat): (r: string)
    ensures |r| >= 1
    ensures forall i :: 0 <= i < |r| ==> IsDigit(r[i])
    ensures |r| > 1 ==> r[0] != '0'
    decreases n
  {
    if n < 10 then [DigitChar(n)] else NatToString(n / 10) + [DigitChar(n % 10)]
  }

  /** The number a string of decimal digits denotes (reference reading). */
  function DigitsValue(s: string): nat
    requires forall i :: 0 <= i < |s| ==> IsDigit(s[i])
  {
    if s == [] then 0
    else
      var last := s[|s| - 1];
      assert IsDigit(last);
      DigitsValue(s[..|s| - 1]) * 10 + (last as int - '0' as int)
  }

  /** Reading the decimal text back gives the number it was made from. */
  lemma {:induction false} NatToStringValue(n: nat)
    ensures DigitsValue(NatToString(n)) == n
    decreases n
  {
    if n >= 10 {
      var s := NatToString(n);
      var p := NatToString(n / 10);
      assert s == p + [DigitChar(n % 10)];
      assert s[..|s| - 1] == p;
      NatToStringValue(n / 10);
    }
  }

  /** `i.toString()` for an integer-valued JavaScript number. */
  function IntToString(i: int): (r: string)
    ensures |r| >= 1
    ensures i >= 0 ==> r == NatToString(i)
    ensures i < 0 ==> r == "-" + NatToString(-i)
  {
    if i < 0 then "-" + NatToString(-i) else NatToString(i)
  }

  /** Different integers get different text: stringified ids stay distinct. */
  lemma IntToStringInjective(a: int, b: int)
    requires IntToString(a) == IntToString(b)
    ensures a == b
  {
    if a >= 0 && b >= 0 {
      NatToStringValue(a);
      NatToStringValue(b);
    } else if a < 0 && b < 0 {
      var sa, sb := NatToString(-a), NatToString(-b);
      assert IntToString(a)[1..] == sa;
      assert IntToString(b)[1..] == sb;
      NatToStringValue(-a);
      NatToStringValue(-b);
    }
  }
}
