/**
 * The slice of JavaScript's value semantics that the data-fetching helper
 * relies on: truthiness (`if (x)`, `x || y`), the conversion of a value to a
 * string (template literals and property keys), and the settlement of a
 * promise.
 */
module JsValue {

  /** A JavaScript value, as far as this model distinguishes values.
      Numbers are integers (NaN and fractions are not modelled); every object,
      array and function is an `Obj` identified by its reference. */
  datatype Value =
    | Undefined
    | Null
    | Bool(b: bool)
    | Num(n: int)
    | Str(s: string)
    | Obj(ref: nat)

  /** JavaScript's ToBoolean. */
  predicate Truthy(v: Value)
  {
    match v
    case Undefined => false
    case Null => false
    case Bool(b) => b
    case Num(n) => n != 0
    case Str(s) => s != ""
    case Obj(_) => true
  }

  /** A props object: own enumerable keys and their values. */
  type Props = map<string, Value>

  /** `p[key]`: a missing key reads as `undefined`. */
  function Prop(p: Props, key: string): (v: Value)
    ensures key in p ==> v == p[key]
    ensures key !in p ==> v == Undefined
  {
    if key in p then p[key] else Undefined
  }

  function DigitChar(d: nat): (c: char)
    requires d < 10
    ensures '0' <= c <= '9'
  {
    (48 + d) as char
  }

  function DigitValue(c: char): (d: nat)
    requires '0' <= c <= '9'
    ensures d < 10
  {
    c as int - 48
  }

  /** The decimal numeral of a natural number: digits only, no leading zero. */
  function NatToDecimal(n: nat): (s: string)
    ensures |s| > 0
    ensures forall i :: 0 <= i < |s| ==> '0' <= s[i] <= '9'
    ensures n != 0 ==> s[0] != '0'
  {
    if n < 10 then [DigitChar(n)] else NatToDecimal(n / 10) + [DigitChar(n % 10)]
  }

  /** Reads a string of decimal digits back as a number. */
  function DecimalToNat(s: string): nat
    requires forall i :: 0 <= i < |s| ==> '0' <= s[i] <= '9'
  {
    if |s| == 0 then 0 else DecimalToNat(s[..|s| - 1]) * 10 + DigitValue(s[|s| - 1])
  }

  /** Printing a number and reading it back gives the number. */
  lemma {:induction false} DecimalRoundTrip(n: nat)
    ensures DecimalToNat(NatToDecimal(n)) == n
  {
    var s := NatToDecimal(n);
    if n >= 10 {
      var prefix := NatToDecimal(n / 10);
      assert s[..|s| - 1] == prefix;
      DecimalRoundTrip(n / 10);
    }
  }

  /** JavaScript's ToString for the values of this model (String(v), and the
      coercion of a value used as a property key). A plain object prints as
      "[object Object]". */
  function ToJsString(v: Value): (s: string)
    ensures v.Str? ==> s == v.s
    ensures Truthy(v) ==> |s| > 0
  {
    match v
    case Undefined => "undefined"
    case Null => "null"
    case Bool(b) => if b then "true" else "false"
    case Num(n) => if n < 0 then "-" + NatToDecimal(-n) else NatToDecimal(n)
    case Str(s) => s
    case Obj(_) => "[object Object]"
  }

  /** Distinct integers print as distinct strings. */
  lemma NumbersPrintApart(m: int, n: int)
    requires m != n
    ensures ToJsString(Num(m)) != ToJsString(Num(n))
  {
    if m >= 0 && n >= 0 {
      DecimalRoundTrip(m);
      DecimalRoundTrip(n);
    } else if m < 0 && n < 0 {
      var a, b := ToJsString(Num(m)), ToJsString(Num(n));
      if a == b {
        assert a[1..] == NatToDecimal(-m) && b[1..] == NatToDecimal(-n);
        DecimalRoundTrip(-m);
        DecimalRoundTrip(-n);
      }
    } else {
      assert ToJsString(Num(m))[0] == '-' || ToJsString(Num(n))[0] == '-';
    }
  }

  /** How a promise settles: it resolves with a value or rejects with a
      reason. */
  datatype Settlement<T> = Resolved(value: T) | Rejected(reason: Value)

  /** A promise of a JavaScript value, such as the one `getInitialData`
      returns. */
  type Outcome = Settlement<Value>

  datatype Option<T> = None | Some(value: T)
}
