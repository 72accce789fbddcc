/** JavaScript values as far as the modelled client code touches them:
    nullable fields, the scalar values that object literals carry, and the
    conversion a template string applies to an interpolated value. */
module Js {

  /** A nullable value. `None` stands for both `null` and `undefined`. */
  datatype Option<+T> = None | Some(value: T)

  /** A scalar JavaScript value. Numbers are integers in this model. */
  datatype Value = Undefined | Null | Bool(b: bool) | Num(n: int) | Str(s: string)

  /** A plain object: property names to values. */
  type Record = map<string, Value>

  /** `obj.name`: a missing property reads as `undefined`. */
  function Get(obj: Record, name: string): Value
  {
    if name in obj then obj[name] else Undefined
  }

  predicate IsDigit(c: char)
  {
    '0' <= c <= '9'
  }

  predicate AllDigits(s: string)
  {
    forall i :: 0 <= i < |s| ==> IsDigit(s[i])
  }

  function DigitChar(d: nat): (c: char)
    requires d < 10
    ensures IsDigit(c) && DigitValue(c) == d
  {
    ('0' as int + d) as char
  }

  function DigitValue(c: char): nat
    requires IsDigit(c)
  {
    c as int - '0' as int
  }

  /** The decimal digits of `n`, most significant first, without leading zeros. */
  function DecimalDigits(n: nat): (r: string)
    ensures |r| > 0 && AllDigits(r)
    ensures r[0] == '0' ==> n == 0
    decreases n
  {
    if n < 10 then [DigitChar(n)] else DecimalDigits(n / 10) + [DigitChar(n % 10)]
  }

  /** The number a string of decimal digits denotes. */
  function DigitsValue(s: string): nat
    requires AllDigits(s)
  {
    if s == [] then 0 else DigitsValue(s[..|s| - 1]) * 10 + DigitValue(s[|s| - 1])
  }

  lemma {:induction false} DigitsRoundTrip(n: nat)
    ensures DigitsValue(DecimalDigits(n)) == n
    decreases n
  {
    if n >= 10 {
      var d := DecimalDigits(n / 10);
      var s := d + [DigitChar(n % 10)];
      assert s[..|s| - 1] == d;
      DigitsRoundTrip(n / 10);
    }
  }

  /** How JavaScript renders an integer: an optional minus sign, then its decimal digits. */
  function IntegerString(n: int): string
  {
    if n < 0 then "-" + DecimalDigits(-n) else DecimalDigits(n)
  }

  /** Reads back an optionally signed decimal integer; `None` for anything else. */
  function ParseInteger(s: string): Option<int>
  {
    if |s| > 1 && s[0] == '-' && AllDigits(s[1..]) then
      var magnitude: int := DigitsValue(s[1..]);
      Some(-magnitude)
    else if |s| > 0 && AllDigits(s) then Some(DigitsValue(s))
    else None
  }

  /** Every integer's rendering reads back as that integer. */
  lemma IntegerRoundTrip(n: int)
    ensures ParseInteger(IntegerString(n)) == Some(n)
  {
    if n < 0 {
      var d := DecimalDigits(-n);
      var s := "-" + d;
      assert s == IntegerString(n);
      assert s[0] == '-' && s[1..] == d;
      DigitsRoundTrip(-n);
      assert DigitsValue(s[1..]) == -n;
    } else {
      DigitsRoundTrip(n);
    }
  }

  /** `${v}`: the string a template literal splices in for `v`. */
  function ToJsString(v: Value): string
  {
    match v
    case Undefined => "undefined"
    case Null => "null"
    case Bool(b) => if b then "true" else "false"
    case Num(n) => IntegerString(n)
    case Str(s) => s
  }
}
