/** Values shared by every part of the voice agent: an optional value, a JSON
    value as Python holds it once decoded, and the text Python's `str()` (and so
    an f-string) gives such a value. */
module Values {

  datatype Option<+T> = None | Some(value: T)

  /** A decoded JSON value as the agent sees it in a Python dict.  Strings,
      integers, booleans and null are modelled exactly.  A float or a list is
      only ever formatted, so it is carried with the text `str()` gives it; an
      object is looked into (`args.get(...)`), so it carries its fields as well
      as that text. */
  datatype Value =
    | Str(s: string)
    | Int(i: int)
    | Bool(b: bool)
    | Null
    | Other(text: string)
    | Object(fields: map<string, Value>, text: string)

  /** `d.get(key, default)` on a Python dict. */
  function Get(d: map<string, Value>, key: string, default: Value): (r: Value)
    ensures key in d ==> r == d[key]
    ensures key !in d ==> r == default
  {
    if key in d then d[key] else default
  }

  predicate IsDigit(c: char) {
    '0' <= c <= '9'
  }

  function DigitValue(c: char): nat
    requires IsDigit(c)
  {
    c as int - '0' as int
  }

  function DigitChar(d: nat): (c: char)
    requires d < 10
    ensures IsDigit(c) && DigitValue(c) == d
  {
    ('0' as int + d) as char
  }

  /** `str(n)` for a non-negative integer: its decimal digits, no leading zero. */
  function NatToDecimal(n: nat): (r: string)
    ensures |r| > 0
    ensures forall k :: 0 <= k < |r| ==> IsDigit(r[k])
    ensures r[0] == '0' ==> n == 0 && r == "0"
    decreases n
  {
    if n < 10 then [DigitChar(n)] else NatToDecimal(n / 10) + [DigitChar(n % 10)]
  }

  /** The number a string of decimal digits denotes (the reading of `int(s)`). */
  function DecimalValue(s: string): nat
    requires forall k :: 0 <= k < |s| ==> IsDigit(s[k])
  {
    if s == [] then 0 else 10 * DecimalValue(s[..|s| - 1]) + DigitValue(s[|s| - 1])
  }

  /** Reading back the digits of `str(n)` gives `n`: the rendering loses nothing. */
  lemma {:induction false} NatToDecimalRoundTrip(n: nat)
    ensures DecimalValue(NatToDecimal(n)) == n
    decreases n
  {
    var r := NatToDecimal(n);
    if n >= 10 {
      NatToDecimalRoundTrip(n / 10);
      assert r[..|r| - 1] == NatToDecimal(n / 10);
    }
  }

  /** `str(i)` for any integer. */
  function IntToDecimal(i: int): (r: string)
    ensures |r| > 0
    ensures r[0] == '-' <==> i < 0
    // no leading zero: the digits are the shortest ones
    ensures i >= 0 && r[0] == '0' ==> r == "0"
    ensures i < 0 ==> |r| >= 2 && r[1] != '0'
    ensures i >= 0 ==> (forall k :: 0 <= k < |r| ==> IsDigit(r[k])) && DecimalValue(r) == i
    ensures i < 0 ==> (forall k :: 1 <= k < |r| ==> IsDigit(r[k])) && DecimalValue(r[1..]) == -i
  {
    NatToDecimalRoundTrip(if i < 0 then -i else i);
    if i < 0 then
      var d := NatToDecimal(-i);
      assert ("-" + d)[1..] == d;
      "-" + d
    else
      NatToDecimal(i)
  }

  /** `str(2022)`, the year of the record the mock store holds. */
  lemma RenderYear2022()
    ensures Render(Int(2022)) == "2022"
  {
    assert NatToDecimal(2) == "2";
    assert NatToDecimal(20) == "2" + "0";
    assert NatToDecimal(202) == "20" + "2";
    assert NatToDecimal(2022) == "202" + "2";
  }

  /** What `str(v)` (and so `f"{v}"`) gives for a decoded value. */
  function Render(v: Value): string {
    match v
    case Str(s) => s
    case Int(i) => IntToDecimal(i)
    case Bool(b) => if b then "True" else "False"
    case Null => "None"
    case Other(text) => text
    case Object(_, text) => text
  }
}
