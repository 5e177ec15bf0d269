/** Decoded JSON values as the bot sees them after `response.json()`, together with the
    two pieces of Python behaviour the bot applies to them: the type name that appears in
    Python's error texts, and `str()`, which f-strings use to show a value. */
module Json {

  import opened Wrappers

  /** A decoded JSON value: Python's None, bool, int, str, list and dict. */
  datatype Json =
    | Null
    | Boolean(b: bool)
    | Number(n: int)
    | String(s: string)
    | Array(items: seq<Json>)
    | Object(fields: map<string, Json>)

  /** The name Python gives the type of a decoded value, as it appears in error texts. */
  function TypeName(v: Json): string {
    match v
    case Null => "NoneType"
    case Boolean(_) => "bool"
    case Number(_) => "int"
    case String(_) => "str"
    case Array(_) => "list"
    case Object(_) => "dict"
  }

  /** `d.get(key)` on a dict: the value stored under `key`, or None when there is none. */
  function Get(fields: map<string, Json>, key: string): Json {
    if key in fields then fields[key] else Null
  }

  /** `str(v)` for a decoded value, which is what `f'{v}'` inserts. Lists and dicts are
      shown by a fixed placeholder: their Python repr is not modelled. */
  function Format(v: Json): string {
    match v
    case Null => "None"
    case Boolean(b) => if b then "True" else "False"
    case Number(n) => IntText(n)
    case String(s) => s
    case Array(_) => "[...]"
    case Object(_) => "{...}"
  }

  // ---------------------------------------------------------------------------
  // Decimal rendering of integers, as `str(int)` writes them, and its inverse

  predicate IsDigit(c: char) {
    '0' <= c <= '9'
  }

  function DigitChar(d: nat): (c: char)
    requires d < 10
    ensures IsDigit(c) && c as int - '0' as int == d
  {
    ('0' as int + d) as char
  }

  /** The decimal digits of `n`, most significant first, without leading zeros. */
  function NatText(n: nat): (r: string)
    ensures |r| >= 1 && forall i | 0 <= i < |r| :: IsDigit(r[i])
    ensures |r| > 1 ==> r[0] != '0'
  {
    if n < 10 then [DigitChar(n)] else NatText(n / 10) + [DigitChar(n % 10)]
  }

  /** `str(n)` for an int: a minus sign before the digits of a negative number. */
  function IntText(n: int): (r: string)
    ensures |r| >= 1
  {
    if n < 0 then "-" + NatText(-n) else NatText(n)
  }

  /** The value of a string of decimal digits (the inverse of NatText). */
  function DigitsValue(s: string): nat
    requires forall i | 0 <= i < |s| :: IsDigit(s[i])
  {
    if s == [] then 0
    else
      assert IsDigit(s[|s| - 1]);
      DigitsValue(s[..|s| - 1]) * 10 + (s[|s| - 1] as int - '0' as int)
  }

  /** Reads back what IntText writes; None for text that is not a decimal integer. */
  function ReadInt(s: string): Option<int> {
    if |s| > 0 && s[0] == '-' then
      if |s| > 1 && forall i | 1 <= i < |s| :: IsDigit(s[i]) then Some(-(DigitsValue(s[1..]) as int)) else None
    else if |s| > 0 && forall i | 0 <= i < |s| :: IsDigit(s[i]) then Some(DigitsValue(s))
    else None
  }

  lemma {:induction false} NatTextRoundTrip(n: nat)
    ensures DigitsValue(NatText(n)) == n
  {
    if n >= 10 {
      var front, last := NatText(n / 10), [DigitChar(n % 10)];
      var whole := front + last;
      assert whole[..|whole| - 1] == front;
      NatTextRoundTrip(n / 10);
    }
  }

  /** Every integer's decimal text reads back as that integer, so distinct integers are
      shown as distinct texts. */
  lemma IntTextRoundTrip(n: int)
    ensures ReadInt(IntText(n)) == Some(n)
  {
    if n < 0 {
      var digits := NatText(-n);
      assert IntText(n) == "-" + digits;
      assert IntText(n)[1..] == digits;
      NatTextRoundTrip(-n);
    } else {
      NatTextRoundTrip(n);
    }
  }
}
