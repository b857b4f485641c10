/** JavaScript values as the request handlers see them: the fields of a parsed
    JSON body, their truthiness, and the numbers that parseInt / parseFloat
    produce from them. */
module JsValues {

  datatype Option<T> = None | Some(value: T)

  /** A field of a parsed JSON request body. `Composite` stands for any
      object or array, which JavaScript always treats as truthy; `text` is
      what converting it to a string yields (`"5"` for `[5]`,
      `"[object Object]"` for `{}`), or None when that conversion throws,
      as it does for an object whose `toString` is not callable and whose
      `valueOf` returns an object. */
  datatype JsValue =
    | Undefined
    | Null
    | Bool(b: bool)
    | Num(n: int)
    | Str(s: string)
    | Composite(text: Option<string>)

  /** JavaScript truthiness: `0`, `""`, `false`, `null` and `undefined` are falsy. */
  predicate Truthy(v: JsValue) {
    match v
    case Undefined => false
    case Null => false
    case Bool(b) => b
    case Num(n) => n != 0
    case Str(s) => s != ""
    case Composite(_) => true
  }

  /** A query-string parameter is truthy when it is present and not empty. */
  predicate Given(p: Option<string>) {
    p.Some? && p.value != ""
  }

  /** A number produced by parseInt or parseFloat: an integer, or NaN. */
  datatype Number = Finite(v: int) | NaN

  /** JavaScript `a >= b`: false as soon as either side is NaN. */
  predicate AtLeast(a: Number, b: Number) {
    a.Finite? && b.Finite? && a.v >= b.v
  }

  /** JavaScript `a <= b`: false as soon as either side is NaN. */
  predicate AtMost(a: Number, b: Number) {
    a.Finite? && b.Finite? && a.v <= b.v
  }

  predicate IsDigit(c: char) {
    '0' <= c <= '9'
  }

  predicate IsSpace(c: char) {
    c == ' ' || c == '\t' || c == '\n' || c == '\r'
  }

  function DigitValue(c: char): nat
    requires IsDigit(c)
  {
    (c as int) - ('0' as int)
  }

  function DigitChar(d: nat): (c: char)
    requires d < 10
    ensures IsDigit(c) && DigitValue(c) == d
  {
    ('0' as int + d) as char
  }

  predicate AllDigits(s: string) {
    forall i :: 0 <= i < |s| ==> IsDigit(s[i])
  }

  /** The string left after the leading white space is skipped. */
  function TrimStart(s: string): (r: string)
    ensures |r| <= |s| && r == s[|s| - |r|..]
    ensures r == [] || !IsSpace(r[0])
    ensures forall i :: 0 <= i < |s| - |r| ==> IsSpace(s[i])
  {
    if s != [] && IsSpace(s[0]) then TrimStart(s[1..]) else s
  }

  /** The longest prefix of `s` made of decimal digits. */
  function DigitPrefix(s: string): (d: string)
    ensures |d| <= |s| && d == s[..|d|]
    ensures AllDigits(d)
    ensures |d| < |s| ==> !IsDigit(s[|d|])
  {
    if s != [] && IsDigit(s[0]) then [s[0]] + DigitPrefix(s[1..]) else []
  }

  /** The value of a string of decimal digits, most significant first. */
  function DigitsValue(d: string): nat
    requires AllDigits(d)
  {
    if d == [] then 0 else 10 * DigitsValue(d[..|d| - 1]) + DigitValue(d[|d| - 1])
  }

  /** The number written by a run of decimal digits at the head of `r`, or
      NaN when `r` does not start with a digit. */
  function ParseDigits(r: string): Number {
    var d := DigitPrefix(r);
    if d == [] then NaN else Finite(DigitsValue(d))
  }

  function Negate(x: Number): Number {
    if x.Finite? then Finite(-x.v) else NaN
  }

  /** `parseInt(s)` with no radix: skip white space, read an optional sign,
      then the longest run of decimal digits; no digits at all gives NaN. */
  function ParseInt(s: string): (r: Number)
    // a number is read only from a string that holds a digit, and it is
    // negative only when the string carries a minus sign
    ensures r.Finite? ==> exists i :: 0 <= i < |s| && IsDigit(s[i])
    ensures r.Finite? && r.v < 0 ==> '-' in s
  {
    var t := TrimStart(s);
    assert t == s[|s| - |t|..];
    if t != [] && t[0] == '-' then Negate(ParseDigits(t[1..]))
    else if t != [] && t[0] == '+' then ParseDigits(t[1..])
    else ParseDigits(t)
  }

  /** The outcome of a conversion that may throw a TypeError. */
  datatype Conversion = Value(num: Number) | Throws

  /** `parseFloat(v)` for a body field: a JSON number is kept, a string is
      parsed, an object or array is parsed through its string conversion,
      which may throw; `undefined`, `null` and booleans convert to text with
      no leading digit and give NaN. */
  function ParseFloat(v: JsValue): (r: Conversion)
    ensures r.Throws? <==> v.Composite? && v.text.None?
    ensures v.Num? ==> r == Value(Finite(v.n))
    ensures v.Str? ==> r == Value(ParseInt(v.s))
    ensures v.Composite? && v.text.Some? ==> r == Value(ParseInt(v.text.value))
    ensures v.Undefined? || v.Null? || v.Bool? ==> r == Value(NaN)
  {
    match v
    case Num(n) => Value(Finite(n))
    case Str(s) => Value(ParseInt(s))
    case Composite(text) => if text.Some? then Value(ParseInt(text.value)) else Throws
    case _ => Value(NaN)
  }

  /** Decimal notation of a natural number, as `String(n)` writes it. */
  function NatToDecimal(n: nat): (r: string)
    ensures r != [] && AllDigits(r)
  {
    if n < 10 then [DigitChar(n)] else NatToDecimal(n / 10) + [DigitChar(n % 10)]
  }

  /** Decimal notation of an integer, as `String(n)` writes it. */
  function IntToDecimal(n: int): (r: string)
    ensures r != []
  {
    if n < 0 then "-" + NatToDecimal(-n) else NatToDecimal(n)
  }

  lemma {:induction false} DigitsValueOfDecimal(n: nat)
    ensures DigitsValue(NatToDecimal(n)) == n
  {
    if n >= 10 {
      var r := NatToDecimal(n);
      assert r[..|r| - 1] == NatToDecimal(n / 10);
      DigitsValueOfDecimal(n / 10);
    }
  }

  lemma {:induction false} DigitPrefixOfDigits(s: string, t: string)
    requires AllDigits(s)
    requires t == [] || !IsDigit(t[0])
    ensures DigitPrefix(s + t) == s
  {
    if s != [] {
      assert (s + t)[1..] == s[1..] + t;
      DigitPrefixOfDigits(s[1..], t);
    } else {
      assert s + t == t;
    }
  }

  lemma ParseDigitsOfDecimal(n: nat, t: string)
    requires t == [] || !IsDigit(t[0])
    ensures ParseDigits(NatToDecimal(n) + t) == Finite(n)
  {
    DigitsValueOfDecimal(n);
    DigitPrefixOfDigits(NatToDecimal(n), t);
  }

  lemma TrimStartKeeps(s: string)
    requires s == [] || !IsSpace(s[0])
    ensures TrimStart(s) == s
  {
  }

  lemma NatRoundTrip(n: nat)
    ensures ParseInt(NatToDecimal(n)) == Finite(n)
  {
    var d := NatToDecimal(n);
    ParseDigitsOfDecimal(n, []);
    assert d + [] == d;
    assert IsDigit(d[0]);
    TrimStartKeeps(d);
  }

  lemma NegativeRoundTrip(n: nat)
    ensures ParseInt("-" + NatToDecimal(n)) == Finite(-(n as int))
  {
    var d := NatToDecimal(n);
    ParseDigitsOfDecimal(n, []);
    assert d + [] == d;
    var s := "-" + d;
    TrimStartKeeps(s);
    assert s[0] == '-' && s[1..] == d;
    assert ParseDigits(s[1..]) == Finite(n);
  }

  /** parseInt reads back exactly the integer that String(n) wrote, so an
      id written in decimal in a request path denotes that id. */
  lemma DecimalRoundTrip(n: int)
    ensures ParseInt(IntToDecimal(n)) == Finite(n)
  {
    if n < 0 {
      NegativeRoundTrip(-n);
    } else {
      NatRoundTrip(n);
    }
  }

  /** parseInt stops at the first character that is not a digit. */
  lemma TrailingTextIgnored(n: nat, t: string)
    requires t == [] || !IsDigit(t[0])
    ensures ParseInt(NatToDecimal(n) + t) == Finite(n)
  {
    var d := NatToDecimal(n);
    ParseDigitsOfDecimal(n, t);
    assert (d + t)[0] == d[0];
    TrimStartKeeps(d + t);
  }

  /** A string with no digit after its sign parses to NaN. */
  lemma NoDigitsIsNaN(s: string)
    requires s != [] && !IsDigit(s[0]) && !IsSpace(s[0]) && s[0] != '-' && s[0] != '+'
    ensures ParseInt(s) == NaN
  {
  }
}
