/** The few JavaScript built-ins whose behaviour the client's rules depend on:
    `String.prototype.trim`, `Number.prototype.toString`, the global `parseInt`
    (called without a radix) and the `a || b` default for an optional message.
    Strings are sequences of Unicode scalar values; `.length` is the sequence length. */
module JsBuiltins {
  import opened Wrappers

  /** A JavaScript number as `parseInt` produces it: an integer or NaN. */
  datatype JsInt = NaN | Int(value: int)

  /** The characters ECMAScript treats as white space or line terminators
      (what `trim` removes and what `parseInt` skips at the start). */
  predicate IsWhitespace(c: char) {
    || c == '\t' || c == '\n' || c == '\U{000B}' || c == '\U{000C}' || c == '\r'
    || c == ' ' || c == '\U{00A0}' || c == '\U{1680}'
    || ('\U{2000}' <= c <= '\U{200A}')
    || c == '\U{2028}' || c == '\U{2029}' || c == '\U{202F}' || c == '\U{205F}'
    || c == '\U{3000}' || c == '\U{FEFF}'
  }

  /** True when every character of `s` is white space (the empty string included). */
  predicate IsBlank(s: string) {
    forall i | 0 <= i < |s| :: IsWhitespace(s[i])
  }

  /** Removes leading white space. */
  function TrimStart(s: string): (r: string)
    ensures |r| <= |s| && r == s[|s| - |r|..]
    ensures r != [] ==> !IsWhitespace(r[0])
    ensures forall i | 0 <= i < |s| - |r| :: IsWhitespace(s[i])
  {
    if s != [] && IsWhitespace(s[0]) then TrimStart(s[1..]) else s
  }

  /** Removes trailing white space. */
  function TrimEnd(s: string): (r: string)
    ensures |r| <= |s| && r == s[..|r|]
    ensures r != [] ==> !IsWhitespace(r[|r| - 1])
    ensures forall i | |r| <= i < |s| :: IsWhitespace(s[i])
  {
    if s != [] && IsWhitespace(s[|s| - 1]) then TrimEnd(s[..|s| - 1]) else s
  }

  /** `s.trim()`: the result is the part of `s` between its leading and trailing
      white space, and it is empty exactly when `s` is blank. */
  function Trim(s: string): (r: string)
    ensures |r| <= |s|
    ensures r != [] ==> !IsWhitespace(r[0]) && !IsWhitespace(r[|r| - 1])
    ensures r == [] <==> IsBlank(s)
    ensures exists a, b | 0 <= a <= b <= |s| :: r == s[a..b] && IsBlank(s[..a]) && IsBlank(s[b..])
  {
    var t := TrimStart(s);
    var r := TrimEnd(t);
    var a := |s| - |t|;
    assert r == s[a..a + |r|] && IsBlank(s[..a]) && IsBlank(s[a + |r|..]);
    r
  }

  /** JavaScript truthiness of an optional string: present and non-empty. */
  predicate Truthy(a: Option<string>) {
    a.Some? && a.value != ""
  }

  /** `a || d` for an optional string `a`: `d` unless `a` is truthy. */
  function OrDefault(a: Option<string>, d: string): (r: string)
    ensures Truthy(a) ==> r == a.value
    ensures !Truthy(a) ==> r == d
    ensures d != "" ==> r != ""
  {
    if Truthy(a) then a.value else d
  }

  // ---------------------------------------------------------------------------
  // Digits

  predicate IsDecimalDigit(c: char) {
    '0' <= c <= '9'
  }

  /** True when `c` is a digit in the given radix (10 or 16). */
  predicate IsRadixDigit(c: char, radix: nat) {
    || IsDecimalDigit(c)
    || (radix == 16 && ('a' <= c <= 'f' || 'A' <= c <= 'F'))
  }

  function DigitValue(c: char): (d: nat)
    requires IsRadixDigit(c, 16)
    ensures d < 16
    ensures IsDecimalDigit(c) ==> d < 10
  {
    if IsDecimalDigit(c) then c as int - '0' as int
    else if 'a' <= c <= 'f' then c as int - 'a' as int + 10
    else c as int - 'A' as int + 10
  }

  function DigitChar(d: nat): (c: char)
    requires d < 10
    ensures IsDecimalDigit(c) && DigitValue(c) == d
  {
    ('0' as int + d) as char
  }

  /** The value of a string of digits in the given radix, most significant first. */
  function DigitsValue(s: string, radix: nat): nat
    requires forall i | 0 <= i < |s| :: IsRadixDigit(s[i], 16)
  {
    if s == [] then 0
    else DigitsValue(s[..|s| - 1], radix) * radix + DigitValue(s[|s| - 1])
  }

  /** The longest prefix of `s` made of digits in the given radix. */
  function DigitPrefix(s: string, radix: nat): (r: string)
    ensures |r| <= |s| && r == s[..|r|]
    ensures forall i | 0 <= i < |r| :: IsRadixDigit(r[i], radix)
    ensures |r| < |s| ==> !IsRadixDigit(s[|r|], radix)
  {
    if s != [] && IsRadixDigit(s[0], radix) then [s[0]] + DigitPrefix(s[1..], radix) else []
  }

  // ---------------------------------------------------------------------------
  // Number.prototype.toString and parseInt

  /** The decimal digits of a natural number, without leading zeros. */
  function NatToDecimal(n: nat): (r: string)
    ensures r != []
    ensures forall i | 0 <= i < |r| :: IsDecimalDigit(r[i])
    decreases n
  {
    if n < 10 then [DigitChar(n)] else NatToDecimal(n / 10) + [DigitChar(n % 10)]
  }

  /** `n.toString()` for an integer-valued number. */
  function IntToString(n: int): (r: string)
    ensures r != []
    ensures n >= 0 ==> IsDecimalDigit(r[0])
    ensures n < 0 ==> r[0] == '-'
  {
    if n < 0 then "-" + NatToDecimal(-n) else NatToDecimal(n)
  }

  /** The value of the digits at the start of an unsigned numeral: base 16 after a
      `0x`/`0X` prefix, base 10 otherwise; None when no digit follows. */
  function ParseUnsigned(u: string): (r: Option<nat>)
    ensures r.Some? ==> exists i | 0 <= i < |u| :: IsRadixDigit(u[i], 16)
  {
    var hex := |u| >= 2 && u[0] == '0' && (u[1] == 'x' || u[1] == 'X');
    var radix := if hex then 16 else 10;
    var body := if hex then u[2..] else u;
    var digits := DigitPrefix(body, radix);
    if digits == [] then None
    else
      assert IsRadixDigit(u[|u| - |body|], 16);
      Some(DigitsValue(digits, radix))
  }

  /** `parseInt(s)` with no radix: skip leading white space, read an optional sign,
      then the longest run of digits (hexadecimal after `0x`); no digit at all gives NaN. */
  function ParseInt(s: string): (r: JsInt)
    ensures r.Int? ==> exists i | 0 <= i < |s| :: IsRadixDigit(s[i], 16)
  {
    var t := TrimStart(s);
    var negative := t != [] && t[0] == '-';
    var unsigned := if t != [] && (t[0] == '-' || t[0] == '+') then t[1..] else t;
    match ParseUnsigned(unsigned)
    case None => NaN
    case Some(m) =>
      assert unsigned == s[|s| - |unsigned|..];
      Int(if negative then 0 - m else m)
  }

  /** Reading back the decimal digits of `n` gives `n`. */
  lemma {:induction false} NatToDecimalValue(n: nat)
    ensures DigitsValue(NatToDecimal(n), 10) == n
    decreases n
  {
    if n >= 10 {
      var s := NatToDecimal(n);
      NatToDecimalValue(n / 10);
      assert s[..|s| - 1] == NatToDecimal(n / 10);
    }
  }

  /** A string made only of radix digits is its own longest digit prefix. */
  lemma AllDigitsPrefix(s: string, radix: nat)
    requires forall i | 0 <= i < |s| :: IsRadixDigit(s[i], radix)
    ensures DigitPrefix(s, radix) == s
  {
  }

  /** The decimal digits of `m`, read as an unsigned numeral, give back `m`. */
  lemma ParseUnsignedDecimal(m: nat)
    ensures ParseUnsigned(NatToDecimal(m)) == Some(m)
  {
    var u := NatToDecimal(m);
    assert |u| >= 2 ==> IsDecimalDigit(u[1]);
    AllDigitsPrefix(u, 10);
    NatToDecimalValue(m);
  }

  /** `parseInt(n.toString())` gives back `n`, for every integer `n`. */
  lemma ParseIntToString(n: int)
    ensures ParseInt(IntToString(n)) == Int(n)
  {
    var m: nat := if n < 0 then -n else n;
    ParseUnsignedDecimal(m);
    var s := IntToString(n);
    assert TrimStart(s) == s by {
      assert !IsWhitespace(s[0]);
    }
    if n < 0 {
      assert s[1..] == NatToDecimal(m);
    }
  }
}
