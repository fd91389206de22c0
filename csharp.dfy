/** The parts of the C# language and base library the services lean on:
    32-bit `int` arithmetic, `int.TryParse`, decimal formatting, the
    `string.IsNullOrEmpty`/`IsNullOrWhiteSpace` tests and configuration lookup. */
module CSharp {

  datatype Option<+T> = None | Some(value: T)

  /** An exception that escapes a call. */
  datatype Exception =
    | DivideByZero
    | Overflow
    | NullReference
    | BatchFailure(code: string)

  /** The outcome of a C# expression that may throw. */
  datatype Exceptional<+T> = Returns(value: T) | Throws(exception: Exception)

  const IntMin: int := -0x8000_0000
  const IntMax: int := 0x7FFF_FFFF
  const Modulus: int := 0x1_0000_0000

  predicate IsInt32(x: int) {
    IntMin <= x <= IntMax
  }

  /** Unchecked 32-bit arithmetic: the two's-complement value congruent to x. */
  function Wrap32(x: int): (r: int)
    ensures IsInt32(r)
    ensures (x - r) % Modulus == 0
    ensures IsInt32(x) ==> r == x
  {
    (x - IntMin) % Modulus + IntMin
  }

  /** Two values congruent modulo 2^32 wrap to the same int. */
  lemma Wrap32Congruent(x: int, y: int, k: int)
    requires x - y == k * Modulus
    ensures Wrap32(x) == Wrap32(y)
  {
    var a, b := Wrap32(x), Wrap32(y);
    var ka, kb := (x - a) / Modulus, (y - b) / Modulus;
    assert x - a == ka * Modulus;
    assert y - b == kb * Modulus;
    var m := k - ka + kb;
    assert a - b == m * Modulus;
    assert m == 0;
  }

  /** `(a * b) * c` evaluated with a wrap after each product equals one wrap of the exact product. */
  lemma {:induction false} Wrap32Product(a: int, b: int, c: int)
    ensures Wrap32(Wrap32(a * b) * c) == Wrap32(a * b * c)
  {
    var w := Wrap32(a * b);
    var k := (a * b - w) / Modulus;
    assert a * b - w == k * Modulus;
    calc {
      a * b * c - w * c;
      (a * b - w) * c;
      k * Modulus * c;
      (k * c) * Modulus;
    }
    Wrap32Congruent(a * b * c, w * c, k * c);
  }

  function Abs(x: int): nat {
    if x < 0 then -x else x
  }

  /** `0 / d` is 0 for a positive d. */
  lemma ZeroQuotient(d: int)
    requires d > 0
    ensures 0 / d == 0
  {
  }

  /** A quotient of naturals is a natural. */
  lemma NatQuotient(x: nat, y: nat)
    requires y > 0
    ensures x / y >= 0
  {
  }

  /** C#'s `/` on int, which truncates toward zero (Dafny's `/` is Euclidean):
      its magnitude is the quotient of the magnitudes, and its sign the product of
      the operands' signs; on a non-negative dividend and a positive divisor it is
      the ordinary quotient. */
  function TruncDiv(a: int, b: int): (q: int)
    requires b != 0
    ensures 0 <= a && 0 < b ==> q == a / b
    ensures (a < 0) == (b < 0) ==> q >= 0
    ensures (a < 0) != (b < 0) ==> q <= 0
    ensures Abs(q) == Abs(a) / Abs(b)
  {
    NatQuotient(Abs(a), Abs(b));
    var m := Abs(a) / Abs(b);
    if a == 0 then ZeroQuotient(Abs(b)); 0
    else if (a < 0) == (b < 0) then m
    else -m
  }

  // ---------------------------------------------------------------- strings

  predicate IsNullOrEmpty(s: Option<string>) {
    s.None? || s.value == ""
  }

  /** The white-space characters `int.TryParse` skips around the digits. */
  predicate IsWhite(c: char) {
    c == ' ' || '\t' <= c <= '\r'
  }

  predicate IsNullOrWhiteSpace(s: Option<string>) {
    s.None? || forall i :: 0 <= i < |s.value| ==> IsWhite(s.value[i])
  }

  /** `s ?? fallback` */
  function OrElse(s: Option<string>, fallback: string): string {
    if s.Some? then s.value else fallback
  }

  /** `IConfiguration[key]`: null when the key is absent. */
  function ConfigValue(configuration: map<string, string>, key: string): (r: Option<string>)
    ensures r.Some? <==> key in configuration
    ensures r.Some? ==> r.value == configuration[key]
  {
    if key in configuration then Some(configuration[key]) else None
  }

  // ---------------------------------------------------------------- decimal digits

  predicate IsDigit(c: char) {
    '0' <= c <= '9'
  }

  predicate AllDigits(s: string) {
    forall i :: 0 <= i < |s| ==> IsDigit(s[i])
  }

  function DigitValue(c: char): (d: nat)
    requires IsDigit(c)
    ensures d < 10
  {
    (c as int) - ('0' as int)
  }

  function DigitChar(d: nat): (c: char)
    requires d < 10
    ensures IsDigit(c) && DigitValue(c) == d
  {
    (('0' as int) + d) as char
  }

  /** The value of a digit string, most significant digit first. */
  function DigitsValue(s: string): nat
    requires AllDigits(s)
  {
    if s == [] then 0 else DigitsValue(s[..|s| - 1]) * 10 + DigitValue(s[|s| - 1])
  }

  /** The shortest decimal digits of n (how `ToString()` renders a non-negative int). */
  function NatDigits(n: nat): (s: string)
    ensures |s| > 0 && AllDigits(s)
  {
    if n < 10 then [DigitChar(n)] else NatDigits(n / 10) + [DigitChar(n % 10)]
  }

  lemma {:induction false} NatDigitsValue(n: nat)
    ensures DigitsValue(NatDigits(n)) == n
  {
    var s := NatDigits(n);
    if n >= 10 {
      NatDigitsValue(n / 10);
      assert s[..|s| - 1] == NatDigits(n / 10);
    }
  }

  /** How `string.Format` renders an int. */
  function FormatInt(n: int): (s: string)
    ensures |s| > 0
  {
    if n < 0 then "-" + NatDigits(-n) else NatDigits(n)
  }

  function TrimStart(s: string): (r: string)
    ensures |r| <= |s|
    ensures |r| > 0 ==> !IsWhite(r[0])
  {
    if |s| > 0 && IsWhite(s[0]) then TrimStart(s[1..]) else s
  }

  function TrimEnd(s: string): (r: string)
    ensures |r| <= |s|
    ensures |r| > 0 ==> !IsWhite(r[|r| - 1])
  {
    if |s| > 0 && IsWhite(s[|s| - 1]) then TrimEnd(s[..|s| - 1]) else s
  }

  /** `int.Parse` under the default integer style: optional white space around
      an optional sign and at least one decimal digit, within the 32-bit range. */
  function ParseInt32(s: string): (r: Option<int>)
    ensures r.Some? ==> IsInt32(r.value)
  {
    var t := TrimEnd(TrimStart(s));
    if |t| > 0 && (t[0] == '-' || t[0] == '+') then
      var digits := t[1..];
      if |digits| > 0 && AllDigits(digits) then
        var v: int := if t[0] == '-' then -(DigitsValue(digits) as int) else DigitsValue(digits);
        if IsInt32(v) then Some(v) else None
      else None
    else if |t| > 0 && AllDigits(t) && IsInt32(DigitsValue(t)) then Some(DigitsValue(t))
    else None
  }

  /** Formatting an int and parsing it back gives the int. */
  lemma ParseFormatRoundTrip(n: int)
    requires IsInt32(n)
    ensures ParseInt32(FormatInt(n)) == Some(n)
  {
    var s := FormatInt(n);
    var digits := NatDigits(if n < 0 then -n else n);
    NatDigitsValue(if n < 0 then -n else n);
    assert !IsWhite(s[0]) && !IsWhite(s[|s| - 1]);
    assert TrimStart(s) == s;
    assert TrimEnd(s) == s;
    if n < 0 {
      assert s[1..] == digits;
    }
  }

  /** `int.TryParse(s, out v)`: whether s parses, and the value written to v,
      which is 0 whenever parsing fails (a null string included). */
  function TryParseInt(s: Option<string>): (r: (bool, int))
    ensures r.0 <==> s.Some? && ParseInt32(s.value).Some?
    ensures r.0 ==> r.1 == ParseInt32(s.value).value
    ensures !r.0 ==> r.1 == 0
  {
    if s.Some? && ParseInt32(s.value).Some? then (true, ParseInt32(s.value).value) else (false, 0)
  }

  /** The value `int.TryParse(configuration[key], out field)` leaves in `field`. */
  function ParsedSetting(configuration: map<string, string>, key: string): (v: int)
    ensures IsInt32(v)
    ensures key !in configuration ==> v == 0
    ensures key in configuration ==> v == TryParseInt(Some(configuration[key])).1
  {
    TryParseInt(ConfigValue(configuration, key)).1
  }

  // ---------------------------------------------------------------- sequences

  /** Concatenation regroups freely; the request logs are built stage by stage. */
  lemma AppendAssociative<T>(a: seq<T>, b: seq<T>, c: seq<T>)
    ensures (a + b) + c == a + (b + c)
  {
  }
}
