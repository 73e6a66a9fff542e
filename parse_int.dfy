/** JavaScript's global `parseInt(string)` called without a radix, and the
    decimal rendering `String(n)` of an integral number, as the configuration
    loader uses them to read the secret-cache TTL. `None` stands for `NaN`. */
module JsParseInt {
  import opened Common

  /** The StrWhiteSpaceChar class of ECMAScript: white space (including every
      Unicode space separator) and line terminators. */
  predicate IsStrWhiteSpace(c: char) {
    var n := c as int;
    n == 0x09 || n == 0x0A || n == 0x0B || n == 0x0C || n == 0x0D || n == 0x20
    || n == 0xA0 || n == 0x1680 || (0x2000 <= n <= 0x200A) || n == 0x2028
    || n == 0x2029 || n == 0x202F || n == 0x205F || n == 0x3000 || n == 0xFEFF
  }

  /** Drops the leading white space, as `parseInt` does before reading a sign. */
  function TrimStart(s: string): (r: string)
    ensures |r| <= |s| && r == s[|s| - |r|..]
    ensures r == [] || !IsStrWhiteSpace(r[0])
    ensures forall i :: 0 <= i < |s| - |r| ==> IsStrWhiteSpace(s[i])
  {
    if s != [] && IsStrWhiteSpace(s[0]) then TrimStart(s[1..]) else s
  }

  /** The value of a digit in any radix up to 16. */
  function DigitValue(c: char): (d: Option<nat>)
    ensures d.Some? ==> d.value < 16
    ensures d.Some? && d.value < 10 <==> '0' <= c <= '9'
  {
    if '0' <= c <= '9' then Some(c as int - '0' as int)
    else if 'a' <= c <= 'f' then Some(c as int - 'a' as int + 10)
    else if 'A' <= c <= 'F' then Some(c as int - 'A' as int + 10)
    else None
  }

  predicate IsDigit(c: char, radix: nat) {
    DigitValue(c).Some? && DigitValue(c).value < radix
  }

  /** Length of the longest prefix of `s` made of digits of `radix`. */
  function DigitPrefixLength(s: string, radix: nat): (n: nat)
    ensures n <= |s|
    ensures forall i :: 0 <= i < n ==> IsDigit(s[i], radix)
    ensures n < |s| ==> !IsDigit(s[n], radix)
  {
    if s != [] && IsDigit(s[0], radix) then 1 + DigitPrefixLength(s[1..], radix) else 0
  }

  /** The number a string of digits denotes, most significant digit first. */
  function DigitsValue(s: string, radix: nat): nat
    requires forall i :: 0 <= i < |s| ==> IsDigit(s[i], radix)
  {
    if s == [] then 0
    else
      assert IsDigit(s[|s| - 1], radix);
      DigitsValue(s[..|s| - 1], radix) * radix + DigitValue(s[|s| - 1]).value
  }

  /** `parseInt(s)`: skip white space, read an optional sign, then an
      unsigned number; with no digit at all the result is `NaN`. */
  function ParseInt(s: string): Option<int> {
    var t := TrimStart(s);
    var negative := t != [] && t[0] == '-';
    var u := if t != [] && (t[0] == '-' || t[0] == '+') then t[1..] else t;
    match ParseUnsigned(u)
    case None => None
    case Some(v) => var r: int := if negative then -(v as int) else v; Some(r)
  }

  /** The unsigned part: radix 16 after a `0x`/`0X` prefix, radix 10
      otherwise, then the longest run of digits of that radix. */
  function ParseUnsigned(u: string): Option<nat> {
    var hex := |u| >= 2 && u[0] == '0' && (u[1] == 'x' || u[1] == 'X');
    var radix := if hex then 16 else 10;
    var w := if hex then u[2..] else u;
    var n := DigitPrefixLength(w, radix);
    if n == 0 then None else Some(DigitsValue(w[..n], radix))
  }

  function DecimalDigit(d: nat): (c: char)
    requires d < 10
    ensures '0' <= c <= '9' && DigitValue(c) == Some(d)
  {
    ('0' as int + d) as char
  }

  /** Decimal rendering of a natural number, without leading zeros. */
  function NatToString(n: nat): (s: string)
    ensures |s| > 0
    ensures forall i :: 0 <= i < |s| ==> '0' <= s[i] <= '9'
    ensures s[0] == '0' ==> n == 0
  {
    if n < 10 then [DecimalDigit(n)] else NatToString(n / 10) + [DecimalDigit(n % 10)]
  }

  /** `String(n)` for an integral number of magnitude below 10^21. */
  function NumberToString(n: int): string {
    if n < 0 then "-" + NatToString(-n) else NatToString(n)
  }

  lemma {:induction false} DigitsValueOfNatToString(n: nat)
    ensures forall i :: 0 <= i < |NatToString(n)| ==> IsDigit(NatToString(n)[i], 10)
    ensures DigitsValue(NatToString(n), 10) == n
  {
    var s := NatToString(n);
    assert forall i :: 0 <= i < |s| ==> IsDigit(s[i], 10);
    if n >= 10 {
      DigitsValueOfNatToString(n / 10);
      assert s[..|s| - 1] == NatToString(n / 10);
    }
  }

  /** Appending a digit multiplies the value by ten and adds the digit. */
  lemma DigitsValueAppend(s: string, c: char)
    requires forall i :: 0 <= i < |s| ==> IsDigit(s[i], 10)
    requires '0' <= c <= '9'
    ensures forall i :: 0 <= i < |s + [c]| ==> IsDigit((s + [c])[i], 10)
    ensures DigitsValue(s + [c], 10) == DigitsValue(s, 10) * 10 + (c as int - '0' as int)
  {
    assert (s + [c])[..|s|] == s;
  }

  /** A run of decimal digits that does not start with a `0x` prefix is
      read whole, in radix 10. */
  lemma ParseUnsignedOfDigits(digits: string)
    requires |digits| > 0
    requires forall i :: 0 <= i < |digits| ==> IsDigit(digits[i], 10)
    ensures ParseUnsigned(digits) == Some(DigitsValue(digits, 10))
  {
    DigitPrefixWhole(digits);
    assert |digits| >= 2 ==> IsDigit(digits[1], 10);
    assert digits[..|digits|] == digits;
  }

  lemma {:induction false} DigitPrefixWhole(s: string)
    requires forall i :: 0 <= i < |s| ==> IsDigit(s[i], 10)
    ensures DigitPrefixLength(s, 10) == |s|
  {
    if s != [] {
      DigitPrefixWhole(s[1..]);
    }
  }

  /** Text that starts with a decimal digit is read with no sign; after a
      leading `-` it is read negated. */
  lemma ParseIntUnsignedStart(u: string)
    requires u != [] && '0' <= u[0] <= '9'
    ensures ParseInt(u) == (match ParseUnsigned(u) case None => None case Some(v) => Some(v as int))
    ensures ParseInt("-" + u) == (match ParseUnsigned(u) case None => None case Some(v) => Some(-(v as int)))
  {
    TrimStartAtNonSpace(u);
    var t := "-" + u;
    TrimStartAtNonSpace(t);
    assert t[1..] == u;
  }

  lemma TrimStartAtNonSpace(s: string)
    requires s != [] && (s[0] == '-' || '0' <= s[0] <= '9')
    ensures TrimStart(s) == s
  {
    assert !IsStrWhiteSpace(s[0]);
  }

  /** Reading back a rendered integer gives the integer: `parseInt(String(n))
      === n`, so a numeric TTL override survives the constructor's parse. */
  lemma ParseIntOfNumberToString(n: int)
    ensures ParseInt(NumberToString(n)) == Some(n)
  {
    var m: nat := if n < 0 then -n else n;
    var digits := NatToString(m);
    DigitsValueOfNatToString(m);
    ParseUnsignedOfDigits(digits);
    ParseIntUnsignedStart(digits);
  }
}
