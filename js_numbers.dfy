/** Integer-valued JavaScript numbers as the bot writes and reads them:
    `Number.prototype.toString()` when a time is stored, and the global
    `parseInt` (no radix argument) when it is read back. */
module JsNumbers {

  import opened Optional

  /** The characters ECMAScript's `parseInt` skips before the number:
      WhiteSpace and LineTerminator. */
  predicate IsJsSpace(c: char) {
    c == ' ' || ('\t' <= c <= '\r') || c == '\U{00A0}' || c == '\U{1680}'
    || ('\U{2000}' <= c <= '\U{200A}') || c == '\U{2028}' || c == '\U{2029}'
    || c == '\U{202F}' || c == '\U{205F}' || c == '\U{3000}' || c == '\U{FEFF}'
  }

  predicate IsDecimalDigit(c: char) {
    '0' <= c <= '9'
  }

  /** The value of `c` as a digit in any radix up to 36; 36 when it is no digit at all. */
  function DigitValue(c: char): (d: nat)
    ensures d <= 36
    ensures IsDecimalDigit(c) ==> d < 10
  {
    if '0' <= c <= '9' then c as int - '0' as int
    else if 'a' <= c <= 'z' then c as int - 'a' as int + 10
    else if 'A' <= c <= 'Z' then c as int - 'A' as int + 10
    else 36
  }

  function DigitChar(d: nat): (c: char)
    requires d < 10
    ensures IsDecimalDigit(c) && DigitValue(c) == d
  {
    ('0' as int + d) as char
  }

  /** Drops the leading white space. */
  function TrimStart(s: string): (t: string)
    ensures |t| <= |s| && t == s[|s| - |t|..]
    ensures forall i :: 0 <= i < |s| - |t| ==> IsJsSpace(s[i])
    ensures t != [] ==> !IsJsSpace(t[0])
  {
    if s != [] && IsJsSpace(s[0]) then TrimStart(s[1..]) else s
  }

  /** The longest prefix of `s` made of digits of the given radix. */
  function DigitPrefix(s: string, radix: nat): (p: string)
    ensures |p| <= |s| && p == s[..|p|]
    ensures forall i :: 0 <= i < |p| ==> DigitValue(p[i]) < radix
    ensures |p| < |s| ==> DigitValue(s[|p|]) >= radix
  {
    if s == [] || DigitValue(s[0]) >= radix then [] else [s[0]] + DigitPrefix(s[1..], radix)
  }

  /** The number a string of digits denotes, most significant digit first. */
  function DigitsValue(s: string, radix: nat): nat {
    if s == [] then 0 else DigitsValue(s[..|s| - 1], radix) * radix + DigitValue(s[|s| - 1])
  }

  /** The decimal digits of `n`, without leading zeros. */
  function NatDigits(n: nat): (s: string)
    ensures |s| >= 1
    ensures forall i :: 0 <= i < |s| ==> IsDecimalDigit(s[i])
    ensures |s| > 1 ==> s[0] != '0'
  {
    if n < 10 then [DigitChar(n)] else NatDigits(n / 10) + [DigitChar(n % 10)]
  }

  /** `n.toString()` for an integer-valued number n. */
  function IntToString(n: int): (s: string)
    ensures |s| >= 1 && (s[0] == '-' <==> n < 0)
    ensures forall i :: (if n < 0 then 1 else 0) <= i < |s| ==> IsDecimalDigit(s[i])
    ensures n < 0 ==> |s| >= 2
  {
    if n < 0 then "-" + NatDigits(-n) else NatDigits(n)
  }

  /** The unsigned part of `parseInt`: radix 16 after a `0x` or `0X` prefix, otherwise 10,
      and the longest run of digits that follows; None when that run is empty. */
  function ParseMagnitude(u: string): Option<nat> {
    var (radix, v) :=
      if |u| >= 2 && u[0] == '0' && (u[1] == 'x' || u[1] == 'X') then (16, u[2..]) else (10, u);
    var digits := DigitPrefix(v, radix);
    if digits == [] then None else Some(DigitsValue(digits, radix))
  }

  /** Applies a sign to a magnitude that may be NaN. */
  function Signed(negative: bool, m: Option<nat>): Option<int> {
    if m.None? then None else if negative then Some(-(m.value as int)) else Some(m.value as int)
  }

  /** `parseInt(s)` with no radix argument; None stands for NaN. It skips leading white
      space and takes one optional sign before the unsigned part; whatever follows the
      digits is ignored. */
  function ParseInt(s: string): (r: Option<int>)
    ensures TrimStart(s) == [] ==> r.None?
    ensures var t := TrimStart(s);
            t != [] && !IsDecimalDigit(t[0]) && t[0] != '-' && t[0] != '+' ==> r.None?
    ensures r.Some? && r.value < 0 ==> TrimStart(s)[0] == '-'
  {
    var t := TrimStart(s);
    if t != [] && (t[0] == '-' || t[0] == '+') then Signed(t[0] == '-', ParseMagnitude(t[1..]))
    else NoLeadingDigitIsNaN(t); Signed(false, ParseMagnitude(t))
  }

  /** Text that does not start with a decimal digit has no magnitude. */
  lemma NoLeadingDigitIsNaN(u: string)
    ensures (u == [] || !IsDecimalDigit(u[0])) ==> ParseMagnitude(u).None?
  {
    if u != [] && !IsDecimalDigit(u[0]) {
      assert u[0] != '0' && DigitValue(u[0]) >= 10;
    }
  }

  lemma {:induction false} NatDigitsValue(n: nat)
    ensures DigitsValue(NatDigits(n), 10) == n
  {
    var s := NatDigits(n);
    if n < 10 {
      assert s[..|s| - 1] == [];
    } else {
      var front := NatDigits(n / 10);
      assert s == front + [DigitChar(n % 10)];
      assert s[..|s| - 1] == front;
      NatDigitsValue(n / 10);
    }
  }

  /** A run made only of digits is read in full. */
  lemma DigitPrefixOfDigits(s: string, radix: nat)
    requires forall i :: 0 <= i < |s| ==> DigitValue(s[i]) < radix
    ensures DigitPrefix(s, radix) == s
  {
  }

  lemma {:induction false} ParseMagnitudeOfDigits(m: nat)
    ensures ParseMagnitude(NatDigits(m)) == Some(m)
  {
    var u := NatDigits(m);
    assert |u| >= 2 ==> u[1] != 'x' && u[1] != 'X';
    DigitPrefixOfDigits(u, 10);
    NatDigitsValue(m);
  }

  lemma TrimStartOfNonSpace(s: string)
    requires s != [] && !IsJsSpace(s[0])
    ensures TrimStart(s) == s
  {
  }

  lemma {:induction false} ParseIntOfSignedDigits(u: string, negative: bool)
    requires u != [] && IsDecimalDigit(u[0])
    ensures ParseInt(if negative then "-" + u else u) == Signed(negative, ParseMagnitude(u))
  {
    if negative {
      var s := "-" + u;
      TrimStartOfNonSpace(s);
      assert s[0] == '-' && s[1..] == u;
    } else {
      TrimStartOfNonSpace(u);
      assert u[0] != '-' && u[0] != '+';
    }
  }

  /** Reading back a stored integer gives the integer: `parseInt(n.toString()) == n`. */
  lemma {:induction false} ParseIntToString(n: int)
    ensures ParseInt(IntToString(n)) == Some(n)
  {
    var m: nat := if n < 0 then -n else n;
    assert IntToString(n) == if n < 0 then "-" + NatDigits(m) else NatDigits(m);
    ParseIntOfSignedDigits(NatDigits(m), n < 0);
    ParseMagnitudeOfDigits(m);
  }
}
