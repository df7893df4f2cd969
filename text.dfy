/**
 * Number <-> text conversions the core relies on: Python's `int(s, 16)` for
 * template colours, the `f"0x{v:06x}"` format used when backing up a role's
 * colour, and `str(n)` of a user id inside the rate-limit key.
 */
module Text {
  import opened Wrappers

  predicate IsHexDigit(c: char) {
    '0' <= c <= '9' || 'a' <= c <= 'f' || 'A' <= c <= 'F'
  }

  function HexDigitValue(c: char): (v: nat)
    requires IsHexDigit(c)
    ensures v < 16
  {
    if '0' <= c <= '9' then c as nat - '0' as nat
    else if 'a' <= c <= 'f' then c as nat - 'a' as nat + 10
    else c as nat - 'A' as nat + 10
  }

  /** Lower-case digit of `f"{v:x}"`. */
  function LowerHexDigit(v: nat): (c: char)
    requires v < 16
    ensures IsHexDigit(c) && HexDigitValue(c) == v
  {
    if v < 10 then ('0' as nat + v) as char else ('a' as nat + v - 10) as char
  }

  /** Value of a string of hex digits, most significant first. */
  function HexValue(s: seq<char>): nat
    requires forall i :: 0 <= i < |s| ==> IsHexDigit(s[i])
  {
    if s == [] then 0 else HexValue(s[..|s| - 1]) * 16 + HexDigitValue(s[|s| - 1])
  }

  /**
   * Python's `int(s, 16)`: an optional `0x`/`0X` prefix followed by at least one
   * hex digit; anything else raises ValueError (here: None).
   */
  function ParseHex(s: seq<char>): (r: Option<nat>)
    ensures r.Some? ==> |s| > 0
  {
    var digits := if |s| >= 2 && s[0] == '0' && (s[1] == 'x' || s[1] == 'X') then s[2..] else s;
    if |digits| > 0 && forall i :: 0 <= i < |digits| ==> IsHexDigit(digits[i])
    then Some(HexValue(digits))
    else None
  }

  /** `f"{v:x}"`: the shortest lower-case hex spelling of `v`. */
  function LowerHex(v: nat): (s: seq<char>)
    ensures |s| > 0
    ensures forall i :: 0 <= i < |s| ==> IsHexDigit(s[i]) && !('A' <= s[i] <= 'F')
  {
    if v < 16 then [LowerHexDigit(v)] else LowerHex(v / 16) + [LowerHexDigit(v % 16)]
  }

  function Zeros(n: nat): (s: seq<char>)
    ensures |s| == n && forall i :: 0 <= i < n ==> s[i] == '0'
  {
    if n == 0 then [] else Zeros(n - 1) + ['0']
  }

  /** `h` right-aligned in a field of `w` zeros: `f"{...:0>w}"`, never shortened. */
  function ZeroPad(h: seq<char>, w: nat): (r: seq<char>)
    ensures |r| >= w && |r| >= |h|
    ensures forall i :: 0 <= i < |r| ==> r[i] == if i < |r| - |h| then '0' else h[i - (|r| - |h|)]
  {
    if |h| < w then Zeros(w - |h|) + h else h
  }

  /** Padding a string of hex digits with zeros keeps it one, with the same value. */
  lemma ZeroPadValue(h: seq<char>, w: nat)
    requires forall i :: 0 <= i < |h| ==> IsHexDigit(h[i])
    ensures forall i :: 0 <= i < |ZeroPad(h, w)| ==> IsHexDigit(ZeroPad(h, w)[i])
    ensures HexValue(ZeroPad(h, w)) == HexValue(h)
  {
    if |h| < w {
      LeadingZerosValue(w - |h|, h);
    }
  }

  /** `f"0x{v:06x}"`: `0x`, then the hex digits of `v` zero-padded to at least six. */
  function FormatColor(v: nat): (s: seq<char>)
    ensures |s| >= 8 && s[..2] == "0x"
    ensures forall i :: 2 <= i < |s| ==> IsHexDigit(s[i]) && !('A' <= s[i] <= 'F')
  {
    var h := LowerHex(v);
    "0x" + ZeroPad(h, 6)
  }

  lemma {:induction false} LowerHexValue(v: nat)
    ensures HexValue(LowerHex(v)) == v
  {
    if v >= 16 {
      LowerHexValue(v / 16);
      var s := LowerHex(v);
      assert s[..|s| - 1] == LowerHex(v / 16);
    }
  }

  /** Leading zeros do not change a hex value. */
  lemma {:induction false} LeadingZerosValue(n: nat, s: seq<char>)
    requires forall i :: 0 <= i < |s| ==> IsHexDigit(s[i])
    ensures forall i :: 0 <= i < |Zeros(n) + s| ==> IsHexDigit((Zeros(n) + s)[i])
    ensures HexValue(Zeros(n) + s) == HexValue(s)
  {
    var z := Zeros(n) + s;
    if s == [] {
      assert z == Zeros(n);
      if n > 0 {
        assert z[..|z| - 1] == Zeros(n - 1) + [];
        LeadingZerosValue(n - 1, []);
      }
    } else {
      assert z[..|z| - 1] == Zeros(n) + s[..|s| - 1];
      LeadingZerosValue(n, s[..|s| - 1]);
    }
  }

  /** `int("0x" + d, 16)` for a non-empty string of hex digits `d`. */
  lemma ParseHexPrefixed(d: seq<char>)
    requires |d| > 0 && forall i :: 0 <= i < |d| ==> IsHexDigit(d[i])
    ensures ParseHex("0x" + d) == Some(HexValue(d))
  {
    assert ("0x" + d)[2..] == d;
  }

  /** A backed-up colour reads back, through `int(s, 16)`, as the same value. */
  lemma ColorRoundTrip(v: nat)
    ensures ParseHex(FormatColor(v)) == Some(v)
  {
    LowerHexValue(v);
    ZeroPadValue(LowerHex(v), 6);
    ParseHexPrefixed(ZeroPad(LowerHex(v), 6));
  }

  function Pow16(n: nat): (p: nat)
    ensures p >= 1
  {
    if n == 0 then 1 else 16 * Pow16(n - 1)
  }

  /** A value below 16^n needs at most n hex digits. */
  lemma {:induction false} LowerHexLength(v: nat, n: nat)
    requires 1 <= n && v < Pow16(n)
    ensures |LowerHex(v)| <= n
  {
    if v >= 16 {
      assert n >= 2;
      assert v / 16 < Pow16(n - 1);
      LowerHexLength(v / 16, n - 1);
    }
  }

  /** A 24-bit colour is written with exactly six digits after `0x`. */
  lemma FormatColorLength(v: nat)
    requires v <= 0xFF_FFFF
    ensures |FormatColor(v)| == 8
  {
    assert Pow16(6) == 0x100_0000 by {
      assert Pow16(3) == 0x1000;
    }
    LowerHexLength(v, 6);
  }

  predicate IsDecDigit(c: char) { '0' <= c <= '9' }

  function DecDigitValue(c: char): (v: nat)
    requires IsDecDigit(c)
    ensures v < 10
  {
    c as nat - '0' as nat
  }

  /** `str(n)` for a natural number. */
  function Decimal(n: nat): (s: seq<char>)
    ensures |s| > 0 && forall i :: 0 <= i < |s| ==> IsDecDigit(s[i])
  {
    if n < 10 then [('0' as nat + n) as char]
    else Decimal(n / 10) + [('0' as nat + n % 10) as char]
  }

  function DecimalValue(s: seq<char>): nat
    requires forall i :: 0 <= i < |s| ==> IsDecDigit(s[i])
  {
    if s == [] then 0 else DecimalValue(s[..|s| - 1]) * 10 + DecDigitValue(s[|s| - 1])
  }

  lemma {:induction false} DecimalRoundTrip(n: nat)
    ensures DecimalValue(Decimal(n)) == n
  {
    if n >= 10 {
      DecimalRoundTrip(n / 10);
      var s := Decimal(n);
      assert s[..|s| - 1] == Decimal(n / 10);
    }
  }

  /** Distinct user ids have distinct decimal spellings. */
  lemma DecimalInjective(m: nat, n: nat)
    requires Decimal(m) == Decimal(n)
    ensures m == n
  {
    DecimalRoundTrip(m);
    DecimalRoundTrip(n);
  }

  /** The number of decimal digits `s` starts with. */
  function LeadingDigits(s: seq<char>): (k: nat)
    ensures k <= |s|
  {
    if s == [] || !IsDecDigit(s[0]) then 0 else 1 + LeadingDigits(s[1..])
  }

  lemma {:induction false} LeadingDigitsTagged(x: seq<char>, sep: char, a: seq<char>)
    requires forall i :: 0 <= i < |x| ==> IsDecDigit(x[i])
    requires !IsDecDigit(sep)
    ensures LeadingDigits(x + [sep] + a) == |x|
  {
    if x != [] {
      assert (x + [sep] + a)[1..] == x[1..] + [sep] + a;
      LeadingDigitsTagged(x[1..], sep, a);
    }
  }

  /**
   * A number printed in front of a non-digit separator can be read back:
   * equal keys of the form `str(n) + sep + rest` have equal numbers and equal
   * rests.
   */
  lemma DecimalTagged(m: nat, n: nat, sep: char, a: seq<char>, b: seq<char>)
    requires !IsDecDigit(sep)
    requires Decimal(m) + [sep] + a == Decimal(n) + [sep] + b
    ensures m == n && a == b
  {
    var x, y := Decimal(m), Decimal(n);
    var s := x + [sep] + a;
    LeadingDigitsTagged(x, sep, a);
    LeadingDigitsTagged(y, sep, b);
    assert x == s[..|x|] == y;
    DecimalInjective(m, n);
    assert a == s[|x| + 1..] == b;
  }
}
