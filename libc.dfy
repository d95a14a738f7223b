/** The parts of the C library that gpio.c relies on for numbers and text:
    strtol(s, NULL, 10), the (int) conversion applied to its result, and the
    "%d" conversion of printf. `long` is taken to be 64 bits wide and `int`
    32 bits wide (the LP64 model of a 64-bit Raspberry Pi OS). */
module LibC {

  const LongMin: int := -0x8000_0000_0000_0000
  const LongMax: int := 0x7FFF_FFFF_FFFF_FFFF
  const IntMin: int := -0x8000_0000
  const IntMax: int := 0x7FFF_FFFF
  /** Number of distinct 32-bit `int` values. */
  const IntModulus: int := 0x1_0000_0000

  predicate IsDigit(c: char) {
    '0' <= c <= '9'
  }

  /** isspace() in the "C" locale. */
  predicate IsSpace(c: char) {
    c == ' ' || c == '\t' || c == '\n' || c == '\r' || c == '\U{B}' || c == '\U{C}'
  }

  predicate AllDigits(s: string) {
    forall i :: 0 <= i < |s| ==> IsDigit(s[i])
  }

  /** strtol's accumulation of digits: starting from `acc`, each leading
      decimal digit of `s` multiplies what has been read by ten and adds its
      own value; the first character that is not a digit ends the scan.
      The test is `IsDigit` written out, which keeps the unfolding of this
      function on literal strings cheap. */
  function AccumulateDigits(acc: int, s: string): int
    decreases s
  {
    if |s| > 0 && '0' <= s[0] <= '9' then AccumulateDigits(acc * 10 + (s[0] as int - '0' as int), s[1..])
    else acc
  }

  /** What is left of `s` once the leading white space strtol skips is gone. */
  function SkipSpace(s: string): string {
    if s != [] && IsSpace(s[0]) then SkipSpace(s[1..]) else s
  }

  /** SkipSpace drops exactly the white space that starts `s`: what remains
      is a suffix of `s` that does not start with white space. */
  lemma {:induction false} SkipSpaceSuffix(s: string)
    ensures |SkipSpace(s)| <= |s| && SkipSpace(s) == s[|s| - |SkipSpace(s)|..]
    ensures forall i :: 0 <= i < |s| - |SkipSpace(s)| ==> IsSpace(s[i])
    ensures SkipSpace(s) != [] ==> !IsSpace(SkipSpace(s)[0])
  {
    if s != [] && IsSpace(s[0]) {
      var r := SkipSpace(s[1..]);
      assert SkipSpace(s) == r;
      SkipSpaceSuffix(s[1..]);
      assert s[1..][|s| - 1 - |r|..] == s[|s| - |r|..];
      forall i | 0 <= i < |s| - |r|
        ensures IsSpace(s[i])
      {
        if i > 0 {
          assert s[i] == s[1..][i - 1];
        }
      }
    }
  }

  /** 1 when `t` starts with the optional sign strtol accepts, else 0. */
  function SignLength(t: string): nat {
    if |t| > 0 && (t[0] == '-' || t[0] == '+') then 1 else 0
  }

  /** Whether strtol finds any digit in `s`: white space, an optional sign,
      then at least one decimal digit. */
  predicate StartsNumeric(s: string) {
    var t := SkipSpace(s);
    var u := t[SignLength(t)..];
    |u| > 0 && IsDigit(u[0])
  }

  /** The exact number strtol reads from `s` in base 10, before clamping:
      the digits after white space and an optional sign, up to the first
      character that is not a digit; 0 when there are no digits. */
  function Scanned(s: string): int {
    var t := SkipSpace(s);
    var n := AccumulateDigits(0, t[SignLength(t)..]);
    if SignLength(t) == 1 && t[0] == '-' then -n else n
  }

  /** strtol(s, NULL, 10): the scanned number, clamped to LONG_MIN..LONG_MAX
      as strtol does on overflow. */
  function StrToL(s: string): (r: int)
    ensures LongMin <= r <= LongMax
    ensures !StartsNumeric(s) ==> r == 0
  {
    var v := Scanned(s);
    if v > LongMax then LongMax else if v < LongMin then LongMin else v
  }

  /** The (int) conversion of a long: GCC reduces the value modulo 2^32 into
      INT_MIN..INT_MAX. */
  function ToInt(v: int): (r: int)
    ensures IntMin <= r <= IntMax
    ensures (v - r) % IntModulus == 0
    ensures IntMin <= v <= IntMax ==> r == v
  {
    var m := v % IntModulus;
    assert v - m == IntModulus * (v / IntModulus);
    if m > IntMax then m - IntModulus else m
  }

  function DigitChar(d: nat): (c: char)
    requires d < 10
    ensures IsDigit(c) && c as int - '0' as int == d
  {
    ('0' as int + d) as char
  }

  /** printf("%d", n) for a non-negative n: no sign, no leading zeros. */
  function NatText(n: nat): (s: string)
    ensures |s| >= 1 && AllDigits(s)
    ensures |s| > 1 ==> s[0] != '0'
  {
    if n < 10 then [DigitChar(n)] else NatText(n / 10) + [DigitChar(n % 10)]
  }

  /** printf("%d", n). */
  function DecimalText(n: int): (s: string)
    ensures |s| >= 1
  {
    if n < 0 then "-" + NatText(-n) else NatText(n)
  }

  /** Scanning a run of digits and then what follows is the same as
      scanning the run first and continuing from its value. */
  lemma {:induction false} AccumulateAppend(acc: int, a: string, b: string)
    requires AllDigits(a)
    ensures AccumulateDigits(acc, a + b) == AccumulateDigits(AccumulateDigits(acc, a), b)
    decreases a
  {
    if a != [] {
      var next := acc * 10 + (a[0] as int - '0' as int);
      assert IsDigit(a[0]) && (a + b)[0] == a[0];
      assert (a + b)[1..] == a[1..] + b;
      assert AccumulateDigits(acc, a + b) == AccumulateDigits(next, a[1..] + b);
      assert AccumulateDigits(acc, a) == AccumulateDigits(next, a[1..]);
      AccumulateAppend(next, a[1..], b);
    } else {
      assert a + b == b;
    }
  }

  /** The digits printf writes for n are read back as n. */
  lemma {:induction false} NatTextValue(n: nat)
    ensures AccumulateDigits(0, NatText(n)) == n
  {
    if n >= 10 {
      NatTextValue(n / 10);
      AccumulateAppend(0, NatText(n / 10), [DigitChar(n % 10)]);
    }
  }

  /** The digits of m followed by a non-digit accumulate to m. */
  lemma DigitsThenStop(m: nat, rest: string)
    requires rest == [] || !IsDigit(rest[0])
    ensures AccumulateDigits(0, NatText(m) + rest) == m
  {
    NatTextValue(m);
    AccumulateAppend(0, NatText(m), rest);
  }

  /** strtol stops at the first character after the digits: whatever
      follows the decimal text of n, if it does not start with a digit, is
      ignored. */
  lemma ScannedDecimalPrefix(n: int, rest: string)
    requires rest == [] || !IsDigit(rest[0])
    ensures Scanned(DecimalText(n) + rest) == n
  {
    var m := if n < 0 then -n else n;
    var t := DecimalText(n) + rest;
    assert SkipSpace(t) == t by {
      assert !IsSpace(t[0]);
    }
    var k := SignLength(t);
    assert k == (if n < 0 then 1 else 0) && t[k..] == NatText(m) + rest by {
      if n < 0 {
        assert t == "-" + (NatText(m) + rest);
      } else {
        assert IsDigit(t[0]);
      }
    }
    DigitsThenStop(m, rest);
  }

  /** strtol reads back exactly the number printf("%d") wrote. */
  lemma ScannedDecimalText(n: int)
    ensures Scanned(DecimalText(n)) == n
  {
    ScannedDecimalPrefix(n, []);
    assert DecimalText(n) + [] == DecimalText(n);
  }

  /** Leading white space is skipped. */
  lemma {:induction false} SkipSpacePrefix(w: string, s: string)
    requires forall i :: 0 <= i < |w| ==> IsSpace(w[i])
    ensures SkipSpace(w + s) == SkipSpace(s)
  {
    if w != [] {
      assert (w + s)[0] == w[0];
      assert (w + s)[1..] == w[1..] + s;
      SkipSpacePrefix(w[1..], s);
    } else {
      assert w + s == s;
    }
  }

  /** strtol's value does not depend on the white space before the number. */
  lemma ScannedSkipsSpace(w: string, s: string)
    requires forall i :: 0 <= i < |w| ==> IsSpace(w[i])
    ensures Scanned(w + s) == Scanned(s) && StrToL(w + s) == StrToL(s)
  {
    SkipSpacePrefix(w, s);
  }

  lemma StrToLDecimalText(n: int)
    requires LongMin <= n <= LongMax
    ensures StrToL(DecimalText(n)) == n
  {
    ScannedDecimalText(n);
  }

  /** Different numbers print differently. */
  lemma DecimalTextInjective(m: int, n: int)
    requires DecimalText(m) == DecimalText(n)
    ensures m == n
  {
    ScannedDecimalText(m);
    ScannedDecimalText(n);
  }
}
