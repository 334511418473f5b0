/**
 * Decimal integers in text: `parseInt(t, 10) || 0` as the scoring fallback reads its
 * scores (components/ICPScreener.jsx:1629, 1636-1646), and the decimal rendering of a
 * number in a template string.
 */
module Integers {
  import opened Text

  predicate IsDigit(c: char) {
    '0' <= c <= '9'
  }

  function DigitValue(c: char): (d: nat)
    requires IsDigit(c)
    ensures d < 10
  {
    (c as int - '0' as int) as nat
  }

  function DigitChar(d: nat): (c: char)
    requires d < 10
    ensures IsDigit(c) && DigitValue(c) == d
  {
    (d + '0' as int) as char
  }

  /** How far the run of decimal digits reaches from index `i`. */
  function DigitRun(s: string, i: nat): (n: nat)
    requires i <= |s|
    ensures i + n <= |s| && (i + n == |s| || !IsDigit(s[i + n]))
    decreases |s| - i
  {
    if i < |s| && IsDigit(s[i]) then 1 + DigitRun(s, i + 1) else 0
  }

  /** The value of a string of digits, most significant first. */
  function DigitsValue(ds: string): nat
    requires forall k :: 0 <= k < |ds| ==> IsDigit(ds[k])
  {
    if ds == [] then 0 else 10 * DigitsValue(ds[..|ds| - 1]) + DigitValue(ds[|ds| - 1])
  }

  /** Where the digits start after the leading white space and an optional sign. */
  function DigitsStart(u: string): nat {
    if u != [] && (u[0] == '-' || u[0] == '+') then 1 else 0
  }

  /**
   * `parseInt(t, 10) || 0`: leading white space and one sign are skipped, the longest run
   * of digits is read; no digits (NaN) and zero both give 0.
   */
  function ParseIntOrZero(t: string): (n: int)
    ensures var u := TrimStart(t); DigitsAt(u, DigitsStart(u)) == [] ==> n == 0
  {
    var u := TrimStart(t);
    var ds := DigitsAt(u, DigitsStart(u));
    if DigitsStart(u) == 1 && u[0] == '-' then -(DigitsValue(ds) as int) else DigitsValue(ds)
  }

  /** The run of digits from index `k` (none when `k` is past the end). */
  function DigitsAt(u: string, k: nat): (ds: string)
    ensures forall m :: 0 <= m < |ds| ==> IsDigit(ds[m])
  {
    if k > |u| then []
    else
      DigitRunDigits(u, k);
      u[k..k + DigitRun(u, k)]
  }

  /** The run holds digits only. */
  lemma {:induction false} DigitRunDigits(s: string, i: nat)
    requires i <= |s|
    ensures forall m :: i <= m < i + DigitRun(s, i) ==> IsDigit(s[m])
    decreases |s| - i
  {
    if i < |s| && IsDigit(s[i]) {
      DigitRunDigits(s, i + 1);
    }
  }

  /** The run of digits in `ds + rest`, with `rest` not starting with a digit, is `ds`. */
  lemma {:induction false} DigitRunOfDigits(ds: string, rest: string, i: nat)
    requires i <= |ds| && forall k :: 0 <= k < |ds| ==> IsDigit(ds[k])
    requires rest == [] || !IsDigit(rest[0])
    ensures DigitRun(ds + rest, i) == |ds| - i
    decreases |ds| - i
  {
    var s := ds + rest;
    if i < |ds| {
      assert s[i] == ds[i];
      DigitRunOfDigits(ds, rest, i + 1);
    } else if rest != [] {
      assert s[i] == rest[0];
    }
  }

  /** The decimal digits of `n`, without leading zeros (`${n}` for a non-negative integer). */
  function Decimal(n: nat): (r: string)
    ensures r != [] && forall k :: 0 <= k < |r| ==> IsDigit(r[k])
    ensures |r| > 1 ==> r[0] != '0'
  {
    if n < 10 then [DigitChar(n)] else Decimal(n / 10) + [DigitChar(n % 10)]
  }

  /** Reading the digits of `n` back gives `n`. */
  lemma {:induction false} DecimalValue(n: nat)
    ensures DigitsValue(Decimal(n)) == n
  {
    var r := Decimal(n);
    if n >= 10 {
      DecimalValue(n / 10);
      assert r[..|r| - 1] == Decimal(n / 10);
    }
  }

  /** The rendering is one-to-one. */
  lemma DecimalInjective(m: nat, n: nat)
    requires Decimal(m) == Decimal(n)
    ensures m == n
  {
    DecimalValue(m);
    DecimalValue(n);
  }

  /** Text that starts with something other than white space is its own `trimStart()`. */
  lemma TrimStartKeeps(s: string)
    requires s != [] && !IsSpace(s[0])
    ensures TrimStart(s) == s
  {
  }

  /** The digits read from the front of `ds + rest`. */
  lemma DigitsAtFront(ds: string, rest: string, k: nat, s: string)
    requires forall m :: 0 <= m < |ds| ==> IsDigit(ds[m])
    requires rest == [] || !IsDigit(rest[0])
    requires |s| >= k && s[k..] == ds + rest
    ensures DigitsAt(s, k) == ds
  {
    DigitRunOfDigits(ds, rest, 0);
    DigitRunSuffix(s[..k], ds + rest, 0);
    assert s[..k] + (ds + rest) == s;
    assert s[k..k + |ds|] == (ds + rest)[..|ds|] == ds;
  }

  /** A string of digits followed by a non-digit reads as its value. */
  lemma ParseDigits(ds: string, rest: string)
    requires ds != [] && forall k :: 0 <= k < |ds| ==> IsDigit(ds[k])
    requires rest == [] || !IsDigit(rest[0])
    ensures ParseIntOrZero(ds + rest) == DigitsValue(ds)
  {
    var s := ds + rest;
    assert s[0] == ds[0] && s[0..] == s;
    UnsignedFront(s, ds, rest);
  }

  /** Digits at the very front. */
  lemma UnsignedFront(s: string, ds: string, rest: string)
    requires ds != [] && forall k :: 0 <= k < |ds| ==> IsDigit(ds[k])
    requires rest == [] || !IsDigit(rest[0])
    requires |s| >= 1 && IsDigit(s[0]) && s[0..] == ds + rest
    ensures ParseIntOrZero(s) == DigitsValue(ds)
  {
    TrimStartKeeps(s);
    DigitsAtFront(ds, rest, 0, s);
    ParseIntOf(s, s);
  }

  /** `parseInt` unfolded once its `trimStart()` is known. */
  lemma ParseIntOf(t: string, u: string)
    requires TrimStart(t) == u
    ensures ParseIntOrZero(t) == if DigitsStart(u) == 1 && u[0] == '-' then -(DigitsValue(DigitsAt(u, DigitsStart(u))) as int)
      else DigitsValue(DigitsAt(u, DigitsStart(u)))
  {
  }

  /** The same behind a minus sign. */
  lemma ParseSignedDigits(ds: string, rest: string)
    requires ds != [] && forall k :: 0 <= k < |ds| ==> IsDigit(ds[k])
    requires rest == [] || !IsDigit(rest[0])
    ensures ParseIntOrZero("-" + ds + rest) == -(DigitsValue(ds) as int)
  {
    var s := "-" + ds + rest;
    MinusFacts(s, ds, rest);
    SignedFront(s, ds, rest);
  }

  lemma MinusFacts(s: string, ds: string, rest: string)
    requires s == "-" + ds + rest
    ensures |s| >= 1 && s[0] == '-' && s[1..] == ds + rest
  {
  }

  /** Digits behind a leading minus sign. */
  lemma SignedFront(s: string, ds: string, rest: string)
    requires ds != [] && forall k :: 0 <= k < |ds| ==> IsDigit(ds[k])
    requires rest == [] || !IsDigit(rest[0])
    requires |s| >= 1 && s[0] == '-' && s[1..] == ds + rest
    ensures ParseIntOrZero(s) == -(DigitsValue(ds) as int)
  {
    TrimStartKeeps(s);
    DigitsAtFront(ds, rest, 1, s);
    ParseIntOf(s, s);
  }

  /** `parseInt` reads back a rendered number followed by text that does not start with a digit. */
  lemma ParseDecimal(n: nat, rest: string)
    requires rest == [] || !IsDigit(rest[0])
    ensures ParseIntOrZero(Decimal(n) + rest) == n
  {
    ParseDigits(Decimal(n), rest);
    DecimalValue(n);
  }

  /** The same with a minus sign in front. */
  lemma ParseNegativeDecimal(n: nat, rest: string)
    requires rest == [] || !IsDigit(rest[0])
    ensures ParseIntOrZero("-" + Decimal(n) + rest) == -(n as int)
  {
    ParseSignedDigits(Decimal(n), rest);
    DecimalValue(n);
  }

  /** A run of digits after a prefix is the run of the rest. */
  lemma {:induction false} DigitRunSuffix(pre: string, t: string, j: nat)
    requires j <= |t|
    ensures DigitRun(pre + t, |pre| + j) == DigitRun(t, j)
    decreases |t| - j
  {
    if j < |t| {
      assert (pre + t)[|pre| + j] == t[j];
      DigitRunSuffix(pre, t, j + 1);
    }
  }

  /** Text that does not start with a digit or a signed digit reads as 0 (NaN `|| 0`). */
  lemma NoDigitsIsZero(t: string)
    requires t == [] || (!IsSpace(t[0]) && !IsDigit(t[0]) && t[0] != '-' && t[0] != '+')
    ensures ParseIntOrZero(t) == 0
  {
  }
}
