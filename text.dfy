/**
  The string operations the page relies on: `String.prototype.includes`,
  the decimal rendering of a non-negative integer (`n.toString()` or a
  template-literal `${n}`) and `padStart`.
*/
module Text {

  /** `s.includes(t)`: t occurs in s as a contiguous run of characters. */
  predicate Contains(s: string, t: string)
    decreases |s|
  {
    t <= s || (s != [] && Contains(s[1..], t))
  }

  /** Text appended after an occurrence does not remove it. */
  lemma {:induction false} ContainsExtended(a: string, b: string, t: string)
    requires Contains(a, t)
    ensures Contains(a + b, t)
    decreases |a|
  {
    if !(t <= a) {
      assert (a + b)[1..] == a[1..] + b;
      ContainsExtended(a[1..], b, t);
    }
  }

  /** Text put in front of an occurrence does not remove it. */
  lemma {:induction false} ContainsPrepended(a: string, b: string, t: string)
    requires Contains(b, t)
    ensures Contains(a + b, t)
    decreases |a|
  {
    if a == [] {
      assert a + b == b;
    } else {
      assert (a + b)[1..] == a[1..] + b;
      ContainsPrepended(a[1..], b, t);
    }
  }

  /** No two adjacent characters of s are x followed by y. */
  predicate NoPair(s: string, x: char, y: char)
    decreases |s|
  {
    |s| < 2 || (!(s[0] == x && s[1] == y) && NoPair(s[1..], x, y))
  }

  /** A string that never has t's first two characters side by side does not contain t. */
  lemma {:induction false} NoPairExcludes(s: string, t: string)
    requires |t| >= 2 && NoPair(s, t[0], t[1])
    ensures !Contains(s, t)
    decreases |s|
  {
    if |s| >= 2 {
      NoPairExcludes(s[1..], t);
    } else if s != [] {
      assert !(t <= s[1..]);
    }
  }

  /** Joining two pair-free strings keeps the pair out unless it straddles the seam. */
  lemma {:induction false} NoPairAppend(a: string, b: string, x: char, y: char)
    requires NoPair(a, x, y) && NoPair(b, x, y)
    requires a != [] && b != [] ==> !(a[|a| - 1] == x && b[0] == y)
    ensures NoPair(a + b, x, y)
    decreases |a|
  {
    if a == [] {
      assert a + b == b;
    } else {
      assert (a + b)[1..] == a[1..] + b;
      if |a| >= 2 {
        NoPairAppend(a[1..], b, x, y);
      } else {
        assert a[1..] + b == b;
      }
    }
  }

  predicate IsDigit(c: char) { '0' <= c <= '9' }

  /** A string without x has no pair starting with x. */
  lemma {:induction false} AbsentNoPair(s: string, x: char, y: char)
    requires x !in s
    ensures NoPair(s, x, y)
    decreases |s|
  {
    if |s| >= 2 {
      assert s[0] != x;
      AbsentNoPair(s[1..], x, y);
    }
  }

  function DigitChar(d: nat): (c: char)
    requires d < 10
    ensures IsDigit(c)
  {
    "0123456789"[d]
  }

  function DigitValue(c: char): nat
    requires IsDigit(c)
  {
    (c - '0') as nat
  }

  /** `n.toString()` for a non-negative integer: its decimal digits, no leading zero. */
  function DecimalString(n: nat): (s: string)
    ensures s != [] && forall k :: 0 <= k < |s| ==> IsDigit(s[k])
    ensures |s| > 1 ==> s[0] != '0'
    ensures n >= 100 <==> |s| >= 3
  {
    if n < 10 then [DigitChar(n)] else DecimalString(n / 10) + [DigitChar(n % 10)]
  }

  /** The value of a string of decimal digits (the empty string reads as 0). */
  function ParseDecimal(s: string): nat
    requires forall k :: 0 <= k < |s| ==> IsDigit(s[k])
  {
    if s == [] then 0 else ParseDecimal(s[..|s| - 1]) * 10 + DigitValue(s[|s| - 1])
  }

  /** Reading back the decimal rendering gives the number. */
  lemma {:induction false} ParseDecimalString(n: nat)
    ensures ParseDecimal(DecimalString(n)) == n
  {
    var s := DecimalString(n);
    if n < 10 {
      assert s[..0] == [];
    } else {
      assert s[..|s| - 1] == DecimalString(n / 10);
      ParseDecimalString(n / 10);
    }
  }

  /** A leading zero does not change the value read. */
  lemma {:induction false} ParseLeadingZero(s: string)
    requires forall k :: 0 <= k < |s| ==> IsDigit(s[k])
    ensures ParseDecimal("0" + s) == ParseDecimal(s)
    decreases |s|
  {
    var z := "0" + s;
    if s == [] {
      assert z[..0] == [];
    } else {
      assert z[..|z| - 1] == "0" + s[..|s| - 1];
      ParseLeadingZero(s[..|s| - 1]);
    }
  }

  /** `c` repeated n times. */
  function Repeat(c: char, n: nat): (r: string)
    ensures |r| == n && forall k :: 0 <= k < n ==> r[k] == c
  {
    if n == 0 then [] else [c] + Repeat(c, n - 1)
  }

  /** `s.padStart(width, c)` with a one-character pad. */
  function PadStart(s: string, width: nat, c: char): (r: string)
    ensures |r| == if |s| >= width then |s| else width
    ensures r[|r| - |s|..] == s
    ensures forall k :: 0 <= k < |r| - |s| ==> r[k] == c
  {
    if |s| >= width then s else Repeat(c, width - |s|) + s
  }

  /** Zero padding keeps a numeral's value: what `padStart(3, '0')` adds is never read. */
  lemma {:induction false} ParseZeroPadded(s: string, width: nat)
    requires forall k :: 0 <= k < |s| ==> IsDigit(s[k])
    ensures var r := PadStart(s, width, '0');
      (forall k :: 0 <= k < |r| ==> IsDigit(r[k])) && ParseDecimal(r) == ParseDecimal(s)
    decreases width
  {
    if |s| < width {
      var r := PadStart(s, width, '0');
      var shorter := PadStart(s, width - 1, '0');
      assert r == "0" + shorter;
      ParseZeroPadded(s, width - 1);
      ParseLeadingZero(shorter);
    }
  }
}
