/**
 Values shared by the models of the two environment-setup scripts and the
 heading formatter: optional values, the way a Python process ends through
 `sys.exit`, Python's `str()` of an integer and ASCII `str.lower`.
 */
module Common {

  datatype Option<T> = None | Some(value: T)

  /** How `sys.exit(arg)` ends the process: with an integer status, or with a
      message that is written to standard error and gives status 1. */
  datatype ExitStatus = Code(code: int) | Message(text: string)
  {
    function ProcessStatus(): (status: int)
      ensures Message? ==> status == 1
      ensures Code? ==> status == code
    {
      match this
      case Code(c) => c
      case Message(_) => 1
    }
  }

  predicate IsDigits(s: string) {
    forall i :: 0 <= i < |s| ==> '0' <= s[i] <= '9'
  }

  function Digit(d: nat): (c: char)
    requires d < 10
    ensures '0' <= c <= '9'
  {
    ('0' as int + d) as char
  }

  function DigitValue(c: char): (d: nat)
    requires '0' <= c <= '9'
    ensures d < 10 && Digit(d) == c
  {
    c as int - '0' as int
  }

  /** Python's `str(n)` for a non-negative integer: decimal digits without
      leading zeros. */
  function NatToString(n: nat): (s: string)
    ensures |s| >= 1 && IsDigits(s)
    ensures s[0] == '0' ==> n == 0
  {
    if n < 10 then [Digit(n)] else NatToString(n / 10) + [Digit(n % 10)]
  }

  /** Python's `str(i)` for any integer. */
  function IntToString(i: int): (s: string)
    ensures i < 0 <==> (|s| > 0 && s[0] == '-')
    ensures i < 0 ==> s[1..] == NatToString(-i)
    ensures i >= 0 ==> s == NatToString(i)
  {
    if i < 0 then "-" + NatToString(-i) else NatToString(i)
  }

  /** Reads a string of decimal digits back as a number. */
  function ParseNat(s: string): nat
    requires IsDigits(s)
  {
    if s == [] then 0 else ParseNat(s[..|s| - 1]) * 10 + DigitValue(s[|s| - 1])
  }

  /** Reading back what `NatToString` wrote gives the number again. */
  lemma {:induction false} ParseNatToString(n: nat)
    ensures ParseNat(NatToString(n)) == n
  {
    if n >= 10 {
      var s := NatToString(n);
      assert s[..|s| - 1] == NatToString(n / 10);
      ParseNatToString(n / 10);
    }
  }

  /** The number of consecutive digits in `s` from index `i`. */
  function DigitRun(s: string, i: nat): nat
    decreases |s| - i
  {
    if i < |s| && '0' <= s[i] <= '9' then 1 + DigitRun(s, i + 1) else 0
  }

  lemma {:induction false} DigitRunLength(s: string, i: nat, n: string)
    requires i + |n| < |s| && s[i..i + |n|] == n && IsDigits(n) && s[i + |n|] == ' '
    ensures DigitRun(s, i) == |n|
    decreases |n|
  {
    if n != [] {
      assert s[i] == n[0];
      assert s[i + 1..i + 1 + |n[1..]|] == n[1..];
      DigitRunLength(s, i + 1, n[1..]);
    }
  }

  /** Reads an integer written by `IntToString` at index `i` of `s`: an
      optional minus sign and a run of digits. Gives the value and the index
      just after the number. */
  function IntText(s: string, i: nat): (int, nat) {
    var neg := i < |s| && s[i] == '-';
    var start := if neg then i + 1 else i;
    var n := DigitRun(s, start);
    if start + n <= |s| && IsDigits(s[start..start + n]) then
      var v: int := ParseNat(s[start..start + n]);
      (if neg then -v else v, start + n)
    else (0, i)
  }

  /** The digits of `n` followed by a space, at index `k`, read back as `n`. */
  lemma NatTextAt(s: string, k: nat, n: nat)
    requires k + |NatToString(n)| < |s| && s[k..k + |NatToString(n)|] == NatToString(n)
    requires s[k + |NatToString(n)|] == ' '
    ensures DigitRun(s, k) == |NatToString(n)|
    ensures ParseNat(s[k..k + DigitRun(s, k)]) == n
  {
    DigitRunLength(s, k, NatToString(n));
    ParseNatToString(n);
  }

  /** A minus sign, then the digits of `n` and a space read back as `-n`. */
  lemma NegativeTextAt(s: string, k: nat, n: nat)
    requires k + 1 + |NatToString(n)| < |s| && s[k] == '-'
    requires s[k + 1..k + 1 + |NatToString(n)|] == NatToString(n)
    requires s[k + 1 + |NatToString(n)|] == ' '
    ensures IntText(s, k) == (-(n as int), k + 1 + |NatToString(n)|)
  {
    var d := NatToString(n);
    NatTextAt(s, k + 1, n);
    assert s[k + 1..k + 1 + DigitRun(s, k + 1)] == d && IsDigits(d);
  }

  /** The digits of `n` and a space read back as `n`. */
  lemma PositiveTextAt(s: string, k: nat, n: nat)
    requires k + |NatToString(n)| < |s| && s[k..k + |NatToString(n)|] == NatToString(n)
    requires s[k + |NatToString(n)|] == ' '
    ensures IntText(s, k) == (n, k + |NatToString(n)|)
  {
    var d := NatToString(n);
    assert s[k] == d[0];
    NatTextAt(s, k, n);
    assert s[k..k + DigitRun(s, k)] == d && IsDigits(d);
  }

  /** An integer followed by a space, at index `k`, reads back as itself,
      with the index of the space. */
  lemma IntTextAt(s: string, k: nat, x: int)
    requires k + |IntToString(x)| < |s| && s[k..k + |IntToString(x)|] == IntToString(x)
    requires s[k + |IntToString(x)|] == ' '
    ensures IntText(s, k) == (x, k + |IntToString(x)|)
  {
    var t := IntToString(x);
    if x < 0 {
      assert s[k] == t[0];
      assert s[k + 1..k + |t|] == t[1..];
      NegativeTextAt(s, k, -x);
    } else {
      PositiveTextAt(s, k, x);
    }
  }

  /** Distinct numbers are written as distinct strings. */
  lemma NatToStringInjective(a: nat, b: nat)
    ensures NatToString(a) == NatToString(b) ==> a == b
  {
    ParseNatToString(a);
    ParseNatToString(b);
  }

  /** A run of digits followed by a space is read off unambiguously. */
  lemma DigitsBeforeSpace(head: string, n1: string, r1: string, n2: string, r2: string)
    requires head + n1 + r1 == head + n2 + r2
    requires IsDigits(n1) && IsDigits(n2)
    requires |r1| > 0 && r1[0] == ' ' && |r2| > 0 && r2[0] == ' '
    ensures n1 == n2 && r1 == r2
  {
    var m := head + n1 + r1;
    assert m[|head|..|head| + |n1|] == n1;
    assert m[|head|..|head| + |n2|] == n2;
    DigitRunLength(m, |head|, n1);
    DigitRunLength(m, |head|, n2);
    assert r1 == m[|head| + |n1|..];
    assert r2 == m[|head| + |n2|..];
  }

  /** The same for an integer as `IntToString` writes it: an optional minus
      sign, then digits. */
  lemma SignedDigitsBeforeSpace(head: string, x1: int, r1: string, x2: int, r2: string)
    requires head + IntToString(x1) + r1 == head + IntToString(x2) + r2
    requires |r1| > 0 && r1[0] == ' ' && |r2| > 0 && r2[0] == ' '
    ensures x1 == x2 && r1 == r2
  {
    var s1 := IntToString(x1);
    var s2 := IntToString(x2);
    var m := head + s1 + r1;
    assert m[|head|] == s1[0] && m[|head|] == s2[0];
    if x1 < 0 {
      assert x2 < 0;
      assert head + "-" + s1[1..] + r1 == m;
      assert head + "-" + s2[1..] + r2 == m;
      DigitsBeforeSpace(head + "-", s1[1..], r1, s2[1..], r2);
      NatToStringInjective(-x1, -x2);
    } else {
      assert x2 >= 0;
      DigitsBeforeSpace(head, s1, r1, s2, r2);
      NatToStringInjective(x1, x2);
    }
  }

  /** Regrouping a five-part concatenation. */
  lemma Regroup(a: string, b: string, c: string, d: string, e: string)
    ensures a + b + c + d + e == a + b + (c + d + e)
  {
  }

  /** A text with two integers, each followed by a space-led part, determines
      both integers. */
  lemma TwoIntsDetermined(head: string, x1: int, y1: int, x2: int, y2: int, mid: string, tail: string)
    requires |mid| > 0 && mid[0] == ' ' && |tail| > 0 && tail[0] == ' '
    requires head + IntToString(x1) + mid + IntToString(y1) + tail
             == head + IntToString(x2) + mid + IntToString(y2) + tail
    ensures x1 == x2 && y1 == y2
  {
    var rest1 := mid + IntToString(y1) + tail;
    var rest2 := mid + IntToString(y2) + tail;
    assert x1 == x2 && rest1 == rest2 by {
      Regroup(head, IntToString(x1), mid, IntToString(y1), tail);
      Regroup(head, IntToString(x2), mid, IntToString(y2), tail);
      SignedDigitsBeforeSpace(head, x1, rest1, x2, rest2);
    }
    SignedDigitsBeforeSpace(mid, y1, tail, y2, tail);
  }

  /** Python's `str.lower` restricted to ASCII letters. */
  function LowerChar(c: char): (r: char)
    ensures 'A' <= c <= 'Z' ==> r as int == c as int + 32
    ensures !('A' <= c <= 'Z') ==> r == c
  {
    if 'A' <= c <= 'Z' then (c as int + 32) as char else c
  }

  function Lower(s: string): (r: string)
    ensures |r| == |s|
    ensures forall i :: 0 <= i < |s| ==> r[i] == LowerChar(s[i])
  {
    seq(|s|, i requires 0 <= i < |s| => LowerChar(s[i]))
  }

  /** Lower-casing twice is lower-casing once, and the result holds no
      upper-case ASCII letter. */
  lemma LowerIdempotent(s: string)
    ensures Lower(Lower(s)) == Lower(s)
    ensures forall i :: 0 <= i < |s| ==> !('A' <= Lower(s)[i] <= 'Z')
  {
  }

  /** The three package sources both scripts accept, after lower-casing. */
  predicate IsKnownSource(source: string) {
    source == "github" || source == "pypi" || source == "testpypi"
  }
}
