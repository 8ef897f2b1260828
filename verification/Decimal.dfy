/** Canonical decimal identifiers of any length, how they print, and how the program orders them. */
module Decimal {

  predicate IsDigit(c: char) { '0' <= c <= '9' }

  predicate AllDigits(s: string) {
    forall k :: 0 <= k < |s| ==> IsDigit(s[k])
  }

  /** A positive number without leading zeros. */
  predicate Canonical(s: string) {
    s != [] && AllDigits(s) && s[0] != '0'
  }

  function DigitValue(c: char): nat
    requires IsDigit(c)
  {
    c as int - '0' as int
  }

  function Digit(d: nat): (c: char)
    requires d < 10
    ensures IsDigit(c) && DigitValue(c) == d
  {
    ('0' as int + d) as char
  }

  function Value(s: string): nat
    requires AllDigits(s)
  {
    if s == [] then 0 else 10 * Value(s[..|s| - 1]) + DigitValue(s[|s| - 1])
  }

  function Show(n: nat): (s: string)
    ensures s != [] && AllDigits(s)
  {
    if n < 10 then [Digit(n)] else Show(n / 10) + [Digit(n % 10)]
  }

  function Power(k: nat): nat {
    if k == 0 then 1 else 10 * Power(k - 1)
  }

  /** Digit by digit from the left, for ids of one length. */
  predicate Less(a: string, b: string)
    requires |a| == |b|
  {
    a != [] && (a[0] < b[0] || (a[0] == b[0] && Less(a[1..], b[1..])))
  }

  /** Shorter ids come first; ids of one length go by their digits. */
  function CompareIds(a: string, b: string): int {
    if |a| != |b| then |a| - |b|
    else if a == b then 0
    else if Less(a, b) then -1
    else 1
  }

  // ----- Printing -----

  lemma {:induction false} ShowValue(n: nat)
    ensures Value(Show(n)) == n
  {
    if n < 10 {
      assert Show(n)[..0] == [];
    } else {
      ShowValue(n / 10);
      assert Show(n)[..|Show(n)| - 1] == Show(n / 10);
    }
  }

  lemma {:induction false} ShowCanonical(n: nat)
    requires n > 0
    ensures Canonical(Show(n))
  {
    if n >= 10 {
      ShowCanonical(n / 10);
    }
  }

  // ----- Ordering -----

  lemma {:induction false} ValueHead(s: string)
    requires s != [] && AllDigits(s)
    ensures Value(s) == DigitValue(s[0]) * Power(|s| - 1) + Value(s[1..])
    decreases |s|
  {
    if |s| == 1 {
      assert s[..0] == [] && s[1..] == [];
    } else {
      var front := s[..|s| - 1];
      ValueHead(front);
      assert front[1..] == s[1..][..|s| - 2];
      assert Power(|s| - 1) == 10 * Power(|s| - 2);
      Distribute(DigitValue(s[0]), Power(|s| - 2));
    }
  }

  lemma Distribute(d: nat, p: nat)
    ensures 10 * (d * p) == d * (10 * p)
  {
  }

  lemma {:induction false} ValueBound(s: string)
    requires AllDigits(s)
    ensures Value(s) < Power(|s|)
    decreases |s|
  {
    if s != [] {
      ValueBound(s[..|s| - 1]);
    }
  }

  lemma {:induction false} PowerGrows(j: nat, k: nat)
    requires j <= k
    ensures 1 <= Power(j) <= Power(k)
    decreases k
  {
    if j < k {
      PowerGrows(j, k - 1);
    } else if k > 0 {
      PowerGrows(j - 1, k - 1);
    }
  }

  lemma CanonicalBound(s: string)
    requires Canonical(s)
    ensures Power(|s| - 1) <= Value(s) < Power(|s|)
  {
    ValueHead(s);
    ValueBound(s);
    AtLeast(DigitValue(s[0]), Power(|s| - 1));
  }

  lemma AtLeast(d: nat, p: nat)
    requires d >= 1
    ensures d * p >= p
  {
  }

  lemma {:induction false} LessIsSmaller(a: string, b: string)
    requires |a| == |b| && AllDigits(a) && AllDigits(b) && a != b
    ensures Less(a, b) <==> Value(a) < Value(b)
    ensures Value(a) != Value(b)
    decreases |a|
  {
    ValueHead(a);
    ValueHead(b);
    ValueBound(a[1..]);
    ValueBound(b[1..]);
    var p := Power(|a| - 1);
    if a[0] == b[0] {
      assert a == [a[0]] + a[1..] && b == [b[0]] + b[1..];
      LessIsSmaller(a[1..], b[1..]);
    } else if a[0] < b[0] {
      HeadDecides(DigitValue(a[0]), DigitValue(b[0]), p, Value(a[1..]), Value(b[1..]));
    } else {
      HeadDecides(DigitValue(b[0]), DigitValue(a[0]), p, Value(b[1..]), Value(a[1..]));
    }
  }

  lemma HeadDecides(d: nat, e: nat, p: nat, x: nat, y: nat)
    requires d < e && x < p && y < p
    ensures d * p + x < e * p + y
  {
    assert e * p >= (d + 1) * p == d * p + p;
  }

  /** The comparison orders canonical ids exactly as the numbers they denote, at any length. */
  lemma CompareIsNumeric(a: string, b: string)
    requires Canonical(a) && Canonical(b)
    ensures CompareIds(a, b) < 0 <==> Value(a) < Value(b)
    ensures CompareIds(a, b) == 0 <==> Value(a) == Value(b)
    ensures CompareIds(a, b) == 0 <==> a == b
  {
    CanonicalBound(a);
    CanonicalBound(b);
    if |a| < |b| {
      PowerGrows(|a|, |b| - 1);
    } else if |b| < |a| {
      PowerGrows(|b|, |a| - 1);
    } else if a != b {
      LessIsSmaller(a, b);
    }
  }
}
