/**
 Decimal notation of natural numbers, and how strings of it compare.
 JavaScript writes array indices and stream ids this way and compares strings one code unit at a time.
 */
module Decimals {
  function Digit(d: nat): char
    requires d < 10
  {
    "0123456789"[d]
  }

  function Decimal(n: nat): (s: string)
    ensures |s| > 0 && (|s| == 1 <==> n < 10)
  {
    if n < 10 then [Digit(n)] else Decimal(n / 10) + [Digit(n % 10)]
  }

  lemma {:induction false} DecimalIsDigits(n: nat)
    ensures forall c :: c in Decimal(n) ==> '0' <= c <= '9'
  {
    if n >= 10 { DecimalIsDigits(n / 10); }
  }

  /** a < b as JavaScript strings. */
  predicate StrLess(a: string, b: string) {
    if b == "" then false
    else if a == "" then true
    else if a[0] == b[0] then StrLess(a[1..], b[1..])
    else a[0] < b[0]
  }

  lemma {:induction false} DecimalInjective(m: nat, n: nat)
    requires Decimal(m) == Decimal(n)
    ensures m == n
  {
    var a, b := Decimal(m), Decimal(n);
    if m >= 10 && n >= 10 {
      assert a[..|a| - 1] == Decimal(m / 10) && b[..|b| - 1] == Decimal(n / 10);
      assert a[|a| - 1] == Digit(m % 10) && b[|b| - 1] == Digit(n % 10);
      DecimalInjective(m / 10, n / 10);
    }
  }

  /** A common beginning does not matter. */
  lemma {:induction false} LessAfterPrefix(p: string, a: string, b: string)
    ensures StrLess(p + a, p + b) == StrLess(a, b)
  {
    if p == "" {
      assert p + a == a && p + b == b;
    } else {
      assert (p + a)[1..] == p[1..] + a && (p + b)[1..] == p[1..] + b;
      LessAfterPrefix(p[1..], a, b);
    }
  }

  /** Strings of the same length that differ are decided before anything appended to them. */
  lemma {:induction false} LessBeforeSuffix(a: string, b: string, x: string, y: string)
    requires |a| == |b| && a != b
    ensures StrLess(a + x, b + y) == StrLess(a, b)
  {
    assert (a + x)[1..] == a[1..] + x && (b + y)[1..] == b[1..] + y;
    if a[0] == b[0] {
      assert a == [a[0]] + a[1..] && b == [b[0]] + b[1..];
      LessBeforeSuffix(a[1..], b[1..], x, y);
    }
  }

  lemma {:induction false} LessTotal(a: string, b: string)
    ensures a == b ==> !StrLess(a, b)
    ensures a != b ==> StrLess(a, b) == !StrLess(b, a)
  {
    if a != "" && b != "" {
      assert a == [a[0]] + a[1..] && b == [b[0]] + b[1..];
      LessTotal(a[1..], b[1..]);
    }
  }

  lemma DigitOrder(d: nat, e: nat)
    requires d < 10 && e < 10
    ensures Digit(d) < Digit(e) <==> d < e
  {}

  /** Decimals of equal length compare as strings exactly as the numbers do. */
  lemma {:induction false} SameWidthOrder(m: nat, n: nat)
    requires |Decimal(m)| == |Decimal(n)|
    ensures StrLess(Decimal(m), Decimal(n)) <==> m < n
    decreases m
  {
    if m < 10 {
      DigitOrder(m, n);
    } else {
      var p, q := Decimal(m / 10), Decimal(n / 10);
      var d, e := [Digit(m % 10)], [Digit(n % 10)];
      SameWidthOrder(m / 10, n / 10);
      if m / 10 == n / 10 {
        LessAfterPrefix(p, d, e);
        DigitOrder(m % 10, n % 10);
      } else {
        if p == q { DecimalInjective(m / 10, n / 10); }
        LessBeforeSuffix(p, q, d, e);
      }
    }
  }
}
