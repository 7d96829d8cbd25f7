/** Decimal numerals as strconv writes and reads them. */
module Numerals {
  predicate IsDigit(c: char) { '0' <= c <= '9' }

  predicate AllDigits(s: string) { forall i :: 0 <= i < |s| ==> IsDigit(s[i]) }

  function Digit(d: nat): char
    requires d < 10
  {
    '0' + d as char
  }

  function Decimal(n: nat): (s: string)
    ensures s != "" && AllDigits(s)
  {
    if n < 10 then [Digit(n)] else Decimal(n / 10) + [Digit(n % 10)]
  }

  /** The number a string of digits denotes. */
  function Value(s: string): nat
    requires AllDigits(s)
  {
    if s == "" then 0 else 10 * Value(s[..|s| - 1]) + (s[|s| - 1] - '0') as nat
  }

  lemma {:induction false} ValueOfDecimal(n: nat)
    ensures Value(Decimal(n)) == n
  {
    if n >= 10 {
      var s := Decimal(n);
      assert s[..|s| - 1] == Decimal(n / 10);
      ValueOfDecimal(n / 10);
    }
  }

  lemma DecimalInjective(m: nat, n: nat)
    requires Decimal(m) == Decimal(n)
    ensures m == n
  {
    ValueOfDecimal(m);
    ValueOfDecimal(n);
  }

  function Pow10(k: nat): (p: nat)
    ensures p >= 1
  {
    if k == 0 then 1 else 10 * Pow10(k - 1)
  }

  lemma {:induction false} DecimalLength(n: nat, k: nat)
    requires 1 <= k && n < Pow10(k)
    ensures |Decimal(n)| <= k
  {
    if n >= 10 {
      DecimalLength(n / 10, k - 1);
    }
  }

  lemma {:induction false} DecimalAtLeast(n: nat, k: nat)
    requires Pow10(k) <= n
    ensures |Decimal(n)| > k
  {
    if k > 0 {
      DecimalAtLeast(n / 10, k - 1);
    }
  }

  /** fmt's %016d. */
  const WIDTH: nat := 16
  const SIXTEEN_DIGITS: nat := 10_000_000_000_000_000

  lemma WidthPower()
    ensures Pow10(WIDTH) == SIXTEEN_DIGITS && Pow10(WIDTH - 1) == SIXTEEN_DIGITS / 10
  {
    assert Pow10(4) == 10_000;
    assert Pow10(8) == 10_000 * Pow10(4);
    assert Pow10(12) == 10_000 * Pow10(8);
    assert Pow10(15) == 1_000 * Pow10(12);
  }

  function Padded(n: nat): (s: string)
    ensures AllDigits(s) && |s| >= WIDTH
  {
    var s := Decimal(n);
    if |s| < WIDTH then seq(WIDTH - |s|, _ => '0') + s else s
  }

  lemma Regroup(d: nat, p: nat, v: nat, last: nat)
    requires v < p && last < 10
    ensures 10 * (d * p + v) + last == d * (10 * p) + (10 * v + last) && 10 * v + last < 10 * p
  {
    assert d * (10 * p) == 10 * (d * p);
  }

  lemma {:induction false} ValueFront(c: char, s: string)
    requires IsDigit(c) && AllDigits(s)
    ensures AllDigits([c] + s) && Value([c] + s) == (c - '0') as nat * Pow10(|s|) + Value(s) && Value(s) < Pow10(|s|)
  {
    if s == "" {
      assert [c] + s == [c] && [c][..0] == "";
    } else {
      var init := s[..|s| - 1];
      var d, p, last := (c - '0') as nat, Pow10(|init|), (s[|s| - 1] - '0') as nat;
      ValueFront(c, init);
      assert ([c] + s)[..|s|] == [c] + init;
      assert Value([c] + s) == 10 * Value([c] + init) + last;
      Regroup(d, p, Value(init), last);
    }
  }

  lemma {:induction false} ValueZeros(zeros: nat, s: string)
    requires AllDigits(s)
    ensures var padded := seq(zeros, _ => '0') + s; AllDigits(padded) && Value(padded) == Value(s)
  {
    var front := seq(zeros, _ => '0');
    if zeros == 0 {
      assert front + s == s;
    } else {
      var rest := seq(zeros - 1, _ => '0');
      ValueZeros(zeros - 1, s);
      ValueFront('0', rest + s);
      assert front + s == ['0'] + (rest + s);
    }
  }

  lemma PaddedDenotes(n: nat)
    ensures Value(Padded(n)) == n && (n < SIXTEEN_DIGITS ==> |Padded(n)| == WIDTH)
  {
    WidthPower();
    hide Value, Decimal, Pow10;
    ValueOfDecimal(n);
    var s := Decimal(n);
    if |s| < WIDTH {
      ValueZeros(WIDTH - |s|, s);
    }
    if n < SIXTEEN_DIGITS {
      DecimalLength(n, WIDTH);
    }
  }

  /** The order of strings. */
  predicate Before(a: string, b: string) {
    b != "" && (a == "" || a[0] < b[0] || (a[0] == b[0] && Before(a[1..], b[1..])))
  }

  lemma {:induction false} BeforeCommon(p: string, a: string, b: string)
    ensures Before(p + a, p + b) <==> Before(a, b)
  {
    if p == "" {
      assert p + a == a && p + b == b;
    } else {
      assert (p + a)[1..] == p[1..] + a && (p + b)[1..] == p[1..] + b;
      BeforeCommon(p[1..], a, b);
    }
  }

  lemma NotBeforePrefix(a: string, x: string)
    ensures !Before(a + x, a)
  {
    BeforeCommon(a, x, "");
    assert a + "" == a;
  }

  lemma SmallerLead(c: nat, d: nat, p: nat, v: nat, w: nat)
    requires c < d && v < p
    ensures c * p + v < d * p + w
  {
    assert (c + 1) * p <= d * p;
  }

  /** Digit strings of one length are ordered like their values, whatever follows them. */
  lemma {:induction false} FixedWidthOrder(a: string, b: string, x: string, y: string)
    requires AllDigits(a) && AllDigits(b) && |a| == |b| && a != b
    ensures Before(a + x, b + y) <==> Value(a) < Value(b)
    ensures Value(a) != Value(b)
  {
    hide Value, Pow10;
    var ta, tb := a[1..], b[1..];
    assert a == [a[0]] + ta && b == [b[0]] + tb;
    assert (a + x)[1..] == ta + x && (b + y)[1..] == tb + y;
    ValueFront(a[0], ta);
    ValueFront(b[0], tb);
    var ca, cb := (a[0] - '0') as nat, (b[0] - '0') as nat;
    if ca < cb {
      SmallerLead(ca, cb, Pow10(|ta|), Value(ta), Value(tb));
    } else if cb < ca {
      SmallerLead(cb, ca, Pow10(|ta|), Value(tb), Value(ta));
    } else {
      FixedWidthOrder(ta, tb, x, y);
    }
  }
}
