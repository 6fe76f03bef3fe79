/**
 * Decimal digit strings: the parts of JavaScript's `Number.prototype.toString`,
 * `String.prototype.slice(-k)` and `String.prototype.padStart(k, '0')` that the
 * order-number generator uses, restricted to non-negative integers.
 */
module Decimal {

  function Pow10(k: nat): (r: nat)
    ensures r >= 1
  {
    if k == 0 then 1 else 10 * Pow10(k - 1)
  }

  predicate IsDigit(c: char) { '0' <= c <= '9' }

  predicate AllDigits(s: string) { forall i :: 0 <= i < |s| ==> IsDigit(s[i]) }

  function DigitValue(c: char): (d: nat)
    requires IsDigit(c)
    ensures d < 10
  {
    c as int - '0' as int
  }

  function DigitChar(d: nat): (c: char)
    requires d < 10
    ensures IsDigit(c) && DigitValue(c) == d
  {
    ('0' as int + d) as char
  }

  /** The number a digit string denotes (most significant digit first). */
  function Value(s: string): nat
    requires AllDigits(s)
  {
    if s == [] then 0 else Value(s[..|s| - 1]) * 10 + DigitValue(s[|s| - 1])
  }

  /** `n.toString()` for a non-negative integer: no sign, no leading zeros. */
  function ToString(n: nat): (s: string)
    ensures |s| >= 1 && AllDigits(s)
    decreases n
  {
    if n < 10 then [DigitChar(n)] else ToString(n / 10) + [DigitChar(n % 10)]
  }

  /** `s.slice(-k)` for k > 0: the last k characters, or all of `s` when it is shorter. */
  function SliceLast(s: string, k: nat): (r: string)
    ensures |r| == if |s| <= k then |s| else k
    ensures r == s[|s| - |r|..]
  {
    if |s| <= k then s else s[|s| - k..]
  }

  function Zeros(k: nat): (z: string)
    ensures |z| == k && AllDigits(z)
    ensures forall i :: 0 <= i < k ==> z[i] == '0'
  {
    seq(k, _ => '0')
  }

  /** `s.padStart(k, '0')`: leading zeros up to length k; a longer `s` is returned as is. */
  function PadZeros(s: string, k: nat): (r: string)
    ensures |r| == if |s| >= k then |s| else k
    ensures r[|r| - |s|..] == s
    ensures forall i :: 0 <= i < |r| - |s| ==> r[i] == '0'
  {
    if |s| >= k then s else Zeros(k - |s|) + s
  }

  // ---------------------------------------------------------------------------
  // Facts about digit strings

  lemma {:induction false} ValueOfToString(n: nat)
    ensures Value(ToString(n)) == n
    decreases n
  {
    var s := ToString(n);
    if n >= 10 {
      assert s[..|s| - 1] == ToString(n / 10);
      ValueOfToString(n / 10);
    }
  }

  lemma {:induction false} ValueAppend(a: string, b: string)
    requires AllDigits(a) && AllDigits(b)
    ensures AllDigits(a + b)
    ensures Value(a + b) == Value(a) * Pow10(|b|) + Value(b)
    decreases |b|
  {
    DigitsAppend(a, b);
    if b == [] {
      assert a + b == a;
    } else {
      var b' := b[..|b| - 1];
      assert (a + b)[..|a + b| - 1] == a + b';
      assert (a + b)[|a + b| - 1] == b[|b| - 1];
      ValueAppend(a, b');
      var x, p, y, d := Value(a), Pow10(|b'|), Value(b'), DigitValue(b[|b| - 1]);
      assert Value(a + b) == Value(a + b') * 10 + d;
      assert Value(b) == y * 10 + d;
      assert Pow10(|b|) == 10 * p;
      ShiftDigit(x, p, y, d);
      assert Value(a + b) == (x * p + y) * 10 + d;
    }
  }

  lemma DigitsAppend(a: string, b: string)
    requires AllDigits(a) && AllDigits(b)
    ensures AllDigits(a + b)
  {
  }

  lemma ShiftDigit(x: nat, p: nat, y: nat, d: nat)
    ensures (x * p + y) * 10 + d == x * (10 * p) + (y * 10 + d)
  {
  }

  lemma {:induction false} ValueBound(s: string)
    requires AllDigits(s)
    ensures Value(s) < Pow10(|s|)
    decreases |s|
  {
    if s != [] {
      ValueBound(s[..|s| - 1]);
    }
  }

  lemma {:induction false} ValueOfZeros(k: nat)
    ensures Value(Zeros(k)) == 0
    decreases k
  {
    if k > 0 {
      assert Zeros(k)[..k - 1] == Zeros(k - 1);
      ValueOfZeros(k - 1);
    }
  }

  /** Two digit strings of the same length denote the same number only if they are equal. */
  lemma {:induction false} ValueInjective(a: string, b: string)
    requires AllDigits(a) && AllDigits(b) && |a| == |b|
    requires Value(a) == Value(b)
    ensures a == b
    decreases |a|
  {
    if a != [] {
      var a', b' := a[..|a| - 1], b[..|b| - 1];
      var da, db := DigitValue(a[|a| - 1]), DigitValue(b[|b| - 1]);
      assert Value(a') * 10 + da == Value(b') * 10 + db;
      DivModUnique(Value(a), Value(a'), da, Value(b'), db);
      ValueInjective(a', b');
      assert a == a' + [a[|a| - 1]] && b == b' + [b[|b| - 1]];
    }
  }

  lemma DivModUnique(n: nat, q1: nat, r1: nat, q2: nat, r2: nat)
    requires r1 < 10 && r2 < 10
    requires n == q1 * 10 + r1 && n == q2 * 10 + r2
    ensures q1 == q2 && r1 == r2
  {
    ModOfDecomposition(n, q1, 10, r1);
    ModOfDecomposition(n, q2, 10, r2);
  }

  lemma ModOfDecomposition(n: nat, q: nat, m: nat, r: nat)
    requires m > 0 && r < m && n == q * m + r
    ensures n % m == r
  {
    var q', r' := n / m, n % m;
    assert n == q' * m + r';
    if q != q' {
      var d := q - q';
      assert q * m - q' * m == d * m;
      assert d * m == r' - r;
      if d > 0 {
        MulAtLeast(d, m);
      } else {
        MulAtLeast(-d, m);
      }
    }
  }

  lemma ZeroTimes(a: int, b: int)
    requires a == 0
    ensures a * b == 0
  {
  }

  lemma MulAtLeast(d: int, m: int)
    requires d >= 1 && m > 0
    ensures d * m >= m
  {
  }

  /** A number of at least `Pow10(k)` has more than k digits. */
  lemma {:induction false} LongToString(n: nat, k: nat)
    requires n >= Pow10(k)
    ensures |ToString(n)| > k
    decreases k
  {
    if k > 0 {
      assert n / 10 >= Pow10(k - 1);
      LongToString(n / 10, k - 1);
    }
  }

  /** A number below `Pow10(k)` has at most k digits. */
  lemma {:induction false} ShortToString(n: nat, k: nat)
    requires k >= 1 && n < Pow10(k)
    ensures |ToString(n)| <= k
    decreases k
  {
    if n >= 10 {
      if k == 1 {
        assert false;
      }
      assert n / 10 < Pow10(k - 1);
      ShortToString(n / 10, k - 1);
    }
  }

  /** For n with at least k digits, the last k characters of `n.toString()` spell `n % 10^k`. */
  lemma LastDigits(n: nat, k: nat)
    requires k >= 1 && n >= Pow10(k - 1)
    ensures |SliceLast(ToString(n), k)| == k
    ensures AllDigits(SliceLast(ToString(n), k))
    ensures Value(SliceLast(ToString(n), k)) == n % Pow10(k)
  {
    var s := ToString(n);
    LongToString(n, k - 1);
    ValueOfToString(n);
    var tail := SliceLast(s, k);
    var head := s[..|s| - k];
    assert s == head + tail;
    assert AllDigits(head);
    ValueAppend(head, tail);
    ValueBound(tail);
    ModOfDecomposition(n, Value(head), Pow10(k), Value(tail));
  }

  /** `n.toString().padStart(k, '0')` is a k-digit string spelling n, for n < 10^k. */
  lemma PaddedDigits(n: nat, k: nat)
    requires k >= 1 && n < Pow10(k)
    ensures |PadZeros(ToString(n), k)| == k
    ensures AllDigits(PadZeros(ToString(n), k))
    ensures Value(PadZeros(ToString(n), k)) == n
  {
    var s := ToString(n);
    ShortToString(n, k);
    ValueOfToString(n);
    var p := PadZeros(s, k);
    if |s| < k {
      var z := Zeros(k - |s|);
      assert p == z + s;
      ValueAppend(z, s);
      ValueOfZeros(k - |s|);
      ZeroTimes(Value(z), Pow10(|s|));

    } else {
      assert p == s;
    }
  }
}
