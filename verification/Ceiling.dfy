/** Ceiling division, and the proof that computing it through `float64` and `math.Ceil` is exact.
    Worker assignment and the load balancer's proxy count both use that computation. */
module Ceiling {

  /** Integer ceiling division: the least `n` with `w <= n * k`. */
  function CeilDiv(w: nat, k: nat): (n: nat)
    requires k >= 1
    ensures n * k - k < w <= n * k
  {
    (w + k - 1) / k
  }

  lemma MulMonotone(m: int, n: int, k: nat)
    requires m <= n
    ensures m * k <= n * k
  {
  }

  /** Exactly the numbers above `n * k - k` and up to `n * k` have ceiling `n`. */
  lemma CeilDivUnique(w: nat, k: nat, n: nat)
    requires k >= 1
    ensures CeilDiv(w, k) == n <==> n * k - k < w <= n * k
  {
    if n < CeilDiv(w, k) {
      MulMonotone(n, CeilDiv(w, k) - 1, k);
    } else if n > CeilDiv(w, k) {
      MulMonotone(CeilDiv(w, k), n - 1, k);
    }
  }

  lemma CeilDivMonotone(v: nat, w: nat, k: nat)
    requires k >= 1 && v <= w
    ensures CeilDiv(v, k) <= CeilDiv(w, k)
  {
    if CeilDiv(w, k) < CeilDiv(v, k) {
      MulMonotone(CeilDiv(w, k), CeilDiv(v, k) - 1, k);
    }
  }

  // The binary64 format of IEEE 754-2019, section 3.4: non-negative finite values.

  const TWO_53: nat := 0x20_0000_0000_0000

  function Pow2(e: nat): (p: nat)
    ensures p >= 1
  {
    if e == 0 then 1 else 2 * Pow2(e - 1)
  }

  /** `x` is the significand `m` scaled by `2^e`. */
  predicate Represents(x: real, m: nat, e: int) {
    && m < TWO_53
    && -1074 <= e <= 971
    && if e >= 0 then x == (m * Pow2(e)) as real else x * Pow2(-e) as real == m as real
  }

  ghost predicate IsBinary64(x: real) {
    exists m, e :: Represents(x, m, e)
  }

  function Distance(x: real, y: real): real {
    if x < y then y - x else x - y
  }

  /** Section 4.3.1 of IEEE 754-2019: no representable value is nearer. Ties may go either way. */
  ghost predicate CorrectlyRounded(x: real, q: real) {
    && IsBinary64(q)
    && forall f :: IsBinary64(f) ==> Distance(x, q) <= Distance(x, f)
  }

  /** `int(math.Ceil(q))` */
  function CeilReal(q: real): int {
    -((-q).Floor)
  }

  lemma SmallIntegersRepresentable(n: nat)
    requires n < TWO_53
    ensures IsBinary64(n as real)
  {
    assert Represents(n as real, n, 0);
  }

  lemma {:induction false} Pow2Add(a: nat, b: nat)
    ensures Pow2(a + b) == Pow2(a) * Pow2(b)
  {
    if a > 0 {
      Pow2Add(a - 1, b);
      assert Pow2(a + b) == 2 * (Pow2(a - 1) * Pow2(b));
    }
  }

  lemma Pow2Of53()
    ensures Pow2(53) == TWO_53 && Pow2(52) * 2 == TWO_53
  {
    Pow2Add(26, 26);
    assert Pow2(10) == 1024;
    Pow2Add(10, 16);
    Pow2Add(10, 6);
    assert Pow2(26) == 0x400_0000;
    assert Pow2(53) == 2 * Pow2(52);
  }

  /** The binary exponent of a positive integer below 2^53. */
  lemma {:induction false} BinaryExponent(n: nat, bound: nat) returns (j: nat)
    requires 1 <= n < Pow2(bound)
    ensures j < bound && Pow2(j) <= n < Pow2(j + 1)
  {
    if Pow2(bound - 1) <= n {
      j := bound - 1;
    } else {
      j := BinaryExponent(n, bound - 1);
    }
  }

  lemma RepresentedBelow(x: real, m: nat, e: nat)
    requires m < TWO_53 && e <= 1074 && x * Pow2(e) as real == m as real
    ensures IsBinary64(x)
  {
    if e == 0 {
      assert Represents(x, m, 0);
    } else {
      var scale: int := -(e as int);
      assert Represents(x, m, scale);
    }
  }

  lemma ScaledSuccessor(f: real, m: nat, p: nat)
    requires p >= 1 && f == m as real + 1.0 / p as real
    ensures f * p as real == (m * p + 1) as real
    ensures f > m as real && (f - m as real) * p as real == 1.0
  {
  }

  lemma SignificandFits(m: nat, above: nat, p: nat)
    requires m < above && above * p == TWO_53 && m + 1 < TWO_53 && p >= 1
    ensures m * p + 1 < TWO_53
  {
  }

  /** The successor of `m` at the scale of `p` steps to the unit. */
  lemma SuccessorAtScale(m: nat, above: nat, e: nat) returns (f: real)
    requires m < above && above * Pow2(e) == TWO_53 && m + 1 < TWO_53 && e <= 1074
    ensures IsBinary64(f) && f > m as real && (f - m as real) * Pow2(e) as real == 1.0
  {
    hide Represents, IsBinary64, Pow2;
    var p := Pow2(e);
    f := m as real + 1.0 / p as real;
    ScaledSuccessor(f, m, p);
    SignificandFits(m, above, p);
    RepresentedBelow(f, m * p + 1, e);
  }

  /** Above an integer `m >= 1` the next binary64 value is 2^(j-52) away, where 2^j <= m. */
  lemma NextAbove(m: nat) returns (f: real, j: nat)
    requires 1 <= m && m + 1 < TWO_53
    ensures j <= 52 && Pow2(j) <= m
    ensures IsBinary64(f) && f > m as real && (f - m as real) * Pow2(52 - j) as real == 1.0
  {
    hide Represents, IsBinary64, Pow2;
    Pow2Of53();
    j := BinaryExponent(m, 53);
    Pow2Add(j + 1, 52 - j);
    f := SuccessorAtScale(m, Pow2(j + 1), 52 - j);
  }

  lemma GapAtLeastOneKth(w: nat, k: nat, m: nat, x: real)
    requires k >= 1 && m * k < w && x * k as real == w as real
    ensures (x - m as real) * k as real >= 1.0 && x > m as real
  {
  }

  lemma SmallestQuotient(k: nat, d: real)
    requires 1 <= k <= TWO_53 && d * k as real >= 1.0
    ensures 0.0 < 1.0 / TWO_53 as real <= d
  {
    assert d > 0.0;
    assert d * (TWO_53 - k) as real >= 0.0;
    assert d * TWO_53 as real >= 1.0;
  }

  /** With `k * 2^j < 2^53`, the spacing `u = 2^(j-52)` is below twice any gap of at least 1/k. */
  lemma HalfUlpBelowGap(k: nat, low: nat, p: nat, u: real, d: real)
    requires k >= 1 && low >= 1 && p >= 1
    requires low * p * 2 == TWO_53 && low * k < TWO_53
    requires u * p as real == 1.0 && d * k as real >= 1.0
    ensures u < 2.0 * d
  {
  }

  /** A quotient above the integer `m` is not rounded down onto it: another value is nearer. */
  lemma NotRoundedDown(w: nat, k: nat, m: nat, x: real) returns (f: real)
    requires w < TWO_53 && 1 <= k <= TWO_53
    requires m * k < w && x * k as real == w as real
    ensures IsBinary64(f) && Distance(x, f) < Distance(x, m as real)
  {
    hide IsBinary64, Represents, Pow2;
    GapAtLeastOneKth(w, k, m, x);
    Pow2Of53();
    if m == 0 {
      f := 1.0 / TWO_53 as real;
      RepresentedBelow(f, 1, 53);
      SmallestQuotient(k, x);
    } else {
      MulMonotone(1, k, m);
      var j;
      f, j := NextAbove(m);
      Pow2Add(j, 52 - j);
      MulMonotone(Pow2(j), m, k);
      HalfUlpBelowGap(k, Pow2(j), Pow2(52 - j), f - m as real, x - m as real);
    }
  }

  lemma QuotientBelowCeiling(w: nat, k: nat, n: nat, x: real)
    requires k >= 1 && w <= n * k && x * k as real == w as real
    ensures x <= n as real
  {
  }

  /** Rounding a quotient in `(n - 1, n]` stays in `(n - 1, n]`. */
  lemma RoundingStaysBetween(w: nat, k: nat, n: nat, x: real, q: real)
    requires w < TWO_53 && 1 <= k <= TWO_53 && 1 <= n < TWO_53
    requires (n - 1) * k < w <= n * k && x * k as real == w as real
    requires CorrectlyRounded(x, q)
    ensures (n - 1) as real < q <= n as real
  {
    hide IsBinary64, Represents;
    SmallIntegersRepresentable(n);
    SmallIntegersRepresentable(n - 1);
    QuotientBelowCeiling(w, k, n, x);
    GapAtLeastOneKth(w, k, n - 1, x);
    var f := NotRoundedDown(w, k, n - 1, x);
  }

  lemma CeilDivInRange(w: nat, k: nat)
    requires k >= 1 && w > 0
    ensures 1 <= CeilDiv(w, k) <= w
  {
    MulMonotone(1, k, w);
    CeilDivUnique(w, 1, w);
    if CeilDiv(w, k) > w {
      MulMonotone(w, CeilDiv(w, k) - 1, k);
    }
  }

  lemma ZeroIsExact(q: real)
    requires CorrectlyRounded(0.0, q)
    ensures q == 0.0
  {
    hide IsBinary64, Represents;
    SmallIntegersRepresentable(0);
    assert Distance(0.0, q) <= Distance(0.0, 0.0);
  }

  /** `int(math.Ceil(float64(w) / float64(k)))` is integer ceiling division: both operands are
      exact, and however the division rounds, no integer boundary is crossed. */
  lemma FloatCeilIsExact(w: nat, k: nat, q: real)
    requires w < TWO_53 && 1 <= k <= TWO_53
    requires CorrectlyRounded(w as real / k as real, q)
    ensures CeilReal(q) == CeilDiv(w, k)
  {
    hide IsBinary64, Represents, CorrectlyRounded;
    var x, n := w as real / k as real, CeilDiv(w, k);
    if w == 0 {
      ZeroIsExact(q);
    } else {
      CeilDivInRange(w, k);
      assert (n - 1) * k == n * k - k;
      RoundingStaysBetween(w, k, n, x, q);
    }
  }
}
