/**
 The quality score: an integer product and a division rounded to 40 significant digits,
 then half-up quantization to hundredths. All three roundings are modelled on integers, and
 the result is shown to be the exactly rounded percentage.
 */
module Score {
  import opened Wrappers
  import opened Rules

  const PRECISION: nat := 40

  function Pow10(k: nat): (r: nat)
    ensures r >= 1
  {
    if k == 0 then 1 else 10 * Pow10(k - 1)
  }

  /** `n / d` to the nearest integer, ties to the even one: the context's default rounding. */
  function RoundHalfEven(n: nat, d: nat): nat
    requires d > 0
  {
    var q, rem := n / d, n % d;
    if 2 * rem > d || (2 * rem == d && q % 2 == 1) then q + 1 else q
  }

  lemma {:induction false} Pow10Dominates(k: nat)
    ensures Pow10(k) > k
  {
    if k > 0 { Pow10Dominates(k - 1); }
  }

  /** How many digits of `n` the precision `p` drops, starting the search at `k`. */
  function Excess(p: nat, n: nat, k: nat): nat
    decreases n - k
  {
    if n < Pow10(p + k) then 0
    else
      Pow10Dominates(p + k);
      1 + Excess(p, n, k + 1)
  }

  /** `n` rounded to the precision: exact unless it has more than `p` digits. */
  function RoundToPrecision(p: nat, n: nat): nat {
    var unit := Pow10(Excess(p, n, 0));
    RoundHalfEven(n, unit) * unit
  }

  lemma ShiftGrows(n: nat, k: nat)
    requires n > 0
    ensures n * Pow10(k) < n * Pow10(k + 1)
  {
    assert n * Pow10(k + 1) == 10 * (n * Pow10(k)) by {
      assert Pow10(k + 1) == 10 * Pow10(k);
    }
    assert n * Pow10(k) > 0;
  }

  /** The decimal shift that gives the quotient `n / d` at least `p` digits before the point. */
  function Shift(p: nat, n: nat, d: nat, k: nat): (r: nat)
    requires n > 0 && p > 0
    ensures r >= k
    ensures n * Pow10(r) >= Pow10(p - 1) * d
    decreases Pow10(p - 1) * d - n * Pow10(k)
  {
    if n * Pow10(k) >= Pow10(p - 1) * d then k
    else
      ShiftGrows(n, k);
      Shift(p, n, d, k + 1)
  }

  /** A decimal `coefficient / 10^scale`. */
  datatype Decimal = Decimal(coefficient: nat, scale: nat)

  /** The quotient to `p` significant digits, for quotients below 10^(p-1). */
  function Divide(p: nat, n: nat, d: nat): Decimal
    requires d > 0 && p > 0
  {
    if n == 0 then Decimal(0, 0)
    else
      var k := Shift(p, n, d, 0);
      Decimal(RoundHalfEven(n * Pow10(k), d), k)
  }

  /** `n / d` to the nearest integer, ties upward. */
  function HalfUp(n: nat, d: nat): nat
    requires d > 0
  {
    (2 * n + d) / (2 * d)
  }

  /** The decimal in hundredths. */
  function Quantize(x: Decimal): nat {
    HalfUp(100 * x.coefficient, Pow10(x.scale))
  }

  /** `100 * passed / evaluated` in hundredths, rounded once. */
  function ExactHundredths(passed: nat, evaluated: nat): nat
    requires evaluated > 0
  {
    HalfUp(10_000 * passed, evaluated)
  }

  /** The two roundings at precision `p`, in hundredths. */
  function RoundedTwice(p: nat, passed: nat, evaluated: nat): nat
    requires p > 0 && evaluated > 0
  {
    Quantize(Divide(p, RoundToPrecision(p, 100 * passed), evaluated))
  }

  /** The score of the code, in hundredths, from the two totals. */
  function ScoreOf(passed: nat, evaluated: nat): Option<nat> {
    if evaluated == 0 then None else Some(RoundedTwice(PRECISION, passed, evaluated))
  }

  // ---------------------------------------------------------------- arithmetic

  lemma {:induction false} Pow10Adds(a: nat, b: nat)
    ensures Pow10(a + b) == Pow10(a) * Pow10(b)
  {
    if a > 0 {
      Pow10Adds(a - 1, b);
      assert Pow10(a) * Pow10(b) == 10 * (Pow10(a - 1) * Pow10(b));
    }
  }

  lemma NearestInteger(n: nat, d: nat)
    requires d > 0
    ensures 2 * (RoundHalfEven(n, d) * d) <= 2 * n + d
    ensures 2 * (RoundHalfEven(n, d) * d) >= 2 * n - d
    ensures n % d == 0 ==> RoundHalfEven(n, d) * d == n
  {
    var q, rem := n / d, n % d;
    assert q * d == n - rem;
    assert (q + 1) * d == q * d + d;
  }

  lemma ProductNonNegative(a: int, b: int)
    requires a >= 0 && b >= 0
    ensures a * b >= 0
  {
  }

  lemma Distribute(d: int, x: int, y: int)
    ensures d * (x + y) == d * x + d * y
  {
  }

  lemma ProductStep(d: int, x: int, y: int)
    requires d >= 0 && x < y
    ensures d * x + d <= d * y
  {
    ProductNonNegative(d, y - x - 1);
    Distribute(d, x + 1, y - x - 1);
    Distribute(d, x, 1);
  }

  lemma DistributeRight(x: int, y: int, d: int)
    ensures (x + y) * d == x * d + y * d
  {
  }

  lemma DivisionBounds(a: nat, b: nat)
    requires b > 0
    ensures b * (a / b) <= a < b * (a / b) + b
  {
  }

  /** The context's rounding is the nearest integer, and the even one of two nearest. */
  lemma RoundingIs(n: nat, d: nat)
    requires d > 0
    ensures var r := RoundHalfEven(n, d);
      && 2 * n - d <= 2 * (r * d) <= 2 * n + d
      && (2 * (r * d) == 2 * n + d || 2 * (r * d) == 2 * n - d ==> r % 2 == 0)
  {
    var q, rem, r := n / d, n % d, RoundHalfEven(n, d);
    DivisionBounds(n, d);
    assert n == q * d + rem;
    DistributeRight(q, 1, d);
    assert r * d == q * d || r * d == q * d + d;
  }

  /** Half-up rounding is the one integer whose half-unit interval holds the quotient. */
  lemma HalfUpIs(n: nat, d: nat, m: int)
    requires d > 0
    ensures HalfUp(n, d) == m <==> 2 * (d * m) - d <= 2 * n < 2 * (d * m) + d
  {
    var q := HalfUp(n, d);
    DivisionBounds(2 * n + d, 2 * d);
    assert (2 * d) * q == 2 * (d * q);
    if q < m {
      ProductStep(d, q, m);
    } else if q > m {
      ProductStep(d, m, q);
    }
  }

  /** A product of at most `p` digits is not rounded. */
  lemma ShortProductExact(p: nat, n: nat)
    requires n < Pow10(p)
    ensures RoundToPrecision(p, n) == n
  {
    assert Excess(p, n, 0) == 0;
    assert Pow10(0) == 1;
  }

  // ---------------------------------------------------------------- double rounding

  /** The shifted quotient leaves more room than the rounding error it causes. */
  lemma ShiftIsWide(n: nat, d: nat, t: nat, big: nat)
    requires 0 < n < big && d > 0
    requires n * t >= (100 * big) * d
    ensures t > 100 * d
  {
    assert (100 * big) * d == big * (100 * d);
    if t <= 100 * d {
      ProductStep(t, n, big);
      ProductNonNegative(big, 100 * d - t);
      Distribute(big, t, 100 * d - t);
      assert false;
    }
  }

  /** Half-way bounds survive the first rounding, on either side of the interval. */
  lemma ScaleUpper(n: nat, d: nat, t: nat, c: nat, x: int)
    requires d > 0 && t > 100 * d
    requires 2 * (c * d) <= 2 * (n * t) + d
    requires 200 * n < d * x
    ensures 200 * c < t * x
  {
    ProductStep(t, 200 * n, d * x);
    assert t * (200 * n) == 200 * (n * t);
    assert t * (d * x) == d * (t * x);
    assert d * (200 * c) == 200 * (c * d);
    if 200 * c >= t * x {
      ProductNonNegative(d, 200 * c - t * x);
      Distribute(d, t * x, 200 * c - t * x);
      assert false;
    }
  }

  lemma ScaleLower(n: nat, d: nat, t: nat, c: nat, x: int)
    requires d > 0 && t > 100 * d
    requires 2 * (c * d) >= 2 * (n * t) - d
    requires d * x < 200 * n
    ensures t * x <= 200 * c
  {
    ProductStep(t, d * x, 200 * n);
    assert t * (200 * n) == 200 * (n * t);
    assert t * (d * x) == d * (t * x);
    assert d * (200 * c) == 200 * (c * d);
    if 200 * c < t * x {
      ProductNonNegative(d, t * x - 200 * c);
      Distribute(d, 200 * c, t * x - 200 * c);
      assert false;
    }
  }

  lemma Multiple(d: nat, k: int)
    requires d > 0 && d * k >= 0
    ensures (d * k) % d == 0
  {
    var q, r := (d * k) / d, (d * k) % d;
    assert d * k == d * q + r;
    if q < k { ProductStep(d, q, k); } else if q > k { ProductStep(d, k, q); }
  }

  /** A quotient that is itself a tie is divided exactly. */
  lemma TieIsExact(n: nat, d: nat, u: nat, c: nat, x: int)
    requires d > 0
    requires d * x == 200 * n
    requires (n * (200 * u)) % d == 0 ==> c * d == n * (200 * u)
    ensures (200 * u) * x == 200 * c
  {
    assert n * (200 * u) == (200 * n) * u == (d * x) * u == d * (x * u);
    Multiple(d, x * u);
    assert c * d == d * (x * u);
    if c < x * u { ProductStep(d, c, x * u); } else if c > x * u { ProductStep(d, x * u, c); }
  }

  /** The interval of `HalfUp`, with both ends written as products. */
  lemma HalfUpInterval(n: nat, d: nat, m: int)
    requires d > 0
    ensures HalfUp(100 * n, d) == m <==> d * (2 * m - 1) <= 200 * n < d * (2 * m + 1)
  {
    HalfUpIs(100 * n, d, m);
    Distribute(d, 2 * m, -1);
    Distribute(d, 2 * m, 1);
    assert d * (2 * m) == 2 * (d * m);
  }

  /**
   Rounding `n / d` to `c / t` first and to hundredths afterwards rounds once, because the
   first error is below the distance from `n / d` to the nearest tie it is not equal to.
   */
  lemma RoundingTwice(n: nat, d: nat, u: nat, c: nat)
    requires d > 0 && 200 * u > 100 * d
    requires 2 * (c * d) <= 2 * (n * (200 * u)) + d
    requires 2 * (c * d) >= 2 * (n * (200 * u)) - d
    requires (n * (200 * u)) % d == 0 ==> c * d == n * (200 * u)
    ensures HalfUp(100 * c, 200 * u) == HalfUp(100 * n, d)
  {
    var m: int := HalfUp(100 * n, d);
    HalfUpInterval(n, d, m);
    HalfUpInterval(c, 200 * u, m);
    ScaleUpper(n, d, 200 * u, c, 2 * m + 1);
    if d * (2 * m - 1) == 200 * n {
      TieIsExact(n, d, u, c, 2 * m - 1);
    } else {
      ScaleLower(n, d, 200 * u, c, 2 * m - 1);
    }
  }

  lemma LargePowerDividesBy200(k: nat)
    requires Pow10(k) > 100
    ensures k >= 3 && Pow10(k) == 200 * (5 * Pow10(k - 3))
  {
    if k < 3 {
      assert Pow10(0) == 1 && Pow10(1) == 10 && Pow10(2) == 100;
      assert false;
    }
    Pow10Adds(3, k - 3);
    assert Pow10(3) == 1000;
  }

  lemma HalfUpOfMultiple(d: nat, m: nat)
    requires d > 0
    ensures HalfUp(d * m, d) == m
  {
    HalfUpIs(d * m, d, m);
  }

  /** Powers near the precision, as multiples of the greatest total. */
  lemma PowersNear(p: nat)
    requires p >= 5
    ensures Pow10(p) == 100_000 * Pow10(p - 5) && Pow10(p - 1) == 10_000 * Pow10(p - 5)
  {
    assert Pow10(p) == 10 * Pow10(p - 1);
    assert Pow10(p - 1) == 10 * Pow10(p - 2);
    assert Pow10(p - 2) == 10 * Pow10(p - 3);
    assert Pow10(p - 3) == 10 * Pow10(p - 4);
    assert Pow10(p - 4) == 10 * Pow10(p - 5);
  }

  /** What the division leaves for the quantization. */
  lemma DivideIsNearest(p: nat, n: nat, d: nat)
    requires p > 0 && n > 0 && d > 0
    ensures var x := Divide(p, n, d); var t := Pow10(x.scale);
      && n * t >= Pow10(p - 1) * d
      && 2 * (x.coefficient * d) <= 2 * (n * t) + d
      && 2 * (x.coefficient * d) >= 2 * (n * t) - d
      && ((n * t) % d == 0 ==> x.coefficient * d == n * t)
  {
    NearestInteger(n * Pow10(Shift(p, n, d, 0)), d);
  }

  lemma FullPassDivides(d: nat, t: nat, c: nat)
    requires d > 0
    requires (100 * d * t) % d == 0 ==> c * d == 100 * d * t
    ensures c == 100 * t
  {
    assert 100 * d * t == d * (100 * t);
    Multiple(d, 100 * t);
    if c < 100 * t { ProductStep(d, c, 100 * t); } else if c > 100 * t { ProductStep(d, 100 * t, c); }
  }

  lemma FullPassIsHundred(p: nat, evaluated: nat)
    requires p >= 5 && 0 < evaluated <= Pow10(p - 5)
    ensures RoundedTwice(p, evaluated, evaluated) == 10_000 == ExactHundredths(evaluated, evaluated)
  {
    var n, d := 100 * evaluated, evaluated;
    PowersNear(p);
    ShortProductExact(p, n);
    DivideIsNearest(p, n, d);
    var x := Divide(p, n, d);
    FullPassDivides(d, Pow10(x.scale), x.coefficient);
    HalfUpOfMultiple(Pow10(x.scale), 10_000);
    HalfUpOfMultiple(d, 10_000);
  }

  lemma QuotientRoundsOnce(p: nat, n: nat, d: nat, big: nat)
    requires p > 0 && 0 < n < big && d > 0 && Pow10(p - 1) == 100 * big
    ensures Quantize(Divide(p, n, d)) == HalfUp(100 * n, d)
  {
    DivideIsNearest(p, n, d);
    var x := Divide(p, n, d);
    ShiftIsWide(n, d, Pow10(x.scale), big);
    LargePowerDividesBy200(x.scale);
    RoundingTwice(n, d, 5 * Pow10(x.scale - 3), x.coefficient);
  }

  lemma PartialPassRoundsOnce(p: nat, passed: nat, evaluated: nat)
    requires p >= 5 && 0 < passed < Pow10(p - 5) && evaluated > 0
    ensures RoundedTwice(p, passed, evaluated) == ExactHundredths(passed, evaluated)
  {
    var n := 100 * passed;
    PowersNear(p);
    ShortProductExact(p, n);
    QuotientRoundsOnce(p, n, evaluated, 100 * Pow10(p - 5));
    assert 100 * n == 10_000 * passed;
  }

  lemma NoPassIsZero(p: nat, evaluated: nat)
    requires p > 0 && evaluated > 0
    ensures RoundedTwice(p, 0, evaluated) == 0 == ExactHundredths(0, evaluated)
  {
    ShortProductExact(p, 0);
    assert Divide(p, 0, evaluated) == Decimal(0, 0);
    assert Pow10(0) == 1;
    HalfUpIs(0, 1, 0);
    HalfUpIs(0, evaluated, 0);
  }

  /**
   Double rounding is harmless at every precision `p`: for totals up to 10^(p-5) the two
   roundings are one half-up rounding of the exact percentage.
   */
  lemma RoundsOnceWithin(p: nat, passed: nat, evaluated: nat)
    requires p >= 5 && 0 < evaluated && passed <= evaluated
    requires evaluated <= Pow10(p - 5) || passed < Pow10(p - 5)
    ensures RoundedTwice(p, passed, evaluated) == ExactHundredths(passed, evaluated)
  {
    if passed == 0 {
      NoPassIsZero(p, evaluated);
    } else if passed < Pow10(p - 5) {
      PartialPassRoundsOnce(p, passed, evaluated);
    } else {
      FullPassIsHundred(p, evaluated);
    }
  }

  /** For every total below the bound (10^35 cells) the score is the percentage rounded half-up once. */
  lemma ScoreIsExact(passed: nat, evaluated: nat)
    requires 0 < evaluated && passed <= evaluated
    requires evaluated <= Pow10(35) || passed < Pow10(35)
    ensures ScoreOf(passed, evaluated) == Some(ExactHundredths(passed, evaluated))
  {
    RoundsOnceWithin(PRECISION, passed, evaluated);
  }

  lemma {:induction false} SmallShiftFails(n: nat, j: nat, k: nat, bound: nat)
    requires n > 0 && j <= k && n * Pow10(k) < bound
    ensures n * Pow10(j) < bound
    decreases k - j
  {
    if j < k {
      ShiftGrows(n, k - 1);
      SmallShiftFails(n, j, k - 1, bound);
    }
  }

  lemma {:induction false} ShiftIs(p: nat, n: nat, d: nat, j: nat, k: nat)
    requires p > 0 && n > 0 && j <= k
    requires n * Pow10(k) >= Pow10(p - 1) * d
    requires k > 0 ==> n * Pow10(k - 1) < Pow10(p - 1) * d
    ensures Shift(p, n, d, j) == k
    decreases k - j
  {
    if j < k {
      ShiftIs(p, n, d, j + 1, k);
      SmallShiftFails(n, j, k - 1, Pow10(p - 1) * d);
    }
  }

  lemma QuotientIs(n: nat, d: nat, q: nat, rem: nat)
    requires d > 0 && n == q * d + rem && rem < d
    ensures n / d == q && n % d == rem
  {
    DivisionBounds(n, d);
    if n / d < q { ProductStep(d, n / d, q); } else if n / d > q { ProductStep(d, q, n / d); }
  }

  /** With `b` ten to the precision less four, the shifted product is nearest to `5000 * b`. */
  lemma NearestToTie(b: nat)
    requires b > 0
    ensures RoundHalfEven((100 * b) * (1_000_000 * b), 20_000 * b + 1) == 5_000 * b
  {
    var n, d := (100 * b) * (1_000_000 * b), 20_000 * b + 1;
    assert n == (5_000 * b) * d - 5_000 * b;
    assert n == (5_000 * b - 1) * d + (15_000 * b + 1);
    QuotientIs(n, d, 5_000 * b - 1, 15_000 * b + 1);
  }

  lemma PowersBeyond(p: nat, b: nat)
    requires p >= 5 && b == Pow10(p - 4)
    ensures Pow10(p - 1) == 1_000 * b && Pow10(p) == 10_000 * b
    ensures Pow10(p + 1) == 100_000 * b && Pow10(p + 2) == 1_000_000 * b
  {
    PowersNear(p);
    assert Pow10(p - 4) == 10 * Pow10(p - 5);
    assert Pow10(p + 1) == 10 * Pow10(p);
    assert Pow10(p + 2) == 10 * Pow10(p + 1);
  }

  lemma ProductsAtTie(b: nat)
    requires b > 0
    ensures (100 * b) * (1_000_000 * b) >= (1_000 * b) * (20_000 * b + 1)
    ensures (100 * b) * (100_000 * b) < (1_000 * b) * (20_000 * b + 1)
  {
    assert (1_000 * b) * (20_000 * b + 1) == 20_000_000 * (b * b) + 1_000 * b;
    assert (100 * b) * (1_000_000 * b) == 100_000_000 * (b * b);
    assert (100 * b) * (100_000 * b) == 10_000_000 * (b * b);
    assert b * b >= b;
  }

  lemma ShiftAtTie(p: nat, b: nat)
    requires p >= 5 && b == Pow10(p - 4)
    ensures Shift(p, 100 * b, 20_000 * b + 1, 0) == p + 2
  {
    PowersBeyond(p, b);
    ProductsAtTie(b);
    ShiftIs(p, 100 * b, 20_000 * b + 1, 0, p + 2);
  }

  /** Beyond 10^(p-4) the two roundings can disagree: here 0.01 against 0.00. */
  lemma RoundsTwiceBeyond(p: nat, b: nat)
    requires p >= 5 && b == Pow10(p - 4)
    ensures RoundedTwice(p, b, 20_000 * b + 1) == 1
    ensures ExactHundredths(b, 20_000 * b + 1) == 0
  {
    PowersBeyond(p, b);
    ShortProductExact(p, 100 * b);
    ShiftAtTie(p, b);
    NearestToTie(b);
    HalfUpIs(500_000 * b, 1_000_000 * b, 1);
    HalfUpIs(10_000 * b, 20_000 * b + 1, 0);
  }

  /** A bound is needed: totals at which the score is 0.01 and the rounded percentage 0.00. */
  lemma ScoreBoundIsNeeded() returns (passed: nat, evaluated: nat)
    ensures passed == Pow10(36) && evaluated == 20_000 * passed + 1
    ensures ScoreOf(passed, evaluated) == Some(1) && ExactHundredths(passed, evaluated) == 0
  {
    passed := Pow10(36);
    evaluated := 20_000 * passed + 1;
    RoundsTwiceBeyond(PRECISION, passed);
  }

  // ---------------------------------------------------------------- the score of a result list

  function TotalPassed(results: seq<RuleResult>): nat {
    if results == [] then 0 else TotalPassed(results[..|results| - 1]) + results[|results| - 1].passed
  }

  function TotalEvaluated(results: seq<RuleResult>): nat {
    if results == [] then 0 else TotalEvaluated(results[..|results| - 1]) + results[|results| - 1].evaluated
  }

  function CalculateQualityScore(results: seq<RuleResult>): Option<nat> {
    ScoreOf(TotalPassed(results), TotalEvaluated(results))
  }

  predicate Balanced(results: seq<RuleResult>) {
    forall i :: 0 <= i < |results| ==> results[i].passed + results[i].violations == results[i].evaluated
  }

  function TotalViolations(results: seq<RuleResult>): nat {
    if results == [] then 0 else TotalViolations(results[..|results| - 1]) + results[|results| - 1].violations
  }

  /** Few enough cells for the decimal context; see `ScoreBoundIsNeeded`. */
  predicate WithinPrecision(results: seq<RuleResult>) {
    TotalEvaluated(results) <= Pow10(35)
  }

  lemma {:induction false} TotalsBalance(results: seq<RuleResult>)
    requires Balanced(results)
    ensures TotalPassed(results) + TotalViolations(results) == TotalEvaluated(results)
  {
    if results != [] {
      TotalsBalance(results[..|results| - 1]);
    }
  }

  lemma {:induction false} NothingEvaluated(results: seq<RuleResult>)
    ensures TotalEvaluated(results) == 0 <==> forall i :: 0 <= i < |results| ==> results[i].evaluated == 0
  {
    if results != [] {
      var n := |results| - 1;
      NothingEvaluated(results[..n]);
      assert forall i :: 0 <= i < n ==> results[..n][i] == results[i];
    }
  }

  /** Null exactly without applicable cells, otherwise the once-rounded percentage of the totals. */
  lemma ScoreIsRoundedPercentage(results: seq<RuleResult>)
    requires Balanced(results) && WithinPrecision(results)
    ensures CalculateQualityScore(results).None? <==> forall i :: 0 <= i < |results| ==> results[i].evaluated == 0
    ensures CalculateQualityScore(results).Some? ==>
      var h, e := CalculateQualityScore(results).value, TotalEvaluated(results);
      h <= 10_000 && 2 * (e * h) - e <= 20_000 * TotalPassed(results) < 2 * (e * h) + e
  {
    TotalsBalance(results);
    NothingEvaluated(results);
    if TotalEvaluated(results) > 0 {
      var p, e := TotalPassed(results), TotalEvaluated(results);
      ScoreIsExact(p, e);
      HalfUpIs(10_000 * p, e, ExactHundredths(p, e));
      if ExactHundredths(p, e) > 10_000 {
        ProductStep(e, 10_000, ExactHundredths(p, e));
      }
    }
  }

  /** The score is 100.00 exactly when at most one cell in 20000 violates. */
  lemma PerfectScore(results: seq<RuleResult>)
    requires Balanced(results) && WithinPrecision(results) && TotalEvaluated(results) > 0
    ensures CalculateQualityScore(results) == Some(10_000)
       <==> 20_000 * TotalViolations(results) <= TotalEvaluated(results)
  {
    var p, e := TotalPassed(results), TotalEvaluated(results);
    TotalsBalance(results);
    ScoreIsExact(p, e);
    HalfUpIs(10_000 * p, e, 10_000);
  }

  /** The half-up rounding reaches `bound` exactly from half a unit below it. */
  lemma AtLeast(p: nat, e: nat, bound: nat)
    requires e > 0
    ensures ExactHundredths(p, e) >= bound <==> 20_000 * p >= e * (2 * bound - 1)
  {
    var h := ExactHundredths(p, e);
    HalfUpIs(10_000 * p, e, h);
    Distribute(e, 2 * bound, -1);
    assert e * (2 * bound) == 2 * (e * bound);
    if h < bound {
      ProductStep(e, h, bound);
    } else if h > bound {
      ProductStep(e, bound, h);
    }
  }

  lemma {:induction false} TotalsAtLeast(results: seq<RuleResult>, bound: nat)
    requires forall i :: 0 <= i < |results| && results[i].evaluated > 0 ==>
      ExactHundredths(results[i].passed, results[i].evaluated) >= bound
    ensures 20_000 * TotalPassed(results) >= TotalEvaluated(results) * (2 * bound - 1)
  {
    if results != [] {
      var n := |results| - 1;
      assert forall i :: 0 <= i < n ==> results[..n][i] == results[i];
      assert TotalEvaluated(results) == TotalEvaluated(results[..n]) + results[n].evaluated;
      TotalsAtLeast(results[..n], bound);
      if results[n].evaluated > 0 {
        AtLeast(results[n].passed, results[n].evaluated, bound);
      }
      DistributeRight(TotalEvaluated(results[..n]), results[n].evaluated, 2 * bound - 1);
    }
  }

  lemma {:induction false} TotalsBelow(results: seq<RuleResult>, bound: nat)
    requires Balanced(results)
    requires forall i :: 0 <= i < |results| && results[i].evaluated > 0 ==>
      ExactHundredths(results[i].passed, results[i].evaluated) < bound
    ensures 20_000 * TotalPassed(results) <= TotalEvaluated(results) * (2 * bound - 1)
    ensures TotalEvaluated(results) > 0 ==>
      20_000 * TotalPassed(results) < TotalEvaluated(results) * (2 * bound - 1)
  {
    if results != [] {
      var n := |results| - 1;
      assert forall i :: 0 <= i < n ==> results[..n][i] == results[i];
      TotalsBelow(results[..n], bound);
      if results[n].evaluated > 0 {
        AtLeast(results[n].passed, results[n].evaluated, bound);
      }
      DistributeRight(TotalEvaluated(results[..n]), results[n].evaluated, 2 * bound - 1);
    }
  }

  /** The overall score lies between any bounds that hold of every rule's own score. */
  lemma ScoreBetweenRuleScores(results: seq<RuleResult>, least: nat, greatest: nat)
    requires Balanced(results) && WithinPrecision(results) && TotalEvaluated(results) > 0
    requires forall i :: 0 <= i < |results| && results[i].evaluated > 0 ==>
      least <= ExactHundredths(results[i].passed, results[i].evaluated) <= greatest
    ensures least <= CalculateQualityScore(results).value <= greatest
  {
    var p, e := TotalPassed(results), TotalEvaluated(results);
    TotalsBalance(results);
    ScoreIsExact(p, e);
    TotalsAtLeast(results, least);
    AtLeast(p, e, least);
    TotalsBelow(results, greatest + 1);
    AtLeast(p, e, greatest + 1);
  }

  lemma {:induction false} TotalsWithout(results: seq<RuleResult>, j: nat)
    requires j < |results|
    ensures TotalPassed(results) == TotalPassed(results[..j] + results[j + 1..]) + results[j].passed
    ensures TotalEvaluated(results) == TotalEvaluated(results[..j] + results[j + 1..]) + results[j].evaluated
  {
    var n := |results| - 1;
    var rest := results[..j] + results[j + 1..];
    if j < n {
      TotalsWithout(results[..n], j);
      assert rest[..|rest| - 1] == results[..n][..j] + results[..n][j + 1..];
    } else {
      assert rest == results[..n];
    }
  }

  lemma {:induction false} TotalsIgnoreOrder(xs: seq<RuleResult>, ys: seq<RuleResult>)
    requires multiset(xs) == multiset(ys)
    ensures TotalPassed(xs) == TotalPassed(ys) && TotalEvaluated(xs) == TotalEvaluated(ys)
    decreases |xs|
  {
    assert |xs| == |multiset(xs)| == |multiset(ys)| == |ys|;
    if xs != [] {
      var j := LastOccurs(xs, ys);
      TotalsIgnoreOrder(xs[..|xs| - 1], ys[..j] + ys[j + 1..]);
      TotalsWithout(ys, j);
    }
  }

  /** Rule order does not matter to the score. */
  lemma ScoreIgnoresRuleOrder(xs: seq<RuleResult>, ys: seq<RuleResult>)
    requires multiset(xs) == multiset(ys)
    ensures TotalPassed(xs) == TotalPassed(ys) && TotalEvaluated(xs) == TotalEvaluated(ys)
    ensures CalculateQualityScore(xs) == CalculateQualityScore(ys)
  {
    TotalsIgnoreOrder(xs, ys);
  }
}
