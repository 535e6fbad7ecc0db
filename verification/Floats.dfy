/**
 IEEE double rounding of real numbers: what is used of any rounding, and round
 to nearest, ties to even, itself. Only numbers between 10^-20 and 10^20, where
 doubles are neither subnormal nor too large.
 */
module Floats {

  /** Half the gap above 1: the relative error of a rounding. */
  const U: real := 1.0 / 9007199254740992.0
  const SMALL: real := 0.00000000000000000001
  const LARGE: real := 100000000000000000000.0

  type Rounding = real -> real

  /** Zero is exact, a rounding is within U of its number, and one of at least 1 is at least 1. */
  ghost predicate IsRounding(fl: Rounding) {
    && fl(0.0) == 0.0
    && (forall x | SMALL <= x <= LARGE :: x * (1.0 - U) <= fl(x) <= x * (1.0 + U))
    && forall x | 1.0 <= x <= LARGE :: fl(x) >= 1.0
  }

  // ---- round to nearest ----

  function Pow(k: nat): real { if k == 0 then 1.0 else 2.0 * Pow(k - 1) }

  /** The power of two p with p <= x < 2p, if it is within k doublings of 1. */
  function Binade(x: real, k: nat): (p: real)
    ensures p > 0.0
    decreases k
  {
    if k == 0 || 1.0 <= x < 2.0 then 1.0
    else if x < 1.0 then Binade(2.0 * x, k - 1) / 2.0
    else 2.0 * Binade(x / 2.0, k - 1)
  }

  /** The whole number nearest to x, the even one of two. */
  function Nearest(x: real): int {
    var n := x.Floor;
    var d := x - n as real;
    if d < 0.5 || (d == 0.5 && n % 2 == 0) then n else n + 1
  }

  const DOUBLINGS: nat := 68
  const MANTISSA: real := 4503599627370496.0

  /** The double nearest to x, for 0 and the numbers this module speaks of. */
  function Double(x: real): real {
    if x <= 0.0 then 0.0
    else RoundTo(x, Binade(x, DOUBLINGS) / MANTISSA)
  }

  /** The multiple of ulp nearest to x. */
  function RoundTo(x: real, ulp: real): real
    requires ulp > 0.0
  {
    Nearest(x / ulp) as real * ulp
  }

  lemma {:induction false} PowPositive(k: nat)
    ensures Pow(k) >= 1.0
  {
    if k > 0 {
      PowPositive(k - 1);
    }
  }

  lemma {:induction false} BinadeFacts(x: real, k: nat)
    requires 1.0 <= x * Pow(k) && x < 2.0 * Pow(k)
    ensures Binade(x, k) > 0.0 && Binade(x, k) <= x < 2.0 * Binade(x, k)
    ensures x >= 1.0 ==> Binade(x, k) >= 1.0
    decreases k
  {
    if k == 0 || 1.0 <= x < 2.0 {
    } else if x < 1.0 {
      assert 2.0 * x * Pow(k - 1) == x * Pow(k);
      PowPositive(k - 1);
      BinadeFacts(2.0 * x, k - 1);
    } else {
      PowPositive(k - 1);
      assert x / 2.0 >= 1.0 && Pow(k - 1) >= 1.0;
      Scaled(x / 2.0, Pow(k - 1));
      BinadeFacts(x / 2.0, k - 1);
    }
  }

  lemma Scaled(a: real, b: real)
    requires a >= 1.0 && b >= 1.0
    ensures a * b >= 1.0
  {}

  lemma NearestFacts(x: real, n: int)
    ensures -0.5 <= Nearest(x) as real - x <= 0.5
    ensures n as real <= x ==> n <= Nearest(x)
  {}

  lemma {:induction false} PowAdds(a: nat, b: nat)
    ensures Pow(a + b) == Pow(a) * Pow(b)
  {
    if a > 0 {
      PowAdds(a - 1, b);
    }
  }

  lemma Pow68()
    ensures Pow(68) == 295147905179352825856.0
  {
    assert Pow(4) == 16.0;
    assert Pow(1) == 2.0;
    PowAdds(4, 4);
    PowAdds(8, 8);
    PowAdds(16, 1);
    PowAdds(17, 17);
    PowAdds(34, 34);
  }

  lemma RoundToNear(x: real, ulp: real)
    requires ulp > 0.0
    ensures x - ulp / 2.0 <= RoundTo(x, ulp) <= x + ulp / 2.0
  {
    var y := x / ulp;
    NearestFacts(y, 0);
    Around(x, y, Nearest(y) as real, ulp, RoundTo(x, ulp));
  }

  lemma Around(x: real, y: real, n: real, k: real, r: real)
    requires x == y * k && r == n * k && -0.5 <= n - y <= 0.5 && k > 0.0
    ensures x - k / 2.0 <= r <= x + k / 2.0
  {
    var d := n - y;
    Halves(d, k);
    assert d * k == r - x;
  }

  lemma RoundToAtLeast(x: real, ulp: real)
    requires ulp > 0.0 && x >= MANTISSA * ulp
    ensures RoundTo(x, ulp) >= MANTISSA * ulp
  {
    var y := x / ulp;
    NearestFacts(y, 4503599627370496);
    Quotient(x, MANTISSA, ulp);
    Products(MANTISSA, Nearest(y) as real, ulp, MANTISSA * ulp, RoundTo(x, ulp));
  }

  lemma Halves(d: real, k: real)
    requires -0.5 <= d <= 0.5 && k > 0.0
    ensures -k / 2.0 <= d * k <= k / 2.0
  {
    Times(d, 0.5, k);
    Times(-0.5, d, k);
  }

  lemma Products(a: real, b: real, k: real, ak: real, bk: real)
    requires a <= b && k > 0.0 && ak == a * k && bk == b * k
    ensures ak <= bk
  {
    Times(a, b, k);
  }

  lemma DoubleNear(x: real, p: real)
    requires p > 0.0 && p <= x && p == Binade(x, DOUBLINGS)
    ensures x - x * U <= Double(x) <= x + x * U && Double(x) >= p
  {
    RoundToNear(x, p / MANTISSA);
    RoundToAtLeast(x, p / MANTISSA);
  }

  lemma Quotient(x: real, m: real, k: real)
    requires k > 0.0 && x >= m * k
    ensures x / k * k == x && x / k >= m
  {
    var y := x / k;
    assert y * k == x;
    if y < m {
      TimesLess(y, m, k);
    }
  }

  lemma TimesLess(a: real, b: real, k: real)
    requires a < b && k > 0.0
    ensures a * k < b * k
  {}

  lemma Times(a: real, b: real, k: real)
    requires a <= b && k > 0.0
    ensures a * k <= b * k
  {}

  /** Rounding to the nearest double is a rounding. */
  lemma DoubleIsRounding()
    ensures IsRounding(Double)
  {
    Pow68();
    forall x | SMALL <= x <= LARGE
      ensures x * (1.0 - U) <= Double(x) <= x * (1.0 + U) && (x >= 1.0 ==> Double(x) >= 1.0) {
      BinadeFacts(x, DOUBLINGS);
      DoubleNear(x, Binade(x, DOUBLINGS));
    }
  }

  // ---- particular numbers ----

  lemma {:induction false} BinadeUp(x: real, k: nat, j: nat)
    requires j <= k && Pow(j) <= x < 2.0 * Pow(j)
    ensures Binade(x, k) == Pow(j)
    decreases j
  {
    if j > 0 {
      PowPositive(j - 1);
      BinadeUp(x / 2.0, k - 1, j - 1);
    }
  }

  function Part(k: nat): real { if k == 0 then 1.0 else Part(k - 1) / 2.0 }

  lemma {:induction false} PartSmall(k: nat)
    ensures 0.0 < Part(k) <= 1.0
  {
    if k > 0 {
      PartSmall(k - 1);
    }
  }

  lemma {:induction false} BinadeDown(x: real, k: nat, j: nat)
    requires j <= k && Part(j) <= x < 2.0 * Part(j)
    ensures Binade(x, k) == Part(j)
    decreases j
  {
    if j > 0 {
      PartSmall(j - 1);
      BinadeDown(2.0 * x, k - 1, j - 1);
    }
  }

  lemma NearestIs(y: real, n: int)
    requires n as real - 0.5 < y < n as real + 0.5
    ensures Nearest(y) == n
  {}

  lemma RoundToIs(x: real, ulp: real, n: int, low: real, high: real)
    requires ulp > 0.0 && low == (n as real - 0.5) * ulp && high == (n as real + 0.5) * ulp && low < x < high
    ensures RoundTo(x, ulp) == n as real * ulp
  {
    var y := x / ulp;
    LessBy(n as real - 0.5, y, ulp, low, x);
    LessBy(y, n as real + 0.5, ulp, x, high);
    NearestIs(y, n);
  }

  lemma LessBy(a: real, b: real, k: real, ak: real, bk: real)
    requires k > 0.0 && ak == a * k && bk == b * k && ak < bk
    ensures a < b
  {
    if a >= b {
      Products(b, a, k, bk, ak);
    }
  }

  /** The double nearest to x, where its binade is p, is n of its 2^52 parts. */
  lemma DoubleIs(x: real, p: real, n: int, ulp: real, low: real, high: real)
    requires x > 0.0 && p == Binade(x, DOUBLINGS) && ulp == p / MANTISSA
    requires low == (n as real - 0.5) * ulp && high == (n as real + 0.5) * ulp && low < x < high
    ensures Double(x) == n as real * ulp
  {
    RoundToIs(x, ulp, n, low, high);
  }

  lemma DoubleUp(x: real, j: nat, n: int, p: real, ulp: real, low: real, high: real)
    requires j <= DOUBLINGS && p == Pow(j) && p <= x < 2.0 * p && ulp == p / MANTISSA
    requires low == (n as real - 0.5) * ulp && high == (n as real + 0.5) * ulp && low < x < high
    ensures Double(x) == n as real * ulp
  {
    PowPositive(j);
    BinadeUp(x, DOUBLINGS, j);
    DoubleIs(x, p, n, ulp, low, high);
  }

  lemma DoubleDown(x: real, j: nat, n: int, p: real, ulp: real, low: real, high: real)
    requires j <= DOUBLINGS && p == Part(j) && p <= x < 2.0 * p && ulp == p / MANTISSA
    requires low == (n as real - 0.5) * ulp && high == (n as real + 0.5) * ulp && low < x < high
    ensures Double(x) == n as real * ulp
  {
    PartSmall(j);
    BinadeDown(x, DOUBLINGS, j);
    DoubleIs(x, p, n, ulp, low, high);
  }

  lemma SmallPowers()
    ensures Part(1) == 0.5 && Part(2) == 0.25 && Part(3) == 0.125 && Part(4) == 0.0625
    ensures Pow(26) == 67108864.0 && Pow(28) == 268435456.0
  {
    assert Part(1) == 0.5 && Part(2) == 0.25;
    assert Pow(1) == 2.0 && Pow(2) == 4.0 && Pow(4) == 16.0;
    PowAdds(4, 2);
    PowAdds(6, 6);
    PowAdds(12, 1);
    PowAdds(13, 13);
    PowAdds(2, 26);
  }

  lemma HalfReachesOne(x: real)
    requires 0.5 <= x < 1.0
    ensures Double(x) >= 1.0 <==> x >= 1.0 - U / 2.0
  {
    assert Part(1) == 0.5;
    BinadeDown(x, DOUBLINGS, 1);
    assert x / (0.5 / MANTISSA) == x * 9007199254740992.0;
    assert Double(x) == Nearest(x * 9007199254740992.0) as real * (0.5 / MANTISSA);
  }

  /** A sum below one rounds to one exactly from half a gap below it on. */
  lemma DoubleReachesOne(x: real)
    requires 0.0 <= x <= 8.0
    ensures Double(x) >= 1.0 <==> x >= 1.0 - U / 2.0
  {
    DoubleIsRounding();
    if 0.5 <= x < 1.0 {
      HalfReachesOne(x);
    } else if SMALL <= x < 0.5 {
      assert Double(x) <= x * (1.0 + U);
    } else if 0.0 < x < SMALL {
      TinyStaysSmall(x, DOUBLINGS);
    }
  }

  lemma {:induction false} BinadeBelow(x: real, k: nat)
    requires 0.0 < x < 1.0
    ensures k > 0 ==> Binade(x, k) <= 0.5
    ensures Binade(x, k) <= 1.0
    decreases k
  {
    if k > 0 && 2.0 * x < 1.0 {
      BinadeBelow(2.0 * x, k - 1);
    }
  }

  lemma TinyStaysSmall(x: real, k: nat)
    requires 0.0 < x < SMALL
    ensures Double(x) < 1.0
  {
    BinadeBelow(x, DOUBLINGS);
    RoundToNear(x, Binade(x, DOUBLINGS) / MANTISSA);
  }

  /** Small whole numbers are doubles. */
  lemma SmallWholes(n: nat)
    requires 0 < n < 128
    ensures Double(n as real) == n as real
  {
    var x := n as real;
    assert Pow(1) == 2.0 && Pow(2) == 4.0 && Pow(3) == 8.0;
    assert Pow(4) == 16.0 && Pow(5) == 32.0 && Pow(6) == 64.0;
    if n < 2 {
      DoubleUp(x, 0, n * 4503599627370496, 1.0, 1.0 / 4503599627370496.0, x - 0.5 / 4503599627370496.0, x + 0.5 / 4503599627370496.0);
    } else if n < 4 {
      DoubleUp(x, 1, n * 2251799813685248, 2.0, 1.0 / 2251799813685248.0, x - 0.5 / 2251799813685248.0, x + 0.5 / 2251799813685248.0);
    } else if n < 8 {
      DoubleUp(x, 2, n * 1125899906842624, 4.0, 1.0 / 1125899906842624.0, x - 0.5 / 1125899906842624.0, x + 0.5 / 1125899906842624.0);
    } else if n < 16 {
      DoubleUp(x, 3, n * 562949953421312, 8.0, 1.0 / 562949953421312.0, x - 0.5 / 562949953421312.0, x + 0.5 / 562949953421312.0);
    } else if n < 32 {
      DoubleUp(x, 4, n * 281474976710656, 16.0, 1.0 / 281474976710656.0, x - 0.5 / 281474976710656.0, x + 0.5 / 281474976710656.0);
    } else if n < 64 {
      DoubleUp(x, 5, n * 140737488355328, 32.0, 1.0 / 140737488355328.0, x - 0.5 / 140737488355328.0, x + 0.5 / 140737488355328.0);
    } else if n < 128 {
      DoubleUp(x, 6, n * 70368744177664, 64.0, 1.0 / 70368744177664.0, x - 0.5 / 70368744177664.0, x + 0.5 / 70368744177664.0);
    }
  }

  // ---- rounding keeps doubles in place ----

  /** y doubled k times. */
  function Up(y: real, k: nat): real { if k == 0 then y else 2.0 * Up(y, k - 1) }

  /** y, below 2, is m of the 2^52 parts of its binade Part(j). */
  predicate OnGrid(y: real, j: nat, m: int) {
    j <= DOUBLINGS && 4503599627370496 <= m <= 9007199254740992 && Up(y, j) * MANTISSA == m as real
  }

  /** y is a double below 2. */
  ghost predicate IsDouble(y: real) { exists j: nat, m: int :: OnGrid(y, j, m) }

  lemma {:induction false} UpScales(y: real, k: nat)
    ensures y == Up(y, k) * Part(k)
  {
    PartSmall(k);
    if k > 0 {
      UpScales(y, k - 1);
      Rescaled(y, Up(y, k - 1), Part(k - 1), Up(y, k), Part(k));
    }
  }

  lemma Rescaled(y: real, a: real, p: real, b: real, q: real)
    requires y == a * p && b == 2.0 * a && q == p / 2.0
    ensures y == b * q
  {}

  /** y in parts of its binade. */
  lemma GridParts(y: real, j: nat, m: int, p: real, u: real)
    requires OnGrid(y, j, m) && p == Part(j) && u == p / MANTISSA
    ensures y == m as real * u
  {
    UpScales(y, j);
    Shifted(y, Up(y, j), p, u, m as real);
  }

  lemma Shifted(y: real, a: real, p: real, u: real, m: real)
    requires y == a * p && a * MANTISSA == m && u == p / MANTISSA
    ensures y == m * u
  {
    assert p == u * MANTISSA;
    assert a * (u * MANTISSA) == a * MANTISSA * u;
  }

  lemma PartsGrid(y: real, j: nat, m: int, p: real, u: real)
    requires j <= DOUBLINGS && 4503599627370496 <= m <= 9007199254740992 && p == Part(j) && u == p / MANTISSA && y == m as real * u
    ensures OnGrid(y, j, m)
  {
    UpScales(y, j);
    PartSmall(j);
    Unshifted(y, Up(y, j), p, u, m as real);
  }

  lemma Unshifted(y: real, a: real, p: real, u: real, m: real)
    requires p > 0.0 && y == a * p && u == p / MANTISSA && y == m * u
    ensures a * MANTISSA == m
  {
    assert p == u * MANTISSA && u > 0.0;
    var b := a * MANTISSA;
    Reorder(a, u, b);
    if b < m {
      TimesLess(b, m, u);
    } else if m < b {
      TimesLess(m, b, u);
    }
  }

  lemma Reorder(a: real, u: real, b: real)
    requires b == a * MANTISSA
    ensures a * (u * MANTISSA) == b * u
  {}

  /** The binade of x below 2 is a power of a half, none less than one x reaches. */
  lemma {:induction false} BinadeIsPart(x: real, k: nat, i: nat) returns (j: nat)
    requires i <= k && Part(i) <= x < 2.0
    ensures j <= i && Binade(x, k) == Part(j) && Part(j) <= x < 2.0 * Part(j) && Part(i) <= Part(j)
    decreases k
  {
    if k == 0 || 1.0 <= x {
      PartSmall(i);
      j := 0;
    } else {
      j := BinadeIsPart(2.0 * x, k - 1, i - 1);
      j := j + 1;
    }
  }

  lemma GridTop(y: real, j: nat, m: int)
    requires OnGrid(y, j, m)
    ensures 0.0 < Part(j) <= y <= 2.0 * Part(j)
  {
    PartSmall(j);
    UpScales(y, j);
    Between(y, Up(y, j), Part(j));
  }

  lemma Between(y: real, a: real, p: real)
    requires p > 0.0 && y == a * p && 1.0 <= a <= 2.0
    ensures p <= y <= 2.0 * p
  {
    Products(1.0, a, p, p, y);
    Products(a, 2.0, p, y, 2.0 * p);
  }

  lemma GridBelow(x: real, y: real, m: int, u: real)
    requires u > 0.0 && y == m as real * u && y <= x
    ensures RoundTo(x, u) >= y
  {
    Quotient(x, m as real, u);
    NearestFacts(x / u, m);
    Products(m as real, Nearest(x / u) as real, u, y, RoundTo(x, u));
  }

  lemma SameBinade(x: real, y: real, p: real, u: real, m: int)
    requires x > 0.0 && p > 0.0 && p == Binade(x, DOUBLINGS) && u == p / MANTISSA && y == m as real * u && y <= x
    ensures Double(x) >= y
  {
    GridBelow(x, y, m, u);
  }

  lemma SameGrid(x: real, y: real, j: nat, m: int)
    requires OnGrid(y, j, m) && y <= x && Part(j) == Binade(x, DOUBLINGS)
    ensures Double(x) >= y
  {
    GridTop(y, j, m);
    var p := Part(j);
    var u := p / MANTISSA;
    GridParts(y, j, m, p, u);
    SameBinade(x, y, p, u, m);
  }

  lemma HigherBinade(x: real, p: real)
    requires p > 0.0 && p <= x && p == Binade(x, DOUBLINGS)
    ensures Double(x) >= p
  {
    DoubleNear(x, p);
  }

  lemma {:induction false} PartsApart(i: nat, j: nat)
    requires i != j && Part(j) <= Part(i)
    ensures 2.0 * Part(j) <= Part(i)
    decreases j
  {
    PartSmall(i);
    PartSmall(j);
    if i > 0 && j > 0 {
      PartsApart(i - 1, j - 1);
    } else if j > 0 {
      PartSmall(j - 1);
    } else {
      PartSmall(i - 1);
    }
  }

  /** A double is not passed by rounding a larger number. */
  lemma AtLeastGrid(x: real, y: real, j: nat, m: int)
    requires OnGrid(y, j, m) && y <= x < 2.0
    ensures Double(x) >= y
  {
    GridTop(y, j, m);
    var i := BinadeIsPart(x, DOUBLINGS, j);
    if i == j {
      SameGrid(x, y, j, m);
    } else {
      PartsApart(i, j);
      HigherBinade(x, Part(i));
    }
  }

  lemma AtLeastDouble(x: real, y: real)
    requires IsDouble(y) && y <= x < 2.0
    ensures Double(x) >= y
  {
    var j: nat, m: int :| OnGrid(y, j, m);
    AtLeastGrid(x, y, j, m);
  }

  /** What rounding gives is a double, and so is its half. */
  lemma RoundedIsDouble(x: real, i: nat)
    requires i < DOUBLINGS && Part(i) <= x < 2.0
    ensures IsDouble(Double(x)) && IsDouble(Double(x) / 2.0)
  {
    PartSmall(i);
    var j := BinadeIsPart(x, DOUBLINGS, i);
    PartSmall(j);
    var p := Part(j);
    var u := p / MANTISSA;
    var m := RoundsToParts(x, p, u);
    OnTheGrid(Double(x), j, m, p, u);
  }

  lemma OnTheGrid(y: real, j: nat, m: int, p: real, u: real)
    requires j < DOUBLINGS && 4503599627370496 <= m <= 9007199254740992 && p == Part(j) && u == p / MANTISSA && y == m as real * u
    ensures IsDouble(y) && IsDouble(y / 2.0)
  {
    PartsGrid(y, j, m, p, u);
    assert OnGrid(y, j, m);
    UpHalf(y, j);
    assert OnGrid(y / 2.0, j + 1, m);
  }

  lemma {:induction false} UpHalf(y: real, k: nat)
    ensures Up(y / 2.0, k + 1) == Up(y, k)
  {
    if k > 0 {
      UpHalf(y, k - 1);
    }
  }

  lemma RoundsToParts(x: real, p: real, u: real) returns (m: int)
    requires x > 0.0 && p > 0.0 && p == Binade(x, DOUBLINGS) && u == p / MANTISSA && p <= x < 2.0 * p
    ensures 4503599627370496 <= m <= 9007199254740992 && Double(x) == m as real * u
  {
    PartsBetween(x, p, u, 2.0 * p);
    m := PartsOf(x, u);
  }

  lemma PartsOf(x: real, u: real) returns (m: int)
    requires u > 0.0 && MANTISSA <= x / u < 9007199254740992.0
    ensures 4503599627370496 <= m <= 9007199254740992 && RoundTo(x, u) == m as real * u
  {
    m := NearestPart(x / u);
  }

  lemma NearestPart(y: real) returns (m: int)
    requires MANTISSA <= y < 9007199254740992.0
    ensures m == Nearest(y) && 4503599627370496 <= m <= 9007199254740992
  {
    m := Nearest(y);
    NearestFacts(y, 4503599627370496);
  }

  lemma PartsBetween(x: real, p: real, u: real, q: real)
    requires p > 0.0 && u == p / MANTISSA && p <= x < q && q == 2.0 * p
    ensures u > 0.0 && MANTISSA <= x / u < 9007199254740992.0
  {
    assert p == MANTISSA * u && q == 9007199254740992.0 * u;
    Quotient(x, MANTISSA, u);
    QuotientBelow(x, 9007199254740992.0, u);
  }

  lemma QuotientBelow(x: real, m: real, k: real)
    requires k > 0.0 && x < m * k
    ensures x / k < m
  {
    var y := x / k;
    assert y * k == x;
    if y >= m {
      Times(m, y, k);
    }
  }

  lemma {:induction false} BinadeIsPow(x: real, k: nat) returns (j: nat)
    requires 1.0 <= x < 2.0 * Pow(k)
    ensures j <= k && Binade(x, k) == Pow(j) && Pow(j) <= x
    decreases k
  {
    if k == 0 || x < 2.0 {
      j := 0;
    } else {
      j := BinadeIsPow(x / 2.0, k - 1);
      j := j + 1;
    }
  }

  lemma {:induction false} PowGrows(i: nat, j: nat)
    requires i <= j
    ensures Pow(i) <= Pow(j)
    decreases j
  {
    PowPositive(j);
    if i < j {
      PowGrows(i, j - 1);
      PowPositive(j - 1);
    }
  }

  function WholePow(k: nat): (n: int)
    ensures n > 0 && n as real == Pow(k)
  {
    if k == 0 then 1 else 2 * WholePow(k - 1)
  }

  lemma Pow52()
    ensures Pow(52) == MANTISSA
  {
    assert Pow(4) == 16.0 && Pow(1) == 2.0;
    PowAdds(4, 4);
    PowAdds(8, 4);
    PowAdds(12, 1);
    PowAdds(13, 13);
    PowAdds(26, 26);
  }

  /** A whole number is not passed by rounding a larger number, below 2^52. */
  lemma AtLeastWhole(x: real, n: nat)
    requires 1 <= n && n as real <= x < 4503599627370496.0
    ensures Double(x) >= n as real
  {
    var j := BinadeBelow52(x);
    PowPositive(j);
    var p := Pow(j);
    var u := p / MANTISSA;
    var m := WholePart(n, j, p, u);
    SameBinade(x, n as real, p, u, m);
  }

  lemma BinadeBelow52(x: real) returns (j: nat)
    requires 1.0 <= x < 4503599627370496.0
    ensures j <= 52 && Binade(x, DOUBLINGS) == Pow(j)
  {
    Pow68();
    Pow52();
    j := BinadeIsPow(x, DOUBLINGS);
    if j > 52 {
      PowGrows(52, j);
    }
  }

  /** A whole number in parts of a larger binade. */
  lemma WholePart(n: nat, j: nat, p: real, u: real) returns (m: int)
    requires j <= 52 && p == Pow(j) && u == p / MANTISSA
    ensures n as real == m as real * u
  {
    var scale := WholePow(52 - j);
    ScaleIs(j, p, scale as real);
    m := WholeTimes(n, scale, p, u);
  }

  lemma WholeTimes(n: nat, scale: int, p: real, u: real) returns (m: int)
    requires p > 0.0 && p * scale as real == MANTISSA && u == p / MANTISSA
    ensures n as real == m as real * u
  {
    m := n * scale;
    IntTimes(n, scale, m);
    WholeGrid(n as real, p, u, scale as real, m as real);
  }

  lemma ScaleIs(j: nat, p: real, s: real)
    requires j <= 52 && p == Pow(j) && s == Pow(52 - j)
    ensures p > 0.0 && p * s == MANTISSA
  {
    PowAdds(j, 52 - j);
    PowPositive(j);
    Pow52();
  }

  lemma IntTimes(a: int, b: int, c: int)
    requires c == a * b
    ensures c as real == a as real * b as real
  {}

  lemma WholeGrid(n: real, p: real, u: real, s: real, m: real)
    requires p > 0.0 && p * s == MANTISSA && u == p / MANTISSA && m == n * s
    ensures n == m * u
  {
    assert u * s == 1.0;
    assert n * s * u == n * (u * s);
  }

  /** Below one, rounding is off by at most half of U. */
  lemma BelowOneNear(x: real)
    requires Part(DOUBLINGS) <= x <= 1.0
    ensures Double(x) >= x - U / 2.0
  {
    if x < 1.0 {
      PartSmall(DOUBLINGS);
      BinadeBelow(x, DOUBLINGS);
      RoundToNear(x, Binade(x, DOUBLINGS) / MANTISSA);
    } else {
      DoubleIsRounding();
    }
  }

  lemma {:induction false} PartAdds(a: nat, b: nat)
    ensures Part(a + b) == Part(a) * Part(b)
  {
    if a > 0 {
      PartAdds(a - 1, b);
    }
  }

  lemma PartValues()
    ensures Part(53) == U && 0.0 < Part(68) <= Part(53)
  {
    assert Part(1) == 0.5 && Part(4) == 0.0625;
    PartAdds(4, 4);
    PartAdds(8, 4);
    PartAdds(12, 1);
    PartAdds(13, 13);
    PartAdds(26, 26);
    PartAdds(52, 1);
    PartAdds(53, 15);
    PartSmall(15);
    PartSmall(68);
  }

  // ---- what is used of rounding to the nearest ----

  const WHOLES: real := 4503599627370496.0

  type Doubles = real -> bool

  predicate IsWhole(y: real) { 1.0 <= y && y.Floor as real == y }

  ghost function AreDouble(): Doubles { y => IsDouble(y) || IsWhole(y) }

  /** Rounding a number does not pass a double. */
  predicate Reaches(fl: Rounding, dbl: Doubles, x: real, y: real) { dbl(y) && y <= x < WHOLES ==> fl(x) >= y }

  /** What it gives is a double, and its half, and below one it is off by at most half of U. */
  predicate Lands(fl: Rounding, dbl: Doubles, x: real) {
    U <= x <= 1.0 ==> dbl(fl(x)) && dbl(fl(x) / 2.0) && fl(x) >= x - U / 2.0
  }

  ghost predicate ToNearest(fl: Rounding, dbl: Doubles) {
    && (forall x, y :: Reaches(fl, dbl, x, y)) && (forall x :: Lands(fl, dbl, x))
    && forall y | IsWhole(y) :: dbl(y)
  }

  lemma LandsOnDouble(x: real)
    ensures Lands(Double, AreDouble(), x)
  {
    if U <= x <= 1.0 {
      PartValues();
      RoundedIsDouble(x, 53);
      BelowOneNear(x);
    }
  }

  lemma ReachesDouble(x: real, y: real)
    ensures Reaches(Double, AreDouble(), x, y)
  {
    if AreDouble()(y) && y <= x < WHOLES {
      if IsWhole(y) {
        AtLeastWhole(x, y.Floor);
      } else if x < 2.0 {
        AtLeastDouble(x, y);
      } else {
        DoubleBelowTwo(y);
        AtLeastWhole(x, 2);
      }
    }
  }

  lemma DoubleBelowTwo(y: real)
    requires IsDouble(y)
    ensures y <= 2.0
  {
    var j: nat, m: int :| OnGrid(y, j, m);
    GridTop(y, j, m);
    PartSmall(j);
  }

  lemma DoubleIsToNearest()
    ensures ToNearest(Double, AreDouble())
  {
    forall x, y ensures Reaches(Double, AreDouble(), x, y) {
      ReachesDouble(x, y);
    }
    forall x ensures Lands(Double, AreDouble(), x) {
      LandsOnDouble(x);
    }
  }
}
