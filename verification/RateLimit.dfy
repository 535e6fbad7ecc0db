/**
 The token bucket of internal/mcp/ratelimit.go, with nanoseconds for its clock:
 first over real numbers, then what rounding its floats does to the wait it
 tells a refused caller.
 */
module RateLimit {
  import opened Common
  import opened Floats

  const NS: real := 1_000_000_000.0

  datatype Bucket = Bucket(rate: real, burst: nat, tokens: real, last: Time)
  {
    /** A bucket New can make, or a take can leave. */
    predicate Valid() { rate > 0.0 && burst >= 1 && 0.0 <= tokens <= burst as real }
  }

  function MinR(a: real, b: real): real { if a < b then a else b }

  /** The tokens earned in ns nanoseconds. */
  function Earn(rate: real, ns: int): real { ns as real / NS * rate }

  function Refilled(b: Bucket, now: Time): real {
    if now > b.last then MinR(b.burst as real, b.tokens + Earn(b.rate, now - b.last)) else b.tokens
  }

  predicate Admits(b: Bucket, now: Time) { Refilled(b, now) >= 1.0 }

  function After(b: Bucket, now: Time): Bucket {
    var t := Refilled(b, now);
    b.(tokens := if t >= 1.0 then t - 1.0 else t, last := now)
  }

  /** The nanoseconds until a bucket with t tokens has a whole one. */
  function ExactWait(t: real, rate: real): real
    requires rate > 0.0
  {
    (1.0 - t) / rate * NS
  }

  /** The wait a refusal reports, in nanoseconds: Go's conversion drops the fraction. */
  function Wait(b: Bucket, now: Time): int
    requires b.rate > 0.0
  {
    ExactWait(Refilled(b, now), b.rate).Floor
  }

  predicate InOrder(b: Bucket, ts: seq<Time>) {
    && (ts != [] ==> b.last <= ts[0])
    && forall i, j | 0 <= i <= j < |ts| :: ts[i] <= ts[j]
  }

  /** The bucket after takes at these times. */
  function Run(b: Bucket, ts: seq<Time>): Bucket
    decreases |ts|
  {
    if ts == [] then b else After(Run(b, ts[..|ts| - 1]), ts[|ts| - 1])
  }

  function Admitted(b: Bucket, ts: seq<Time>): nat
    decreases |ts|
  {
    if ts == [] then 0
    else Admitted(b, ts[..|ts| - 1]) + if Admits(Run(b, ts[..|ts| - 1]), ts[|ts| - 1]) then 1 else 0
  }

  lemma Earned(rate: real, ns: int)
    requires rate > 0.0 && ns >= 0
    ensures Earn(rate, ns) >= 0.0
  {
    assert ns as real / NS >= 0.0;
  }

  lemma EarnedAdds(rate: real, a: int, b: int)
    ensures Earn(rate, a) + Earn(rate, b) == Earn(rate, a + b)
  {
    assert a as real / NS + b as real / NS == (a + b) as real / NS;
  }

  /** A take costs a token if it is admitted, and earns at most what its time brings. */
  lemma TakeCosts(b: Bucket, now: Time)
    requires b.Valid() && b.last <= now
    ensures After(b, now).tokens + (if Admits(b, now) then 1.0 else 0.0) <= b.tokens + Earn(b.rate, now - b.last)
    ensures After(b, now).tokens + (if Admits(b, now) then 1.0 else 0.0) <= b.burst as real
  {
    Earned(b.rate, now - b.last);
  }

  /** Tokens stay between none and burst, whatever the times. */
  lemma {:induction false} TokensBounded(b: Bucket, ts: seq<Time>)
    requires b.Valid()
    ensures Run(b, ts).Valid() && Run(b, ts).rate == b.rate && Run(b, ts).burst == b.burst
    ensures ts != [] ==> Run(b, ts).last == ts[|ts| - 1]
    decreases |ts|
  {
    if ts != [] {
      var n := |ts| - 1;
      TokensBounded(b, ts[..n]);
      var c := Run(b, ts[..n]);
      if ts[n] > c.last {
        Earned(c.rate, ts[n] - c.last);
      }
    }
  }

  /** What was admitted and what is left never exceeds a full bucket and what was earned since the first take. */
  lemma {:induction false} Spent(b: Bucket, ts: seq<Time>)
    requires b.Valid() && InOrder(b, ts) && ts != []
    ensures Admitted(b, ts) as real + Run(b, ts).tokens <= b.burst as real + Earn(b.rate, ts[|ts| - 1] - ts[0])
    decreases |ts|
  {
    var n := |ts| - 1;
    TokensBounded(b, ts[..n]);
    var c := Run(b, ts[..n]);
    if n == 0 {
      assert ts[..0] == [];
      TakeCosts(b, ts[0]);
      Earned(b.rate, 0);
    } else {
      Spent(b, ts[..n]);
      TakeCosts(c, ts[n]);
      assert c.last == ts[n - 1] && c.rate == b.rate;
      EarnedAdds(b.rate, ts[n - 1] - ts[0], ts[n] - ts[n - 1]);
    }
  }

  /**
   In every run with a clock that never goes back, the takes i..j, if they fall
   in a window of the given length, admit at most burst and what the window earns.
   */
  lemma WindowBound(b: Bucket, ts: seq<Time>, i: nat, j: nat, window: nat)
    requires b.Valid() && InOrder(b, ts) && i < j <= |ts| && ts[j - 1] - ts[i] <= window
    ensures Admitted(Run(b, ts[..i]), ts[i..j]) as real <= b.burst as real + Earn(b.rate, window)
  {
    TokensBounded(b, ts[..i]);
    var c, w := Run(b, ts[..i]), ts[i..j];
    assert i > 0 ==> ts[..i][|ts[..i]| - 1] == ts[i - 1];
    assert InOrder(c, w);
    Spent(c, w);
    TokensBounded(c, w);
    var used := ts[j - 1] - ts[i];
    assert w[|w| - 1] - w[0] == used;
    EarnedAdds(b.rate, used, window - used);
    Earned(b.rate, window - used);
  }

  lemma WaitedIsEarned(b: Bucket, now: Time, w: nat)
    requires b.Valid() && b.last <= now && !Admits(b, now)
    ensures Admits(After(b, now), now + w) <==> Refilled(b, now) + Earn(b.rate, w) >= 1.0
  {
    Earned(b.rate, w);
    Earned(b.rate, now - b.last);
  }

  lemma Threshold(t: real, rate: real, el: real)
    requires t < 1.0 && rate > 0.0
    ensures t + el * rate >= 1.0 <==> el >= (1.0 - t) / rate
  {
    var need := (1.0 - t) / rate;
    assert need * rate == 1.0 - t;
    if el >= need {
      Times(need, el, rate);
    } else {
      TimesStrict(el, need, rate);
    }
  }

  /** The least time after which a whole token is there. */
  lemma EnoughAfter(b: Bucket, now: Time, w: nat)
    requires b.Valid() && b.last <= now && !Admits(b, now)
    ensures Admits(After(b, now), now + w) <==> w as real >= ExactWait(Refilled(b, now), b.rate)
  {
    WaitedIsEarned(b, now, w);
    Threshold(Refilled(b, now), b.rate, w as real / NS);
    InNanoseconds(w as real, (1.0 - Refilled(b, now)) / b.rate);
  }

  lemma InNanoseconds(w: real, need: real)
    ensures w / NS >= need <==> w >= need * NS
  {}

  lemma Times(x: real, y: real, k: real)
    requires x <= y && k > 0.0
    ensures x * k <= y * k
  {}

  lemma TimesStrict(x: real, y: real, k: real)
    requires x < y && k > 0.0
    ensures x * k < y * k
  {}

  /**
   A refused caller that comes back, with no other take between, after exactly
   the wait it was told is admitted exactly when that wait lost no fraction of a
   nanosecond; one nanosecond later it always is.
   */
  lemma RetryAfterWait(b: Bucket, now: Time)
    requires b.Valid() && b.last <= now && !Admits(b, now)
    ensures Wait(b, now) >= 0
    ensures Admits(After(b, now), now + Wait(b, now)) <==> ExactWait(Refilled(b, now), b.rate) == Wait(b, now) as real
    ensures Admits(After(b, now), now + Wait(b, now) + 1)
  {
    var need := (1.0 - Refilled(b, now)) / b.rate;
    assert need > 0.0;
    assert need * NS > 0.0;
    var w := Wait(b, now);
    EnoughAfter(b, now, w);
    EnoughAfter(b, now, w + 1);
  }

  /** With three tokens a second the wait for a whole one is a third of a second, and is told too short. */
  lemma ToldTooShort()
    ensures var b := Bucket(3.0, 1, 0.0, 0);
            b.Valid() && !Admits(b, 0) && Wait(b, 0) == 333_333_333 && !Admits(After(b, 0), 333_333_333)
  {
    var b := Bucket(3.0, 1, 0.0, 0);
    RetryAfterWait(b, 0);
  }

  const DEFAULT_RATE: real := 2.0
  const DEFAULT_BURST: nat := 120

  /** At two tokens a second a nanosecond earns one unit of this size. */
  ghost predicate InUnits(tokens: real) { exists k: int :: IsUnits(tokens, k) }

  predicate IsUnits(tokens: real, k: int) { tokens * 500_000_000.0 == k as real }

  lemma {:induction false} DefaultStaysInUnits(b: Bucket, ts: seq<Time>)
    requires b.Valid() && b.rate == DEFAULT_RATE && InUnits(b.tokens)
    ensures InUnits(Run(b, ts).tokens)
    decreases |ts|
  {
    if ts != [] {
      var n := |ts| - 1;
      DefaultStaysInUnits(b, ts[..n]);
      TokensBounded(b, ts[..n]);
      RefillInUnits(Run(b, ts[..n]), ts[n]);
      var k: int :| IsUnits(Refilled(Run(b, ts[..n]), ts[n]), k);
      assert Admits(Run(b, ts[..n]), ts[n]) ==> IsUnits(Run(b, ts).tokens, k - 500_000_000);
    }
  }

  lemma RefillInUnits(b: Bucket, now: Time)
    requires b.Valid() && b.rate == DEFAULT_RATE && InUnits(b.tokens)
    ensures InUnits(Refilled(b, now))
  {
    var k: int :| IsUnits(b.tokens, k);
    assert IsUnits(b.burst as real, b.burst * 500_000_000);
    assert IsUnits(b.tokens + Earn(b.rate, now - b.last), k + (now - b.last));
  }

  /** Over the reals, at the rate the server uses, a refused caller is always admitted after the wait it was told. */
  lemma DefaultNeverTooShort(start: Time, ts: seq<Time>, now: Time)
    requires InOrder(Bucket(DEFAULT_RATE, DEFAULT_BURST, DEFAULT_BURST as real, start), ts)
    requires var b := Run(Bucket(DEFAULT_RATE, DEFAULT_BURST, DEFAULT_BURST as real, start), ts); b.last <= now && !Admits(b, now)
    ensures var b := Run(Bucket(DEFAULT_RATE, DEFAULT_BURST, DEFAULT_BURST as real, start), ts);
            b.rate > 0.0 && Admits(After(b, now), now + Wait(b, now))
  {
    var full := Bucket(DEFAULT_RATE, DEFAULT_BURST, DEFAULT_BURST as real, start);
    assert IsUnits(full.tokens, DEFAULT_BURST * 500_000_000);
    DefaultStaysInUnits(full, ts);
    TokensBounded(full, ts);
    ExactInUnits(Run(full, ts), now);
  }

  lemma ExactInUnits(b: Bucket, now: Time)
    requires b.Valid() && b.rate == DEFAULT_RATE && InUnits(b.tokens) && b.last <= now && !Admits(b, now)
    ensures Admits(After(b, now), now + Wait(b, now))
  {
    RefillInUnits(b, now);
    var k: int :| IsUnits(Refilled(b, now), k);
    HalfSeconds(Refilled(b, now), k);
    RetryAfterWait(b, now);
  }

  lemma HalfSeconds(t: real, k: int)
    requires IsUnits(t, k)
    ensures ExactWait(t, DEFAULT_RATE) == (500_000_000 - k) as real
  {}

  // ---- with rounding ----

  /** Duration.Seconds. */
  function FlSeconds(fl: Rounding, ns: int): real {
    fl(fl((ns / SECOND) as real) + fl(fl((ns % SECOND) as real) / NS))
  }

  /** What ns nanoseconds add. */
  function FlEarned(fl: Rounding, rate: real, ns: int): real { fl(FlSeconds(fl, ns) * rate) }

  function FlRefilled(fl: Rounding, b: Bucket, now: Time): real {
    if now > b.last then MinR(b.burst as real, fl(b.tokens + FlEarned(fl, b.rate, now - b.last))) else b.tokens
  }

  /** The bucket after a take that was refused. */
  function FlRefused(fl: Rounding, b: Bucket, now: Time): Bucket { b.(tokens := FlRefilled(fl, b, now), last := now) }

  /** The wait told with t tokens left. */
  function FlWaitFor(fl: Rounding, t: real, rate: real): int
    requires rate > 0.0
  {
    fl(fl(fl(1.0 - t) / rate) * NS).Floor
  }

  function FlWait(fl: Rounding, b: Bucket, now: Time): int
    requires b.rate > 0.0
  {
    FlWaitFor(fl, FlRefilled(fl, b, now), b.rate)
  }

  /** Seconds of less than a second lose at most three roundings. */
  lemma SecondsNear(fl: Rounding, ns: nat)
    requires IsRounding(fl) && 0 < ns < SECOND
    ensures ns as real / NS * (1.0 - U) * (1.0 - U) * (1.0 - U) <= FlSeconds(fl, ns) <= 2.0
  {
    var n := ns as real;
    RoundsBy(fl, n);
    RoundsBy(fl, fl(n) / NS);
    RoundsBy(fl, fl(fl(n) / NS));
    assert FlSeconds(fl, ns) == fl(0.0 + fl(fl(n) / NS));
  }

  lemma RoundsBy(fl: Rounding, x: real)
    requires IsRounding(fl) && SMALL <= x <= LARGE
    ensures x * (1.0 - U) <= fl(x) <= x * (1.0 + U)
  {}

  /** What a wait of less than a second earns at two tokens a second loses at most four roundings. */
  lemma EarnedNear(fl: Rounding, w: nat)
    requires IsRounding(fl) && 0 < w < SECOND
    ensures w as real / NS * 2.0 * (1.0 - U) * (1.0 - U) * (1.0 - U) * (1.0 - U) <= FlEarned(fl, DEFAULT_RATE, w) <= 5.0
  {
    SecondsNear(fl, w);
    var x := FlSeconds(fl, w) * DEFAULT_RATE;
    assert x * (1.0 - U) <= fl(x) <= x * (1.0 + U);
  }

  /** The wait told at two tokens a second is less than a nanosecond too short, up to three roundings. */
  lemma WaitNear(fl: Rounding, t: real)
    requires IsRounding(fl) && 0.0 <= t <= 1.0 - U
    ensures 0 <= FlWaitFor(fl, t, DEFAULT_RATE) <= 500_000_001
    ensures (1.0 - t) * 500_000_000.0 * (1.0 - U) * (1.0 - U) * (1.0 - U) < FlWaitFor(fl, t, DEFAULT_RATE) as real + 1.0
  {
    var x := fl(1.0 - t);
    RoundsBy(fl, 1.0 - t);
    var y := fl(x / DEFAULT_RATE);
    RoundsBy(fl, x / DEFAULT_RATE);
    RoundsBy(fl, y * NS);
    assert FlWaitFor(fl, t, DEFAULT_RATE) == fl(y * NS).Floor;
  }

  /** Later is admitted exactly if the tokens left and what was earned round to one or more. */
  lemma LaterAdmits(fl: Rounding, b: Bucket, now: Time, w: nat)
    requires b.burst >= 1 && w > 0 && b.rate == DEFAULT_RATE
    ensures FlRefilled(fl, FlRefused(fl, b, now), now + w) >= 1.0
            <==> fl(FlRefilled(fl, b, now) + FlEarned(fl, DEFAULT_RATE, w)) >= 1.0
  {}

  lemma OneStays(fl: Rounding, x: real)
    requires IsRounding(fl) && 1.0 <= x <= LARGE
    ensures fl(x) >= 1.0
  {}

  /**
   What survives rounding, at the rate the server uses: a refused caller that
   comes back two nanoseconds after the wait it was told is always admitted.
   (No double lies between 1 - U and 1.)
   */
  lemma RetryTwoLater(fl: Rounding, b: Bucket, now: Time)
    requires IsRounding(fl) && b.rate == DEFAULT_RATE && b.burst >= 1 && 0.0 <= FlRefilled(fl, b, now) <= 1.0 - U
    ensures FlRefilled(fl, FlRefused(fl, b, now), now + FlWait(fl, b, now) + 2) >= 1.0
  {
    var t := FlRefilled(fl, b, now);
    TwoLaterAddsUp(fl, t);
    LaterAdmits(fl, b, now, FlWaitFor(fl, t, DEFAULT_RATE) + 2);
  }

  lemma TwoLaterAddsUp(fl: Rounding, t: real)
    requires IsRounding(fl) && 0.0 <= t <= 1.0 - U
    ensures FlWaitFor(fl, t, DEFAULT_RATE) >= 0
    ensures fl(t + FlEarned(fl, DEFAULT_RATE, FlWaitFor(fl, t, DEFAULT_RATE) + 2)) >= 1.0
  {
    var w := FlWaitFor(fl, t, DEFAULT_RATE);
    WaitNear(fl, t);
    EarnedNear(fl, w + 2);
    Enough(t, w as real, FlEarned(fl, DEFAULT_RATE, w + 2));
    OneStays(fl, t + FlEarned(fl, DEFAULT_RATE, w + 2));
  }

  lemma Enough(t: real, w: real, earned: real)
    requires 0.0 <= t <= 1.0 && (1.0 - t) * 500_000_000.0 * (1.0 - U) * (1.0 - U) * (1.0 - U) < w + 1.0
    requires (w + 2.0) / NS * 2.0 * (1.0 - U) * (1.0 - U) * (1.0 - U) * (1.0 - U) <= earned
    ensures t + earned >= 1.0
  {}

  // ---- the wait told too short ----

  /** A bucket emptied at 0 is asked after 410048377 ns: its tokens, what it lacks, and the wait in floats. */
  const SECONDS_0: real := 7386774871444307.0 / 18014398509481984.0
  const TOKENS_0: real := 7386774871444307.0 / 9007199254740992.0
  const LACKS_0: real := 1620424383296685.0 / 9007199254740992.0
  const HALF_0: real := 1620424383296685.0 / 18014398509481984.0
  const WAIT_0: real := 6036551234486271.0 / 67108864.0
  /** And 89951622 ns later: the seconds gone, what they earned, and the tokens then. */
  const SECONDS_1: real := 6481697461129147.0 / 72057594037927936.0
  const EARNED_1: real := 6481697461129147.0 / 36028797018963968.0
  const TOKENS_1: real := 4503599618363297.0 / 4503599627370496.0

  lemma RoundsFirst()
    ensures Double(410048377.0) == 410048377.0 && Double(410048377.0 / NS) == SECONDS_0 && Double(SECONDS_0) == SECONDS_0
    ensures Double(SECONDS_0 * 2.0) == TOKENS_0 && Double(TOKENS_0) == TOKENS_0
  {
    SmallPowers();
    DoubleUp(410048377.0, 28, 6879470191378432, 268435456.0, 1.0 / 16777216.0, 13758940382756863.0 / 33554432.0, 13758940382756865.0 / 33554432.0);
    DoubleDown(410048377.0 / NS, 2, 7386774871444307, 1.0 / 4.0, 1.0 / 18014398509481984.0, 14773549742888613.0 / 36028797018963968.0, 14773549742888615.0 / 36028797018963968.0);
    DoubleDown(SECONDS_0, 2, 7386774871444307, 1.0 / 4.0, 1.0 / 18014398509481984.0, 14773549742888613.0 / 36028797018963968.0, 14773549742888615.0 / 36028797018963968.0);
    DoubleDown(SECONDS_0 * 2.0, 1, 7386774871444307, 1.0 / 2.0, 1.0 / 9007199254740992.0, 14773549742888613.0 / 18014398509481984.0, 14773549742888615.0 / 18014398509481984.0);
  }

  lemma RoundsWait()
    ensures Double(1.0 - TOKENS_0) == LACKS_0 && Double(LACKS_0 / 2.0) == HALF_0 && Double(HALF_0 * NS) == WAIT_0
    ensures WAIT_0.Floor == 89951622
  {
    SmallPowers();
    DoubleDown(1.0 - TOKENS_0, 3, 6481697533186740, 1.0 / 8.0, 1.0 / 36028797018963968.0, 12963395066373479.0 / 72057594037927936.0, 12963395066373481.0 / 72057594037927936.0);
    DoubleDown(LACKS_0 / 2.0, 4, 6481697533186740, 1.0 / 16.0, 1.0 / 72057594037927936.0, 12963395066373479.0 / 144115188075855872.0, 12963395066373481.0 / 144115188075855872.0);
    DoubleUp(HALF_0 * NS, 26, 6036551234486271, 67108864.0, 1.0 / 67108864.0, 12073102468972541.0 / 134217728.0, 12073102468972543.0 / 134217728.0);
  }

  lemma RoundsSecond()
    ensures Double(89951622.0) == 89951622.0 && Double(89951622.0 / NS) == SECONDS_1 && Double(SECONDS_1) == SECONDS_1
    ensures Double(SECONDS_1 * 2.0) == EARNED_1 && Double(TOKENS_0 + EARNED_1) == TOKENS_1 && TOKENS_1 < 1.0
  {
    SmallPowers();
    DoubleUp(89951622.0, 26, 6036551167377408, 67108864.0, 1.0 / 67108864.0, 12073102334754815.0 / 134217728.0, 12073102334754817.0 / 134217728.0);
    DoubleDown(89951622.0 / NS, 4, 6481697461129147, 1.0 / 16.0, 1.0 / 72057594037927936.0, 12963394922258293.0 / 144115188075855872.0, 12963394922258295.0 / 144115188075855872.0);
    DoubleDown(SECONDS_1, 4, 6481697461129147, 1.0 / 16.0, 1.0 / 72057594037927936.0, 12963394922258293.0 / 144115188075855872.0, 12963394922258295.0 / 144115188075855872.0);
    DoubleDown(SECONDS_1 * 2.0, 3, 6481697461129147, 1.0 / 8.0, 1.0 / 36028797018963968.0, 12963394922258293.0 / 72057594037927936.0, 12963394922258295.0 / 72057594037927936.0);
    DoubleDown(TOKENS_0 + EARNED_1, 1, 9007199236726594, 1.0 / 2.0, 1.0 / 9007199254740992.0, 18014398473453187.0 / 18014398509481984.0, 18014398473453189.0 / 18014398509481984.0);
  }

  /** The bucket after k takes at once, in doubles. */
  function Drained(k: nat): Bucket {
    if k == 0 then Bucket(DEFAULT_RATE, DEFAULT_BURST, DEFAULT_BURST as real, 0)
    else Drained(k - 1).(tokens := Double(FlRefilled(Double, Drained(k - 1), 0) - 1.0))
  }

  lemma {:induction false} DrainedIsWhole(k: nat)
    requires k <= DEFAULT_BURST
    ensures Drained(k) == Bucket(DEFAULT_RATE, DEFAULT_BURST, (DEFAULT_BURST - k) as real, 0)
  {
    if k > 0 {
      DrainedIsWhole(k - 1);
      if k < DEFAULT_BURST {
        SmallWholes(DEFAULT_BURST - k);
      }
    }
  }

  lemma FirstRefill(b: Bucket)
    requires b == Bucket(DEFAULT_RATE, DEFAULT_BURST, 0.0, 0)
    ensures FlRefilled(Double, b, 410048377) == TOKENS_0 < 1.0
  {
    RoundsFirst();
    assert 410048377 / SECOND == 0 && 410048377 % SECOND == 410048377;
    assert FlSeconds(Double, 410048377) == SECONDS_0;
  }

  lemma SecondRefill(b: Bucket)
    requires b == Bucket(DEFAULT_RATE, DEFAULT_BURST, TOKENS_0, 410048377)
    ensures FlRefilled(Double, b, 410048377 + 89951622) == TOKENS_1 < 1.0
  {
    RoundsSecond();
    assert 89951622 / SECOND == 0 && 89951622 % SECOND == 89951622;
    assert FlSeconds(Double, 89951622) == SECONDS_1;
  }

  lemma TooShortFromEmpty(b: Bucket)
    requires b == Bucket(DEFAULT_RATE, DEFAULT_BURST, 0.0, 0)
    ensures FlRefilled(Double, b, 410048377) < 1.0 && FlWait(Double, b, 410048377) == 89951622
    ensures FlRefilled(Double, FlRefused(Double, b, 410048377), 410048377 + 89951622) < 1.0
  {
    FirstRefill(b);
    RoundsWait();
    SecondRefill(FlRefused(Double, b, 410048377));
  }

  /**
   At the server's own rate, in doubles: a caller refused 410048377 ns after 120
   takes emptied the bucket is told 89951622 ns, one too few for what its tokens
   lack, and is refused again when it comes back then.
   */
  lemma ToldTooShortInDoubles()
    ensures var b := Drained(DEFAULT_BURST);
            && FlRefilled(Double, b, 410048377) < 1.0 && b.rate > 0.0 && FlWait(Double, b, 410048377) == 89951622
            && FlRefilled(Double, FlRefused(Double, b, 410048377), 410048377 + 89951622) < 1.0
  {
    DrainedIsWhole(DEFAULT_BURST);
    TooShortFromEmpty(Drained(DEFAULT_BURST));
  }

  /** Exactly: in doubles the retry is admitted when what it adds up to is at most half of U below one. */
  lemma RetryInDoublesExactly(b: Bucket, now: Time, w: nat)
    requires b.rate == DEFAULT_RATE && b.burst >= 1 && 0.0 <= FlRefilled(Double, b, now) <= 1.0 - U && 0 < w < SECOND
    ensures FlRefilled(Double, FlRefused(Double, b, now), now + w) >= 1.0
            <==> FlRefilled(Double, b, now) + FlEarned(Double, DEFAULT_RATE, w) >= 1.0 - U / 2.0
  {
    SumReachesOne(FlRefilled(Double, b, now), w);
    LaterAdmits(Double, b, now, w);
  }

  /**
   In doubles, at the rate the server uses, the wait told is never short by more
   than the nanosecond it lost: one nanosecond later is always admitted.
   */
  lemma RetryOneLater(b: Bucket, now: Time)
    requires b.rate == DEFAULT_RATE && b.burst >= 1 && 0.0 <= FlRefilled(Double, b, now) <= 1.0 - U
    ensures FlRefilled(Double, FlRefused(Double, b, now), now + FlWait(Double, b, now) + 1) >= 1.0
  {
    var w := FlWait(Double, b, now);
    DoublesEarn(FlRefilled(Double, b, now), w);
    RetryInDoublesExactly(b, now, w + 1);
  }

  lemma DoublesEarn(t: real, w: int)
    requires 0.0 <= t <= 1.0 - U && w == FlWaitFor(Double, t, DEFAULT_RATE)
    ensures 0 <= w < SECOND - 1 && t + FlEarned(Double, DEFAULT_RATE, w + 1) >= 1.0 - U / 2.0
  {
    DoubleIsRounding();
    DoubleIsToNearest();
    OneLaterEarns(Double, AreDouble(), t, w);
  }

  lemma OneLaterEarns(fl: Rounding, dbl: Doubles, t: real, w: int)
    requires IsRounding(fl) && ToNearest(fl, dbl) && 0.0 <= t <= 1.0 - U && w == FlWaitFor(fl, t, DEFAULT_RATE)
    ensures 0 <= w < SECOND - 1 && t + FlEarned(fl, DEFAULT_RATE, w + 1) >= 1.0 - U / 2.0
  {
    WaitNear(fl, t);
    var lack := 1.0 - t;
    RoundsBy(fl, lack);
    assert Lands(fl, dbl, lack);
    EarnsLack(fl, dbl, fl(lack), w + 1);
  }

  /** A nanosecond more than the wait earns what was lacking, as it was rounded. */
  lemma EarnsLack(fl: Rounding, dbl: Doubles, d: real, n: int)
    requires IsRounding(fl) && ToNearest(fl, dbl) && dbl(d) && dbl(d / 2.0) && U / 2.0 <= d <= 1.1
    requires n == fl(fl(d / DEFAULT_RATE) * NS).Floor + 1 && 0 < n < SECOND
    ensures FlEarned(fl, DEFAULT_RATE, n) >= d
  {
    WaitReaches(fl, dbl, d, n);
    SecondsReach(fl, dbl, d / 2.0, n);
    TwiceReaches(fl, dbl, d, FlSeconds(fl, n));
  }

  /** The wait's next nanosecond is past what the seconds lacking come to. */
  lemma WaitReaches(fl: Rounding, dbl: Doubles, d: real, n: int)
    requires IsRounding(fl) && ToNearest(fl, dbl) && dbl(d / 2.0) && U / 2.0 <= d <= 1.1
    requires n == fl(fl(d / DEFAULT_RATE) * NS).Floor + 1 && n > 0
    ensures d / 2.0 * NS < n as real
  {
    assert d / DEFAULT_RATE == d / 2.0;
    var h := fl(d / 2.0);
    assert Reaches(fl, dbl, d / 2.0, d / 2.0);
    RoundsBy(fl, d / 2.0);
    Passes(fl, dbl, h * NS, n);
  }

  lemma Passes(fl: Rounding, dbl: Doubles, x: real, n: int)
    requires ToNearest(fl, dbl) && 0.0 < x < WHOLES && n == fl(x).Floor + 1 && n > 0
    ensures x < n as real
  {
    assert IsWhole(n as real) && Reaches(fl, dbl, x, n as real);
  }

  lemma SecondsReach(fl: Rounding, dbl: Doubles, y: real, n: nat)
    requires IsRounding(fl) && ToNearest(fl, dbl) && dbl(y) && y * NS <= n as real && 0 < n < SECOND
    ensures y <= FlSeconds(fl, n) <= 2.0
  {
    var x := n as real;
    SecondsNear(fl, n);
    RoundsBy(fl, x);
    var q := fl(x) / NS;
    RoundsBy(fl, q);
    assert IsWhole(x) && Reaches(fl, dbl, x, x) && Reaches(fl, dbl, q, y) && Reaches(fl, dbl, fl(q), y);
    assert FlSeconds(fl, n) == fl(0.0 + fl(q));
  }

  lemma TwiceReaches(fl: Rounding, dbl: Doubles, d: real, s: real)
    requires ToNearest(fl, dbl) && dbl(d) && d / 2.0 <= s <= 2.0
    ensures fl(s * DEFAULT_RATE) >= d
  {
    assert Reaches(fl, dbl, s * DEFAULT_RATE, d);
  }

  lemma SumReachesOne(t: real, w: nat)
    requires 0.0 <= t <= 1.0 && 0 < w < SECOND
    ensures Double(t + FlEarned(Double, DEFAULT_RATE, w)) >= 1.0 <==> t + FlEarned(Double, DEFAULT_RATE, w) >= 1.0 - U / 2.0
  {
    DoubleIsRounding();
    EarnedNear(Double, w);
    DoubleReachesOne(t + FlEarned(Double, DEFAULT_RATE, w));
  }

  /** bucket. */
  class Limiter {
    const rate: real
    const burst: nat
    var tokens: real
    var last: Time

    function View(): Bucket reads this { Bucket(rate, burst, tokens, last) }

    constructor (rate: real, burst: nat, now: Time)
      requires rate > 0.0 && burst >= 1
      ensures View() == Bucket(rate, burst, burst as real, now) && View().Valid()
    {
      this.rate, this.burst, tokens, last := rate, burst, burst as real, now;
    }

    method Take(now: Time) returns (ok: bool, wait: int)
      requires View().Valid()
      modifies this
      ensures View() == After(old(View()), now) && View().Valid()
      ensures ok <==> Admits(old(View()), now)
      ensures wait == if ok then 0 else Wait(old(View()), now)
    {
      TokensBounded(View(), [now]);
      assert [now][..0] == [];
      var el := (now - last) as real / NS;
      if el > 0.0 {
        assert el * rate == Earn(rate, now - last);
        tokens := MinR(burst as real, tokens + el * rate);
      }
      last := now;
      if tokens >= 1.0 {
        tokens := tokens - 1.0;
        return true, 0;
      }
      return false, ((1.0 - tokens) / rate * NS).Floor;
    }
  }
}
