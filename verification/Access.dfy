/**
 When the connector may ask the member for access (internal/access/access.go):
 each locked region as a step, the request in flight, and every send there was.
 */
module AccessPolicy {
  import opened Common
  import opened LeashSpec

  const QUIET: int := 10 * MINUTE
  const MAX_PER_HOUR: nat := 6

  datatype Why = Unanswered | Denied | EndedInApp

  /** The Manager's fields. */
  datatype Policy = Policy(outstanding: bool, outExp: Time, sending: bool, quietUntil: Time, why: Why,
                           allowedAfter: Time, sent: seq<Time>, held: bool)

  const NEW := Policy(false, 0, false, 0, Unanswered, 0, [], false)

  /** What Ensure does: answers, possibly with the time before which nothing is sent, or sends. */
  datatype Verdict = HasSession | ChecksSession | AnswersHeld | AnswersPending | AnswersUntil(u: Time, why: Why) | Sends

  datatype Answer = NoAnswer | Accepted(exp: Option<Time>) | TooSoon(after: Option<Time>) | OwnerCheck | OtherRefusal

  datatype Step =
    /** Ensure: the clock was read as `seen` before the lock was taken. */
    | Ensures(seen: Time, access: Access)
    | Answered(answer: Answer)
    | SessionGranted
    | SessionDenied
    | SessionEndedInApp
    | StatusIs(isHeld: bool)
    | HeldAnswer

  // ---- the regions, as functions ----

  /** pruneSent. */
  function Recent(sent: seq<Time>, now: Time): seq<Time>
    decreases |sent|
  {
    if sent != [] && now >= sent[0] + HOUR then Recent(sent[1..], now) else sent
  }

  /** A request outstanding past its end is dropped, unanswered. */
  function Expire(p: Policy, now: Time): Policy {
    if p.outstanding && now >= p.outExp then p.(outstanding := false, quietUntil := p.outExp + QUIET, why := Unanswered) else p
  }

  function EnsureVerdict(p: Policy, now: Time, a: Access): Verdict {
    if p.held then AnswersHeld
    else if ActiveAt(a, now) then HasSession
    else if a.state == AccessUnknown then ChecksSession
    else
      var q := Expire(p, now);
      if q.outstanding || q.sending then AnswersPending
      else if now < q.quietUntil then AnswersUntil(q.quietUntil, q.why)
      else if now < q.allowedAfter then AnswersUntil(q.allowedAfter, Unanswered)
      else
        var sent := Recent(q.sent, now);
        if |sent| >= MAX_PER_HOUR then AnswersUntil(sent[0] + HOUR, Unanswered) else Sends
  }

  function AfterEnsure(p: Policy, now: Time, a: Access): Policy {
    if EnsureVerdict(p, now, a) in {AnswersHeld, HasSession, ChecksSession} then p
    else
      var q := Expire(p, now);
      if q.outstanding || q.sending || now < q.quietUntil || now < q.allowedAfter then q
      else
        var r := q.(sent := Recent(q.sent, now));
        if |r.sent| >= MAX_PER_HOUR then r else r.(sending := true, sent := r.sent + [now])
  }

  function AfterAnswer(p: Policy, answer: Answer, now: Time): Policy {
    var q := p.(sending := false);
    match answer
    case NoAnswer => q
    case Accepted(exp) => q.(outstanding := true, outExp := if exp.Some? && exp.value > now then exp.value else now + QUIET)
    case TooSoon(after) => q.(allowedAfter := Max(q.allowedAfter, if after.Some? then after.value else now + QUIET))
    case OwnerCheck => q.(held := true)
    case OtherRefusal => q
  }

  function After(p: Policy, s: Step, now: Time): Policy {
    match s
    case Ensures(seen, a) => AfterEnsure(p, seen, a)
    case Answered(answer) => AfterAnswer(p, answer, now)
    case SessionGranted => p.(outstanding := false)
    case SessionDenied => p.(outstanding := false, quietUntil := now + QUIET, why := Denied)
    case SessionEndedInApp => p.(outstanding := false, quietUntil := now + QUIET, why := EndedInApp)
    case StatusIs(isHeld) => p.(held := isHeld)
    case HeldAnswer => p.(held := true)
  }

  // ---- runs ----

  /** A request sent: when, and the clock reading it was decided on. */
  datatype Send = Send(at: Time, seen: Time)

  /** flying: how many requests are on their way; sends: all there ever were. */
  datatype Track = Track(p: Policy, clock: Time, flying: nat, sends: seq<Send>)

  datatype Timed = Timed(s: Step, now: Time)

  predicate IsSend(p: Policy, e: Timed) { e.s.Ensures? && EnsureVerdict(p, e.s.seen, e.s.access) == Sends }

  /**
   The regions run one after the other on a clock that never goes back; Ensure
   read it at most `lag` before it took the lock; an answer is of a request on its way.
   */
  predicate Can(t: Track, e: Timed, lag: nat) {
    && t.clock <= e.now
    && (e.s.Ensures? ==> e.now - lag <= e.s.seen <= e.now)
    && (e.s.Answered? ==> t.flying > 0)
  }

  function Next(t: Track, e: Timed): Track
    requires e.s.Answered? ==> t.flying > 0
  {
    var sends := IsSend(t.p, e);
    Track(After(t.p, e.s, e.now), e.now,
          if sends then t.flying + 1 else if e.s.Answered? then t.flying - 1 else t.flying,
          if sends then t.sends + [Send(e.now, e.s.seen)] else t.sends)
  }

  predicate CanRun(t: Track, es: seq<Timed>, lag: nat)
    decreases |es|, 0
  {
    es == [] || (CanRun(t, es[..|es| - 1], lag) && Can(Run(t, es[..|es| - 1], lag), es[|es| - 1], lag))
  }

  function Run(t: Track, es: seq<Timed>, lag: nat): Track
    requires CanRun(t, es, lag)
    decreases |es|, 1
  {
    if es == [] then t else Next(Run(t, es[..|es| - 1], lag), es[|es| - 1])
  }

  function Begin(clock: Time): Track { Track(NEW, clock, 0, []) }

  // ---- the invariant ----

  /** What the sends were decided on. */
  function Seen(sends: seq<Send>): seq<Time> { seq(|sends|, i requires 0 <= i < |sends| => sends[i].seen) }

  /** sent is what is left of the sends after dropping those read an hour ago or more. */
  predicate SuffixOk(sends: seq<Send>, sent: seq<Time>, clock: Time) {
    && |sent| <= |sends| && |sent| <= MAX_PER_HOUR && sent == Seen(sends)[|sends| - |sent|..]
    && forall i | 0 <= i < |sends| - |sent| :: sends[i].seen + HOUR <= clock
  }

  /** Send j is decided on a reading in time, is not before the one before, and an hour after the reading of the sixth before. */
  predicate SendOk(sends: seq<Send>, j: nat, lag: nat)
    requires j < |sends|
  {
    && sends[j].at - lag <= sends[j].seen <= sends[j].at
    && (j > 0 ==> sends[j - 1].at <= sends[j].at)
    && (j >= MAX_PER_HOUR ==> sends[j].at >= sends[j - MAX_PER_HOUR].seen + HOUR)
  }

  predicate SendsOk(sends: seq<Send>, clock: Time, lag: nat) {
    && (forall j: nat | j < |sends| :: SendOk(sends, j, lag))
    && (sends != [] ==> sends[|sends| - 1].at <= clock)
  }

  lemma {:induction false} Ordered(sends: seq<Send>, clock: Time, lag: nat, i: nat, j: nat)
    requires SendsOk(sends, clock, lag) && i <= j < |sends|
    ensures sends[i].at <= sends[j].at
    decreases j
  {
    assert SendOk(sends, j, lag);
    if i < j {
      Ordered(sends, clock, lag, i, j - 1);
    }
  }

  lemma Spaced(sends: seq<Send>, clock: Time, lag: nat, i: nat, j: nat)
    requires SendsOk(sends, clock, lag) && i + MAX_PER_HOUR <= j < |sends|
    ensures sends[j].at >= sends[i].at + HOUR - lag
  {
    assert SendOk(sends, i + MAX_PER_HOUR, lag) && SendOk(sends, i, lag);
    Ordered(sends, clock, lag, i + MAX_PER_HOUR, j);
  }

  predicate FlagsOk(t: Track) {
    && t.flying == (if t.p.sending then 1 else 0)
    && t.p.quietUntil <= t.clock + QUIET
    && (t.p.outstanding ==> t.p.quietUntil <= t.p.outExp + QUIET)
    && |t.p.sent| <= MAX_PER_HOUR
  }

  predicate LogOk(sends: seq<Send>, sent: seq<Time>, clock: Time, lag: nat) { SuffixOk(sends, sent, clock) && SendsOk(sends, clock, lag) }

  predicate TrackOk(t: Track, lag: nat) { FlagsOk(t) && LogOk(t.sends, t.p.sent, t.clock, lag) }

  lemma {:induction false} RecentFacts(sent: seq<Time>, now: Time)
    ensures var r := Recent(sent, now); var k := |sent| - |r|;
            k >= 0 && r == sent[k..] && (forall i | 0 <= i < k :: sent[i] + HOUR <= now) && (r != [] ==> now < r[0] + HOUR)
    decreases |sent|
  {
    if sent != [] && now >= sent[0] + HOUR {
      RecentFacts(sent[1..], now);
    }
  }

  lemma PruneKeeps(sends: seq<Send>, sent: seq<Time>, clock: Time, seen: Time, now: Time)
    requires SuffixOk(sends, sent, clock) && clock <= now && seen <= now
    ensures SuffixOk(sends, Recent(sent, seen), now)
  {
    RecentFacts(sent, seen);
    var r := Recent(sent, seen);
    var k, gone := |sent| - |r|, |sends| - |sent|;
    forall i | 0 <= i < |sends| - |r| ensures sends[i].seen + HOUR <= now {
      if i >= gone {
        assert sent[i - gone] == Seen(sends)[i];
      }
    }
    assert r == Seen(sends)[gone + k..];
  }

  lemma SendKeeps(sends: seq<Send>, sent: seq<Time>, clock: Time, seen: Time, lag: nat)
    requires SuffixOk(sends, sent, clock) && |sent| < MAX_PER_HOUR && SendsOk(sends, clock, lag) && clock - lag <= seen <= clock
    ensures SuffixOk(sends + [Send(clock, seen)], sent + [seen], clock) && SendsOk(sends + [Send(clock, seen)], clock, lag)
  {
    var more := sends + [Send(clock, seen)];
    assert Seen(more) == Seen(sends) + [seen];
    assert sent + [seen] == Seen(more)[|more| - |sent| - 1..];
    forall j: nat | j < |more| ensures SendOk(more, j, lag) {
      if j < |sends| {
        assert SendOk(sends, j, lag);
      }
    }
  }

  lemma TimePasses(sends: seq<Send>, sent: seq<Time>, clock: Time, now: Time, lag: nat)
    requires LogOk(sends, sent, clock, lag) && clock <= now
    ensures LogOk(sends, sent, now, lag)
  {}

  lemma EnsureLogs(sends: seq<Send>, p: Policy, clock: Time, seen: Time, a: Access, now: Time, lag: nat)
    requires LogOk(sends, p.sent, clock, lag) && clock <= now && now - lag <= seen <= now
    ensures var more := if EnsureVerdict(p, seen, a) == Sends then sends + [Send(now, seen)] else sends;
            LogOk(more, AfterEnsure(p, seen, a).sent, now, lag)
  {
    TimePasses(sends, p.sent, clock, now, lag);
    PruneKeeps(sends, p.sent, clock, seen, now);
    if EnsureVerdict(p, seen, a) == Sends {
      SendKeeps(sends, Recent(p.sent, seen), now, seen, lag);
    } else {
      assert AfterEnsure(p, seen, a).sent in {p.sent, Recent(p.sent, seen)};
    }
  }

  lemma FlagsKept(t: Track, e: Timed, lag: nat)
    requires FlagsOk(t) && Can(t, e, lag)
    ensures FlagsOk(Next(t, e))
  {
    if e.s.Ensures? {
      RecentFacts(t.p.sent, e.s.seen);
    }
  }

  lemma StepKeeps(t: Track, e: Timed, lag: nat)
    requires TrackOk(t, lag) && Can(t, e, lag)
    ensures TrackOk(Next(t, e), lag)
  {
    FlagsKept(t, e, lag);
    if e.s.Ensures? {
      EnsureLogs(t.sends, t.p, t.clock, e.s.seen, e.s.access, e.now, lag);
    } else {
      TimePasses(t.sends, t.p.sent, t.clock, e.now, lag);
    }
  }

  lemma {:induction false} RunKeeps(clock: Time, es: seq<Timed>, lag: nat)
    requires 0 <= clock && CanRun(Begin(clock), es, lag)
    ensures TrackOk(Run(Begin(clock), es, lag), lag)
    decreases |es|
  {
    if es != [] {
      RunKeeps(clock, es[..|es| - 1], lag);
      StepKeeps(Run(Begin(clock), es[..|es| - 1], lag), es[|es| - 1], lag);
    }
  }

  // ---- at most six an hour ----

  function CountIn(s: seq<Send>, from: Time, to: Time): nat
    decreases |s|
  {
    if s == [] then 0 else CountIn(s[..|s| - 1], from, to) + if from <= s[|s| - 1].at < to then 1 else 0
  }

  lemma {:induction false} CountSplit(s: seq<Send>, k: nat, from: Time, to: Time)
    requires k <= |s|
    ensures CountIn(s, from, to) <= CountIn(s[..k], from, to) + |s| - k
    decreases |s|
  {
    if k < |s| {
      CountSplit(s[..|s| - 1], k, from, to);
      assert s[..|s| - 1][..k] == s[..k];
    } else {
      assert s[..k] == s;
    }
  }

  lemma {:induction false} NoneBefore(s: seq<Send>, from: Time, to: Time)
    requires forall i | 0 <= i < |s| :: s[i].at < from
    ensures CountIn(s, from, to) == 0
    decreases |s|
  {
    if s != [] {
      NoneBefore(s[..|s| - 1], from, to);
    }
  }

  /** Sends six apart are at least so far apart that no window holds seven. */
  lemma {:induction false} WindowHoldsSix(s: seq<Send>, from: Time, to: Time)
    requires forall i, j | 0 <= i && i + MAX_PER_HOUR <= j < |s| :: s[j].at >= s[i].at + (to - from)
    ensures CountIn(s, from, to) <= MAX_PER_HOUR
    decreases |s|
  {
    if s != [] {
      var n := |s| - 1;
      if from <= s[n].at < to && |s| > MAX_PER_HOUR {
        var k := |s| - MAX_PER_HOUR;
        NoneBefore(s[..k], from, to);
        CountSplit(s, k, from, to);
      } else if |s| > MAX_PER_HOUR {
        WindowHoldsSix(s[..n], from, to);
      } else {
        CountSplit(s, 0, from, to);
      }
    }
  }

  /**
   In every run, at most six access requests are sent in any window of an hour,
   less the time by which a clock reading may lag its lock.
   */
  lemma SixPerHour(clock: Time, es: seq<Timed>, lag: nat, from: Time)
    requires 0 <= clock && CanRun(Begin(clock), es, lag)
    ensures CountIn(Run(Begin(clock), es, lag).sends, from, from + HOUR - lag) <= MAX_PER_HOUR
  {
    RunKeeps(clock, es, lag);
    var t := Run(Begin(clock), es, lag);
    forall i, j | 0 <= i && i + MAX_PER_HOUR <= j < |t.sends| ensures t.sends[j].at >= t.sends[i].at + HOUR - lag {
      Spaced(t.sends, t.clock, lag, i, j);
    }
    WindowHoldsSix(t.sends, from, from + HOUR - lag);
  }

  // ---- the lag matters ----

  const NO_SESSION := Access(AccessNone, 0, 0)

  /** k sends at lag, each unanswered; the first decided on the reading at 0. */
  function Burst(lag: nat, k: nat): seq<Timed> {
    if k == 0 then []
    else Burst(lag, k - 1) + [Timed(Ensures(if k == 1 then 0 else lag, NO_SESSION), lag)] + [Timed(Step.Answered(NoAnswer), lag)]
  }

  lemma RunSnoc(t: Track, es: seq<Timed>, e: Timed, lag: nat)
    requires CanRun(t, es, lag) && Can(Run(t, es, lag), e, lag)
    ensures CanRun(t, es + [e], lag) && Run(t, es + [e], lag) == Next(Run(t, es, lag), e)
  {}

  predicate IsBurst(t: Track, lag: nat, k: nat) {
    && t.p == NEW.(sent := Seen(t.sends)) && t.clock == (if k == 0 then 0 else lag) && t.flying == 0 && |t.sends| == k
    && forall i | 0 <= i < k :: t.sends[i] == Send(lag, if i == 0 then 0 else lag)
  }

  lemma BurstStep(t: Track, lag: nat, k: nat, e: Timed)
    requires 0 < k <= MAX_PER_HOUR && lag < HOUR && IsBurst(t, lag, k - 1)
    requires e == Timed(Ensures(if k == 1 then 0 else lag, NO_SESSION), lag)
    ensures Can(t, e, lag) && Can(Next(t, e), Timed(Step.Answered(NoAnswer), lag), lag)
    ensures IsBurst(Next(Next(t, e), Timed(Step.Answered(NoAnswer), lag)), lag, k)
  {}

  lemma {:induction false} BurstRuns(lag: nat, k: nat)
    requires k <= MAX_PER_HOUR && lag < HOUR
    ensures CanRun(Begin(0), Burst(lag, k), lag) && IsBurst(Run(Begin(0), Burst(lag, k), lag), lag, k)
  {
    if k > 0 {
      BurstRuns(lag, k - 1);
      var es := Burst(lag, k - 1);
      var e := Timed(Ensures(if k == 1 then 0 else lag, NO_SESSION), lag);
      BurstStep(Run(Begin(0), es, lag), lag, k, e);
      RunSnoc(Begin(0), es, e, lag);
      RunSnoc(Begin(0), es + [e], Timed(Step.Answered(NoAnswer), lag), lag);
    }
  }

  /** If es can run, it sends at most six requests in the hour after from. */
  predicate HourHolds(clock: nat, es: seq<Timed>, lag: nat, from: Time) {
    CanRun(Begin(clock), es, lag) ==> CountIn(Run(Begin(clock), es, lag).sends, from, from + HOUR) <= MAX_PER_HOUR
  }

  ghost predicate NeverSeven(lag: nat) {
    forall clock: nat, es: seq<Timed>, from: Time :: HourHolds(clock, es, lag, from)
  }

  /** With a lag of less than an hour, seven requests in one. */
  lemma SevenInAnHour(lag: nat) returns (es: seq<Timed>)
    requires 0 < lag < HOUR
    ensures CanRun(Begin(0), es, lag) && CountIn(Run(Begin(0), es, lag).sends, lag, lag + HOUR) == MAX_PER_HOUR + 1
  {
    BurstRuns(lag, 6);
    var t := Run(Begin(0), Burst(lag, 6), lag);
    var e := Timed(Ensures(HOUR, NO_SESSION), HOUR);
    RecentFacts(t.p.sent, HOUR);
    RunSnoc(Begin(0), Burst(lag, 6), e, lag);
    es := Burst(lag, 6) + [e];
    var sends := Next(t, e).sends;
    assert IsSend(t.p, e) by {
      assert t.p.sent[0] + HOUR <= HOUR;
    }
    assert forall i | 0 <= i < |sends| :: lag <= sends[i].at < lag + HOUR;
    CountAll(sends, lag, lag + HOUR);
  }

  /** A run is also one in which the clock may lag more. */
  lemma {:induction false} MoreLag(t: Track, es: seq<Timed>, lag: nat, more: nat)
    requires CanRun(t, es, lag) && lag <= more
    ensures CanRun(t, es, more) && Run(t, es, more) == Run(t, es, lag)
    decreases |es|
  {
    if es != [] {
      MoreLag(t, es[..|es| - 1], lag, more);
    }
  }

  /** No hour ever holds seven requests exactly when the clock is read under the lock. */
  lemma SixInAnyHourExactly(lag: nat)
    ensures NeverSeven(lag) <==> lag == 0
  {
    if lag == 0 {
      forall clock: nat, es: seq<Timed>, from: Time ensures HourHolds(clock, es, lag, from) {
        if CanRun(Begin(clock), es, lag) {
          SixPerHour(clock, es, lag, from);
        }
      }
    } else {
      var es := SevenInAnHour(1);
      MoreLag(Begin(0), es, 1, lag);
      assert !HourHolds(0, es, lag, 1);
    }
  }

  lemma {:induction false} CountAll(s: seq<Send>, from: Time, to: Time)
    requires forall i | 0 <= i < |s| :: from <= s[i].at < to
    ensures CountIn(s, from, to) == |s|
    decreases |s|
  {
    if s != [] {
      CountAll(s[..|s| - 1], from, to);
    }
  }

  /** At most one request is on its way. */
  lemma OneInFlight(clock: Time, es: seq<Timed>, lag: nat)
    requires 0 <= clock && CanRun(Begin(clock), es, lag)
    ensures Run(Begin(clock), es, lag).flying <= 1
  {
    RunKeeps(clock, es, lag);
  }

  // ---- promised times ----

  /** From this state on nothing is sent before u. */
  predicate HoldsBack(p: Policy, clock: Time, u: Time) {
    || u <= clock || u <= p.quietUntil || u <= p.allowedAfter
    || (|p.sent| == MAX_PER_HOUR && u <= p.sent[0] + HOUR)
  }

  predicate Blocked(t: Track, u: Time) { HoldsBack(t.p, t.clock, u) }

  /** quietUntil and allowedAfter never move back, and quietUntil is at most ten minutes ahead. */
  lemma QuietGrows(t: Track, e: Timed, lag: nat)
    requires FlagsOk(t) && Can(t, e, lag)
    ensures t.p.quietUntil <= Next(t, e).p.quietUntil <= e.now + QUIET
    ensures t.p.allowedAfter <= Next(t, e).p.allowedAfter
  {}

  lemma BlockedStays(t: Track, e: Timed, lag: nat, u: Time)
    requires FlagsOk(t) && Can(t, e, lag) && Blocked(t, u)
    ensures Blocked(Next(t, e), u) && (IsSend(t.p, e) ==> u <= e.now)
  {}

  /** Steps of a run after which nothing is sent before u: a time Ensure answered with, a denial or an end in the app, a too_soon. */
  predicate Promises(t: Track, e: Timed, u: Time) {
    || (e.s.Ensures? && EnsureVerdict(t.p, e.s.seen, e.s.access).AnswersUntil? && u == EnsureVerdict(t.p, e.s.seen, e.s.access).u)
    || (e.s in {SessionDenied, SessionEndedInApp} && u == e.now + QUIET)
    || (e.s.Answered? && e.s.answer.TooSoon? && u == (if e.s.answer.after.Some? then e.s.answer.after.value else e.now + QUIET))
  }

  lemma PromiseBlocks(t: Track, e: Timed, lag: nat, u: Time)
    requires FlagsOk(t) && Can(t, e, lag) && Promises(t, e, u)
    ensures Blocked(Next(t, e), u)
  {
    if e.s.Ensures? {
      RecentFacts(t.p.sent, e.s.seen);
    }
  }

  lemma {:induction false} PrefixCanRun(t: Track, es: seq<Timed>, lag: nat, k: nat)
    requires CanRun(t, es, lag) && k <= |es|
    ensures CanRun(t, es[..k], lag)
    decreases |es|
  {
    if k < |es| {
      assert es[..|es| - 1][..k] == es[..k];
      PrefixCanRun(t, es[..|es| - 1], lag, k);
    } else {
      assert es[..k] == es;
    }
  }

  /** The run up to step k. */
  function At(clock: Time, es: seq<Timed>, lag: nat, k: nat): Track
    requires CanRun(Begin(clock), es, lag) && k <= |es|
  {
    PrefixCanRun(Begin(clock), es, lag, k);
    Run(Begin(clock), es[..k], lag)
  }

  lemma AtStep(clock: Time, es: seq<Timed>, lag: nat, k: nat)
    requires 0 <= clock && CanRun(Begin(clock), es, lag) && k < |es|
    ensures TrackOk(At(clock, es, lag, k), lag) && Can(At(clock, es, lag, k), es[k], lag)
    ensures At(clock, es, lag, k + 1) == Next(At(clock, es, lag, k), es[k])
  {
    PrefixCanRun(Begin(clock), es, lag, k);
    PrefixCanRun(Begin(clock), es, lag, k + 1);
    assert es[..k + 1][..k] == es[..k];
    RunKeeps(clock, es[..k], lag);
  }

  lemma {:induction false} StaysBlocked(clock: Time, es: seq<Timed>, lag: nat, i: nat, j: nat, u: Time)
    requires 0 <= clock && CanRun(Begin(clock), es, lag) && i <= j <= |es| && Blocked(At(clock, es, lag, i), u)
    ensures Blocked(At(clock, es, lag, j), u)
    decreases j - i
  {
    if i < j {
      StaysBlocked(clock, es, lag, i, j - 1, u);
      AtStep(clock, es, lag, j - 1);
      BlockedStays(At(clock, es, lag, j - 1), es[j - 1], lag, u);
    }
  }

  /**
   What the operator is told and what the vault asked for is kept: after
   "no new request is sent before u", ten minutes after a denial or an end in
   the app is processed, and before a reported allowed_after, nothing is sent.
   */
  lemma NothingSentBefore(clock: Time, es: seq<Timed>, lag: nat, i: nat, j: nat, u: Time)
    requires 0 <= clock && CanRun(Begin(clock), es, lag) && i < j < |es|
    requires Promises(At(clock, es, lag, i), es[i], u) && IsSend(At(clock, es, lag, j).p, es[j])
    ensures u <= es[j].now
  {
    AtStep(clock, es, lag, i);
    PromiseBlocks(At(clock, es, lag, i), es[i], lag, u);
    StaysBlocked(clock, es, lag, i + 1, j, u);
    AtStep(clock, es, lag, j);
    BlockedStays(At(clock, es, lag, j), es[j], lag, u);
  }

  /** A request is sent only without an active session, not while the vault is held, one is on its way or one is unanswered. */
  lemma SendsOnlyWhenIdle(clock: Time, es: seq<Timed>, lag: nat, j: nat)
    requires 0 <= clock && CanRun(Begin(clock), es, lag) && j < |es| && IsSend(At(clock, es, lag, j).p, es[j])
    ensures var t := At(clock, es, lag, j);
            && !t.p.held && t.flying == 0 && es[j].s.access.state != AccessUnknown && !ActiveAt(es[j].s.access, es[j].s.seen)
            && (t.p.outstanding ==> t.p.outExp + QUIET <= es[j].now)
  {
    AtStep(clock, es, lag, j);
  }

  // ---- the Manager ----

  class Manager {
    var outstanding: bool
    var outExp: Time
    var sending: bool
    var quietUntil: Time
    var why: Why
    var allowedAfter: Time
    var sent: seq<Time>
    var held: bool

    function View(): Policy reads this { Policy(outstanding, outExp, sending, quietUntil, why, allowedAfter, sent, held) }

    constructor ()
      ensures View() == NEW
    {
      outstanding, outExp, sending, quietUntil, why, allowedAfter, sent, held := false, 0, false, 0, Unanswered, 0, [], false;
    }

    method PruneSent(now: Time)
      modifies this`sent
      ensures sent == Recent(old(sent), now)
    {
      var i := 0;
      while i < |sent| && now >= sent[i] + HOUR
        invariant 0 <= i <= |sent| && Recent(sent, now) == Recent(sent[i..], now)
      {
        assert sent[i..][1..] == sent[i + 1..];
        i := i + 1;
      }
      sent := sent[i..];
    }

    /** The region of Ensure under the lock; now was read before it. */
    method Ensure(now: Time, a: Access) returns (v: Verdict)
      modifies this
      ensures v == EnsureVerdict(old(View()), now, a) && View() == AfterEnsure(old(View()), now, a)
    {
      if held {
        return AnswersHeld;
      }
      if ActiveAt(a, now) {
        return HasSession;
      }
      if a.state == AccessUnknown {
        return ChecksSession;
      }
      if outstanding && now >= outExp {
        outstanding := false;
        quietUntil, why := outExp + QUIET, Unanswered;
      }
      if outstanding || sending {
        return AnswersPending;
      }
      if now < quietUntil {
        return AnswersUntil(quietUntil, why);
      }
      if now < allowedAfter {
        return AnswersUntil(allowedAfter, Unanswered);
      }
      PruneSent(now);
      if |sent| >= MAX_PER_HOUR {
        return AnswersUntil(sent[0] + HOUR, Unanswered);
      }
      sending := true;
      sent := sent + [now];
      return Sends;
    }

    /** The region of request after the answer. */
    method TakeAnswer(answer: Answer, now: Time)
      modifies this
      ensures View() == AfterAnswer(old(View()), answer, now)
    {
      sending := false;
      match answer
      case NoAnswer =>
      case Accepted(exp) =>
        outstanding, outExp := true, now + QUIET;
        if exp.Some? && exp.value > now {
          outExp := exp.value;
        }
      case TooSoon(after) =>
        var until := if after.Some? then after.value else now + QUIET;
        if until > allowedAfter {
          allowedAfter := until;
        }
      case OwnerCheck => held := true;
      case OtherRefusal =>
    }

    /** OnEvent, OnStatus and OnAnswer. */
    method Take(s: Step, now: Time)
      requires !s.Ensures? && !s.Answered?
      modifies this
      ensures View() == After(old(View()), s, now)
    {
      match s
      case SessionGranted => outstanding := false;
      case SessionDenied =>
        outstanding := false;
        quietUntil, why := now + QUIET, Denied;
      case SessionEndedInApp =>
        outstanding := false;
        quietUntil, why := now + QUIET, EndedInApp;
      case StatusIs(isHeld) => held := isHeld;
      case HeldAnswer => held := true;
    }
  }
}
