/**
 Messages come in any order: what a run has learned is undone only by the full
 answer to a list sent after it was learned, and what a nil from List means.
 */
module LeashOrder {
  import opened Common
  import opened Grants
  import opened LeashSpec
  import opened LeashInvariants

  /** The state before event k of a run. */
  function At(c: Agent, m: Mgr, es: seq<Event>, k: nat): Mgr
    requires Legal(c, m, es) && k <= |es|
  {
    LegalPrefix(c, m, es, k);
    Run(c, m, es[..k])
  }

  lemma {:induction false} LegalPrefix(c: Agent, m: Mgr, es: seq<Event>, k: nat)
    requires Legal(c, m, es) && k <= |es|
    ensures Legal(c, m, es[..k])
    decreases |es|
  {
    if k < |es| {
      assert es[..|es| - 1][..k] == es[..k];
      LegalPrefix(c, m, es[..|es| - 1], k);
    } else {
      assert es[..k] == es;
    }
  }

  lemma AtStep(c: Agent, m: Mgr, es: seq<Event>, k: nat)
    requires Legal(c, m, es) && k < |es|
    ensures Enabled(At(c, m, es, k), es[k]) && At(c, m, es, k + 1) == Step(c, At(c, m, es, k), es[k])
  {
    LegalPrefix(c, m, es, k + 1);
    assert es[..k + 1][..k] == es[..k];
  }

  lemma {:induction false} AtKeeps(ok: iset<Grant>, c: Agent, m: Mgr, es: seq<Event>, k: nat)
    requires Covers(ok, c.parse) && Inv(ok, c, m) && Legal(c, m, es) && k <= |es|
    ensures Inv(ok, c, At(c, m, es, k))
  {
    LegalPrefix(c, m, es, k);
    InvRun(ok, c, m, es[..k]);
  }

  /** The answer to a list this process sent, with nothing learned since it was sent. */
  predicate FullAnswer(m: Mgr, e: Event) {
    && e.Delivered? && e.msg.re.Some? && e.msg.typ == GrantList && e.msg.ok
    && IsCurrent(m.flow, e.msg.re.value) && WellFormed(e.msg.body)
  }

  predicate IsUpdate(e: Event) { e.Delivered? && e.msg.re.None? && e.msg.typ == GrantUpdated }

  predicate IsListAnswer(e: Event) { e.Delivered? && e.msg.re.Some? && e.msg.typ == GrantList && e.msg.ok }

  predicate IsDisowned(e: Event) { e.RefreshEnded? && e.answer == Refused(NotFound) }

  predicate IsForbidden(e: Event) { e.RefreshEnded? && e.answer == Refused(Forbidden) }

  /** A list answer that only narrowed, and did take something away. */
  predicate NarrowingAnswer(c: Agent, m: Mgr, e: Event) {
    && IsListAnswer(e) && !FullAnswer(m, e) && WellFormed(e.msg.body)
    && Narrows(m.core, Incoming(c, ParseAll(c.parse, e.msg.body.grants.value)), e.msg.body.suspended.value)
  }

  /** e tells something a list sent earlier may not reflect. */
  predicate Learns(c: Agent, m: Mgr, e: Event) {
    IsUpdate(e) || IsDisowned(e) || IsForbidden(e) || NarrowingAnswer(c, m, e)
  }

  predicate Holds(m: Core, g: Grant) { exists h <- m.grants :: h.id == g.id && h.version == g.version }

  /** b presents something a did not. */
  predicate Widens(a: Core, b: Core) {
    || (exists g <- b.grants :: !Holds(a, g))
    || (exists id <- a.dead :: id !in b.dead)
    || (a.suspended && !b.suspended)
  }

  /** b lost a grant, is suspended where a was not, or knows one more grant disowned. */
  predicate TakesAway(a: Core, b: Core) {
    || (exists g <- a.grants :: g !in b.grants)
    || (exists id <- b.dead :: id !in a.dead)
    || (!a.suspended && b.suspended)
  }

  lemma NarrowOnlyRemoves(m: Core, gs: seq<Grant>, suspended: bool, now: Time)
    ensures !Widens(m, Narrow(m, gs, suspended, now))
    ensures TakesAway(m, Narrow(m, gs, suspended, now)) ==> Narrows(m, gs, suspended)
  {
    var r := Narrow(m, gs, suspended, now);
    FilterFacts(IsConfirmed(ById(gs)), m.grants);
  }

  /** Only the full answer to a current list widens what is held; everything else may only narrow it. */
  lemma OnlyFullAnswersWiden(c: Agent, m: Mgr, e: Event)
    requires Enabled(m, e) && Widens(m.core, Step(c, m, e).core)
    ensures FullAnswer(m, e)
  {
    match e
    case Delivered(msg, now) =>
      if WellFormed(msg.body) {
        NarrowOnlyRemoves(m.core, Incoming(c, ParseAll(c.parse, msg.body.grants.value)), msg.body.suspended.value, now);
      }
    case _ =>
  }

  /** gen moves exactly when something is learned, and only upward. */
  lemma GenMovesOnLearning(c: Agent, m: Mgr, e: Event)
    requires Enabled(m, e)
    ensures m.flow.gen <= Step(c, m, e).flow.gen
    ensures m.flow.gen < Step(c, m, e).flow.gen <==> Learns(c, m, e)
  {
    match e
    case Delivered(msg, now) => DeliveryMovesGen(c, m, e);
    case _ =>
  }

  lemma DeliveryMovesGen(c: Agent, m: Mgr, e: Event)
    requires e.Delivered?
    ensures m.flow.gen <= Deliver(c, m, e.msg, e.now).flow.gen
    ensures m.flow.gen < Deliver(c, m, e.msg, e.now).flow.gen <==> IsUpdate(e) || NarrowingAnswer(c, m, e)
  {
    if IsListAnswer(e) {
      if IsCurrent(m.flow, e.msg.re.value) {
      } else if WellFormed(e.msg.body) {
      }
    }
  }

  /** Nothing is taken away without being learned, but by the full answer to a current list. */
  lemma TakenAwayIsLearned(c: Agent, m: Mgr, e: Event)
    requires Enabled(m, e) && TakesAway(m.core, Step(c, m, e).core)
    ensures Learns(c, m, e) || FullAnswer(m, e)
  {}

  /** A list recorded with a later gen than g was sent after i. */
  lemma {:induction false} SentSince(c: Agent, m: Mgr, es: seq<Event>, i: nat, j: nat, id: Id, g: nat)
    requires Legal(c, m, es) && i <= j <= |es|
    requires id in At(c, m, es, i).flow.lists ==> At(c, m, es, i).flow.lists[id] <= g
    requires id in At(c, m, es, j).flow.lists && At(c, m, es, j).flow.lists[id] > g
    ensures exists s :: i <= s < j && es[s] == ListSent(id)
    decreases j - i
  {
    if i < j {
      AtStep(c, m, es, j - 1);
      if es[j - 1] != ListSent(id) {
        ListsOnlyShrink(c, At(c, m, es, j - 1), es[j - 1], id);
        SentSince(c, m, es, i, j - 1, id, g);
      }
    }
  }

  lemma ListsOnlyShrink(c: Agent, m: Mgr, e: Event, id: Id)
    requires Enabled(m, e) && e != ListSent(id) && id in Step(c, m, e).flow.lists
    ensures id in m.flow.lists && Step(c, m, e).flow.lists[id] == m.flow.lists[id]
  {
    match e
    case Delivered(msg, now) => DeliveryFlow(c, m, msg, now);
    case _ =>
  }

  lemma SetFlow(c: Agent, m: Mgr, body: Body, full: bool, now: Time)
    ensures var r := ApplySet(c, m, body, full, now).flow;
            r.lists == m.flow.lists && r.flight == m.flow.flight && r.listing == m.flow.listing
  {}

  lemma DeliveryFlow(c: Agent, m: Mgr, msg: Message, now: Time)
    ensures var r := Deliver(c, m, msg, now).flow;
            && r.lists == (if msg.re.Some? && msg.typ == GrantList && msg.ok then m.flow.lists - {msg.re.value} else m.flow.lists)
            && r.flight == m.flow.flight && r.listing == m.flow.listing
  {
    if msg.re.None? {
      SetFlow(c, m, msg.body, false, now);
    } else {
      SetFlow(c, m.(flow := m.flow.(lists := m.flow.lists - {msg.re.value})), msg.body, IsCurrent(m.flow, msg.re.value), now);
    }
  }

  lemma {:induction false} GenGrows(c: Agent, m: Mgr, es: seq<Event>, i: nat, j: nat)
    requires Legal(c, m, es) && i <= j <= |es|
    ensures At(c, m, es, i).flow.gen <= At(c, m, es, j).flow.gen
    decreases j - i
  {
    if i < j {
      AtStep(c, m, es, j - 1);
      GenMovesOnLearning(c, At(c, m, es, j - 1), es[j - 1]);
      GenGrows(c, m, es, i, j - 1);
    }
  }

  /**
   Whatever order the messages come in: what was learned at event i is undone
   at a later event j only by the full answer to a list sent between the two.
   */
  lemma UndoneOnlyByLaterList(ok: iset<Grant>, c: Agent, m: Mgr, es: seq<Event>, i: nat, j: nat)
    requires Covers(ok, c.parse) && Inv(ok, c, m) && Legal(c, m, es) && i < j < |es|
    requires Learns(c, At(c, m, es, i), es[i])
    requires Enabled(At(c, m, es, j), es[j]) && Widens(At(c, m, es, j).core, Step(c, At(c, m, es, j), es[j]).core)
    ensures FullAnswer(At(c, m, es, j), es[j])
    ensures exists s :: i < s < j && es[s] == ListSent(es[j].msg.re.value)
  {
    OnlyFullAnswersWiden(c, At(c, m, es, j), es[j]);
    var id := es[j].msg.re.value;
    AtStep(c, m, es, i);
    GenMovesOnLearning(c, At(c, m, es, i), es[i]);
    AtKeeps(ok, c, m, es, i);
    GenGrows(c, m, es, i + 1, j);
    if id in At(c, m, es, i + 1).flow.lists {
      ListsOnlyShrink(c, At(c, m, es, i), es[i], id);
    }
    SentSince(c, m, es, i + 1, j, id, At(c, m, es, i).flow.gen);
  }

  // ---- List ----

  /** Not a region of the goroutine that runs List. */
  predicate OtherThread(e: Event) {
    !e.ListEntered? && !e.ListSent? && !e.ListEnded? && !e.ListGaveUp? && !e.ListLeft?
  }

  /** The answer to id, applied in full: well formed, nothing learned since it was sent, no older version in it. */
  predicate AppliedInFull(c: Agent, m: Mgr, e: Event, id: Id) {
    && FullAnswer(m, e) && e.msg.re == Some(id)
    && !DropsOlder(m.core, Incoming(c, ParseAll(c.parse, e.msg.body.grants.value)))
  }

  /** A grant set, a session start, not_found or forbidden. */
  predicate Disturbs(e: Event) {
    || IsUpdate(e) || IsListAnswer(e) || IsDisowned(e) || IsForbidden(e)
    || (e.Delivered? && e.msg.re.None? && e.msg.typ == SessionGranted)
  }

  /** At which events of a run the answer to id is applied in full. */
  function AppliedAt(c: Agent, m: Mgr, es: seq<Event>, id: Id): nat -> bool
    requires Legal(c, m, es)
  {
    (k: nat) => k < |es| && Legal(c, m, es) && AppliedInFull(c, At(c, m, es, k), es[k], id)
  }

  /** Of the first n events exactly event k is applied in full, and no other disturbs it. */
  predicate OnlyAt(applied: nat -> bool, es: seq<Event>, n: nat, k: nat)
    requires n <= |es|
  {
    applied(k) && forall j | 0 <= j < n && j != k :: !Disturbs(es[j])
  }

  predicate OnceIn(applied: nat -> bool, es: seq<Event>, n: nat)
    requires n <= |es|
  {
    exists k: nat | k < n :: OnlyAt(applied, es, n, k)
  }

  /** Between a list's sending and es's end its answer was applied in full, and nothing else disturbed it. */
  predicate Confirmed(c: Agent, m: Mgr, es: seq<Event>, id: Id, n: nat)
    requires Legal(c, m, es) && n <= |es|
  {
    OnceIn(AppliedAt(c, m, es, id), es, n)
  }

  /** What one region of another goroutine does to the list in flight, while needList stays down. */
  predicate Waits(c: Agent, m: Mgr, e: Event, next: Mgr, id: Id) {
    if Disturbs(e) then AppliedInFull(c, m, e, id) && id in m.flow.lists && id !in next.flow.lists
    else next.flow.lists == m.flow.lists
  }

  lemma StepOfOther(c: Agent, m: Mgr, e: Event, id: Id)
    requires FlowOk(m.flow) && m.flow.flight == Some(id) && Enabled(m, e) && OtherThread(e)
    requires !Step(c, m, e).flow.needList
    ensures !m.flow.needList && Waits(c, m, e, Step(c, m, e), id)
  {}

  lemma OtherKeepsFlight(c: Agent, m: Mgr, e: Event)
    requires Enabled(m, e) && OtherThread(e)
    ensures Step(c, m, e).flow.flight == m.flow.flight && Step(c, m, e).flow.listing == m.flow.listing
  {
    match e
    case Delivered(msg, now) => DeliveryFlow(c, m, msg, now);
    case _ =>
  }

  lemma {:induction false} FlightKept(c: Agent, m: Mgr, es: seq<Event>, k: nat)
    requires Legal(c, m, es) && k <= |es| && forall e <- es :: OtherThread(e)
    ensures At(c, m, es, k).flow.flight == m.flow.flight && At(c, m, es, k).flow.listing == m.flow.listing
  {
    if k > 0 {
      FlightKept(c, m, es, k - 1);
      AtStep(c, m, es, k - 1);
      OtherKeepsFlight(c, At(c, m, es, k - 1), es[k - 1]);
    }
  }

  /** before, after: whether the list is still out before and after event n. */
  lemma WaitsOn(applied: nat -> bool, es: seq<Event>, n: nat, before: bool, after: bool)
    requires n < |es| && if Disturbs(es[n]) then applied(n) && before && !after else before == after
    requires if before then forall j | 0 <= j < n :: !Disturbs(es[j]) else OnceIn(applied, es, n)
    ensures if after then forall j | 0 <= j < n + 1 :: !Disturbs(es[j]) else OnceIn(applied, es, n + 1)
  {
    if !before {
      var k: nat :| k < n && OnlyAt(applied, es, n, k);
      assert OnlyAt(applied, es, n + 1, k);
    } else if Disturbs(es[n]) {
      assert OnlyAt(applied, es, n + 1, n);
    }
  }

  /** While needList stays down, the answer is either still out or was applied in full, once, and nothing else came. */
  lemma {:induction false} Undisturbed(ok: iset<Grant>, c: Agent, m: Mgr, es: seq<Event>, id: Id, n: nat)
    requires Covers(ok, c.parse) && Inv(ok, c, m) && Legal(c, m, es) && n <= |es|
    requires m.flow.flight == Some(id) && id in m.flow.lists && forall e <- es :: OtherThread(e)
    requires !At(c, m, es, n).flow.needList
    ensures id in At(c, m, es, n).flow.lists ==> forall j | 0 <= j < n :: !Disturbs(es[j])
    ensures id !in At(c, m, es, n).flow.lists ==> Confirmed(c, m, es, id, n)
    decreases n
  {
    if n > 0 {
      AtStep(c, m, es, n - 1);
      AtKeeps(ok, c, m, es, n - 1);
      FlightKept(c, m, es, n - 1);
      StepOfOther(c, At(c, m, es, n - 1), es[n - 1], id);
      Undisturbed(ok, c, m, es, id, n - 1);
      var before, after := At(c, m, es, n - 1), At(c, m, es, n);
      WaitsOn(AppliedAt(c, m, es, id), es, n - 1, id in before.flow.lists, id in after.flow.lists);
    }
  }

  /**
   When the answer to a list is taken and List returns nil, that answer was
   applied in full, and no other grant set, session start, not_found or
   forbidden came between the list's sending and then.
   */
  lemma NilMeansConfirmed(ok: iset<Grant>, c: Agent, m: Mgr, es: seq<Event>, id: Id, a: Answer)
    requires Covers(ok, c.parse) && Inv(ok, c, m) && Legal(c, m, es)
    requires m.flow.flight == Some(id) && id in m.flow.lists && forall e <- es :: OtherThread(e)
    requires ListOutcome(Run(c, m, es).flow, id, a) == Done(None)
    ensures Confirmed(c, m, es, id, |es|) && Run(c, m, es).flow.listed
  {
    assert es[..|es|] == es;
    Undisturbed(ok, c, m, es, id, |es|);
  }

  // ---- what listed means, and a start without lists ----

  /** A session start or end, a set that cannot be read, or a vault that asks for a session. */
  predicate Unlists(m: Mgr, e: Event) {
    || (e.Delivered? && e.msg.re.None? && (e.msg.typ == SessionGranted || e.msg.typ == SessionEnded))
    || ((IsUpdate(e) || IsListAnswer(e)) && !WellFormed(e.msg.body))
    || (e.ListEnded? && e.answer == Refused(SessionRequired))
    || (e.RefreshEnded? && e.answer == Refused(SessionRequired))
  }

  function UnlistsAt(c: Agent, m: Mgr, es: seq<Event>): nat -> bool
    requires Legal(c, m, es)
  {
    (k: nat) => k < |es| && Legal(c, m, es) && Unlists(At(c, m, es, k), es[k])
  }

  function AnsweredAt(c: Agent, m: Mgr, es: seq<Event>): nat -> bool
    requires Legal(c, m, es)
  {
    (k: nat) => k < |es| && Legal(c, m, es) && FullAnswer(At(c, m, es, k), es[k])
  }

  predicate NoneIn(p: nat -> bool, k: nat, n: nat) { forall j: nat | k <= j < n :: !p(j) }

  /** Before n, answered last held after unlisted last did. */
  predicate AnsweredLast(answered: nat -> bool, unlists: nat -> bool, n: nat) {
    exists k: nat | k < n :: answered(k) && NoneIn(unlists, k + 1, n)
  }

  lemma ListedStep(c: Agent, m: Mgr, e: Event)
    requires Enabled(m, e)
    ensures Step(c, m, e).flow.listed <==> FullAnswer(m, e) || (m.flow.listed && !Unlists(m, e))
  {}

  lemma AnsweredNext(answered: nat -> bool, unlists: nat -> bool, n: nat)
    ensures AnsweredLast(answered, unlists, n + 1) <==> answered(n) || (AnsweredLast(answered, unlists, n) && !unlists(n))
    ensures NoneIn(unlists, 0, n + 1) <==> NoneIn(unlists, 0, n) && !unlists(n)
  {}

  /**
   listed, exactly: a full answer came and nothing unlisted since, or it was
   so from the start.
   */
  lemma {:induction false} ListedExactlySince(c: Agent, m: Mgr, es: seq<Event>, n: nat)
    requires Legal(c, m, es) && n <= |es|
    ensures At(c, m, es, n).flow.listed <==>
              (m.flow.listed && NoneIn(UnlistsAt(c, m, es), 0, n)) || AnsweredLast(AnsweredAt(c, m, es), UnlistsAt(c, m, es), n)
  {
    if n > 0 {
      ListedExactlySince(c, m, es, n - 1);
      AtStep(c, m, es, n - 1);
      ListedStep(c, At(c, m, es, n - 1), es[n - 1]);
      AnsweredNext(AnsweredAt(c, m, es), UnlistsAt(c, m, es), n - 1);
    }
  }

  /** Before a process sends its first list, whatever arrives only narrows what it started with. */
  lemma {:induction false} BeforeAnyList(c: Agent, m: Mgr, es: seq<Event>)
    requires Legal(c, m, es) && m.flow.lists == map[] && forall e <- es :: !e.ListSent?
    ensures !Widens(m.core, Run(c, m, es).core) && Run(c, m, es).flow.lists == map[]
    decreases |es|
  {
    if es != [] {
      var n := |es| - 1;
      BeforeAnyList(c, m, es[..n]);
      var before := Run(c, m, es[..n]);
      var r := Step(c, before, es[n]);
      if Widens(before.core, r.core) {
        OnlyFullAnswersWiden(c, before, es[n]);
        assert false;
      }
      forall id | id in r.flow.lists ensures false {
        ListsOnlyShrink(c, before, es[n], id);
      }
      forall g <- r.core.grants ensures Holds(m.core, g) {
        assert Holds(before.core, g);
        var h :| h in before.core.grants && h.id == g.id && h.version == g.version;
        assert Holds(m.core, h);
      }
    }
  }

  // ---- after a list's answer was taken ----

  lemma NoListStep(c: Agent, m: Mgr, e: Event)
    requires Enabled(m, e) && OtherThread(e) && m.flow.lists == map[]
    ensures Step(c, m, e).flow.lists == map[]
    ensures Step(c, m, e).flow.listed <==> m.flow.listed && !Unlists(m, e)
    ensures Step(c, m, e).flow.needList <==> m.flow.needList || Disturbs(e)
  {
    forall id | id in Step(c, m, e).flow.lists ensures false {
      ListsOnlyShrink(c, m, e, id);
    }
    ListedStep(c, m, e);
  }

  predicate NoneDisturbs(es: seq<Event>, n: nat)
    requires n <= |es|
  {
    forall j | 0 <= j < n :: !Disturbs(es[j])
  }

  lemma UnlistsAtIs(c: Agent, m: Mgr, es: seq<Event>, n: nat)
    requires Legal(c, m, es) && n < |es|
    ensures UnlistsAt(c, m, es)(n) <==> Unlists(At(c, m, es, n), es[n])
  {}

  lemma GapNext(unlists: nat -> bool, es: seq<Event>, n: nat, listed: bool, stays: bool, wanted: bool, wants: bool)
    requires n < |es| && (listed <==> NoneIn(unlists, 0, n)) && (!wanted <==> NoneDisturbs(es, n))
    requires (stays <==> listed && !unlists(n)) && (wants <==> wanted || Disturbs(es[n]))
    ensures (stays <==> NoneIn(unlists, 0, n + 1)) && (!wants <==> NoneDisturbs(es, n + 1))
  {}

  /**
   Between the region that took a list's answer and List's return other
   goroutines run: what was confirmed is still listed, exactly if none of them
   unlists it, and no list is wanted, exactly if none disturbs it.
   */
  lemma {:induction false} AfterConfirmed(c: Agent, m: Mgr, es: seq<Event>, n: nat)
    requires Legal(c, m, es) && n <= |es| && forall e <- es :: OtherThread(e)
    requires m.flow.lists == map[] && m.flow.listed && !m.flow.needList
    ensures At(c, m, es, n).flow.lists == map[]
    ensures At(c, m, es, n).flow.listed <==> NoneIn(UnlistsAt(c, m, es), 0, n)
    ensures !At(c, m, es, n).flow.needList <==> NoneDisturbs(es, n)
  {
    if n > 0 {
      AfterConfirmed(c, m, es, n - 1);
      AtStep(c, m, es, n - 1);
      NoListStep(c, At(c, m, es, n - 1), es[n - 1]);
      UnlistsAtIs(c, m, es, n - 1);
      var was, is_ := At(c, m, es, n - 1).flow, At(c, m, es, n).flow;
      GapNext(UnlistsAt(c, m, es), es, n - 1, was.listed, is_.listed, was.needList, is_.needList);
    }
  }

  /** An update or a session start in that gap, and List returns nil with a list wanted, or with nothing listed. */
  lemma NilOvertaken(c: Agent, m: Mgr, body: Body, now: Time)
    requires m.flow.listing && m.flow.flight.None? && m.flow.lists == map[] && m.flow.listed && !m.flow.needList && now != 0
    ensures var e := Delivered(Message(GrantUpdated, None, true, NoCode, body), now);
            && Enabled(m, e) && OtherThread(e) && Enabled(Step(c, m, e), ListLeft)
            && Step(c, Step(c, m, e), ListLeft).flow.needList
    ensures var e := Delivered(Message(SessionGranted, None, true, NoCode, body), now);
            && Enabled(m, e) && OtherThread(e) && Enabled(Step(c, m, e), ListLeft)
            && !Step(c, Step(c, m, e), ListLeft).flow.listed
  {}
}
