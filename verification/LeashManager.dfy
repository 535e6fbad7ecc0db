/**
 The grant manager of internal/leash/leash.go: an object whose locked regions
 are its methods. Where a method lets its lock go, the other goroutines'
 regions are run in the order a script gives, so a contract holds for every
 interleaving.
 */
module LeashManager {
  import opened Common
  import opened Grants
  import opened LeashSpec
  import opened LeashInvariants
  import opened LeashOrder

  /** One try of List: what runs before it, the id it sends, what runs while it waits, and how the request ends. */
  datatype Try = Try(before: seq<Event>, id: Id, during: seq<Event>, answer: Answer, now: Time)

  /** One List: its tries; what runs before it gives up, and before it leaves; and, for one that waits for another's, meanwhile. */
  datatype Listing = Listing(tries: seq<Try>, givingUp: seq<Event>, gaveUp: Time, leaving: seq<Event>,
                             waiting: seq<Event>, canceled: bool)
  {
    predicate Valid() { |tries| >= LIST_TRIES }
  }

  /** One request for a status: what runs before it and while it waits, and how it ends. */
  datatype Refreshing = Refreshing(before: seq<Event>, sentAt: Time, during: seq<Event>, answer: Answer, answeredAt: Time)

  /** What the goroutine of Present meets on its way. */
  datatype Meets = Meets(now1: Time, access1: Access, list: Listing,
                         between1: seq<Event>, now2: Time, access2: Access,
                         between2: seq<Event>, refresh: Refreshing, between3: seq<Event>, now3: Time, access3: Access)

  /** A run that asks for id's status and takes the answer last. */
  predicate IsRefresh(c: Agent, m: Mgr, id: Id, r: Refreshing, es: seq<Event>) {
    && |es| >= 2 && RefreshSent(id, r.sentAt) in es[..|es| - 1] && es[|es| - 1] == RefreshEnded(id, r.answer, r.answeredAt)
    && Legal(c, m, es) && Legal(c, m, es[..|es| - 1])
  }

  lemma Asked(c: Agent, m: Mgr, es: seq<Event>, id: Id, at: Time)
    requires Legal(c, m, es) && Sane(c, Run(c, m, es)) && Run(c, m, es).flow.confirmed
    ensures var e, r := RefreshSent(id, at), Step(c, Run(c, m, es), RefreshSent(id, at));
            && Legal(c, m, es + [e]) && Run(c, m, es + [e]) == r && e in es + [e]
            && Sane(c, r) && r.flow.confirmed && id in r.pace.fetched
  {
    StepKept(c, Run(c, m, es), RefreshSent(id, at));
    LegalAppend(c, m, es, RefreshSent(id, at));
  }

  lemma ThenRefresh(c: Agent, m: Mgr, es: seq<Event>, id: Id, r: Refreshing, more: seq<Event>)
    requires Legal(c, m, es) && IsRefresh(c, Run(c, m, es), id, r, more)
    ensures Legal(c, m, es + more) && Run(c, m, es + more) == Run(c, Run(c, m, es), more)
    ensures RefreshSent(id, r.sentAt) in es + more && forall e <- es :: e in es + more
  {
    LegalConcat(c, m, es, more);
    assert RefreshSent(id, r.sentAt) in more;
  }

  /** The first k due statements are asked for in es. */
  predicate AskedFor(es: seq<Event>, due: seq<Id>, refreshes: seq<Refreshing>, k: nat)
    requires k <= |due| && k <= |refreshes|
  {
    forall i | 0 <= i < k :: RefreshSent(due[i], refreshes[i].sentAt) in es
  }

  const IDLE: int := MINUTE
  const LIST_GRACE: int := 30 * SECOND
  const WANTED_FOR: int := 15 * MINUTE
  const BG_MIN_GAP: int := MINUTE

  /** The grant may be presented when Present is called, and its statement needs no refresh and nothing comes between. */
  predicate ShowsAtOnce(c: Agent, m: Mgr, id: Id, e: Meets) {
    var w := Step(c, m, Wanted(id, e.now1));
    && Presentable(c, m, e.access1, id, e.now1).1.None? && e.between2 == []
    && Presentable(c, w, e.access2, id, e.now2).1.None? && Usable(c, w, id, e.now2)
  }

  predicate Awake(m: Mgr, a: Access, now: Time) { !m.pace.held && ActiveAt(a, now) }

  predicate WantsList(m: Mgr) { m.flow.needList || !m.flow.listed }

  /** Before this the background loop sends no list. */
  function ListAt(m: Mgr, started: Time): Time {
    if m.flow.needList then m.pace.nextList else Max(m.pace.nextList, started + LIST_GRACE)
  }

  /** The background loop keeps this grant's statement fresh: Present asked for it lately, and it may be presented. */
  predicate Watched(m: Mgr, g: Grant, now: Time) {
    g.del.Some? && !g.Expired(now) && g.id !in m.core.dead && g.id in m.pace.wanted && now < m.pace.wanted[g.id] + WANTED_FOR
  }

  /** When its statement is due: near its end, not soon after a refresh, and later after each failure. */
  function DueAt(m: Mgr, g: Grant, now: Time): Time {
    var at := if g.id in m.core.statements then m.core.statements[g.id].RefreshAt() else now;
    var spaced := if g.id in m.pace.refreshed then Max(at, m.pace.refreshed[g.id] + BG_MIN_GAP) else at;
    if g.id in m.pace.fetched && Fails(m.pace, g.id) > 0
    then Max(spaced, m.pace.fetched[g.id] + Backoff(MIN_GAP, RETRY_MAX, Fails(m.pace, g.id)))
    else spaced
  }

  /** due: the watched grants of gs that are due; next: not after any other becomes due. */
  predicate DueOk(m: Mgr, gs: seq<Grant>, now: Time, due: seq<Id>, next: Time) {
    && (forall g <- gs | Watched(m, g, now) :: (DueAt(m, g, now) <= now && g.id in due) || (now < DueAt(m, g, now) && next <= DueAt(m, g, now)))
    && (forall id <- due :: exists g <- gs :: g.id == id && Watched(m, g, now) && DueAt(m, g, now) <= now)
    && next <= now + IDLE
  }

  /** One more grant: due, to come, or not watched. */
  lemma DueSnoc(m: Mgr, gs: seq<Grant>, g: Grant, now: Time, due: seq<Id>, next: Time)
    requires DueOk(m, gs, now, due, next)
    ensures !Watched(m, g, now) ==> DueOk(m, gs + [g], now, due, next)
    ensures Watched(m, g, now) && DueAt(m, g, now) <= now ==> DueOk(m, gs + [g], now, due + [g.id], next)
    ensures Watched(m, g, now) && now < DueAt(m, g, now) ==> DueOk(m, gs + [g], now, due, Min(next, DueAt(m, g, now)))
  {
    forall id <- due ensures exists h <- gs + [g] :: h.id == id && Watched(m, h, now) && DueAt(m, h, now) <= now {
      var h :| h in gs && h.id == id && Watched(m, h, now) && DueAt(m, h, now) <= now;
      assert h in gs + [g];
    }
    assert g in gs + [g];
  }

  /** The events of a batch, message by message, each with the clock read for it. */
  function Deliveries(batch: seq<Message>, clock: seq<Time>): seq<Event>
    requires |clock| == |batch|
  {
    seq(|batch|, i requires 0 <= i < |batch| => Delivered(batch[i], clock[i]))
  }

  lemma LegalAppend(c: Agent, m: Mgr, es: seq<Event>, e: Event)
    requires Legal(c, m, es) && Enabled(Run(c, m, es), e)
    ensures Legal(c, m, es + [e]) && Run(c, m, es + [e]) == Step(c, Run(c, m, es), e)
  {}

  lemma LastStep(c: Agent, m: Mgr, es: seq<Event>)
    requires Legal(c, m, es) && es != []
    ensures Legal(c, m, es[..|es| - 1]) && Enabled(Run(c, m, es[..|es| - 1]), es[|es| - 1])
    ensures Run(c, m, es) == Step(c, Run(c, m, es[..|es| - 1]), es[|es| - 1])
  {}

  /** A run continued is a run. */
  lemma {:induction false} LegalConcat(c: Agent, m: Mgr, es: seq<Event>, more: seq<Event>)
    requires Legal(c, m, es) && Legal(c, Run(c, m, es), more)
    ensures Legal(c, m, es + more) && Run(c, m, es + more) == Run(c, Run(c, m, es), more)
    decreases |more|
  {
    if more == [] {
      assert es + more == es;
    } else {
      var n := |more| - 1;
      LastStep(c, Run(c, m, es), more);
      LegalConcat(c, m, es, more[..n]);
      LegalAppend(c, m, es + more[..n], more[n]);
      assert es + more[..n] + [more[n]] == es + more;
    }
  }

  lemma SetKeepsConfirmed(c: Agent, m: Mgr, body: Body, full: bool, now: Time)
    ensures var r := ApplySet(c, m, body, full, now); r.pace.fetched == m.pace.fetched && (m.flow.confirmed ==> r.flow.confirmed)
  {}

  lemma ConfirmedStays(c: Agent, m: Mgr, e: Event)
    requires Enabled(m, e)
    ensures m.flow.confirmed ==> Step(c, m, e).flow.confirmed
    ensures forall id <- m.pace.fetched :: id in Step(c, m, e).pace.fetched
  {
    match e
    case Delivered(msg, now) =>
      if msg.re.None? {
        SetKeepsConfirmed(c, m, msg.body, false, now);
      } else {
        var m0 := m.(flow := m.flow.(lists := m.flow.lists - {msg.re.value}));
        SetKeepsConfirmed(c, m0, msg.body, IsCurrent(m.flow, msg.re.value), now);
      }
    case _ =>
  }

  lemma {:induction false} ConfirmedStaysInRun(c: Agent, m: Mgr, es: seq<Event>)
    requires Legal(c, m, es)
    ensures m.flow.confirmed ==> Run(c, m, es).flow.confirmed
    ensures forall id <- m.pace.fetched :: id in Run(c, m, es).pace.fetched
    decreases |es|
  {
    if es != [] {
      ConfirmedStaysInRun(c, m, es[..|es| - 1]);
      ConfirmedStays(c, Run(c, m, es[..|es| - 1]), es[|es| - 1]);
    }
  }

  // ---- the invariant, as the Manager carries it ----

  ghost predicate Sane(c: Agent, m: Mgr) { Inv(AcceptedBy(c.parse), c, m) }

  lemma BoundKept(c: Agent, saved: Option<SavedBytes>)
    ensures Sane(c, Bound(c, if saved.None? then None else Decode(c.parse, saved.value)))
  {
    var was := if saved.None? then None else Decode(c.parse, saved.value);
    if was.Some? {
      DecodeFacts(c.parse, saved.value);
    }
    InvBound(AcceptedBy(c.parse), c, was);
  }

  lemma StepKept(c: Agent, m: Mgr, e: Event)
    requires Sane(c, m) && Enabled(m, e)
    ensures Sane(c, Step(c, m, e))
  {
    AcceptedCovers(c.parse);
    InvStep(AcceptedBy(c.parse), c, m, e);
  }

  lemma RunKept(c: Agent, m: Mgr, es: seq<Event>)
    requires Sane(c, m) && Legal(c, m, es)
    ensures Sane(c, Run(c, m, es))
  {
    AcceptedCovers(c.parse);
    InvRun(AcceptedBy(c.parse), c, m, es);
  }

  lemma IdleKept(c: Agent, m: Mgr)
    requires Sane(c, m)
    ensures !m.flow.listing ==> m.flow.flight.None?
  {}

  lemma ListedKept(c: Agent, m: Mgr)
    requires Sane(c, m)
    ensures m.flow.listed ==> m.flow.confirmed
  {}

  lemma WaitsStill(c: Agent, m: Mgr, es: seq<Event>)
    requires Legal(c, m, es) && forall e <- es :: OtherThread(e)
    ensures Run(c, m, es).flow.flight == m.flow.flight && Run(c, m, es).flow.listing == m.flow.listing
  {
    assert es[..|es|] == es;
    FlightKept(c, m, es, |es|);
  }

  lemma NilKept(c: Agent, m: Mgr, es: seq<Event>, id: Id, a: Answer)
    requires Sane(c, m) && Legal(c, m, es)
    requires m.flow.flight == Some(id) && id in m.flow.lists && forall e <- es :: OtherThread(e)
    requires ListOutcome(Run(c, m, es).flow, id, a) == Done(None)
    ensures Confirmed(c, m, es, id, |es|) && Run(c, m, es).flow.listed
    ensures Run(c, m, es).flow.lists == map[]
  {
    AcceptedCovers(c.parse);
    NilMeansConfirmed(AcceptedBy(c.parse), c, m, es, id, a);
    InvRun(AcceptedBy(c.parse), c, m, es);
    WaitsStill(c, m, es);
    var lists := Run(c, m, es).flow.lists;
    assert forall x :: x !in lists;
  }

  lemma ShownKept(c: Agent, m: Mgr, a: Access, id: Id, now: Time)
    requires Sane(c, m) && Genuine(c) && Presentable(c, m, a, id, now).0.Some? && Usable(c, m, id, now)
    ensures var g := Presentable(c, m, a, id, now).0.value;
            && g.del.Some? && g.sig.Some?
            && PresentedOk(c, m, a, id, now, Presented(g.del.value, g.sig.value, m.core.statements[id]))
  {
    PresentedIsProven(AcceptedBy(c.parse), c, m, a, id, now);
  }

  /** The last list sent was answered in full between its sending (at) and the end of es, undisturbed. */
  ghost predicate ListedBy(c: Agent, f: Flow, sent: seq<Id>, at: Mgr, es: seq<Event>) {
    && sent != [] && at.flow.flight == Some(sent[|sent| - 1])
    && Legal(c, at, es) && (forall e <- es :: OtherThread(e))
    && Confirmed(c, at, es, sent[|sent| - 1], |es|)
    && f.listed && !f.needList && f.lists == map[]
  }

  lemma LeavesAfter(c: Agent, m: Mgr, later: seq<Event>)
    requires Legal(c, m, later) && forall e <- later :: OtherThread(e)
    ensures Run(c, m, later).flow.flight == m.flow.flight && Run(c, m, later).flow.listing == m.flow.listing
    ensures m.flow.lists == map[] && m.flow.listed && !m.flow.needList ==>
              && (Run(c, m, later).flow.listed <==> NoneIn(UnlistsAt(c, m, later), 0, |later|))
              && (!Run(c, m, later).flow.needList <==> NoneDisturbs(later, |later|))
  {
    WaitsStill(c, m, later);
    assert later[..|later|] == later;
    if m.flow.lists == map[] && m.flow.listed && !m.flow.needList {
      AfterConfirmed(c, m, later, |later|);
    }
  }

  // ---- the loops of applySet ----

  method ParseItems(parse: Parser, items: seq<Option<WireGrant>>) returns (p: Parsed)
    ensures p == ParseAll(parse, items)
  {
    var gs: seq<Grant>, seen: map<Id, nat>, raw: map<Id, WireGrant> := [], map[], map[];
    for i := 0 to |items|
      invariant Parsed(gs, seen, raw) == ParseAll(parse, items[..i])
    {
      assert items[..i + 1][..i] == items[..i];
      if items[i].None? {
        continue;
      }
      var g := parse(items[i].value);
      if g.None? {
        continue;
      }
      var id := g.value.id;
      seen := seen[id := (if id in seen then seen[id] else 0) + 1];
      raw := raw[id := items[i].value];
      gs := gs + [g.value];
    }
    assert items[..|items|] == items;
    p := Parsed(gs, seen, raw);
  }

  method IndexById(gs: seq<Grant>) returns (byId: map<Id, Grant>)
    ensures byId == ById(gs)
  {
    byId := map[];
    for i := 0 to |gs|
      invariant byId == ById(gs[..i])
    {
      assert gs[..i + 1][..i] == gs[..i];
      byId := byId[gs[i].id := gs[i]];
    }
    assert gs[..|gs|] == gs;
  }

  method KeepConfirmed(byId: map<Id, Grant>, gs: seq<Grant>, stmts0: map<Id, Statement>)
    returns (kept: seq<Grant>, stmts: map<Id, Statement>, changed: bool)
    ensures kept == Kept(byId, gs) && stmts == Without(stmts0, byId, gs) && (changed <==> |kept| < |gs|)
  {
    kept, stmts, changed := [], stmts0, false;
    for i := 0 to |gs|
      invariant kept == Kept(byId, gs[..i]) && stmts == Without(stmts0, byId, gs[..i]) && (changed <==> |kept| < i)
    {
      assert gs[..i + 1][..i] == gs[..i];
      FilterShorter(IsConfirmed(byId), gs[..i]);
      if gs[i].id in byId && byId[gs[i].id].version == gs[i].version {
        kept := kept + [gs[i]];
        continue;
      }
      stmts := stmts - {gs[i].id};
      changed := true;
    }
    assert gs[..|gs|] == gs;
  }

  /** Nothing dropped, no statement dropped. */
  lemma {:induction false} WithoutNothing(stmts: map<Id, Statement>, byId: map<Id, Grant>, gs: seq<Grant>)
    ensures |Kept(byId, gs)| == |gs| ==> Without(stmts, byId, gs) == stmts
    decreases |gs|
  {
    if gs != [] {
      FilterFacts(IsConfirmed(byId), gs[..|gs| - 1]);
      WithoutNothing(stmts, byId, gs[..|gs| - 1]);
    }
  }

  method DropOlder(held: seq<Grant>, gs: seq<Grant>) returns (newer: seq<Grant>, dropped: bool)
    ensures newer == NotOlder(held, gs) && (dropped <==> |newer| < |gs|)
  {
    newer, dropped := [], false;
    for i := 0 to |gs|
      invariant newer == NotOlder(held, gs[..i]) && (dropped <==> |newer| < i)
    {
      assert gs[..i + 1][..i] == gs[..i];
      FilterShorter(IsNotOlder(held), gs[..i]);
      var old_ := Find(held, gs[i].id);
      if old_.Some? && gs[i].version < old_.value.version {
        dropped := true;
        continue;
      }
      newer := newer + [gs[i]];
    }
    assert gs[..|gs|] == gs;
  }

  lemma IdsKept(held: seq<Grant>, gs: seq<Grant>, ids: set<Id>)
    requires Distinct(gs) && forall g <- gs :: g.id in ids
    ensures forall g <- SortById(NotOlder(held, gs)) :: g.id in ids
  {
    FilterFacts(IsNotOlder(held), gs);
    FilterOrder(IsNotOlder(held), gs);
    SortFacts(NotOlder(held, gs));
  }

  method SentStatements(c: Agent, gs: seq<Grant>, raw: map<Id, WireGrant>, now: Time) returns (stmts: map<Id, Statement>)
    requires forall g <- gs :: g.id in raw
    ensures stmts == Statements(c, gs, raw, now)
  {
    stmts := map[];
    for i := 0 to |gs|
      invariant stmts == Statements(c, gs[..i], raw, now)
    {
      assert gs[..i + 1][..i] == gs[..i];
      var w := raw[gs[i].id];
      if w.status.None? && w.statusSig.None? {
        continue;
      }
      var st := CheckStatement(c.limits, gs[i], w.status, w.statusSig, Items(w.rotations), now);
      if st.None? {
        continue;
      }
      stmts := stmts[gs[i].id := st.value];
    }
    assert gs[..|gs|] == gs;
  }

  method ComputeBackoff(base: int, limit: int, n: nat) returns (d: int)
    requires 0 < base <= limit
    ensures d == Backoff(base, limit, n)
  {
    d := base;
    var i := 1;
    while i < n && d < limit
      invariant 1 <= i && (i <= n || i == 1) && 0 < d
      invariant Min(d, limit) == Backoff(base, limit, i)
    {
      d := d * 2;
      i := i + 1;
    }
    BackoffSettles(base, limit, i, n);
    d := Min(d, limit);
  }

  lemma {:induction false} BackoffSettles(base: int, limit: int, i: nat, n: nat)
    requires 0 < base <= limit && 1 <= i
    ensures i <= n && Backoff(base, limit, i) == limit ==> Backoff(base, limit, n) == limit
    ensures n <= 1 ==> Backoff(base, limit, n) == Backoff(base, limit, 1)
    decreases n
  {
    if i < n {
      BackoffSettles(base, limit, i, n - 1);
    }
  }

  /**
   The Manager's fields, in three groups: what is held and saved, what orders
   the messages, and what paces the requests.
   */
  class Manager {
    const c: Agent
    /** The record's member the process started with. */
    const oSaved: Option<SavedBytes>

    var core: Core
    var flow: Flow
    var pace: Pace

    function View(): Mgr reads this { Mgr(core, flow, pace) }

    /** The state is one a run can reach, as far as the invariants tell. */
    ghost predicate Valid() reads this { Sane(c, View()) }

    /** New and Bind. */
    constructor (c: Agent, saved: Option<SavedBytes>)
      ensures Valid() && this.c == c && this.oSaved == saved
      ensures View() == Bound(c, if saved.None? then None else Decode(c.parse, saved.value))
    {
      this.c, this.oSaved := c, saved;
      core, flow, pace := Core([], false, 0, false, map[], {}), FRESH_FLOW, FRESH_PACE;
      new;
      if saved.Some? {
        var s := DecodeSaved(c.parse, saved.value);
        if s.Some? {
          core := core.(grants := ForMe(c.ik, s.value.grants), suspended := s.value.suspended, asOf := s.value.asOf, saved := true);
        }
      }
      BoundKept(c, saved);
    }

    // ---- Apply ----

    /** Narrow mode, once the set is parsed. */
    method NarrowGrants(gs: seq<Grant>, suspended: bool, now: Time)
      modifies this`core, this`flow
      ensures View() == ApplyNarrow(old(View()), gs, suspended, now)
    {
      var byId := IndexById(gs);
      var changed := NarrowCore(byId, suspended, now);
      if changed {
        flow := flow.(gen := flow.gen + 1);
      }
      flow := flow.(needList := true);
    }

    /** What narrowing does to what is held; changed: something was taken away. */
    method NarrowCore(byId: map<Id, Grant>, suspended: bool, now: Time) returns (changed: bool)
      modifies this`core
      ensures core == NarrowBy(old(core), byId, suspended, now)
      ensures changed <==> NarrowsBy(old(core), byId, suspended)
    {
      var kept, stmts;
      kept, stmts, changed := KeepConfirmed(byId, core.grants, core.statements);
      FilterShorter(IsConfirmed(byId), core.grants);
      WithoutNothing(core.statements, byId, core.grants);
      core := core.(statements := stmts);
      if suspended && !core.suspended {
        core := core.(suspended := true, statements := map[]);
        changed := true;
      }
      if changed {
        core := core.(grants := kept, asOf := now, saved := true);
      }
    }

    /** List mode, once the set is parsed. */
    method ReplaceGrants(gs: seq<Grant>, raw: map<Id, WireGrant>, suspended: bool, now: Time)
      requires Distinct(gs) && forall g <- gs :: g.id in raw
      modifies this`core, this`flow, this`pace
      ensures View() == ApplyFull(c, old(View()), gs, raw, suspended, now)
    {
      var newer, dropped := DropOlder(core.grants, gs);
      if dropped {
        flow := flow.(needList := true);
      }
      IdsKept(core.grants, gs, raw.Keys);
      var sorted := SortById(newer);
      var stmts: map<Id, Statement> := map[];
      if !suspended {
        stmts := SentStatements(c, sorted, raw, now);
      }
      core := Core(sorted, suspended, now, true, stmts, {});
      pace := pace.(fails := map[]);
      flow := flow.(listed := true, confirmed := true);
      if !flow.needList {
        pace := pace.(listFails := 0, nextList := 0);
      }
    }

    method ApplySet(body: Body, full: bool, now: Time) returns (parsed: bool)
      modifies this`core, this`flow, this`pace
      ensures View() == LeashSpec.ApplySet(c, old(View()), body, full, now)
      ensures parsed <==> WellFormed(body)
    {
      if !(body.GrantSet? && body.grants.Some? && body.suspended.Some?) || |body.grants.value| > MAX_GRANTS {
        flow := flow.(listed := false, needList := true);
        return false;
      }
      var p := ParseItems(c.parse, body.grants.value);
      var incoming := ForMe(c.ik, Once(p));
      IncomingFacts(c, body.grants.value);
      if full {
        ReplaceGrants(incoming, p.raw, body.suspended.value, now);
      } else {
        NarrowGrants(incoming, body.suspended.value, now);
      }
      return true;
    }

    /** One message of a batch. */
    method ApplyMessage(msg: Message, now: Time)
      requires Enabled(View(), Delivered(msg, now))
      modifies this`core, this`flow, this`pace
      ensures View() == Step(c, old(View()), Delivered(msg, now))
    {
      if msg.re.None? && msg.typ == GrantUpdated {
        var _ := ApplySet(msg.body, false, now);
        flow := flow.(gen := flow.gen + 1);
      } else if msg.re.Some? && msg.typ == GrantList && msg.ok {
        var full := msg.re.value in flow.lists && flow.lists[msg.re.value] == flow.gen;
        flow := flow.(lists := flow.lists - {msg.re.value});
        var _ := ApplySet(msg.body, full, now);
      } else if msg.re.None? && msg.typ == SessionGranted {
        flow := flow.(listed := false, needList := true);
        pace := pace.(listFails := 0, nextList := 0);
      } else if msg.re.None? && msg.typ == SessionEnded {
        flow := flow.(listed := false);
      }
    }

    /** Apply: a batch inside its save. */
    method Apply(batch: seq<Message>, clock: seq<Time>)
      requires |clock| == |batch| && forall i | 0 <= i < |clock| :: clock[i] != 0
      modifies this`core, this`flow, this`pace
      ensures Legal(c, old(View()), Deliveries(batch, clock))
      ensures View() == Run(c, old(View()), Deliveries(batch, clock))
    {
      ghost var es := Deliveries(batch, clock);
      for i := 0 to |batch|
        invariant Legal(c, old(View()), es[..i]) && View() == Run(c, old(View()), es[..i])
      {
        ApplyMessage(batch[i], clock[i]);
        LegalAppend(c, old(View()), es[..i], es[i]);
        assert es[..i] + [es[i]] == es[..i + 1];
      }
      assert es[..|batch|] == es;
    }

    /** The record's member, for the save of a batch. */
    method Snapshot() returns (r: Option<SavedBytes>)
      requires Encodable(core.grants)
      ensures r == if core.saved then Some(Encode(Saved(core.grants, core.suspended, core.asOf))) else oSaved
    {
      if !core.saved {
        return oSaved;
      }
      var b := EncodeSaved(core.grants, core.suspended, core.asOf);
      return Some(b);
    }

    method OnStatus(isHeld: bool)
      modifies this`pace
      ensures View() == Step(c, old(View()), OwnerCheck(isHeld))
    {
      if !isHeld && pace.held {
        pace := pace.(held := false);
      }
    }

    // ---- List ----

    method ListFailed(now: Time)
      modifies this`pace
      ensures pace == LeashSpec.ListFailed(old(pace), now)
    {
      var fails := pace.listFails + 1;
      var d := ComputeBackoff(MIN_GAP, RETRY_MAX, fails);
      pace := pace.(listFails := fails, nextList := now + d);
    }

    /** List's first region: the lister's turn is taken, or another List has it. */
    method EnterList() returns (mine: bool)
      modifies this`flow
      ensures mine == !old(flow.listing)
      ensures View() == if mine then Step(c, old(View()), ListEntered) else old(View())
    {
      if flow.listing {
        return false;
      }
      flow := flow.(listing := true);
      return true;
    }

    /** List's deferred region. */
    method LeaveList()
      requires Enabled(View(), ListLeft)
      modifies this`flow
      ensures View() == Step(c, old(View()), ListLeft)
    {
      flow := flow.(listing := false);
    }

    /** listOnce's first region. */
    method SendList(id: Id)
      requires Enabled(View(), ListSent(id))
      modifies this`flow
      ensures View() == Step(c, old(View()), ListSent(id))
    {
      flow := flow.(lists := flow.lists[id := flow.gen]);
      flow := flow.(needList := false, flight := Some(id));
    }

    /** listOnce's second region. */
    method EndList(id: Id, a: Answer, now: Time) returns (r: ListResult)
      requires flow.flight == Some(id)
      modifies this`flow, this`pace
      ensures View() == Step(c, old(View()), ListEnded(a, now))
      ensures r == ListOutcome(old(flow), id, a)
    {
      flow := flow.(flight := None);
      if !a.Answered? {
        flow := flow.(lists := flow.lists - {id}, needList := true);
      }
      match a {
        case SendFailed(refused) =>
          ListFailed(now);
          return Done(Some(if refused then ErrRefused else ErrUnconfirmed));
        case Refused(SessionRequired) =>
          flow := flow.(listed := false);
          return Done(Some(ErrNoSession));
        case Refused(OwnerCheckRequired) =>
          pace := pace.(held := true);
          return Done(Some(ErrOwnerCheck));
        case Refused(_) =>
          ListFailed(now);
          return Done(Some(ErrUnconfirmed));
        case Answered(_) =>
          if id in flow.lists {
            flow := flow.(lists := flow.lists - {id}, needList := true);
            ListFailed(now);
            return Done(Some(ErrUnconfirmed));
          }
          assert flow.lists - {id} == flow.lists;
          if flow.needList {
            return Again;
          }
          if !flow.listed {
            ListFailed(now);
            return Done(Some(ErrUnconfirmed));
          }
          return Done(None);
      }
    }

    method GiveUpList(now: Time)
      requires Enabled(View(), ListGaveUp(now))
      modifies this`pace
      ensures View() == Step(c, old(View()), ListGaveUp(now))
    {
      ListFailed(now);
    }

    // ---- refresh ----

    method Want(id: Id, now: Time)
      modifies this`pace
      ensures View() == Step(c, old(View()), Wanted(id, now))
    {
      pace := pace.(wanted := pace.wanted[id := now]);
    }

    /** refresh's first region. */
    method SendRefresh(id: Id, now: Time)
      requires Enabled(View(), RefreshSent(id, now))
      modifies this`pace
      ensures View() == Step(c, old(View()), RefreshSent(id, now))
    {
      pace := pace.(fetched := pace.fetched[id := now]);
    }

    method CountFail(id: Id)
      modifies this`pace
      ensures pace == Failed(old(pace), id)
    {
      pace := pace.(fails := pace.fails[id := (if id in pace.fails then pace.fails[id] else 0) + 1]);
    }

    /** refresh's second region. */
    method EndRefresh(id: Id, a: Answer, now: Time) returns (err: Option<Error>)
      requires Enabled(View(), RefreshEnded(id, a, now))
      modifies this`core, this`flow, this`pace
      ensures View() == Step(c, old(View()), RefreshEnded(id, a, now))
      ensures err == RefreshOutcome(c, old(core), id, a, now)
    {
      match a {
        case SendFailed(refused) =>
          CountFail(id);
          return Some(if refused then ErrRefused else ErrUnreachable);
        case Refused(NotFound) =>
          core := core.(statements := core.statements - {id}, dead := core.dead + {id});
          flow := flow.(gen := flow.gen + 1, needList := true);
          return Some(ErrNotGranted);
        case Refused(Forbidden) =>
          core := core.(suspended := true, saved := true, statements := map[]);
          flow := flow.(gen := flow.gen + 1, needList := true);
          return Some(ErrSuspended);
        case Refused(OwnerCheckRequired) =>
          pace := pace.(held := true);
          return Some(ErrOwnerCheck);
        case Refused(SessionRequired) =>
          flow := flow.(listed := false);
          return Some(ErrNoSession);
        case Refused(_) =>
          CountFail(id);
          return Some(ErrUnconfirmed);
        case Answered(b) =>
          err := KeepStatement(id, b, now);
          return;
      }
    }

    method KeepStatement(id: Id, b: Reply, now: Time) returns (err: Option<Error>)
      modifies this`core, this`pace
      ensures core == RefreshCore(c, old(core), id, Answered(b), now)
      ensures pace == RefreshPace(c, old(core), old(pace), id, Answered(b), now)
      ensures err == Fetched(c, old(core), id, b, now).1
    {
      var g := Find(core.grants, id);
      if g.None? || id in core.dead {
        return Some(ErrNotGranted);
      }
      if core.suspended {
        return Some(ErrSuspended);
      }
      if b.NoReply? || b.grantID != id {
        CountFail(id);
        return Some(ErrUnconfirmed);
      }
      var st := CheckStatement(c.limits, g.value, b.status, b.sig, b.rotations, now);
      if st.None? {
        CountFail(id);
        return Some(ErrUnconfirmed);
      }
      core := core.(statements := core.statements[id := st.value]);
      pace := pace.(refreshed := pace.refreshed[id := now], fails := pace.fails[id := 0]);
      return None;
    }

    // ---- other goroutines ----

    method Perform(e: Event)
      requires Enabled(View(), e)
      modifies this`core, this`flow, this`pace
      ensures View() == Step(c, old(View()), e)
    {
      match e {
        case Delivered(msg, now) => ApplyMessage(msg, now);
        case OwnerCheck(isHeld) => OnStatus(isHeld);
        case ListEntered => var _ := EnterList();
        case ListSent(id) => SendList(id);
        case ListEnded(a, now) => var _ := EndList(flow.flight.value, a, now);
        case ListGaveUp(now) => GiveUpList(now);
        case ListLeft => LeaveList();
        case Wanted(id, now) => Want(id, now);
        case RefreshSent(id, now) => SendRefresh(id, now);
        case RefreshEnded(id, a, now) => var _ := EndRefresh(id, a, now);
      }
    }

    /**
     Runs the regions of other goroutines that can run, in order; `done` are
     those that did. Without lister, only those that are not List's.
     */
    method Others(es: seq<Event>, lister: bool) returns (ghost done: seq<Event>)
      requires Valid()
      modifies this`core, this`flow, this`pace
      ensures Valid() && Legal(c, old(View()), done) && View() == Run(c, old(View()), done)
      ensures |done| <= |es| && (!lister ==> forall e <- done :: OtherThread(e))
      ensures old(flow.confirmed) ==> flow.confirmed
      ensures forall id <- old(pace.fetched) :: id in pace.fetched
    {
      done := [];
      for i := 0 to |es|
        invariant Legal(c, old(View()), done) && View() == Run(c, old(View()), done) && |done| <= i
        invariant !lister ==> forall e <- done :: OtherThread(e)
      {
        if Enabled(View(), es[i]) && (lister || OtherThread(es[i])) {
          Perform(es[i]);
          LegalAppend(c, old(View()), done, es[i]);
          done := done + [es[i]];
        }
      }
      ConfirmedStaysInRun(c, old(View()), done);
      RunKept(c, old(View()), done);
    }

    // ---- what callers call ----

    /**
     listOnce, and what runs before it: a nil outcome means that this list's
     answer was applied in full and nothing else that could change the grants
     came between its sending and the region that took the answer.
     */
    method ListOnce(t: Try) returns (r: ListResult, ghost pre: seq<Event>, ghost at: Mgr, ghost es: seq<Event>)
      requires Valid() && Enabled(View(), ListSent(t.id))
      modifies this`core, this`flow, this`pace
      ensures Valid() && Enabled(View(), ListSent(t.id)) && (forall e <- pre + es :: OtherThread(e))
      ensures Legal(c, old(View()), pre) && Enabled(Run(c, old(View()), pre), ListSent(t.id))
      ensures at == Step(c, Run(c, old(View()), pre), ListSent(t.id)) && Legal(c, at, es)
      ensures Run(c, at, es).flow.flight.Some? && View() == Step(c, Run(c, at, es), ListEnded(t.answer, t.now))
      ensures r == ListOutcome(Run(c, at, es).flow, t.id, t.answer)
      ensures r == Done(None) ==> Confirmed(c, at, es, t.id, |es|) && flow.listed && !flow.needList && flow.lists == map[]
      ensures old(flow.confirmed) ==> flow.confirmed
    {
      pre := Others(t.before, false);
      WaitsStill(c, old(View()), pre);
      StepKept(c, View(), ListSent(t.id));
      SendList(t.id);
      at := View();
      es := Others(t.during, false);
      ghost var before := View();
      WaitsStill(c, at, es);
      StepKept(c, before, ListEnded(t.answer, t.now));
      r := EndList(t.id, t.answer, t.now);
      if r == Done(None) {
        NilKept(c, at, es, t.id, t.answer);
      }
    }

    /** The lister's loop: at most LIST_TRIES lists are sent. */
    method ListLoop(script: Listing) returns (err: Option<Error>, sent: seq<Id>, ghost at: Mgr, ghost es: seq<Event>)
      requires Valid() && flow.listing && flow.flight.None? && script.Valid()
      modifies this`core, this`flow, this`pace
      ensures Valid() && flow.listing && flow.flight.None? && 1 <= |sent| <= LIST_TRIES
      ensures err.None? ==> ListedBy(c, flow, sent, at, es)
      ensures old(flow.confirmed) ==> flow.confirmed
    {
      sent := [];
      at, es := View(), [];
      for try := 0 to LIST_TRIES
        invariant Valid() && flow.listing && flow.flight.None? && |sent| == try
        invariant old(flow.confirmed) ==> flow.confirmed
      {
        var r;
        ghost var pre;
        r, pre, at, es := ListOnce(script.tries[try]);
        sent := sent + [script.tries[try].id];
        if r.Done? {
          return r.err, sent, at, es;
        }
      }
      ghost var before := View();
      ghost var gap := Others(script.givingUp, false);
      WaitsStill(c, before, gap);
      StepKept(c, View(), ListGaveUp(script.gaveUp));
      GiveUpList(script.gaveUp);
      err := Some(ErrUnconfirmed);
    }

    /**
     List. Whoever sent the lists gets nil only if the last one's answer was
     applied in full and undisturbed up to the region that took it, which left
     the state `ended`. Then others run (later) before it leaves: at its return
     what it confirmed is still listed, and no list is wanted, exactly if none
     of those changed that. Whoever waited for another's List gets nil only if
     the grants are listed and no list is wanted.
     */
    method List(script: Listing)
      returns (err: Option<Error>, sent: seq<Id>, ghost at: Mgr, ghost es: seq<Event>, ghost ended: Mgr, ghost later: seq<Event>)
      requires Valid() && script.Valid()
      modifies this`core, this`flow, this`pace
      ensures Valid() && |sent| <= LIST_TRIES && (sent == [] <==> old(flow.listing))
      ensures err.None? && sent == [] ==> flow.listed && !flow.needList
      ensures sent != [] ==> Legal(c, ended, later) && (forall e <- later :: OtherThread(e))
                             && Enabled(Run(c, ended, later), ListLeft) && View() == Step(c, Run(c, ended, later), ListLeft)
      ensures err.None? && sent != [] ==> ListedBy(c, ended.flow, sent, at, es)
      ensures err.None? && sent != [] ==> (flow.listed <==> NoneIn(UnlistsAt(c, ended, later), 0, |later|))
      ensures err.None? && sent != [] ==> (!flow.needList <==> NoneDisturbs(later, |later|))
      ensures old(flow.confirmed) ==> flow.confirmed
    {
      sent, at, es, ended, later := [], View(), [], View(), [];
      IdleKept(c, View());
      if !flow.listing {
        StepKept(c, View(), ListEntered);
      }
      var mine := EnterList();
      if !mine {
        es := Others(script.waiting, true);
        if script.canceled {
          err := Some(ErrCanceled);
        } else {
          err := if !flow.listed || flow.needList then Some(ErrUnconfirmed) else None;
        }
        return;
      }
      err, sent, at, es := ListLoop(script);
      ended := View();
      later := Others(script.leaving, false);
      LeavesAfter(c, ended, later);
      StepKept(c, View(), ListLeft);
      LeaveList();
    }

    /** refresh: whatever runs before its first region and until its second; the outcome is the second's. */
    method Refresh(id: Id, r: Refreshing) returns (err: Option<Error>, ghost es: seq<Event>)
      requires Valid() && flow.confirmed
      modifies this`core, this`flow, this`pace
      ensures Valid() && flow.confirmed
      ensures IsRefresh(c, old(View()), id, r, es) && View() == Run(c, old(View()), es)
      ensures err == RefreshOutcome(c, Run(c, old(View()), es[..|es| - 1]).core, id, r.answer, r.answeredAt)
    {
      ghost var head := AskStatus(id, r);
      ghost var during := Others(r.during, true);
      LegalConcat(c, old(View()), head, during);
      ghost var end := RefreshEnded(id, r.answer, r.answeredAt);
      StepKept(c, View(), end);
      ConfirmedStays(c, View(), end);
      LegalAppend(c, old(View()), head + during, end);
      es := head + during + [end];
      assert es[..|es| - 1] == head + during;
      err := EndRefresh(id, r.answer, r.answeredAt);
    }

    /** refresh's first region, and what runs before it. */
    method AskStatus(id: Id, r: Refreshing) returns (ghost es: seq<Event>)
      requires Valid() && flow.confirmed
      modifies this`core, this`flow, this`pace
      ensures Valid() && flow.confirmed && id in pace.fetched && RefreshSent(id, r.sentAt) in es
      ensures Legal(c, old(View()), es) && View() == Run(c, old(View()), es)
    {
      es := Others(r.before, true);
      Asked(c, old(View()), es, id, r.sentAt);
      SendRefresh(id, r.sentAt);
      es := es + [RefreshSent(id, r.sentAt)];
    }

    /** What may be presented of grant id at now, if anything (m.mu held). */
    method Show(id: Id, a: Access, now: Time) returns (r: Option<Presented>, err: Option<Error>)
      requires Valid() && Genuine(c)
      ensures r.Some? ==> PresentedOk(c, View(), a, id, now, r.value)
      ensures err == Presentable(c, View(), a, id, now).1
      ensures r.Some? <==> err.None? && Usable(c, View(), id, now)
      ensures err.None? ==> flow.confirmed
    {
      var found := Presentable(c, View(), a, id, now);
      err := found.1;
      ListedKept(c, View());
      if err.Some? || !Usable(c, View(), id, now) {
        return None, err;
      }
      ShownKept(c, View(), a, id, now);
      return Some(Presented(found.0.value.del.value, found.0.value.sig.value, core.statements[id])), err;
    }

    /** Present's first region, and the list it asks for if the grants are not confirmed. */
    method Confirm(id: Id, e: Meets) returns (err: Option<Error>)
      requires Valid() && Genuine(c) && e.list.Valid()
      modifies this`core, this`flow, this`pace
      ensures Valid()
      ensures Presentable(c, old(View()), e.access1, id, e.now1).1.None? ==>
                err.None? && View() == Step(c, old(View()), Wanted(id, e.now1))
    {
      StepKept(c, View(), Wanted(id, e.now1));
      Want(id, e.now1);
      var _, shows := Show(id, e.access1, e.now1);
      err := shows;
      if err == Some(ErrUnconfirmed) {
        var _ := Others(e.between1, true);
        var listed, _, _, _, _, _ := List(e.list);
        err := listed;
      }
    }

    /** Present from the refresh of the statement on. */
    method PresentRefreshed(id: Id, e: Meets) returns (r: Result<Presented, Error>)
      requires Valid() && Genuine(c) && flow.confirmed
      modifies this`core, this`flow, this`pace
      ensures Valid() && (r.Ok? ==> PresentedOk(c, View(), e.access3, id, e.now3, r.value))
    {
      var err, _ := Refresh(id, e.refresh);
      if err.Some? {
        return Err(err.value);
      }
      var _ := Others(e.between3, true);
      var p, err3 := Show(id, e.access3, e.now3);
      if err3.Some? {
        return Err(err3.value);
      }
      return if p.None? then Err(ErrUnconfirmed) else Ok(p.value);
    }

    /**
     Present: whatever it meets on its way, what it returns is presentable and
     proven in the state, at the time and in the session of its last region.
     What is presentable and needs no refresh is returned at once.
     */
    method Present(id: Id, e: Meets) returns (r: Result<Presented, Error>, ghost a: Access, ghost now: Time)
      requires Valid() && Genuine(c) && e.list.Valid()
      modifies this`core, this`flow, this`pace
      ensures Valid()
      ensures r.Ok? ==> PresentedOk(c, View(), a, id, now, r.value) && (a, now) in {(e.access2, e.now2), (e.access3, e.now3)}
      ensures ShowsAtOnce(c, old(View()), id, e) ==> r.Ok?
    {
      a, now := e.access2, e.now2;
      var err := Confirm(id, e);
      if err.Some? {
        return Err(err.value), a, now;
      }
      var _ := Others(e.between2, true);
      var p, err2 := Show(id, e.access2, e.now2);
      if err2.Some? {
        return Err(err2.value), a, now;
      }
      if p.Some? {
        return Ok(p.value), a, now;
      }
      a, now := e.access3, e.now3;
      r := PresentRefreshed(id, e);
    }

    // ---- the background loop ----

    /** When a grant's statement is due, if it is watched. */
    method FindDueAt(g: Grant, now: Time) returns (at: Option<Time>)
      ensures at == if Watched(View(), g, now) then Some(DueAt(View(), g, now)) else None
    {
      if !Watched(View(), g, now) {
        return None;
      }
      var when := now;
      if g.id in core.statements {
        when := core.statements[g.id].RefreshAt();
      }
      if g.id in pace.refreshed {
        when := Max(when, pace.refreshed[g.id] + BG_MIN_GAP);
      }
      if g.id in pace.fetched && Fails(pace, g.id) > 0 {
        var pause := ComputeBackoff(MIN_GAP, RETRY_MAX, pace.fails[g.id]);
        when := Max(when, pace.fetched[g.id] + pause);
      }
      return Some(when);
    }

    /** step's loop: which watched grants are due for a refresh, and when the next will be. */
    method FindDue(now: Time) returns (due: seq<Id>, next: Time)
      ensures DueOk(View(), core.grants, now, due, next)
    {
      due, next := [], now + IDLE;
      for i := 0 to |core.grants|
        invariant DueOk(View(), core.grants[..i], now, due, next)
      {
        var at := FindDueAt(core.grants[i], now);
        DueSnoc(View(), core.grants[..i], core.grants[i], now, due, next);
        assert core.grants[..i + 1] == core.grants[..i] + [core.grants[i]];
        if at.Some? && now >= at.value {
          due := due + [core.grants[i].id];
        } else if at.Some? {
          next := Min(next, at.value);
        }
      }
      assert core.grants[..|core.grants|] == core.grants;
    }

    /**
     step: lists only when a list may be sent, refreshes exactly the watched
     grants that are due in the state `at` it looked at, and, if none is, looks
     again no later than the first will be.
     */
    method BackgroundStep(now: Time, a: Access, started: Time, before: seq<Event>, list: Listing, after: seq<Event>,
                          refreshes: seq<Refreshing>)
      returns (next: Time, lists: bool, due: seq<Id>, ghost at: Mgr, ghost es: seq<Event>)
      requires Valid() && list.Valid()
      modifies this`core, this`flow, this`pace
      ensures Valid()
      ensures !Awake(old(View()), a, now) ==> View() == old(View()) && !lists && due == [] && next == now + IDLE
      ensures lists ==> Awake(old(View()), a, now) && WantsList(old(View())) && ListAt(old(View()), started) <= now
      ensures Awake(old(View()), a, now) && WantsList(old(View())) && ListAt(old(View()), started) <= now ==> lists
      ensures due != [] ==> next == now && at.flow.listed && !at.flow.needList && !at.core.suspended && DueOk(at, at.core.grants, now, due, next)
      ensures due == [] && Awake(old(View()), a, now) && !WantsList(at) && !at.core.suspended ==> DueOk(at, at.core.grants, now, due, next)
      ensures Awake(old(View()), a, now) && WantsList(old(View())) && !lists ==> next == Min(ListAt(old(View()), started), now + IDLE)
      ensures next <= now + IDLE
      ensures Legal(c, at, es) && View() == Run(c, at, es)
      ensures AskedFor(es, due, refreshes, Min(|due|, |refreshes|))
    {
      lists, due, at, es, next := false, [], View(), [], now + IDLE;
      if pace.held || !ActiveAt(a, now) {
        return;
      }
      if flow.needList || !flow.listed {
        var when := pace.nextList;
        if !flow.needList {
          when := Max(when, started + LIST_GRACE);
        }
        if now < when {
          next := Min(when, now + IDLE);
          return;
        }
        lists := true;
        var _ := Others(before, true);
        var _, _, _, _, _, _ := List(list);
        var _ := Others(after, true);
        at := View();
        if !flow.listed || flow.needList {
          next := if pace.nextList == 0 then now + IDLE else Min(pace.nextList, now + IDLE);
          return;
        }
      }
      at := View();
      if core.suspended {
        return;
      }
      due, next := FindDue(now);
      ListedKept(c, View());
      es := RefreshDue(due, refreshes);
      if due != [] {
        next := now;
      }
    }

    /** A refresh, continuing the run es from start. */
    method RefreshNext(ghost start: Mgr, ghost es: seq<Event>, id: Id, r: Refreshing) returns (ghost more: seq<Event>)
      requires Valid() && flow.confirmed && Legal(c, start, es) && View() == Run(c, start, es)
      modifies this`core, this`flow, this`pace
      ensures Valid() && flow.confirmed && Legal(c, start, more) && View() == Run(c, start, more)
      ensures RefreshSent(id, r.sentAt) in more && forall e <- es :: e in more
    {
      var _, own := Refresh(id, r);
      ThenRefresh(c, start, es, id, r, own);
      more := es + own;
    }

    /** Each due statement in turn, until the context ends (refreshes runs out). */
    method RefreshDue(due: seq<Id>, refreshes: seq<Refreshing>) returns (ghost es: seq<Event>)
      requires Valid() && flow.confirmed
      modifies this`core, this`flow, this`pace
      ensures Valid() && Legal(c, old(View()), es) && View() == Run(c, old(View()), es)
      ensures AskedFor(es, due, refreshes, Min(|due|, |refreshes|))
    {
      es := [];
      for i := 0 to Min(|due|, |refreshes|)
        invariant Valid() && flow.confirmed && Legal(c, old(View()), es) && View() == Run(c, old(View()), es)
        invariant AskedFor(es, due, refreshes, i)
      {
        es := RefreshNext(old(View()), es, due[i], refreshes[i]);
      }
    }
  }
}
