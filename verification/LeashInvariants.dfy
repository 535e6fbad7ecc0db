/** What every run of the grant manager keeps. */
module LeashInvariants {
  import opened Common
  import opened Grants
  import opened LeashSpec

  /** Every grant the vault could have sent; the lemmas below call it ok and use only Covers. */
  ghost function AcceptedBy(parse: Parser): iset<Grant> { iset g: Grant | exists w :: parse(w) == Some(g) }

  ghost predicate Covers(ok: iset<Grant>, parse: Parser) {
    forall w :: parse(w).Some? ==> parse(w).value in ok
  }

  lemma AcceptedCovers(parse: Parser)
    ensures Covers(AcceptedBy(parse), parse)
  {}

  /** The grants held: in order, distinct, each accepted from the vault and for this agent. */
  ghost predicate GrantsOk(ok: iset<Grant>, ik: Key, gs: seq<Grant>) {
    && Sorted(gs) && |gs| <= MAX_GRANTS
    && forall g <- gs :: g in ok && Mine(ik, g)
  }

  /** st proves the very delegation of the held grant id. */
  ghost predicate Backed(gs: seq<Grant>, id: Id, st: Statement) {
    exists g :: g in gs && g.id == id && g.del.Some? && Proves(g.del.value, st)
  }

  /**
   Every statement is of a held grant; suspended, there is none; a grant the
   vault disowned has none. Whatever is saved has a time.
   */
  ghost predicate CoreOk(ok: iset<Grant>, ik: Key, m: Core) {
    && GrantsOk(ok, ik, m.grants)
    && (forall id <- m.statements :: Backed(m.grants, id, m.statements[id]))
    && (m.suspended ==> m.statements == map[])
    && (forall id <- m.dead :: id !in m.statements)
    && (m.saved ==> m.asOf != 0)
    && (m.grants != [] || m.suspended ==> m.saved)
  }

  /** At most one list is outstanding, and it is the one the lister waits for. */
  ghost predicate FlowOk(f: Flow) {
    && (forall id <- f.lists :: f.flight == Some(id) && f.lists[id] <= f.gen)
    && (f.flight.Some? ==> f.listing)
    && (f.listed ==> f.confirmed)
  }

  ghost predicate Inv(ok: iset<Grant>, c: Agent, m: Mgr) {
    && CoreOk(ok, c.ik, m.core) && FlowOk(m.flow)
    && (m.flow.confirmed ==> m.core.asOf != 0)
    && (forall id <- m.pace.fetched :: m.flow.confirmed)
  }

  /** The grants that come in with a set are such grants. */
  lemma IncomingOk(ok: iset<Grant>, c: Agent, items: seq<Option<WireGrant>>)
    requires Covers(ok, c.parse) && |items| <= MAX_GRANTS
    ensures var gs := Incoming(c, ParseAll(c.parse, items));
            Distinct(gs) && |gs| <= MAX_GRANTS && forall g <- gs :: g in ok && Mine(c.ik, g)
  {
    IncomingFacts(c, items);
  }

  lemma KeptBacked(gs: seq<Grant>, stmts: map<Id, Statement>, byId: map<Id, Grant>)
    requires forall id <- stmts :: Backed(gs, id, stmts[id])
    ensures forall id <- Without(stmts, byId, gs) :: id in stmts && Without(stmts, byId, gs)[id] == stmts[id]
    ensures forall id <- Without(stmts, byId, gs) :: Backed(Kept(byId, gs), id, stmts[id])
  {
    WithoutFacts(stmts, byId, gs);
    FilterFacts(IsConfirmed(byId), gs);
    forall id | id in Without(stmts, byId, gs)
      ensures Backed(Kept(byId, gs), id, stmts[id])
    {
      var g :| g in gs && g.id == id && g.del.Some? && Proves(g.del.value, stmts[id]);
      assert g in Kept(byId, gs);
    }
  }

  lemma NarrowKeeps(ok: iset<Grant>, ik: Key, m: Core, gs: seq<Grant>, suspended: bool, now: Time)
    requires CoreOk(ok, ik, m) && now != 0
    ensures CoreOk(ok, ik, Narrow(m, gs, suspended, now))
    ensures m.asOf != 0 ==> Narrow(m, gs, suspended, now).asOf != 0
  {
    FilterFacts(IsConfirmed(ById(gs)), m.grants);
    FilterOrder(IsConfirmed(ById(gs)), m.grants);
    KeptBacked(m.grants, m.statements, ById(gs));
  }

  lemma SentBacked(c: Agent, gs: seq<Grant>, raw: map<Id, WireGrant>, now: Time, id: Id)
    requires id in Statements(c, gs, raw, now)
    ensures Backed(gs, id, Statements(c, gs, raw, now)[id])
  {}

  lemma NewerOk(ok: iset<Grant>, ik: Key, held: seq<Grant>, gs: seq<Grant>)
    requires Distinct(gs) && |gs| <= MAX_GRANTS && (forall g <- gs :: g in ok && Mine(ik, g))
    ensures GrantsOk(ok, ik, SortById(NotOlder(held, gs)))
  {
    FilterFacts(IsNotOlder(held), gs);
    FilterOrder(IsNotOlder(held), gs);
    SortFacts(NotOlder(held, gs));
  }

  lemma ReplaceKeeps(ok: iset<Grant>, c: Agent, m: Core, gs: seq<Grant>, raw: map<Id, WireGrant>, suspended: bool, now: Time)
    requires Distinct(gs) && |gs| <= MAX_GRANTS && (forall g <- gs :: g in ok && Mine(c.ik, g)) && now != 0
    ensures CoreOk(ok, c.ik, Replace(c, m, gs, raw, suspended, now))
  {
    NewerOk(ok, c.ik, m.grants, gs);
    var sorted := SortById(NotOlder(m.grants, gs));
    forall id | id in Statements(c, sorted, raw, now) ensures Backed(sorted, id, Statements(c, sorted, raw, now)[id]) {
      SentBacked(c, sorted, raw, now, id);
    }
  }

  lemma ApplySetKeeps(ok: iset<Grant>, c: Agent, m: Mgr, body: Body, full: bool, now: Time)
    requires Covers(ok, c.parse) && Inv(ok, c, m) && now != 0
    ensures Inv(ok, c, ApplySet(c, m, body, full, now))
  {
    if WellFormed(body) {
      if full {
        var p := ParseAll(c.parse, body.grants.value);
        IncomingOk(ok, c, body.grants.value);
        ReplaceKeeps(ok, c, m.core, Incoming(c, p), p.raw, body.suspended.value, now);
      } else {
        NarrowKeeps(ok, c.ik, m.core, Incoming(c, ParseAll(c.parse, body.grants.value)), body.suspended.value, now);
      }
    }
  }

  lemma DeliverKeeps(ok: iset<Grant>, c: Agent, m: Mgr, msg: Message, now: Time)
    requires Covers(ok, c.parse) && Inv(ok, c, m) && now != 0
    ensures Inv(ok, c, Deliver(c, m, msg, now))
  {
    if msg.re.None? && msg.typ == GrantUpdated {
      ApplySetKeeps(ok, c, m, msg.body, false, now);
    } else if msg.re.Some? && msg.typ == GrantList && msg.ok {
      var m0 := m.(flow := m.flow.(lists := m.flow.lists - {msg.re.value}));
      ApplySetKeeps(ok, c, m0, msg.body, IsCurrent(m.flow, msg.re.value), now);
    }
  }

  lemma RefreshKeeps(ok: iset<Grant>, c: Agent, m: Core, id: Id, a: Answer, now: Time)
    requires CoreOk(ok, c.ik, m) && m.asOf != 0
    ensures CoreOk(ok, c.ik, RefreshCore(c, m, id, a, now)) && RefreshCore(c, m, id, a, now).asOf != 0
  {
    if a.Answered? && Fetched(c, m, id, a.reply, now).0.Some? {
      FindFacts(m.grants, id);
      assert Backed(m.grants, id, Fetched(c, m, id, a.reply, now).0.value);
    }
  }

  lemma InvStep(ok: iset<Grant>, c: Agent, m: Mgr, e: Event)
    requires Covers(ok, c.parse) && Inv(ok, c, m) && Enabled(m, e)
    ensures Inv(ok, c, Step(c, m, e))
  {
    match e
    case Delivered(msg, now) => DeliverKeeps(ok, c, m, msg, now);
    case RefreshEnded(id, a, now) => RefreshKeeps(ok, c, m.core, id, a, now);
    case _ =>
  }

  lemma InvBound(ok: iset<Grant>, c: Agent, saved: Option<Saved>)
    requires saved.Some? ==> saved.value.asOf != 0 && |saved.value.grants| <= MAX_GRANTS && Sorted(saved.value.grants)
                             && forall g <- saved.value.grants :: g in ok
    ensures Inv(ok, c, Bound(c, saved))
  {
    if saved.Some? {
      FilterFacts(IsMine(c.ik), saved.value.grants);
      FilterOrder(IsMine(c.ik), saved.value.grants);
    }
  }

  /** In every run, from a start with any saved member, the invariant holds. */
  lemma {:induction false} InvRun(ok: iset<Grant>, c: Agent, m: Mgr, es: seq<Event>)
    requires Covers(ok, c.parse) && Inv(ok, c, m) && Legal(c, m, es)
    ensures Inv(ok, c, Run(c, m, es))
    decreases |es|
  {
    if es != [] {
      var n := |es| - 1;
      InvRun(ok, c, m, es[..n]);
      InvStep(ok, c, Run(c, m, es[..n]), es[n]);
    }
  }

  // ---- presenting ----

  /** Everything that must hold of what is shown a relying party, at the instant it is handed out. */
  predicate PresentedOk(c: Agent, m: Mgr, a: Access, id: Id, now: Time, p: Presented) {
    && !m.core.suspended && ActiveAt(a, now) && m.flow.listed && id !in m.core.dead
    && (exists g <- m.core.grants :: g.id == id && !g.Expired(now) && g.del == Some(p.d) && g.sig == Some(p.sig))
    && p.d.sub == c.ik && p.sig == DelegationSigned(p.d.iss, p.d) && p.d.grantID == id
    && Proves(p.d, p.st) && Current(c.limits, p.st, now)
  }

  /** A grant with a delegation carries the member's signature over exactly that delegation. */
  predicate Signed(g: Grant) {
    && (g.del.Some? <==> g.sig.Some?)
    && (g.del.Some? ==> g.sig.value == DelegationSigned(g.del.value.iss, g.del.value) && g.del.value.grantID == g.id)
  }

  ghost predicate AllSigned(ok: iset<Grant>) { forall g <- ok :: Signed(g) }

  /** What an agent parses is signed as it says. */
  ghost predicate Genuine(c: Agent) { AllSigned(AcceptedBy(c.parse)) }

  /** So it is for every connector's parseGrant. */
  lemma AgentIsGenuine(c: Config)
    ensures Genuine(AgentOf(c))
  {}

  lemma BackedIs(gs: seq<Grant>, g: Grant, st: Statement)
    requires Sorted(gs) && g in gs && Backed(gs, g.id, st)
    ensures g.del.Some? && Proves(g.del.value, st)
  {}

  /** In a state any run can reach, what Present finds presentable and usable is all of that. */
  lemma PresentedIsProven(ok: iset<Grant>, c: Agent, m: Mgr, a: Access, id: Id, now: Time)
    requires AllSigned(ok) && Inv(ok, c, m) && Presentable(c, m, a, id, now).0.Some? && Usable(c, m, id, now)
    ensures var g := Presentable(c, m, a, id, now).0.value;
            && g.del.Some? && g.sig.Some?
            && PresentedOk(c, m, a, id, now, Presented(g.del.value, g.sig.value, m.core.statements[id]))
  {
    var g := Presentable(c, m, a, id, now).0.value;
    FindFacts(m.core.grants, id);
    BackedIs(m.core.grants, g, m.core.statements[id]);
    assert Signed(g);
  }
}
