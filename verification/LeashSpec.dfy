/**
 What the connector holds of its grants and how each locked region of
 internal/leash/leash.go changes it, as functions on values.
 */
module LeashSpec {
  import opened Common
  import opened Grants

  const MIN_GAP: int := 15 * SECOND
  const RETRY_MAX: int := 5 * MINUTE
  const LIST_TRIES: nat := 3

  /** The agent the grants are for: its key, leashwire's bounds, and parseGrant for its device id. */
  datatype Agent = Agent(ik: Key, limits: Limits, parse: Parser)

  function AgentOf(c: Config): Agent { Agent(c.ik, c.limits, ParserFor(c)) }

  datatype AccessState = AccessUnknown | AccessActive | AccessNone

  datatype Access = Access(state: AccessState, sessionID: nat, expiresAt: Time)

  predicate ActiveAt(a: Access, now: Time) {
    a.state == AccessActive && (a.expiresAt == 0 || now < a.expiresAt)
  }

  datatype MsgType = GrantUpdated | GrantList | SessionGranted | SessionEnded | Unlinked | OtherType

  datatype Body =
    | Unreadable
    | GrantSet(grants: Option<seq<Option<WireGrant>>>, suspended: Option<bool>)
    | SessionBody(access: Access)

  datatype Code = NoCode | SessionRequired | OwnerCheckRequired | NotFound | Forbidden | OtherCode

  /** A collected message: an event (no `re`) or a response. */
  datatype Message = Message(typ: MsgType, re: Option<Id>, ok: bool, code: Code, body: Body)

  datatype Reply = Reply(grantID: Id, status: Option<StatusBytes>, sig: Option<Signature>, rotations: seq<Option<Rotation>>)
                 | NoReply

  /** How a request to the vault ended. */
  datatype Answer = SendFailed(refused: bool) | Refused(code: Code) | Answered(reply: Reply)

  datatype Error = ErrSuspended | ErrNotGranted | ErrNotPresentable | ErrNoSession | ErrUnconfirmed
                 | ErrRefused | ErrOwnerCheck | ErrUnreachable | ErrCanceled

  /** What is held and saved: the grants, and the statements and refusals about them. */
  datatype Core = Core(grants: seq<Grant>, suspended: bool, asOf: Time, saved: bool,
                       statements: map<Id, Statement>, dead: set<Id>)

  /**
   What orders the messages. listing: a List is running; flight: the list
   whose answer it waits for; confirmed: a full answer was applied in this
   process.
   */
  datatype Flow = Flow(gen: nat, lists: map<Id, nat>, listed: bool, needList: bool, confirmed: bool,
                       listing: bool, flight: Option<Id>)

  /** What paces the requests. */
  datatype Pace = Pace(listFails: nat, nextList: Time, held: bool,
                       fetched: map<Id, Time>, refreshed: map<Id, Time>, wanted: map<Id, Time>, fails: map<Id, nat>)

  datatype Mgr = Mgr(core: Core, flow: Flow, pace: Pace)

  const FRESH_FLOW := Flow(0, map[], false, false, false, false, None)
  const FRESH_PACE := Pace(0, 0, false, map[], map[], map[], map[])

  /** The state New and Bind leave, from the saved member if it could be read. */
  function Bound(c: Agent, saved: Option<Saved>): Mgr {
    var core := if saved.None? then Core([], false, 0, false, map[], {})
                else Core(ForMe(c.ik, saved.value.grants), saved.value.suspended, saved.value.asOf, true, map[], {});
    Mgr(core, FRESH_FLOW, FRESH_PACE)
  }

  // ---- grant sets ----

  predicate Mine(ik: Key, g: Grant) { g.del.Some? ==> g.del.value.sub == ik }

  function IsMine(ik: Key): Grant -> bool { (g: Grant) => Mine(ik, g) }

  /** forMe. */
  function ForMe(ik: Key, gs: seq<Grant>): seq<Grant> { Filter(IsMine(ik), gs) }

  /** The grants of a set that parse, how often each id occurs, and each id's last wire form. */
  datatype Parsed = Parsed(grants: seq<Grant>, seen: map<Id, nat>, raw: map<Id, WireGrant>)
  {
    function Count(id: Id): nat { if id in seen then seen[id] else 0 }
  }

  function ParseOne(parse: Parser, p: Parsed, item: Option<WireGrant>): Parsed {
    if item.None? then p
    else
      var g := parse(item.value);
      if g.None? then p
      else Parsed(p.grants + [g.value], p.seen[g.value.id := p.Count(g.value.id) + 1], p.raw[g.value.id := item.value])
  }

  function ParseAll(parse: Parser, items: seq<Option<WireGrant>>): Parsed
    decreases |items|
  {
    if items == [] then Parsed([], map[], map[])
    else ParseOne(parse, ParseAll(parse, items[..|items| - 1]), items[|items| - 1])
  }

  function IsOnce(p: Parsed): Grant -> bool { (g: Grant) => p.Count(g.id) <= 1 }

  function Once(p: Parsed): seq<Grant> { Filter(IsOnce(p), p.grants) }

  /** The grants of a set: those that parse, occur once and are for this agent. */
  function Incoming(c: Agent, p: Parsed): seq<Grant> { ForMe(c.ik, Once(p)) }

  function ById(gs: seq<Grant>): map<Id, Grant>
    decreases |gs|
  {
    if gs == [] then map[] else ById(gs[..|gs| - 1])[gs[|gs| - 1].id := gs[|gs| - 1]]
  }

  lemma {:induction false} ByIdFacts(gs: seq<Grant>)
    ensures var m := ById(gs); (forall id <- m :: m[id].id == id && m[id] in gs) && (forall g <- gs :: g.id in m)
    decreases |gs|
  {
    if gs != [] {
      ByIdFacts(gs[..|gs| - 1]);
      assert gs == gs[..|gs| - 1] + [gs[|gs| - 1]];
    }
  }

  predicate Confirms(byId: map<Id, Grant>, g: Grant) { g.id in byId && byId[g.id].version == g.version }

  function IsConfirmed(byId: map<Id, Grant>): Grant -> bool { (g: Grant) => Confirms(byId, g) }

  function Kept(byId: map<Id, Grant>, gs: seq<Grant>): seq<Grant> { Filter(IsConfirmed(byId), gs) }

  /** The statements left after a narrowing dropped the grants byId does not confirm. */
  function Without(stmts: map<Id, Statement>, byId: map<Id, Grant>, gs: seq<Grant>): map<Id, Statement>
    decreases |gs|
  {
    if gs == [] then stmts
    else
      var n := |gs| - 1;
      var r := Without(stmts, byId, gs[..n]);
      if Confirms(byId, gs[n]) then r else r - {gs[n].id}
  }

  lemma {:induction false} WithoutFacts(stmts: map<Id, Statement>, byId: map<Id, Grant>, gs: seq<Grant>)
    ensures var r := Without(stmts, byId, gs);
            && (forall id :: id in r <==> id in stmts && forall g <- gs :: g.id == id ==> Confirms(byId, g))
            && (forall id <- r :: r[id] == stmts[id])
    decreases |gs|
  {
    if gs != [] {
      WithoutFacts(stmts, byId, gs[..|gs| - 1]);
      assert gs == gs[..|gs| - 1] + [gs[|gs| - 1]];
    }
  }

  predicate Older(held: seq<Grant>, g: Grant) {
    Find(held, g.id).Some? && g.version < Find(held, g.id).value.version
  }

  function IsNotOlder(held: seq<Grant>): Grant -> bool { (g: Grant) => !Older(held, g) }

  function NotOlder(held: seq<Grant>, gs: seq<Grant>): seq<Grant> { Filter(IsNotOlder(held), gs) }

  /** The statement sent with a grant, if it is one. */
  function Sent(c: Agent, g: Grant, raw: map<Id, WireGrant>, now: Time): Option<Statement> {
    if g.id !in raw || (raw[g.id].status.None? && raw[g.id].statusSig.None?) then None
    else Checked(c.limits, g, raw[g.id].status, raw[g.id].statusSig, Items(raw[g.id].rotations), now)
  }

  function Statements(c: Agent, gs: seq<Grant>, raw: map<Id, WireGrant>, now: Time): map<Id, Statement>
    decreases |gs|
  {
    if gs == [] then map[]
    else
      var n := |gs| - 1;
      var r := Statements(c, gs[..n], raw, now);
      var st := Sent(c, gs[n], raw, now);
      if st.None? then r else r[gs[n].id := st.value]
  }

  ghost predicate SentWith(c: Agent, gs: seq<Grant>, raw: map<Id, WireGrant>, now: Time, id: Id, st: Statement) {
    exists g :: g in gs && g.id == id && Sent(c, g, raw, now) == Some(st)
  }

  lemma {:induction false} StatementsFacts(c: Agent, gs: seq<Grant>, raw: map<Id, WireGrant>, now: Time, id: Id)
    requires id in Statements(c, gs, raw, now)
    ensures SentWith(c, gs, raw, now, id, Statements(c, gs, raw, now)[id])
    decreases |gs|
  {
    var n := |gs| - 1;
    if id == gs[n].id && Sent(c, gs[n], raw, now).Some? {
      assert gs[n] in gs;
    } else {
      StatementsFacts(c, gs[..n], raw, now, id);
      var g :| g in gs[..n] && g.id == id && Sent(c, g, raw, now) == Some(Statements(c, gs[..n], raw, now)[id]);
      assert g in gs;
    }
  }

  predicate WellFormed(b: Body) {
    b.GrantSet? && b.grants.Some? && b.suspended.Some? && |b.grants.value| <= MAX_GRANTS
  }

  /** A set that is not the answer to a current list only removes, and can suspend but not resume. */
  function Narrow(m: Core, gs: seq<Grant>, suspended: bool, now: Time): Core { NarrowBy(m, ById(gs), suspended, now) }

  function NarrowBy(m: Core, byId: map<Id, Grant>, suspended: bool, now: Time): Core {
    var kept := Kept(byId, m.grants);
    if suspended && !m.suspended then Core(kept, true, now, true, map[], m.dead)
    else if |kept| < |m.grants| then m.(grants := kept, asOf := now, saved := true, statements := Without(m.statements, byId, m.grants))
    else m
  }

  /** Whether a narrowing took something away. */
  predicate Narrows(m: Core, gs: seq<Grant>, suspended: bool) { NarrowsBy(m, ById(gs), suspended) }

  predicate NarrowsBy(m: Core, byId: map<Id, Grant>, suspended: bool) {
    (suspended && !m.suspended) || |Kept(byId, m.grants)| < |m.grants|
  }

  /** The answer to a list sent after everything learned so far replaces the grants. */
  function Replace(c: Agent, m: Core, gs: seq<Grant>, raw: map<Id, WireGrant>, suspended: bool, now: Time): Core {
    var sorted := SortById(NotOlder(m.grants, gs));
    Core(sorted, suspended, now, true, if suspended then map[] else Statements(c, sorted, raw, now), {})
  }

  /** Whether the answer held an older version of a grant than the one held. */
  predicate DropsOlder(m: Core, gs: seq<Grant>) { |NotOlder(m.grants, gs)| < |gs| }

  function ApplyFull(c: Agent, m: Mgr, gs: seq<Grant>, raw: map<Id, WireGrant>, suspended: bool, now: Time): Mgr {
    var needList := m.flow.needList || DropsOlder(m.core, gs);
    Mgr(Replace(c, m.core, gs, raw, suspended, now),
        m.flow.(listed := true, confirmed := true, needList := needList),
        m.pace.(fails := map[], listFails := if needList then m.pace.listFails else 0,
                nextList := if needList then m.pace.nextList else 0))
  }

  function ApplyNarrow(m: Mgr, gs: seq<Grant>, suspended: bool, now: Time): Mgr {
    var gen := if Narrows(m.core, gs, suspended) then m.flow.gen + 1 else m.flow.gen;
    Mgr(Narrow(m.core, gs, suspended, now), m.flow.(needList := true, gen := gen), m.pace)
  }

  function ApplySet(c: Agent, m: Mgr, body: Body, full: bool, now: Time): Mgr {
    if !WellFormed(body) then m.(flow := m.flow.(listed := false, needList := true))
    else
      var p := ParseAll(c.parse, body.grants.value);
      if full then ApplyFull(c, m, Incoming(c, p), p.raw, body.suspended.value, now)
      else ApplyNarrow(m, Incoming(c, p), body.suspended.value, now)
  }

  // ---- facts about the parsed set ----

  lemma {:induction false} ParsedCounts(parse: Parser, items: seq<Option<WireGrant>>)
    ensures var p := ParseAll(parse, items);
            && |p.grants| <= |items|
            && (forall g <- p.grants :: g.id in p.seen && p.seen[g.id] >= 1)
            && (forall i, j | 0 <= i < j < |p.grants| && p.grants[i].id == p.grants[j].id :: p.seen[p.grants[i].id] >= 2)
            && (forall g <- p.grants | p.seen[g.id] == 1 ::
                  g.id in p.raw && Some(p.raw[g.id]) in items && parse(p.raw[g.id]) == Some(g))
    decreases |items|
  {
    if items != [] {
      var n := |items| - 1;
      ParsedCounts(parse, items[..n]);
      assert items == items[..n] + [items[n]];
    }
  }

  lemma {:induction false} OnceDistinct(p: Parsed, gs: seq<Grant>)
    requires forall i, j | 0 <= i < j < |gs| && gs[i].id == gs[j].id :: p.Count(gs[i].id) >= 2
    ensures Distinct(Filter(IsOnce(p), gs))
    decreases |gs|
  {
    if gs != [] {
      var n := |gs| - 1;
      OnceDistinct(p, gs[..n]);
      var r := Filter(IsOnce(p), gs[..n]);
      if IsOnce(p)(gs[n]) {
        forall g <- r ensures g.id != gs[n].id {
          FilterFacts(IsOnce(p), gs[..n]);
          var k :| 0 <= k < n && gs[k] == g;
        }
        DistinctSnoc(r, gs[n]);
      }
    }
  }

  /**
   The incoming grants of a set: distinct, at most as many as its items, each
   for this agent and parsed from the item its id's wire form is.
   */
  lemma IncomingFacts(c: Agent, items: seq<Option<WireGrant>>)
    ensures var p := ParseAll(c.parse, items);
            var gs := Incoming(c, p);
            && Distinct(gs) && |gs| <= |items|
            && forall g <- gs :: g.id in p.raw && Some(p.raw[g.id]) in items && c.parse(p.raw[g.id]) == Some(g) && Mine(c.ik, g)
  {
    var p := ParseAll(c.parse, items);
    ParsedCounts(c.parse, items);
    FilterFacts(IsOnce(p), p.grants);
    OnceDistinct(p, p.grants);
    FilterFacts(IsMine(c.ik), Once(p));
    FilterOrder(IsMine(c.ik), Once(p));
  }

  // ---- the locked regions ----

  /** One message of Apply's batch. */
  function Deliver(c: Agent, m: Mgr, msg: Message, now: Time): Mgr {
    if msg.re.None? && msg.typ == GrantUpdated then
      var r := ApplySet(c, m, msg.body, false, now);
      r.(flow := r.flow.(gen := r.flow.gen + 1))
    else if msg.re.Some? && msg.typ == GrantList && msg.ok then
      ApplySet(c, m.(flow := m.flow.(lists := m.flow.lists - {msg.re.value})), msg.body, IsCurrent(m.flow, msg.re.value), now)
    else if msg.re.None? && msg.typ == SessionGranted then
      Mgr(m.core, m.flow.(listed := false, needList := true), m.pace.(listFails := 0, nextList := 0))
    else if msg.re.None? && msg.typ == SessionEnded then
      m.(flow := m.flow.(listed := false))
    else m
  }

  /** id is a list this process sent with nothing learned since. */
  predicate IsCurrent(f: Flow, id: Id) { id in f.lists && f.lists[id] == f.gen }

  function Backoff(base: int, limit: int, n: nat): int
    decreases n
  {
    if n <= 1 then Min(base, limit) else Min(2 * Backoff(base, limit, n - 1), limit)
  }

  function ListFailed(p: Pace, now: Time): Pace {
    p.(listFails := p.listFails + 1, nextList := now + Backoff(MIN_GAP, RETRY_MAX, p.listFails + 1))
  }

  function ListBegin(f: Flow, id: Id): Flow {
    f.(lists := f.lists[id := f.gen], needList := false, flight := Some(id))
  }

  /** What listOnce returns: again (overtaken), or done with an error or none. */
  datatype ListResult = Again | Done(err: Option<Error>)

  function ListOutcome(f: Flow, id: Id, a: Answer): ListResult {
    match a
    case SendFailed(refused) => Done(Some(if refused then ErrRefused else ErrUnconfirmed))
    case Refused(code) =>
      Done(Some(if code == SessionRequired then ErrNoSession else if code == OwnerCheckRequired then ErrOwnerCheck else ErrUnconfirmed))
    case Answered(_) =>
      if id in f.lists then Done(Some(ErrUnconfirmed))
      else if f.needList then Again
      else if !f.listed then Done(Some(ErrUnconfirmed))
      else Done(None)
  }

  function ListEndFlow(f: Flow, id: Id, a: Answer): Flow {
    f.(flight := None, lists := f.lists - {id}, needList := f.needList || !a.Answered? || id in f.lists,
       listed := f.listed && a != Refused(SessionRequired))
  }

  function ListEndPace(f: Flow, p: Pace, id: Id, a: Answer, now: Time): Pace {
    match a
    case SendFailed(_) => ListFailed(p, now)
    case Refused(SessionRequired) => p
    case Refused(OwnerCheckRequired) => p.(held := true)
    case Refused(_) => ListFailed(p, now)
    case Answered(_) => if id in f.lists || (!f.needList && !f.listed) then ListFailed(p, now) else p
  }

  function Fails(p: Pace, id: Id): nat { if id in p.fails then p.fails[id] else 0 }

  function Failed(p: Pace, id: Id): Pace { p.(fails := p.fails[id := Fails(p, id) + 1]) }

  /** The statement refresh keeps, or why it keeps none. */
  function Fetched(c: Agent, m: Core, id: Id, b: Reply, now: Time): (Option<Statement>, Option<Error>) {
    var g := Find(m.grants, id);
    if g.None? || id in m.dead then (None, Some(ErrNotGranted))
    else if m.suspended then (None, Some(ErrSuspended))
    else if b.NoReply? || b.grantID != id then (None, Some(ErrUnconfirmed))
    else
      var st := Checked(c.limits, g.value, b.status, b.sig, b.rotations, now);
      if st.None? then (None, Some(ErrUnconfirmed)) else (st, None)
  }

  function RefreshOutcome(c: Agent, m: Core, id: Id, a: Answer, now: Time): Option<Error> {
    match a
    case SendFailed(refused) => Some(if refused then ErrRefused else ErrUnreachable)
    case Refused(NotFound) => Some(ErrNotGranted)
    case Refused(Forbidden) => Some(ErrSuspended)
    case Refused(OwnerCheckRequired) => Some(ErrOwnerCheck)
    case Refused(SessionRequired) => Some(ErrNoSession)
    case Refused(_) => Some(ErrUnconfirmed)
    case Answered(b) => Fetched(c, m, id, b, now).1
  }

  function RefreshCore(c: Agent, m: Core, id: Id, a: Answer, now: Time): Core {
    match a
    case Refused(NotFound) => m.(statements := m.statements - {id}, dead := m.dead + {id})
    case Refused(Forbidden) => m.(suspended := true, saved := true, statements := map[])
    case Answered(b) =>
      var st := Fetched(c, m, id, b, now).0;
      if st.None? then m else m.(statements := m.statements[id := st.value])
    case _ => m
  }

  function RefreshFlow(f: Flow, a: Answer): Flow {
    if a == Refused(NotFound) || a == Refused(Forbidden) then f.(gen := f.gen + 1, needList := true)
    else if a == Refused(SessionRequired) then f.(listed := false)
    else f
  }

  function RefreshPace(c: Agent, m: Core, p: Pace, id: Id, a: Answer, now: Time): Pace {
    match a
    case SendFailed(_) => Failed(p, id)
    case Refused(OwnerCheckRequired) => p.(held := true)
    case Refused(OtherCode) => Failed(p, id)
    case Refused(NoCode) => Failed(p, id)
    case Refused(_) => p
    case Answered(b) =>
      var r := Fetched(c, m, id, b, now);
      if r.0.Some? then p.(refreshed := p.refreshed[id := now], fails := p.fails[id := 0])
      else if r.1 == Some(ErrUnconfirmed) then Failed(p, id)
      else p
  }

  /** One locked region of one goroutine. */
  datatype Event =
    | Delivered(msg: Message, now: Time)
    | OwnerCheck(isHeld: bool)
    | ListEntered
    | ListSent(id: Id)
    | ListEnded(answer: Answer, now: Time)
    | ListGaveUp(now: Time)
    | ListLeft
    | Wanted(id: Id, now: Time)
    | RefreshSent(id: Id, now: Time)
    | RefreshEnded(id: Id, answer: Answer, now: Time)

  /**
   The regions a goroutine can reach in m: only the goroutine that set
   listing sends lists, one at a time; a status is asked for only after the
   grants were confirmed once, and answered only after it was asked for.
   */
  predicate Enabled(m: Mgr, e: Event) {
    match e
    case ListEntered => !m.flow.listing
    case ListSent(_) => m.flow.listing && m.flow.flight.None?
    case ListEnded(_, _) => m.flow.flight.Some?
    case ListGaveUp(_) => m.flow.listing && m.flow.flight.None?
    case ListLeft => m.flow.listing && m.flow.flight.None?
    case Delivered(_, now) => now != 0
    case RefreshSent(_, _) => m.flow.confirmed
    case RefreshEnded(id, _, _) => id in m.pace.fetched
    case _ => true
  }

  function Step(c: Agent, m: Mgr, e: Event): Mgr
    requires Enabled(m, e)
  {
    match e
    case Delivered(msg, now) => Deliver(c, m, msg, now)
    case OwnerCheck(isHeld) => m.(pace := m.pace.(held := m.pace.held && isHeld))
    case ListEntered => m.(flow := m.flow.(listing := true))
    case ListSent(id) => m.(flow := ListBegin(m.flow, id))
    case ListEnded(a, now) =>
      var id := m.flow.flight.value;
      Mgr(m.core, ListEndFlow(m.flow, id, a), ListEndPace(m.flow, m.pace, id, a, now))
    case ListGaveUp(now) => m.(pace := ListFailed(m.pace, now))
    case ListLeft => m.(flow := m.flow.(listing := false))
    case Wanted(id, now) => m.(pace := m.pace.(wanted := m.pace.wanted[id := now]))
    case RefreshSent(id, now) => m.(pace := m.pace.(fetched := m.pace.fetched[id := now]))
    case RefreshEnded(id, a, now) =>
      Mgr(RefreshCore(c, m.core, id, a, now), RefreshFlow(m.flow, a), RefreshPace(c, m.core, m.pace, id, a, now))
  }

  /** es can happen one after the other from m. */
  predicate Legal(c: Agent, m: Mgr, es: seq<Event>)
    decreases |es|, 0
  {
    es == [] || (Legal(c, m, es[..|es| - 1]) && Enabled(Run(c, m, es[..|es| - 1]), es[|es| - 1]))
  }

  function Run(c: Agent, m: Mgr, es: seq<Event>): Mgr
    requires Legal(c, m, es)
    decreases |es|, 1
  {
    if es == [] then m else Step(c, Run(c, m, es[..|es| - 1]), es[|es| - 1])
  }

  // ---- presenting ----

  function Presentable(c: Agent, m: Mgr, a: Access, id: Id, now: Time): (Option<Grant>, Option<Error>) {
    if m.core.suspended then (None, Some(ErrSuspended))
    else if !ActiveAt(a, now) then (None, Some(ErrNoSession))
    else if !m.flow.listed then (None, Some(ErrUnconfirmed))
    else
      var g := Find(m.core.grants, id);
      if g.None? || g.value.Expired(now) || id in m.core.dead then (None, Some(ErrNotGranted))
      else if g.value.del.None? || g.value.del.value.sub != c.ik then (None, Some(ErrNotPresentable))
      else (g, None)
  }

  predicate Usable(c: Agent, m: Mgr, id: Id, now: Time) {
    && id in m.core.statements
    && Current(c.limits, m.core.statements[id], now)
    && (now < m.core.statements[id].RefreshAt() || (id in m.pace.refreshed && now < m.pace.refreshed[id] + MIN_GAP))
  }

  /** What is shown a relying party. */
  datatype Presented = Presented(d: Delegation, sig: Signature, st: Statement)
}
