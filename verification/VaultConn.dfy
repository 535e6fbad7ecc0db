/**
 The vault connection of internal/vaultconn/vaultconn.go: which call each
 response goes to, what each batch saves before it is acknowledged, and when
 Run ends. The relay, the disk and the callers answer as a script says.
 */
module VaultConn {
  import opened Common
  import opened Grants
  import opened LeashSpec
  import opened LeashInvariants
  import opened LeashManager
  import opened Protocol

  const DRAIN_MAX_COLLECT: nat := 5
  const DRAIN_MAX_TIME: int := MINUTE
  const STATUS_RETRY_MAX: int := 5 * MINUTE
  const STATUS_EVERY: int := 6 * HOUR

  /** What a call's one-slot channel gets. */
  datatype Result = Response(msg: Message) | Superseded | IsRefused | IsStopped | NotSent | ContextEnded

  /** How the deposit of a request ended. */
  datatype Deposit = Sent(id: Id) | DepositFailed(revoked: bool)

  /** A call taken from the channel: its number, whether its caller gave up, and how its deposit ends. */
  datatype Taking = Taking(n: nat, gaveUp: bool, deposit: Deposit)

  /**
   Calls by number. pending: the call waiting under each id; results: what each
   call was sent; sentAs: every deposit, in order; left: calls whose caller gave
   up while they waited.
   */
  datatype Book = Book(pending: map<Id, nat>, results: map<nat, Result>, sentAs: seq<(Id, nat)>, left: set<nat>,
                       refused: bool, statusID: Option<Id>)

  const NO_CALLS := Book(map[], map[], [], {}, false, None)

  // ---- the books, as functions ----

  /** failPending. */
  function AllFailed(b: Book, r: Result): Book {
    b.(pending := map[], results := Filled(b.results, b.pending.Values, r))
  }

  function Filled(results: map<nat, Result>, calls: set<nat>, r: Result): map<nat, Result> {
    results + map n | n in calls :: r
  }

  /** sendFailed. */
  function AfterFailedSend(b: Book, revoked: bool): Book {
    if revoked && !b.refused then AllFailed(b.(refused := true), IsRefused) else b
  }

  /** One turn of takeCalls. */
  function Took(b: Book, t: Taking): Book {
    if t.gaveUp then b.(results := b.results[t.n := ContextEnded])
    else if b.refused then b.(results := b.results[t.n := IsRefused])
    else
      match t.deposit
      case DepositFailed(revoked) =>
        var c := AfterFailedSend(b, revoked);
        c.(results := c.results[t.n := if c.refused then IsRefused else NotSent])
      case Sent(id) =>
        var results := if id in b.pending then b.results[b.pending[id] := Superseded] else b.results;
        b.(pending := b.pending[id := t.n], results := results, sentAs := b.sentAs + [(id, t.n)])
  }

  /** sendStatus. */
  function AfterStatus(b: Book, deposit: Deposit): Book {
    match deposit
    case Sent(id) => b.(statusID := Some(id))
    case DepositFailed(revoked) => AfterFailedSend(b, revoked)
  }

  function TookAll(b: Book, ts: seq<Taking>): Book
    decreases |ts|
  {
    if ts == [] then b else Took(TookAll(b, ts[..|ts| - 1]), ts[|ts| - 1])
  }

  /** dispatch first forgets the calls whose callers gave up. */
  function Forgotten(b: Book, gone: set<nat>): Book {
    b.(pending := map id | id in b.pending && b.pending[id] !in gone :: b.pending[id],
       left := b.left + set n | n in b.pending.Values && n in gone)
  }

  function Dispatched(b: Book, a: Message): Book {
    if a.re.None? then b
    else if b.statusID == a.re then b.(statusID := None)
    else if a.re.value in b.pending then
      b.(pending := b.pending - {a.re.value}, results := b.results[b.pending[a.re.value] := Response(a)])
    else b
  }

  function DispatchedAll(b: Book, evs: seq<Message>): Book
    decreases |evs|
  {
    if evs == [] then b else Dispatched(DispatchedAll(b, evs[..|evs| - 1]), evs[|evs| - 1])
  }

  // ---- what the books keep ----

  /** The last call deposited under id. */
  function Latest(sentAs: seq<(Id, nat)>, id: Id): Option<nat>
    decreases |sentAs|
  {
    if sentAs == [] then None
    else if sentAs[|sentAs| - 1].0 == id then Some(sentAs[|sentAs| - 1].1)
    else Latest(sentAs[..|sentAs| - 1], id)
  }

  /** The calls accounted for: those with a result, those whose caller gave up, and those that wait. */
  function Accounted(b: Book): set<nat> { b.results.Keys + b.left + b.pending.Values }

  /** A waiting call has got nothing yet and is the latest under its id; no call waits under two ids; every call taken is accounted for. */
  predicate WaitsOk(b: Book, taken: set<nat>) {
    && (forall id <- b.pending :: b.pending[id] !in b.results && b.pending[id] !in b.left && Latest(b.sentAs, id) == Some(b.pending[id]))
    && (forall i, j | i in b.pending && j in b.pending && i != j :: b.pending[i] != b.pending[j])
    && Accounted(b) == taken
  }

  /** And once refused, no call waits. */
  predicate BookOk(b: Book, taken: set<nat>) { WaitsOk(b, taken) && (b.refused ==> b.pending == map[]) }

  lemma LatestSnoc(sentAs: seq<(Id, nat)>, id: Id, n: nat, x: Id)
    ensures Latest(sentAs + [(id, n)], x) == if x == id then Some(n) else Latest(sentAs, x)
  {}

  /** Nothing that was sent is changed. */
  predicate Keeps(b: Book, c: Book) { forall n <- b.results :: n in c.results && c.results[n] == b.results[n] }

  lemma WaitingHasNone(b: Book, taken: set<nat>, n: nat)
    requires WaitsOk(b, taken) && n in b.pending.Values
    ensures n !in b.results && n !in b.left
  {}

  lemma AllFailedKeeps(b: Book, taken: set<nat>, r: Result)
    requires WaitsOk(b, taken)
    ensures BookOk(AllFailed(b, r), taken) && AllFailed(b, r).pending == map[] && Keeps(b, AllFailed(b, r))
  {}

  /** A call is taken with a number of its own. */
  lemma TookKeeps(b: Book, taken: set<nat>, t: Taking)
    requires BookOk(b, taken) && t.n !in taken
    ensures BookOk(Took(b, t), taken + {t.n}) && Keeps(b, Took(b, t)) && (b.refused ==> Took(b, t).refused)
    ensures !t.gaveUp && !b.refused && t.deposit.Sent? && t.deposit.id in b.pending ==>
              b.pending[t.deposit.id] in Took(b, t).results && Took(b, t).results[b.pending[t.deposit.id]] == Superseded
  {
    if !t.gaveUp && !b.refused && t.deposit.Sent? {
      DepositKeeps(b, taken, t);
    } else if !t.gaveUp && !b.refused && t.deposit.revoked {
      AllFailedKeeps(b.(refused := true), taken, IsRefused);
      AnswerKeeps(AfterFailedSend(b, true), taken, t.n, IsRefused);
    } else {
      AnswerKeeps(b, taken, t.n, if t.gaveUp then ContextEnded else if b.refused then IsRefused else NotSent);
    }
  }

  /** A call answered at once. */
  lemma AnswerKeeps(b: Book, taken: set<nat>, n: nat, r: Result)
    requires BookOk(b, taken) && n !in taken
    ensures BookOk(b.(results := b.results[n := r]), taken + {n}) && Keeps(b, b.(results := b.results[n := r]))
  {
    var c := b.(results := b.results[n := r]);
    assert Accounted(c) == Accounted(b) + {n};
  }

  lemma DepositKeeps(b: Book, taken: set<nat>, t: Taking)
    requires BookOk(b, taken) && t.n !in taken && !t.gaveUp && !b.refused && t.deposit.Sent?
    ensures BookOk(Took(b, t), taken + {t.n}) && Keeps(b, Took(b, t))
  {
    var id, c := t.deposit.id, Took(b, t);
    forall x <- c.pending ensures c.pending[x] !in c.results && c.pending[x] !in c.left && Latest(c.sentAs, x) == Some(c.pending[x]) {
      LatestSnoc(b.sentAs, id, t.n, x);
    }
    forall n ensures n in Accounted(c) <==> n in Accounted(b) + {t.n} {
      if n in b.pending.Values {
        var x :| x in b.pending && b.pending[x] == n;
        assert x != id ==> c.pending[x] == n;
      }
      if n in c.pending.Values {
        var x :| x in c.pending && c.pending[x] == n;
        assert x != id ==> b.pending[x] == n;
      }
      assert c.pending[id] == t.n;
    }
  }

  /** A response goes to the latest call under its id, once. */
  lemma DispatchKeeps(b: Book, taken: set<nat>, a: Message)
    requires BookOk(b, taken)
    ensures BookOk(Dispatched(b, a), taken) && Keeps(b, Dispatched(b, a))
    ensures forall n <- Dispatched(b, a).results :: n !in b.results ==>
              a.re.Some? && Latest(b.sentAs, a.re.value) == Some(n) && n !in b.left
              && Dispatched(b, a).results[n] == Response(a)
  {
    var c := Dispatched(b, a);
    forall n ensures n in Accounted(c) <==> n in Accounted(b) {
      if n in b.pending.Values {
        var x :| x in b.pending && b.pending[x] == n;
        assert x in c.pending || (a.re == Some(x) && n in c.results);
        assert x in c.pending ==> c.pending[x] == n;
      }
      if n in c.pending.Values {
        var x :| x in c.pending && c.pending[x] == n;
        assert b.pending[x] == n;
      }
    }
  }

  lemma ForgetKeeps(b: Book, taken: set<nat>, gone: set<nat>)
    requires BookOk(b, taken)
    ensures BookOk(Forgotten(b, gone), taken)
  {
    var c := Forgotten(b, gone);
    forall n ensures n in Accounted(c) <==> n in Accounted(b) {
      if n in b.pending.Values {
        var x :| x in b.pending && b.pending[x] == n;
        assert n !in gone ==> x in c.pending && c.pending[x] == n;
      }
      if n in c.pending.Values {
        var x :| x in c.pending && c.pending[x] == n;
        assert b.pending[x] == n;
      }
    }
    forall id <- c.pending ensures c.pending[id] !in c.left {
      assert c.pending[id] == b.pending[id];
    }
  }

  lemma {:induction false} DispatchAllKeeps(b: Book, taken: set<nat>, evs: seq<Message>)
    requires BookOk(b, taken)
    ensures BookOk(DispatchedAll(b, evs), taken) && Keeps(b, DispatchedAll(b, evs)) && DispatchedAll(b, evs).sentAs == b.sentAs
    ensures DispatchedAll(b, evs).refused == b.refused
    ensures forall n <- DispatchedAll(b, evs).results :: n !in b.results ==> IsOwn(b, evs, n, DispatchedAll(b, evs).results[n])
    decreases |evs|
  {
    if evs != [] {
      var k := |evs| - 1;
      DispatchAllKeeps(b, taken, evs[..k]);
      var c := DispatchedAll(b, evs[..k]);
      DispatchKeeps(c, taken, evs[k]);
      forall n <- DispatchedAll(b, evs).results | n !in b.results ensures IsOwn(b, evs, n, DispatchedAll(b, evs).results[n]) {
        if n in c.results {
          assert IsOwn(b, evs[..k], n, c.results[n]);
        }
      }
    }
  }

  /** Dispatching what was collected, once the calls that gave up are forgotten. */
  lemma HandsOut(b: Book, taken: set<nat>, gone: set<nat>, evs: seq<Message>)
    requires BookOk(b, taken)
    ensures var c := DispatchedAll(Forgotten(b, gone), evs);
            && BookOk(c, taken) && Keeps(b, c) && c.refused == b.refused
            && forall n <- c.results :: n !in b.results ==> IsOwn(b, evs, n, c.results[n])
  {
    ForgetKeeps(b, taken, gone);
    DispatchAllKeeps(Forgotten(b, gone), taken, evs);
    forall n <- DispatchedAll(Forgotten(b, gone), evs).results | n !in b.results
      ensures IsOwn(b, evs, n, DispatchedAll(Forgotten(b, gone), evs).results[n]) {
      assert IsOwn(Forgotten(b, gone), evs, n, DispatchedAll(Forgotten(b, gone), evs).results[n]);
    }
  }

  lemma {:induction false} StatusIDFades(b: Book, evs: seq<Message>)
    ensures DispatchedAll(b, evs).statusID in {b.statusID, None}
    decreases |evs|
  {
    if evs != [] {
      StatusIDFades(b, evs[..|evs| - 1]);
    }
  }

  predicate Answers(evs: seq<Message>, id: Id) { exists k | 0 <= k < |evs| :: evs[k].re == Some(id) }

  lemma AnswersSnoc(evs: seq<Message>, m: Message, id: Id)
    ensures Answers(evs + [m], id) <==> Answers(evs, id) || m.re == Some(id)
  {
    if Answers(evs, id) {
      var k :| 0 <= k < |evs| && evs[k].re == Some(id);
      assert (evs + [m])[k].re == Some(id);
    }
    assert (evs + [m])[|evs|] == m;
  }

  /** The call waiting under id has a result, or still waits. */
  predicate Settled(b: Book, c: Book, id: Id, answered: bool)
    requires id in b.pending
  {
    if answered then b.pending[id] in c.results else b.pending[id] !in c.results && id in c.pending && c.pending[id] == b.pending[id]
  }

  lemma OneAnswers(b: Book, c: Book, m: Message, id: Id, answered: bool)
    requires id in b.pending && Settled(b, c, id, answered) && c.statusID != Some(id)
    requires forall x <- c.pending :: x != id && !answered ==> c.pending[x] != b.pending[id]
    ensures Settled(b, Dispatched(c, m), id, answered || m.re == Some(id))
  {}

  /** A call that waits gets a result from a batch exactly when a response to its id is in it. */
  lemma {:induction false} AnsweredExactly(b: Book, taken: set<nat>, evs: seq<Message>, id: Id)
    requires BookOk(b, taken) && id in b.pending && b.statusID != Some(id)
    ensures Settled(b, DispatchedAll(b, evs), id, Answers(evs, id))
    decreases |evs|
  {
    if evs == [] {
      WaitingHasNone(b, taken, b.pending[id]);
    } else {
      var n := |evs| - 1;
      AnsweredExactly(b, taken, evs[..n], id);
      DispatchAllKeeps(b, taken, evs[..n]);
      StatusIDFades(b, evs[..n]);
      OneAnswers(b, DispatchedAll(b, evs[..n]), evs[n], id, Answers(evs[..n], id));
      AnswersSnoc(evs[..n], evs[n], id);
      assert evs[..n] + [evs[n]] == evs;
    }
  }

  /** r is a response among evs to the latest deposit under its id, which was call n's. */
  predicate IsOwn(b: Book, evs: seq<Message>, n: nat, r: Result) {
    r.Response? && r.msg in evs && r.msg.re.Some? && Latest(b.sentAs, r.msg.re.value) == Some(n)
  }

  function Numbers(ts: seq<Taking>): set<nat> { set t | t in ts :: t.n }

  predicate DistinctCalls(ts: seq<Taking>) { forall i, j | 0 <= i < j < |ts| :: ts[i].n != ts[j].n }

  lemma {:induction false} TookAllKeeps(b: Book, taken: set<nat>, ts: seq<Taking>)
    requires BookOk(b, taken) && DistinctCalls(ts) && Numbers(ts) !! taken
    ensures BookOk(TookAll(b, ts), taken + Numbers(ts)) && Keeps(b, TookAll(b, ts)) && (b.refused ==> TookAll(b, ts).refused)
    decreases |ts|
  {
    if ts == [] {
      assert taken + Numbers(ts) == taken;
    } else {
      var k := |ts| - 1;
      assert ts == ts[..k] + [ts[k]];
      assert Numbers(ts) == Numbers(ts[..k]) + {ts[k].n};
      assert ts[k].n !in Numbers(ts[..k]);
      TookAllKeeps(b, taken, ts[..k]);
      TookKeeps(TookAll(b, ts[..k]), taken + Numbers(ts[..k]), ts[k]);
      assert taken + Numbers(ts) == taken + Numbers(ts[..k]) + {ts[k].n};
    }
  }

  // ---- persist ----

  /** How Save or Wipe ended. */
  datatype DiskAnswer = DiskWritten | DiskFailed | DiskUnknown

  /** The record a save writes once the batch is applied. */
  function RecordOf(access: Access, m: Mgr, oSaved: Option<SavedBytes>): Protocol.Record
    requires Encodable(m.core.grants)
  {
    Protocol.Record(access, LeashOf(m.core, oSaved))
  }

  lemma {:induction false} LastDecides(a: Access, b: Access, batch: seq<Message>)
    ensures AccessFrom(a, batch) == AccessFrom(b, batch) || (AccessFrom(a, batch) == a && AccessFrom(b, batch) == b)
    decreases |batch|
  {
    if batch != [] {
      LastDecides(a, b, batch[..|batch| - 1]);
    }
  }

  /** A batch applied again, by this process or the next, gives the same session. */
  lemma {:induction false} AccessIdempotent(a: Access, batch: seq<Message>)
    ensures AccessFrom(AccessFrom(a, batch), batch) == AccessFrom(a, batch)
  {
    LastDecides(AccessFrom(a, batch), a, batch);
  }

  /** The grants an agent parses have lifetimes that can be written. */
  ghost predicate CanWrite(c: Agent) { forall g <- AcceptedBy(c.parse) :: g.statusTTL >= 0 }

  lemma AgentCanWrite(c: Config)
    requires c.limits.Valid()
    ensures CanWrite(AgentOf(c))
  {}

  lemma HeldCanBeWritten(c: Agent, m: Mgr)
    requires CanWrite(c) && Sane(c, m)
    ensures Encodable(m.core.grants)
  {}

  lemma RunCanBeWritten(c: Agent, m: Mgr, es: seq<Event>)
    requires CanWrite(c) && Sane(c, m) && Legal(c, m, es)
    ensures Encodable(Run(c, m, es).core.grants)
  {
    RunKept(c, m, es);
    HeldCanBeWritten(c, Run(c, m, es));
  }

  // ---- the connection ----

  /** How one Poll went: nothing collected, or a batch, handled at these times and saved so; fails: Poll reports an error. */
  datatype Poll = Poll(collected: bool, batch: seq<Message>, clock: seq<Time>, disk: DiskAnswer, fails: bool)

  /** One turn of Run: the clock, what the callers, the relay and the disk do, and whether the context ends before or after the collect. */
  datatype Turn = Turn(now: Time, endsBefore: bool, status: Deposit, takings: seq<Taking>, poll: Poll, gone: set<nat>, endsAfter: bool, later: Time)

  datatype RunEnd = ContextDone | AgentUnlinked | WipeFailed | RelayRefused

  /** The calls after the first half of a turn: vault.status if it is due and the relay did not refuse, then the waiting requests. */
  function SentBook(b: Book, statusAt: Time, t: Turn): Book {
    TookAll(if !b.refused && t.now >= statusAt then AfterStatus(b, t.status) else b, t.takings)
  }

  predicate PollOk(p: Poll) { |p.clock| == |p.batch| && forall t <- p.clock :: t != 0 }

  predicate TurnsOk(ts: seq<Turn>) { forall t <- ts :: PollOk(t.poll) && DistinctCalls(t.takings) }

  /** Call numbers of turns, each of its own. */
  ghost predicate NewCalls(ts: seq<Turn>, taken: set<nat>) {
    && (forall i | 0 <= i < |ts| :: Numbers(ts[i].takings) !! taken)
    && forall i, j | 0 <= i < j < |ts| :: Numbers(ts[i].takings) !! Numbers(ts[j].takings)
  }

  /** What a turn of Run starts from: the calls, when vault.status is due, what is not yet handed out, and what decides its end. */
  datatype Point = Point(book: Book, statusAt: Time, pause: int, events: seq<Message>,
                         unlinked: bool, wipeFailed: bool, refusedAt: Time, drains: nat)

  /** When the relay refused. */
  function SinceWhen(b: Book, refusedAt: Time, c: Book, now: Time): Time { if c.refused && !b.refused then now else refusedAt }

  /** The pause after vault.status. */
  function PauseAfter(deposit: Deposit, pause: int): int {
    if deposit.Sent? then 0 else if pause == 0 then SECOND else Min(2 * pause, STATUS_RETRY_MAX)
  }

  predicate StatusDue(p: Point, t: Turn) { !p.book.refused && t.now >= p.statusAt }

  /** After what a turn sends. */
  function SentHalf(p: Point, t: Turn): Point {
    var book := SentBook(p.book, p.statusAt, t);
    var pause := if StatusDue(p, t) then PauseAfter(t.status, p.pause) else p.pause;
    var statusAt := if StatusDue(p, t) then t.now + (if t.status.Sent? then STATUS_EVERY else pause) else p.statusAt;
    p.(book := book, statusAt := statusAt, pause := pause, refusedAt := SinceWhen(p.book, p.refusedAt, book, t.now))
  }

  /** After what it collects. */
  function CollectedHalf(p: Point, poll: Poll, gone: set<nat>): Point {
    var unlinked := p.unlinked || (poll.collected && HasUnlink(poll.batch));
    p.(book := DispatchedAll(Forgotten(p.book, gone), p.events + if poll.collected then poll.batch else []), events := [],
       unlinked := unlinked, wipeFailed := if unlinked && poll.collected then poll.disk != DiskWritten else p.wipeFailed)
  }

  function HalvesOf(p: Point, t: Turn): Point { CollectedHalf(SentHalf(p, t), t.poll, t.gone) }

  /** The point a turn leads to. */
  function AfterTurn(p: Point, t: Turn): Point {
    if t.endsBefore then p
    else Counted(HalvesOf(p, t), t)
  }

  /** A turn after a refusal is counted. */
  function Counted(q: Point, t: Turn): Point {
    if q.book.refused && !q.unlinked && !t.endsAfter then q.(drains := q.drains + 1) else q
  }

  /** Why Run ends with the turn that led to q, if it does. */
  function TurnEnd(t: Turn, q: Point): Option<RunEnd> {
    if t.endsBefore then Some(ContextDone)
    else if q.unlinked then Some(if q.wipeFailed then WipeFailed else AgentUnlinked)
    else if t.endsAfter then Some(ContextDone)
    else if q.book.refused && ((!t.poll.collected && !t.poll.fails) || q.drains >= DRAIN_MAX_COLLECT || t.later - q.refusedAt >= DRAIN_MAX_TIME)
    then Some(RelayRefused)
    else None
  }

  predicate TookTurn(p: Point, t: Turn, q: Point) { q == AfterTurn(p, t) }

  /** Run ended for the reason of its last turn, and of no earlier one; or no turn ended it, and the context does. */
  predicate EndsAsLast(trace: seq<Point>, turns: seq<Turn>, end: RunEnd)
    requires 0 < |trace| <= |turns| + 1
  {
    var n := |trace| - 1;
    if n > 0 && TurnEnd(turns[n - 1], trace[n]).Some? then NoneEnded(trace, turns, n - 1) && TurnEnd(turns[n - 1], trace[n]).value == end
    else NoneEnded(trace, turns, n) && n == |turns| && end == ContextDone
  }

  /** Turn after turn, from the first point to the last. */
  predicate TookTurns(trace: seq<Point>, turns: seq<Turn>) {
    0 < |trace| <= |turns| + 1 && forall i | 0 <= i < |trace| - 1 :: TookTurn(trace[i], turns[i], trace[i + 1])
  }

  /** The relay refused in the turn that led to point i. */
  predicate RefusedAt(trace: seq<Point>, i: nat)
    requires i < |trace|
  {
    trace[i].book.refused && (i > 0 ==> !trace[i - 1].book.refused)
  }

  /** Every refusal stays, and drains counts the turns from it on, n more if it was there at the start. */
  predicate Counts(trace: seq<Point>, drains: nat, n: nat) {
    && trace != []
    && (forall i | 0 <= i < |trace| && trace[i].book.refused :: trace[|trace| - 1].book.refused)
    && (forall i: nat | 0 < i < |trace| && RefusedAt(trace, i) :: drains == |trace| - i)
    && (trace[0].book.refused ==> drains == n + |trace| - 1)
    && (!trace[|trace| - 1].book.refused ==> drains == 0)
  }

  lemma CountsNext(trace: seq<Point>, drains: nat, n: nat, q: Point)
    requires Counts(trace, drains, n) && (trace[|trace| - 1].book.refused ==> q.book.refused)
    ensures Counts(trace + [q], if q.book.refused then drains + 1 else drains, n)
  {
    var more := trace + [q];
    forall i: nat | 0 < i < |more| && RefusedAt(more, i) ensures (if q.book.refused then drains + 1 else drains) == |more| - i {
      if i < |trace| {
        assert RefusedAt(trace, i);
      }
    }
  }

  predicate NewFrom(turns: seq<Turn>, i: nat, all: set<nat>) { forall j | i <= j < |turns| :: Numbers(turns[j].takings) !! all }

  /** After i turns. */
  predicate LoopOk(trace: seq<Point>, turns: seq<Turn>, i: nat, drains: nat, n: nat) {
    TookTurns(trace, turns) && |trace| == i + 1 && Counts(trace, drains, n) && NoneEnded(trace, turns, i)
  }

  /** None of the first i turns ended Run. */
  predicate NoneEnded(trace: seq<Point>, turns: seq<Turn>, i: nat)
    requires i < |trace| && i <= |turns|
  {
    forall k | 0 <= k < i :: TurnEnd(turns[k], trace[k + 1]).None?
  }

  /** One more turn, which ends Run or does not. */
  lemma TurnsNext(trace: seq<Point>, turns: seq<Turn>, i: nat, q: Point)
    requires i < |turns| && TookTurns(trace, turns) && |trace| == i + 1 && NoneEnded(trace, turns, i) && TookTurn(trace[i], turns[i], q)
    ensures TookTurns(trace + [q], turns)
    ensures var end := TurnEnd(turns[i], q);
            if end.None? then NoneEnded(trace + [q], turns, i + 1) else EndsAsLast(trace + [q], turns, end.value)
  {
    var more := trace + [q];
    assert forall k | 0 <= k <= i :: more[k] == trace[k];
    forall k | 0 <= k < |more| - 1 ensures TookTurn(more[k], turns[k], more[k + 1]) {
      assert k < i ==> TookTurn(trace[k], turns[k], trace[k + 1]);
    }
    forall k | 0 <= k < i ensures TurnEnd(turns[k], more[k + 1]).None? {
      assert more[k + 1] == trace[k + 1];
    }
  }

  lemma LoopNext(trace: seq<Point>, turns: seq<Turn>, i: nat, drains: nat, n: nat, q: Point)
    requires i < |turns| && LoopOk(trace, turns, i, drains, n) && drains < DRAIN_MAX_COLLECT
    requires TookTurn(trace[i], turns[i], q) && (trace[i].book.refused ==> q.book.refused)
    ensures AtMostFive(trace + [q], n) && TookTurns(trace + [q], turns)
    ensures var end := TurnEnd(turns[i], q);
            if end.None? then LoopOk(trace + [q], turns, i + 1, if q.book.refused then drains + 1 else drains, n)
            else EndsAsLast(trace + [q], turns, end.value)
  {
    TurnsNext(trace, turns, i, q);
    CountsNext(trace, drains, n, q);
    CountedFive(trace + [q], if q.book.refused then drains + 1 else drains, n);
  }

  class Conn {
    const grants: Manager

    var book: Book
    var access: Access
    var unlinked: bool
    var wipeFailed: bool
    var saveFailed: bool
    var refusedAt: Time
    var drains: nat
    var saveFails: nat
    var statusPause: int
    var statusAt: Time
    var events: seq<Message>
    /** Every call taken so far. */
    ghost var taken: set<nat>
    /** The record as last known written, and every message acknowledged. */
    ghost var disk: Option<Protocol.Record>

    ghost predicate Valid() reads this, grants {
      BookOk(book, taken) && grants.Valid() && CanWrite(grants.c) && (!book.refused ==> drains == 0)
    }

    function Where(): Point reads this { Point(book, statusAt, statusPause, events, unlinked, wipeFailed, refusedAt, drains) }

    constructor (grants: Manager, access: Access)
      requires grants.Valid() && CanWrite(grants.c)
      ensures Valid() && fresh(this) && this.grants == grants && this.access == access && book == NO_CALLS && taken == {} && drains == 0
    {
      this.grants, this.access, book := grants, access, NO_CALLS;
      unlinked, wipeFailed, saveFailed, refusedAt, drains, saveFails, statusPause, statusAt := false, false, false, 0, 0, 0, 0, 0;
      events, taken, disk := [], {}, None;
    }

    /** CompareAndSetAccess. */
    method CompareAndSetAccess(was: Access, a: Access, valid: bool) returns (set_: bool)
      modifies this`access
      ensures set_ <==> valid && old(access) == was
      ensures access == if set_ then a else old(access)
    {
      if !valid || access != was {
        return false;
      }
      access := a;
      return true;
    }

    method ApplyAccess(batch: seq<Message>)
      modifies this`access
      ensures access == AccessFrom(old(access), batch)
    {
      for i := 0 to |batch|
        invariant access == AccessFrom(old(access), batch[..i])
      {
        assert batch[..i + 1][..i] == batch[..i];
        var m := batch[i];
        if m.re.Some? {
          continue;
        }
        if m.typ == SessionGranted {
          if m.body.SessionBody? {
            access := m.body.access;
          }
        } else if m.typ == SessionEnded {
          access := Access(AccessNone, 0, 0);
        }
      }
      assert batch[..|batch|] == batch;
    }

    method SeesUnlink(batch: seq<Message>) returns (seen: bool)
      ensures seen <==> HasUnlink(batch)
    {
      seen := false;
      for i := 0 to |batch|
        invariant seen <==> exists k | 0 <= k < i :: IsUnlink(batch[k])
      {
        if batch[i].re.None? && batch[i].typ == Unlinked {
          assert IsUnlink(batch[i]);
          seen := true;
        }
      }
    }

    /** The batch's session and grants are applied, then the record with both is saved. */
    method ApplyAndSave(batch: seq<Message>, clock: seq<Time>, answer: DiskAnswer) returns (ok: bool)
      requires Valid() && |clock| == |batch| && forall t <- clock :: t != 0
      modifies this`access, this`saveFailed, this`saveFails, this`disk, grants`core, grants`flow, grants`pace
      ensures Valid() && (ok <==> answer == DiskWritten) && access == AccessFrom(old(access), batch)
      ensures Legal(grants.c, old(grants.View()), Deliveries(batch, clock))
      ensures grants.View() == LeashSpec.Run(grants.c, old(grants.View()), Deliveries(batch, clock))
      ensures ok ==> Encodable(grants.core.grants) && disk == Some(RecordOf(access, grants.View(), grants.oSaved))
      ensures saveFailed == (old(saveFailed) || !ok)
    {
      ApplyAccess(batch);
      ghost var before := grants.View();
      forall i | 0 <= i < |clock| ensures clock[i] != 0 {
        assert clock[i] in clock;
      }
      grants.Apply(batch, clock);
      RunKept(grants.c, before, Deliveries(batch, clock));
      HeldCanBeWritten(grants.c, grants.View());
      var leash := grants.Snapshot();
      ok := answer == DiskWritten;
      if !ok {
        saveFailed := true;
        return;
      }
      disk := Some(Protocol.Record(access, leash));
      saveFails := 0;
    }

    /**
     persist: nil, and so the acknowledgement, only once a record with the
     batch's session and grants is written, or the state is wiped.
     */
    method Persist(batch: seq<Message>, clock: seq<Time>, answer: DiskAnswer) returns (ok: bool)
      requires Valid() && |clock| == |batch| && forall t <- clock :: t != 0
      modifies this`access, this`unlinked, this`wipeFailed, this`saveFailed, this`saveFails, this`events, this`disk
      modifies grants`core, grants`flow, grants`pace
      ensures Valid() && events == old(events) + batch && (ok <==> answer == DiskWritten)
      ensures unlinked <==> old(unlinked) || HasUnlink(batch)
      ensures unlinked ==> access == old(access) && grants.View() == old(grants.View()) && (ok ==> disk == None) && wipeFailed == !ok
      ensures !unlinked ==> access == AccessFrom(old(access), batch)
      ensures !unlinked ==> Legal(grants.c, old(grants.View()), Deliveries(batch, clock))
                            && grants.View() == LeashSpec.Run(grants.c, old(grants.View()), Deliveries(batch, clock))
      ensures !unlinked && ok ==> Encodable(grants.core.grants) && disk == Some(RecordOf(access, grants.View(), grants.oSaved))
      ensures !unlinked ==> saveFailed == (old(saveFailed) || !ok) && wipeFailed == old(wipeFailed)
    {
      events := events + batch;
      var unlink := SeesUnlink(batch);
      unlinked := unlinked || unlink;
      if unlinked {
        ok := answer == DiskWritten;
        wipeFailed := !ok;
        if ok {
          disk := None;
        }
        return;
      }
      ok := ApplyAndSave(batch, clock, answer);
    }

    // ---- the calls ----

    /** The send on a call's one-slot channel: the slot is free, so it does not block. */
    method Deliver(n: nat, r: Result)
      requires n !in book.results
      modifies this`book
      ensures book == old(book).(results := old(book).results[n := r])
    {
      book := book.(results := book.results[n := r]);
    }

    method FailNext(id: Id, r: Result)
      requires WaitsOk(book, taken) && id in book.pending
      modifies this`book
      ensures book == FailedOne(old(book), id, r) && WaitsOk(book, taken)
    {
      FailOne(book, taken, id, r);
      Deliver(book.pending[id], r);
      book := book.(pending := book.pending - {id});
    }

    method FailPending(r: Result)
      requires WaitsOk(book, taken)
      modifies this`book
      ensures book == AllFailed(old(book), r)
    {
      while book.pending != map[]
        invariant WaitsOk(book, taken) && AllFailed(book, r) == AllFailed(old(book), r)
        decreases |book.pending|
      {
        var id :| id in book.pending;
        FailRest(book, taken, id, r);
        FailNext(id, r);
      }
      FillOne(book.results, {0}, 0, r);
      assert book.pending.Values == {};
    }

    method SendFailed(revoked: bool, now: Time)
      requires BookOk(book, taken)
      modifies this`book, this`refusedAt
      ensures book == AfterFailedSend(old(book), revoked) && refusedAt == SinceWhen(old(book), old(refusedAt), book, now)
    {
      if revoked && !book.refused {
        book, refusedAt := book.(refused := true), now;
        FailPending(IsRefused);
      }
    }

    /** One turn of takeCalls. */
    method TakeCall(t: Taking, now: Time)
      requires BookOk(book, taken) && t.n !in taken
      modifies this`book, this`refusedAt, this`taken
      ensures book == Took(old(book), t) && taken == old(taken) + {t.n} && BookOk(book, taken)
      ensures refusedAt == SinceWhen(old(book), old(refusedAt), book, now) && (old(book).refused ==> book.refused)
    {
      TookKeeps(book, taken, t);
      if t.gaveUp {
        Deliver(t.n, ContextEnded);
      } else if book.refused {
        Deliver(t.n, IsRefused);
      } else {
        match t.deposit
        case DepositFailed(revoked) =>
          SendFailed(revoked, now);
          Deliver(t.n, if book.refused then IsRefused else NotSent);
        case Sent(id) =>
          if id in book.pending {
            Deliver(book.pending[id], Superseded);
          }
          book := book.(pending := book.pending[id := t.n], sentAs := book.sentAs + [(id, t.n)]);
      }
      taken := taken + {t.n};
    }

    /** takeCalls. */
    method TakeCalls(ts: seq<Taking>, now: Time)
      requires BookOk(book, taken) && DistinctCalls(ts) && Numbers(ts) !! taken
      modifies this`book, this`refusedAt, this`taken
      ensures book == TookAll(old(book), ts) && taken == old(taken) + Numbers(ts) && BookOk(book, taken)
      ensures refusedAt == SinceWhen(old(book), old(refusedAt), book, now) && (old(book).refused ==> book.refused)
    {
      for i := 0 to |ts|
        invariant book == TookAll(old(book), ts[..i]) && taken == old(taken) + Numbers(ts[..i]) && BookOk(book, taken)
        invariant refusedAt == SinceWhen(old(book), old(refusedAt), book, now) && (old(book).refused ==> book.refused)
      {
        assert ts[..i + 1] == ts[..i] + [ts[i]];
        assert Numbers(ts[..i + 1]) == Numbers(ts[..i]) + {ts[i].n};
        TakeCall(ts[i], now);
        assert ts[..i + 1][..i] == ts[..i];
      }
      assert ts[..|ts|] == ts;
    }

    /** sendStatus. */
    method SendStatus(deposit: Deposit, now: Time)
      requires BookOk(book, taken) && !book.refused
      modifies this`book, this`refusedAt, this`statusPause, this`statusAt
      ensures BookOk(book, taken)
      ensures book == AfterStatus(old(book), deposit) && refusedAt == SinceWhen(old(book), old(refusedAt), book, now)
      ensures statusPause == PauseAfter(deposit, old(statusPause)) && statusAt == now + if deposit.Sent? then STATUS_EVERY else statusPause
    {
      match deposit
      case DepositFailed(revoked) =>
        AllFailedKeeps(book.(refused := true), taken, IsRefused);
        SendFailed(revoked, now);
        statusPause := if statusPause == 0 then SECOND else Min(2 * statusPause, STATUS_RETRY_MAX);
        statusAt := now + statusPause;
      case Sent(id) =>
        book := book.(statusID := Some(id));
        statusPause, statusAt := 0, now + STATUS_EVERY;
    }

    /** dispatch. gone: the calls whose callers gave up by now. */
    method Dispatch(gone: set<nat>)
      requires BookOk(book, taken)
      modifies this`book, this`events
      ensures book == DispatchedAll(Forgotten(old(book), gone), old(events)) && events == [] && BookOk(book, taken)
    {
      var evs := events;
      events := [];
      ForgetKeeps(book, taken, gone);
      book := Forgotten(book, gone);
      ghost var b := book;
      for i := 0 to |evs|
        invariant book == DispatchedAll(b, evs[..i]) && BookOk(book, taken) && events == []
      {
        assert evs[..i + 1][..i] == evs[..i];
        DispatchKeeps(book, taken, evs[i]);
        DispatchOne(evs[i]);
      }
      assert evs[..|evs|] == evs;
    }

    method DispatchOne(m: Message)
      requires BookOk(book, taken)
      modifies this`book
      ensures book == Dispatched(old(book), m)
    {
      if m.re.None? {
        return;
      }
      if m.re == book.statusID {
        book := book.(statusID := None);
      } else if m.re.value in book.pending {
        var n := book.pending[m.re.value];
        book := book.(pending := book.pending - {m.re.value});
        Deliver(n, Response(m));
      }
    }

    /** Run's deferred end: every call that still waits gets an answer. */
    method Stop()
      requires BookOk(book, taken)
      modifies this`book
      ensures book == AllFailed(old(book), IsStopped) && BookOk(book, taken) && book.pending == map[]
    {
      AllFailedKeeps(book, taken, IsStopped);
      FailPending(IsStopped);
    }

    /** The first half of a turn: vault.status if it is due, and the requests that wait for Run. */
    method SendAll(t: Turn)
      requires BookOk(book, taken) && DistinctCalls(t.takings) && Numbers(t.takings) !! taken
      modifies this`book, this`refusedAt, this`taken, this`statusPause, this`statusAt
      ensures BookOk(book, taken) && taken == old(taken) + Numbers(t.takings) && Keeps(old(book), book)
      ensures Where() == SentHalf(old(Where()), t) && (old(book).refused ==> book.refused)
    {
      if !book.refused && t.now >= statusAt {
        AllFailedKeeps(book.(refused := true), taken, IsRefused);
        SendStatus(t.status, t.now);
      }
      TookAllKeeps(book, taken, t.takings);
      TakeCalls(t.takings, t.now);
    }

    /** The second half: a collect, its batch saved, and its responses handed out. */
    method Collect(p: Poll, gone: set<nat>)
      requires Valid() && PollOk(p)
      modifies this`book, this`events, this`access, this`unlinked, this`wipeFailed, this`saveFailed, this`saveFails, this`disk
      modifies grants`core, grants`flow, grants`pace
      ensures Valid() && Keeps(old(book), book) && book.refused == old(book).refused && events == []
      ensures forall n <- book.results :: n !in old(book).results ==>
                IsOwn(old(book), old(events) + if p.collected then p.batch else [], n, book.results[n])
      ensures !p.collected ==> access == old(access) && grants.View() == old(grants.View()) && disk == old(disk)
      ensures Where() == CollectedHalf(old(Where()), p, gone)
      ensures p.collected && !unlinked ==> access == AccessFrom(old(access), p.batch)
                                           && Legal(grants.c, old(grants.View()), Deliveries(p.batch, p.clock))
                                           && grants.View() == LeashSpec.Run(grants.c, old(grants.View()), Deliveries(p.batch, p.clock))
    {
      if p.collected {
        var _ := Persist(p.batch, p.clock, p.disk);
      } else {
        assert events + [] == events;
      }
      HandsOut(book, taken, gone, events);
      Dispatch(gone);
    }

    /** The two halves. */
    method SendAndCollect(t: Turn)
      requires Valid() && PollOk(t.poll) && DistinctCalls(t.takings) && Numbers(t.takings) !! taken && !t.endsBefore
      modifies this`book, this`refusedAt, this`taken, this`statusPause, this`statusAt
      modifies this`events, this`access, this`unlinked, this`wipeFailed, this`saveFailed, this`saveFails, this`disk
      modifies grants`core, grants`flow, grants`pace
      ensures Valid() && taken == old(taken) + Numbers(t.takings) && Keeps(old(book), book) && events == []
      ensures old(book).refused ==> book.refused
      ensures Where() == HalvesOf(old(Where()), t) && drains == old(drains)
    {
      SendAll(t);
      Collect(t.poll, t.gone);
    }

    /** One turn of Run's loop; end: why it ends, if it does. */
    method TakeTurn(t: Turn) returns (end: Option<RunEnd>)
      requires Valid() && PollOk(t.poll) && DistinctCalls(t.takings) && Numbers(t.takings) !! taken && drains < DRAIN_MAX_COLLECT
      modifies this, grants`core, grants`flow, grants`pace
      ensures Valid() && old(taken) <= taken <= old(taken) + Numbers(t.takings) && Keeps(old(book), book)
      ensures old(book).refused ==> book.refused
      ensures end.None? ==> drains < DRAIN_MAX_COLLECT && drains == old(drains) + (if book.refused then 1 else 0)
      ensures end == Some(RelayRefused) ==> book.refused
      ensures TookTurn(old(Where()), t, Where()) && end == TurnEnd(t, Where())
    {
      if t.endsBefore {
        return Some(ContextDone);
      }
      SendAndCollect(t);
      end := EndTurn(t);
    }

    /** What follows a collect. */
    method EndTurn(t: Turn) returns (end: Option<RunEnd>)
      requires !t.endsBefore && (!book.refused ==> drains == 0) && drains < DRAIN_MAX_COLLECT
      modifies this`saveFails, this`saveFailed, this`drains
      ensures Where() == Counted(old(Where()), t) && end == TurnEnd(t, Where()) && (!book.refused ==> drains == 0)
      ensures end.None? ==> drains < DRAIN_MAX_COLLECT && drains == old(drains) + (if book.refused then 1 else 0)
    {
      if unlinked {
        return Some(if wipeFailed then WipeFailed else AgentUnlinked);
      }
      if t.endsAfter {
        return Some(ContextDone);
      }
      if saveFailed {
        saveFails, saveFailed := saveFails + 1, false;
      }
      if book.refused {
        drains := drains + 1;
        var empty := !t.poll.collected && !t.poll.fails;
        if empty || drains >= DRAIN_MAX_COLLECT || t.later - refusedAt >= DRAIN_MAX_TIME {
          return Some(RelayRefused);
        }
      }
      end := None;
    }

    /** Run's loop; trace: where each turn started from, and where the last one ended. */
    method TakeTurns(turns: seq<Turn>) returns (end: RunEnd, ghost trace: seq<Point>)
      requires Valid() && TurnsOk(turns) && NewCalls(turns, taken) && drains < DRAIN_MAX_COLLECT
      modifies this, grants`core, grants`flow, grants`pace
      ensures BookOk(book, taken) && old(taken) <= taken
      ensures TookTurns(trace, turns) && trace[0] == old(Where()) && trace[|trace| - 1] == Where()
      ensures AtMostFive(trace, old(drains)) && EndsAsLast(trace, turns, end)
    {
      trace := [Where()];
      ghost var all := taken;
      for i := 0 to |turns|
        invariant Valid() && old(taken) <= taken <= all && drains < DRAIN_MAX_COLLECT
        invariant NewFrom(turns, i, all) && LoopOk(trace, turns, i, drains, old(drains))
        invariant trace[0] == old(Where()) && trace[i] == Where()
      {
        ghost var before := drains;
        var e := NextTurn(turns, i, all);
        LoopNext(trace, turns, i, before, old(drains), Where());
        all := all + Numbers(turns[i].takings);
        trace := trace + [Where()];
        if e.Some? {
          return e.value, trace;
        }
      }
      CountedFive(trace, drains, old(drains));
      end := ContextDone;
    }

    method NextTurn(turns: seq<Turn>, i: nat, ghost all: set<nat>) returns (e: Option<RunEnd>)
      requires Valid() && TurnsOk(turns) && i < |turns| && NewFrom(turns, i, all) && taken <= all && drains < DRAIN_MAX_COLLECT
      requires forall j, k | 0 <= j < k < |turns| :: Numbers(turns[j].takings) !! Numbers(turns[k].takings)
      modifies this, grants`core, grants`flow, grants`pace
      ensures Valid() && old(taken) <= taken <= all + Numbers(turns[i].takings) && NewFrom(turns, i + 1, all + Numbers(turns[i].takings))
      ensures TookTurn(old(Where()), turns[i], Where()) && (old(book).refused ==> book.refused) && e == TurnEnd(turns[i], Where())
      ensures e.None? ==> drains < DRAIN_MAX_COLLECT && drains == if book.refused then old(drains) + 1 else old(drains)
    {
      assert turns[i] in turns;
      e := TakeTurn(turns[i]);
    }

    /**
     Run: turn after turn until one ends it (or the context does). When it ends
     no call waits: each call taken got a result, or its caller gave up. From
     the turn in which the relay refused it takes at most drainMaxCollect
     turns, that one included.
     */
    method Run(turns: seq<Turn>) returns (end: RunEnd, ghost trace: seq<Point>)
      requires Valid() && TurnsOk(turns) && NewCalls(turns, taken) && drains < DRAIN_MAX_COLLECT
      modifies this, grants`core, grants`flow, grants`pace
      ensures TookTurns(trace, turns) && trace[0] == old(Where()) && book == AllFailed(trace[|trace| - 1].book, IsStopped)
      ensures AtMostFive(trace, old(drains)) && EndsAsLast(trace, turns, end)
      ensures BookOk(book, taken) && book.pending == map[] && taken == book.results.Keys + book.left && old(taken) <= taken
    {
      end, trace := TakeTurns(turns);
      Stop();
    }
  }

  /** From the turn of a refusal on there are at most five turns, less those counted before the first. */
  predicate AtMostFive(trace: seq<Point>, n: nat) {
    && (forall i: nat | 0 < i < |trace| && RefusedAt(trace, i) :: |trace| - i <= DRAIN_MAX_COLLECT)
    && (trace != [] && trace[0].book.refused ==> n + |trace| - 1 <= DRAIN_MAX_COLLECT)
  }

  lemma CountedFive(trace: seq<Point>, drains: nat, n: nat)
    requires Counts(trace, drains, n) && drains <= DRAIN_MAX_COLLECT
    ensures AtMostFive(trace, n)
  {}

  lemma RemoveValue(m: map<Id, nat>, id: Id)
    requires id in m && forall i, j | i in m && j in m && i != j :: m[i] != m[j]
    ensures (m - {id}).Values == m.Values - {m[id]} && |m - {id}| < |m|
  {
    forall n ensures n in (m - {id}).Values <==> n in m.Values - {m[id]} {
      if n in m.Values && n != m[id] {
        var x :| x in m && m[x] == n;
        assert (m - {id})[x] == n;
      }
      if n in (m - {id}).Values {
        var x :| x in m - {id} && (m - {id})[x] == n;
      }
    }
    assert m.Keys == (m - {id}).Keys + {id};
  }

  lemma FillOne(results: map<nat, Result>, calls: set<nat>, x: nat, r: Result)
    requires x in calls
    ensures Filled(results[x := r], calls - {x}, r) == Filled(results, calls, r)
    ensures Filled(results, {}, r) == results
  {}

  lemma MoveOne(results: map<nat, Result>, left: set<nat>, waiting: set<nat>, x: nat, r: Result)
    requires x in waiting
    ensures results[x := r].Keys + left + (waiting - {x}) == results.Keys + left + waiting
  {}

  /** The book after the call waiting under id got r. */
  function FailedOne(b: Book, id: Id, r: Result): Book
    requires id in b.pending
  {
    b.(pending := b.pending - {id}, results := b.results[b.pending[id] := r])
  }

  lemma FailOne(b: Book, taken: set<nat>, id: Id, r: Result)
    requires WaitsOk(b, taken) && id in b.pending
    ensures b.pending[id] !in b.results && WaitsOk(FailedOne(b, id, r), taken)
  {
    RemoveValue(b.pending, id);
    MoveOne(b.results, b.left, b.pending.Values, b.pending[id], r);
  }

  lemma FailRest(b: Book, taken: set<nat>, id: Id, r: Result)
    requires WaitsOk(b, taken) && id in b.pending
    ensures AllFailed(FailedOne(b, id, r), r) == AllFailed(b, r) && |FailedOne(b, id, r).pending| < |b.pending|
  {
    RemoveValue(b.pending, id);
    FillOne(b.results, b.pending.Values, b.pending[id], r);
  }
}
