/**
 The requests of internal/leash/request/request.go as a state machine: who holds
 each result, how many requests are held, what is sent, and how long is waited.
 A step is one locked region, one send, or the end of one.
 */
module Requests {
  import opened Common

  type Id = nat

  const RETRANSMISSIONS: nat := 2
  const APPROVAL_TTL: int := 5 * MINUTE

  datatype Options = Options(attempt: int, grace: int, unanswered: int, maxPending: nat)

  datatype Err = ErrStopped | ErrRefused | ErrSuperseded | ErrUnreachable | ErrProtocol | ErrDenied | ErrExpired | ErrTooMany | ErrCanceled

  /** sends: copies sent; sending: one awaits its answer since start; res: the serial of the parsed result it holds. */
  datatype Entry = Entry(created: Time, sends: nat, sending: bool, start: Time, waiting: bool, exp: Time,
                         done: bool, res: Option<nat>, err: Option<Err>, handed: bool, abandoned: bool, evicts: bool)

  /** Where a parsed result is: with an entry, with the one caller it was returned to, or nowhere, its bytes zeroed. */
  datatype Fate = Kept(id: Id) | Returned(toStatus: bool) | Zeroed

  /**
   objs: every entry there was; live: those in the Client's map; calls: tool
   calls still waiting; ended: Close has returned; fate: of every parsed result.
   */
  datatype Cl = Cl(objs: map<Id, Entry>, live: set<Id>, calls: set<Id>, closed: bool, ended: bool, fate: seq<Fate>)

  const EMPTY := Cl(map[], {}, {}, false, false, [])

  datatype How = TimedOut | NotSent | IsRefused | IsStopped | IsSuperseded | Parsed | Unreadable | Declined

  datatype Step =
    | Begin(id: Id, canceled: bool, now: Time)
    | Copy(id: Id, now: Time)
    | CopyEnds(id: Id, how: How, now: Time)
    | ApprovalWaiting(id: Id, exp: Option<Time>, now: Time)
    | CallEnds(id: Id, canceled: bool, now: Time)
    | Status(id: Id, now: Time)
    | Evicts(id: Id)
    | Closes
    | CloseEnds

  datatype Outcome = Nothing | Gives(serial: nat) | GivesNil | Fails(e: Err) | Pending(id: Id, waiting: bool)

  // ---- the pieces ----

  function NewEntry(now: Time): Entry { Entry(now, 0, false, 0, false, 0, false, None, None, false, false, false) }

  /** In flight, or holding a result. */
  predicate Counts(e: Entry) { !e.done || e.res.Some? }

  function HeldIds(c: Cl): set<Id> { set id | id in c.live && id in c.objs && Counts(c.objs[id]) }

  function Put(c: Cl, id: Id, e: Entry): Cl { c.(objs := c.objs[id := e]) }

  /** dropLocked. */
  function Dropped(c: Cl, id: Id): Cl
    requires id in c.objs && (c.objs[id].res.Some? ==> c.objs[id].res.value < |c.fate|)
  {
    var e := c.objs[id];
    c.(objs := c.objs[id := e.(res := None, evicts := false)], live := c.live - {id},
       fate := if e.res.Some? then c.fate[e.res.value := Zeroed] else c.fate)
  }

  /** takeLocked. */
  function Taken(c: Cl, id: Id, toStatus: bool): Cl
    requires id in c.objs && (c.objs[id].res.Some? ==> c.objs[id].res.value < |c.fate|)
  {
    var e := c.objs[id];
    c.(objs := c.objs[id := e.(res := None, evicts := false)], live := c.live - {id},
       fate := if e.res.Some? then c.fate[e.res.value := Returned(toStatus)] else c.fate)
  }

  function TakenOutcome(e: Entry): Outcome {
    if e.err.Some? then Fails(e.err.value) else if e.res.Some? then Gives(e.res.value) else GivesNil
  }

  /** finish; ok: with a newly parsed result. */
  function Finished(c: Cl, id: Id, ok: bool, err: Option<Err>): Cl
    requires id in c.objs
  {
    var n := |c.fate|;
    var e := c.objs[id].(sending := false, done := true, res := if ok then Some(n) else None, err := err);
    var d := c.(objs := c.objs[id := e], fate := if ok then c.fate + [Kept(id)] else c.fate);
    if e.abandoned || c.closed then Dropped(d, id)
    else if e.handed then Put(d, id, e.(evicts := true))
    else d
  }

  function Clamped(exp: Option<Time>, now: Time): Time {
    if exp.None? || exp.value > now + APPROVAL_TTL + MINUTE then now + APPROVAL_TTL else exp.value
  }

  function Held(e: Entry, exp: Option<Time>, now: Time): Entry {
    if !e.waiting || Clamped(exp, now) > e.exp then e.(waiting := true, exp := Clamped(exp, now)) else e
  }

  /** When the attempt started at e.start stops waiting. */
  function Deadline(o: Options, e: Entry): Time {
    if e.waiting then Max(e.start + o.attempt, e.exp + o.grace) else e.start + o.attempt
  }

  function PendingOf(e: Entry, id: Id, now: Time): Outcome { Pending(id, e.waiting && now < e.exp) }

  /** How run ends a request whose copy ended so, if it does: with a result, an error, or (None) another copy. */
  function RunErr(e: Entry, how: How): Option<Option<Err>> {
    match how
    case TimedOut => if e.sends > RETRANSMISSIONS then Some(Some(ErrUnreachable)) else None
    case NotSent => if e.sends > RETRANSMISSIONS then Some(Some(ErrUnreachable)) else None
    case IsRefused => Some(Some(ErrRefused))
    case IsStopped => Some(Some(ErrStopped))
    case IsSuperseded => Some(Some(ErrSuperseded))
    case Parsed => Some(None)
    case Unreadable => Some(Some(ErrProtocol))
    case Declined => Some(Some(ErrDenied))
  }

  /** The vault answered. */
  predicate IsAnswer(how: How) { how in {Parsed, Unreadable, Declined} }

  // ---- the steps ----

  /** Results the entries hold were parsed. */
  predicate Serials(c: Cl) {
    && c.live <= c.objs.Keys
    && forall id <- c.objs :: c.objs[id].res.Some? ==> c.objs[id].res.value < |c.fate|
  }

  predicate Can(o: Options, c: Cl, s: Step) {
    match s
    case Begin(id, _, _) => id !in c.objs
    case Copy(id, _) => id in c.objs && !c.objs[id].done && !c.objs[id].sending && c.objs[id].sends <= RETRANSMISSIONS
    case CopyEnds(id, how, now) => id in c.objs && c.objs[id].sending && (how == TimedOut ==> now >= Deadline(o, c.objs[id]))
    case ApprovalWaiting(_, _, _) => true
    case CallEnds(id, canceled, now) => id in c.calls && id in c.objs
    case Status(_, _) => true
    case Evicts(id) => id in c.objs && c.objs[id].evicts && id in c.live
    case Closes => true
    case CloseEnds => c.closed && forall id <- c.objs :: c.objs[id].done
  }

  function DropAll(c: Cl, ids: set<Id>): Cl {
    c.(objs := map id | id in c.objs :: if id in ids then c.objs[id].(res := None, evicts := false) else c.objs[id],
       live := c.live - ids,
       fate := seq(|c.fate|, i requires 0 <= i < |c.fate| => if c.fate[i].Kept? && c.fate[i].id in ids then Zeroed else c.fate[i]))
  }

  function Next(o: Options, c: Cl, s: Step): Cl
    requires Serials(c) && Can(o, c, s)
  {
    match s
    case Begin(id, canceled, now) =>
      if c.closed || canceled || |HeldIds(c)| >= o.maxPending then c
      else c.(objs := c.objs[id := NewEntry(now)], live := c.live + {id}, calls := c.calls + {id})
    case Copy(id, now) => Put(c, id, c.objs[id].(sends := c.objs[id].sends + 1, sending := true, start := now))
    case CopyEnds(id, how, now) =>
      var end := RunErr(c.objs[id], how);
      if end.None? then Put(c, id, c.objs[id].(sending := false)) else Finished(c, id, how == Parsed, end.value)
    case ApprovalWaiting(id, exp, now) =>
      if id !in c.live || c.objs[id].done then c else Put(c, id, Held(c.objs[id], exp, now))
    case CallEnds(id, canceled, now) =>
      var d := c.(calls := c.calls - {id});
      if c.objs[id].done then Taken(d, id, false)
      else if canceled then Put(d, id, c.objs[id].(abandoned := true))
      else Put(d, id, c.objs[id].(handed := true))
    case Status(id, now) =>
      if id !in c.live || !c.objs[id].handed || !c.objs[id].done || c.objs[id].res.None? then c else Taken(c, id, true)
    case Evicts(id) => Dropped(c, id)
    case Closes => c.(closed := true)
    case CloseEnds => DropAll(c, c.live).(ended := true)
  }

  function OutcomeOf(o: Options, c: Cl, s: Step): Outcome
    requires Serials(c) && Can(o, c, s)
  {
    match s
    case Begin(id, canceled, now) =>
      if c.closed then Fails(ErrStopped) else if canceled then Fails(ErrCanceled)
      else if |HeldIds(c)| >= o.maxPending then Fails(ErrTooMany) else Nothing
    case CallEnds(id, canceled, now) =>
      if c.objs[id].done then TakenOutcome(c.objs[id]) else if canceled then Fails(ErrCanceled) else PendingOf(c.objs[id], id, now)
    case Status(id, now) =>
      if id !in c.live || !c.objs[id].handed then Fails(ErrExpired)
      else if !c.objs[id].done then
        if !c.objs[id].waiting && now - c.objs[id].created >= o.unanswered then Fails(ErrUnreachable)
        else PendingOf(c.objs[id], id, now)
      else TakenOutcome(c.objs[id])
    case _ => Nothing
  }

  // ---- the invariant ----

  /** What holds of an entry, in the map or not, its tool call waiting or not. */
  predicate EntryOk(e: Entry, live: bool, calls: bool, closed: bool) {
    && (!e.done ==> live && e.res.None? && e.err.None?)
    && (e.res.Some? ==> live && e.err.None?)
    && (e.done && e.err.None? && live ==> e.res.Some?)
    && (e.sending ==> !e.done)
    && e.sends <= RETRANSMISSIONS + 1
    && (calls ==> !e.handed && !e.abandoned && (live || closed))
    && (!calls && live ==> (e.handed && (e.done ==> e.evicts)) || (e.abandoned && !e.done))
    && (e.evicts ==> e.handed && e.done)
  }

  /** Entry id holds serial n exactly when n's fate says so. */
  predicate FateOk(c: Cl, n: nat)
    requires n < |c.fate|
  {
    c.fate[n].Kept? ==> c.fate[n].id in c.objs && c.objs[c.fate[n].id].res == Some(n)
  }

  predicate HoldsRight(c: Cl, id: Id)
    requires id in c.objs
  {
    c.objs[id].res.Some? ==> c.objs[id].res.value < |c.fate| && c.fate[c.objs[id].res.value] == Kept(id)
  }

  predicate ClOk(o: Options, c: Cl) {
    && c.live <= c.objs.Keys && c.calls <= c.objs.Keys
    && (forall id <- c.objs :: EntryOk(c.objs[id], id in c.live, id in c.calls, c.closed))
    && (forall id <- c.objs :: HoldsRight(c, id))
    && (forall n: nat | n < |c.fate| :: FateOk(c, n))
    && |HeldIds(c)| <= o.maxPending
    && (c.ended ==> c.closed && c.live == {})
  }

  lemma OkSerials(o: Options, c: Cl)
    requires ClOk(o, c)
    ensures Serials(c)
  {}

  /** d differs from c in entry id only, which holds no more than before. */
  predicate Changes(c: Cl, d: Cl, id: Id) {
    && id in c.objs && d.objs.Keys == c.objs.Keys && (forall j <- c.objs :: j != id ==> d.objs[j] == c.objs[j])
    && d.live - {id} == c.live - {id} && d.calls - {id} == c.calls - {id} && d.live <= d.objs.Keys && d.calls <= d.objs.Keys
    && d.closed == c.closed && d.ended == c.ended
    && (id in d.live && Counts(d.objs[id]) ==> id in c.live && Counts(c.objs[id]))
  }

  lemma FewerHeld(c: Cl, d: Cl)
    requires forall id <- HeldIds(d) :: id in HeldIds(c)
    ensures |HeldIds(d)| <= |HeldIds(c)|
  {
    Subset(HeldIds(d), HeldIds(c));
  }

  lemma {:induction false} Subset(a: set<Id>, b: set<Id>)
    requires a <= b
    ensures |a| <= |b|
    decreases |a|
  {
    if a != {} {
      var x :| x in a;
      Subset(a - {x}, b - {x});
    }
  }

  lemma ChangeKeeps(o: Options, c: Cl, d: Cl, id: Id)
    requires ClOk(o, c) && Changes(c, d, id) && (c.ended ==> id !in d.live)
    requires EntryOk(d.objs[id], id in d.live, id in d.calls, d.closed) && HoldsRight(d, id)
    requires |c.fate| <= |d.fate| && forall n: nat | n < |c.fate| && c.fate[n] != d.fate[n] :: c.fate[n] == Kept(id) && !d.fate[n].Kept?
    requires forall n: nat | n < |d.fate| && d.fate[n] == Kept(id) :: FateOk(d, n)
    requires forall n: nat | |c.fate| <= n < |d.fate| && d.fate[n].Kept? :: d.fate[n] == Kept(id)
    ensures ClOk(o, d)
  {
    forall j <- HeldIds(d) ensures j in HeldIds(c) {
      assert j != id ==> j in d.live - {id};
    }
    FewerHeld(c, d);
    if c.ended {
      assert d.live == d.live - {id};
    }
    forall j <- d.objs ensures EntryOk(d.objs[j], j in d.live, j in d.calls, d.closed) && HoldsRight(d, j) {
      if j != id {
        assert HoldsRight(c, j) && EntryOk(c.objs[j], j in c.live, j in c.calls, c.closed);
        assert (j in d.live <==> j in d.live - {id}) && (j in d.calls <==> j in d.calls - {id});
        assert (j in c.live <==> j in c.live - {id}) && (j in c.calls <==> j in c.calls - {id});
      }
    }
    forall n: nat | n < |d.fate| ensures FateOk(d, n) {
      if n < |c.fate| {
        assert FateOk(c, n);
      }
    }
  }

  lemma BeginKeeps(o: Options, c: Cl, id: Id, canceled: bool, now: Time)
    requires ClOk(o, c) && Serials(c) && id !in c.objs
    ensures ClOk(o, Next(o, c, Begin(id, canceled, now)))
  {
    var d := Next(o, c, Begin(id, canceled, now));
    if d != c {
      assert HeldIds(d) == HeldIds(c) + {id};
      forall j <- d.objs ensures EntryOk(d.objs[j], j in d.live, j in d.calls, d.closed) && HoldsRight(d, j) {
        if j != id {
          assert HoldsRight(c, j);
        }
      }
      forall n: nat | n < |d.fate| ensures FateOk(d, n) {
        assert FateOk(c, n);
      }
    }
  }

  /** Taking a done entry, or dropping it, sends its result's fate from Kept to what it is given. */
  lemma LetGoKeeps(o: Options, c: Cl, d0: Cl, id: Id, toStatus: bool)
    requires ClOk(o, c) && Serials(c) && id in c.objs && c.objs[id].done
    requires d0 == c || (d0 == c.(calls := c.calls - {id}) && id in c.calls)
    requires d0 == c ==> id in c.live && id !in c.calls
    ensures ClOk(o, Taken(d0, id, toStatus)) && (d0 == c ==> ClOk(o, Dropped(c, id)))
  {
    assert HoldsRight(c, id) && EntryOk(c.objs[id], id in c.live, id in c.calls, c.closed);
    forall n: nat | n < |c.fate| && c.fate[n] == Kept(id) ensures c.objs[id].res == Some(n) {
      assert FateOk(c, n);
    }
    ChangeKeeps(o, c, Taken(d0, id, toStatus), id);
    if d0 == c {
      ChangeKeeps(o, c, Dropped(c, id), id);
    }
  }

  lemma FinishKeeps(o: Options, c: Cl, id: Id, ok: bool, err: Option<Err>)
    requires ClOk(o, c) && Serials(c) && id in c.objs && c.objs[id].sending && (ok <==> err.None?)
    ensures ClOk(o, Finished(c, id, ok, err))
  {
    assert EntryOk(c.objs[id], id in c.live, id in c.calls, c.closed);
    forall n: nat | n < |c.fate| ensures c.fate[n] != Kept(id) {
      assert FateOk(c, n);
    }
    ChangeKeeps(o, c, Finished(c, id, ok, err), id);
  }

  /** Flags of one entry change, its result does not. */
  lemma PutKeeps(o: Options, c: Cl, d: Cl, id: Id, e: Entry)
    requires ClOk(o, c) && id in c.objs && e.res == c.objs[id].res && (Counts(e) ==> Counts(c.objs[id]))
    requires d == Put(c, id, e) || (d == Put(c.(calls := c.calls - {id}), id, e) && !e.done)
    requires EntryOk(e, id in c.live, id in d.calls, c.closed)
    ensures ClOk(o, d)
  {
    assert HoldsRight(c, id);
    forall n: nat | n < |c.fate| && c.fate[n] == Kept(id) ensures FateOk(d, n) {
      assert FateOk(c, n);
    }
    ChangeKeeps(o, c, d, id);
  }

  lemma FlagsKeep(o: Options, c: Cl, s: Step)
    requires ClOk(o, c) && Serials(c) && Can(o, c, s)
    requires s.Copy? || s.ApprovalWaiting? || (s.CopyEnds? && RunErr(c.objs[s.id], s.how).None?) || (s.CallEnds? && !c.objs[s.id].done)
    ensures ClOk(o, Next(o, c, s))
  {
    var d := Next(o, c, s);
    if d != c {
      assert EntryOk(c.objs[s.id], s.id in c.live, s.id in c.calls, c.closed);
      PutKeeps(o, c, d, s.id, d.objs[s.id]);
    }
  }

  lemma CloseKeeps(o: Options, c: Cl)
    requires ClOk(o, c) && Serials(c)
    ensures ClOk(o, c.(closed := true))
    ensures (c.closed && forall id <- c.objs :: c.objs[id].done) ==> ClOk(o, Next(o, c, CloseEnds))
  {
    var d := c.(closed := true);
    assert HeldIds(d) == HeldIds(c);
    forall j <- d.objs ensures EntryOk(d.objs[j], j in d.live, j in d.calls, d.closed) && HoldsRight(d, j) {
      assert HoldsRight(c, j);
    }
    forall n: nat | n < |d.fate| ensures FateOk(d, n) {
      assert FateOk(c, n);
    }
    if c.closed && forall id <- c.objs :: c.objs[id].done {
      EndKeeps(o, c);
    }
  }

  lemma EndKeeps(o: Options, c: Cl)
    requires ClOk(o, c) && Serials(c) && Can(o, c, CloseEnds)
    ensures ClOk(o, Next(o, c, CloseEnds))
  {
    var d := Next(o, c, CloseEnds);
    FewerHeld(c, d);
    forall j <- d.objs ensures EntryOk(d.objs[j], j in d.live, j in d.calls, d.closed) && HoldsRight(d, j) {
      assert HoldsRight(c, j) && EntryOk(c.objs[j], j in c.live, j in c.calls, c.closed);
    }
    forall n: nat | n < |d.fate| ensures FateOk(d, n) {
      assert FateOk(c, n);
      if c.fate[n].Kept? {
        assert EntryOk(c.objs[c.fate[n].id], c.fate[n].id in c.live, c.fate[n].id in c.calls, c.closed);
      }
    }
  }

  lemma StepKeeps(o: Options, c: Cl, s: Step)
    requires ClOk(o, c) && Serials(c) && Can(o, c, s)
    ensures ClOk(o, Next(o, c, s))
  {
    match s
    case Begin(id, canceled, now) => BeginKeeps(o, c, id, canceled, now);
    case CopyEnds(id, how, now) =>
      if RunErr(c.objs[id], how).Some? {
        FinishKeeps(o, c, id, how == Parsed, RunErr(c.objs[id], how).value);
      } else {
        FlagsKeep(o, c, s);
      }
    case CallEnds(id, canceled, now) =>
      if c.objs[id].done {
        LetGoKeeps(o, c, c.(calls := c.calls - {id}), id, false);
      } else {
        FlagsKeep(o, c, s);
      }
    case Status(id, now) =>
      if Next(o, c, s) != c {
        assert EntryOk(c.objs[id], true, id in c.calls, c.closed);
        LetGoKeeps(o, c, c, id, true);
      }
    case Evicts(id) =>
      assert EntryOk(c.objs[id], true, id in c.calls, c.closed);
      LetGoKeeps(o, c, c, id, false);
    case Closes => CloseKeeps(o, c);
    case CloseEnds => EndKeeps(o, c);
    case _ => FlagsKeep(o, c, s);
  }

  // ---- runs ----

  predicate CanRun(o: Options, ss: seq<Step>)
    decreases |ss|, 0
  {
    ss == [] || (CanRun(o, ss[..|ss| - 1]) && Serials(Run(o, ss[..|ss| - 1])) && Can(o, Run(o, ss[..|ss| - 1]), ss[|ss| - 1]))
  }

  function Run(o: Options, ss: seq<Step>): Cl
    requires CanRun(o, ss)
    decreases |ss|, 1
  {
    if ss == [] then EMPTY else Next(o, Run(o, ss[..|ss| - 1]), ss[|ss| - 1])
  }

  lemma {:induction false} RunKeeps(o: Options, ss: seq<Step>)
    requires CanRun(o, ss)
    ensures ClOk(o, Run(o, ss)) && Serials(Run(o, ss))
    decreases |ss|
  {
    if ss == [] {
      assert HeldIds(EMPTY) == {};
    } else {
      RunKeeps(o, ss[..|ss| - 1]);
      StepKeeps(o, Run(o, ss[..|ss| - 1]), ss[|ss| - 1]);
    }
    OkSerials(o, Run(o, ss));
  }

  /** At most MaxPending requests are in flight or hold a result, in every run; after Close none is. */
  lemma NeverTooMany(o: Options, ss: seq<Step>)
    requires CanRun(o, ss)
    ensures |HeldIds(Run(o, ss))| <= o.maxPending
    ensures Run(o, ss).ended ==> HeldIds(Run(o, ss)) == {} && forall n: nat | n < |Run(o, ss).fate| :: !Run(o, ss).fate[n].Kept?
  {
    RunKeeps(o, ss);
    var c := Run(o, ss);
    forall n: nat | n < |c.fate| && c.fate[n].Kept? ensures c.live != {} {
      KeptIsLive(o, c, n);
    }
  }

  lemma KeptIsLive(o: Options, c: Cl, n: nat)
    requires ClOk(o, c) && n < |c.fate| && c.fate[n].Kept?
    ensures c.fate[n].id in c.live && c.objs[c.fate[n].id].res == Some(n)
  {
    assert FateOk(c, n);
    var id := c.fate[n].id;
    assert EntryOk(c.objs[id], id in c.live, id in c.calls, c.closed);
  }

  /** A result's fate changes once: from the entry that holds it to its caller or to zeros; and it is Returned when, and only when, a step gives it. */
  lemma FateIsFinal(o: Options, c: Cl, s: Step, n: nat)
    requires ClOk(o, c) && Serials(c) && Can(o, c, s) && n < |c.fate|
    ensures n < |Next(o, c, s).fate|
    ensures !c.fate[n].Kept? ==> Next(o, c, s).fate[n] == c.fate[n] && OutcomeOf(o, c, s) != Gives(n)
    ensures c.fate[n].Kept? ==> (Next(o, c, s).fate[n].Returned? <==> OutcomeOf(o, c, s) == Gives(n))
  {
    assert FateOk(c, n);
    if s.CallEnds? || s.Status? || s.Evicts? {
      if s.id in c.objs {
        assert HoldsRight(c, s.id) && EntryOk(c.objs[s.id], s.id in c.live, s.id in c.calls, c.closed);
      }
    } else if s.CopyEnds? {
      assert EntryOk(c.objs[s.id], s.id in c.live, s.id in c.calls, c.closed);
    }
  }

  function At(o: Options, ss: seq<Step>, k: nat): Cl
    requires CanRun(o, ss) && k <= |ss|
  {
    PrefixCanRun(o, ss, k);
    Run(o, ss[..k])
  }

  lemma {:induction false} PrefixCanRun(o: Options, ss: seq<Step>, k: nat)
    requires CanRun(o, ss) && k <= |ss|
    ensures CanRun(o, ss[..k])
    decreases |ss|
  {
    if k < |ss| {
      assert ss[..|ss| - 1][..k] == ss[..k];
      PrefixCanRun(o, ss[..|ss| - 1], k);
    } else {
      assert ss[..k] == ss;
    }
  }

  lemma AtStep(o: Options, ss: seq<Step>, k: nat)
    requires CanRun(o, ss) && k < |ss|
    ensures ClOk(o, At(o, ss, k)) && Serials(At(o, ss, k)) && Can(o, At(o, ss, k), ss[k])
    ensures At(o, ss, k + 1) == Next(o, At(o, ss, k), ss[k])
  {
    PrefixCanRun(o, ss, k);
    PrefixCanRun(o, ss, k + 1);
    assert ss[..k + 1][..k] == ss[..k];
    RunKeeps(o, ss[..k]);
  }

  lemma {:induction false} GoneStaysGone(o: Options, ss: seq<Step>, i: nat, j: nat, n: nat)
    requires CanRun(o, ss) && i <= j <= |ss| && n < |At(o, ss, i).fate| && !At(o, ss, i).fate[n].Kept?
    ensures n < |At(o, ss, j).fate| && At(o, ss, j).fate[n] == At(o, ss, i).fate[n]
    decreases j - i
  {
    if i < j {
      GoneStaysGone(o, ss, i, j - 1, n);
      AtStep(o, ss, j - 1);
      FateIsFinal(o, At(o, ss, j - 1), ss[j - 1], n);
    }
  }

  /** No result is given twice. */
  lemma GivenOnce(o: Options, ss: seq<Step>, i: nat, j: nat, n: nat)
    requires CanRun(o, ss) && i < j < |ss|
    requires Serials(At(o, ss, i)) && Can(o, At(o, ss, i), ss[i]) && OutcomeOf(o, At(o, ss, i), ss[i]) == Gives(n)
    requires Serials(At(o, ss, j)) && Can(o, At(o, ss, j), ss[j])
    ensures OutcomeOf(o, At(o, ss, j), ss[j]) != Gives(n)
  {
    AtStep(o, ss, i);
    AtStep(o, ss, j);
    var c := At(o, ss, i);
    assert HoldsRight(c, ss[i].id) && c.objs[ss[i].id].res == Some(n);
    FateIsFinal(o, c, ss[i], n);
    GoneStaysGone(o, ss, i + 1, j, n);
    FateIsFinal(o, At(o, ss, j), ss[j], n);
  }

  lemma DoneStep(o: Options, c: Cl, s: Step, id: Id)
    requires ClOk(o, c) && Serials(c) && Can(o, c, s) && id in c.objs
    ensures id in Next(o, c, s).objs && (c.objs[id].done ==> Next(o, c, s).objs[id].done)
    ensures s.CopyEnds? && s.id == id && RunErr(c.objs[id], s.how).Some? ==> Next(o, c, s).objs[id].done
  {}

  lemma {:induction false} DoneStays(o: Options, ss: seq<Step>, i: nat, j: nat, id: Id)
    requires CanRun(o, ss) && i <= j <= |ss| && id in At(o, ss, i).objs && At(o, ss, i).objs[id].done
    ensures id in At(o, ss, j).objs && At(o, ss, j).objs[id].done
    decreases j - i
  {
    if i < j {
      DoneStays(o, ss, i, j - 1, id);
      AtStep(o, ss, j - 1);
      DoneStep(o, At(o, ss, j - 1), ss[j - 1], id);
    }
  }

  /** Once a copy was answered no other is sent, in any order of the regions; the bound of three copies is RunLoop's. */
  lemma CopiesBounded(o: Options, ss: seq<Step>, i: nat, j: nat, id: Id)
    requires CanRun(o, ss) && i < j < |ss| && ss[i].CopyEnds? && ss[i].id == id && IsAnswer(ss[i].how)
    ensures !(ss[j].Copy? && ss[j].id == id)
    ensures id in At(o, ss, j).objs && At(o, ss, j).objs[id].sends <= 1 + RETRANSMISSIONS
  {
    AtStep(o, ss, i);
    AtStep(o, ss, j);
    DoneStep(o, At(o, ss, i), ss[i], id);
    DoneStays(o, ss, i + 1, j, id);
    assert EntryOk(At(o, ss, j).objs[id], id in At(o, ss, j).live, id in At(o, ss, j).calls, At(o, ss, j).closed);
  }

  /**
   A tool call's own answer to a request that the vault answered holds no result
   exactly when Close had dropped it first.
   */
  lemma NilOnlyAfterClose(o: Options, ss: seq<Step>, id: Id, canceled: bool, now: Time)
    requires CanRun(o, ss) && Can(o, Run(o, ss), CallEnds(id, canceled, now)) && Serials(Run(o, ss))
    ensures var c := Run(o, ss);
            OutcomeOf(o, c, CallEnds(id, canceled, now)) == GivesNil <==> c.objs[id].done && c.objs[id].err.None? && id !in c.live
    ensures id !in Run(o, ss).live ==> Run(o, ss).closed
  {
    RunKeeps(o, ss);
    var c := Run(o, ss);
    assert EntryOk(c.objs[id], id in c.live, id in c.calls, c.closed);
  }

  lemma RunSnoc(o: Options, ss: seq<Step>, s: Step)
    requires CanRun(o, ss) && Can(o, Run(o, ss), s) && Serials(Run(o, ss))
    ensures CanRun(o, ss + [s]) && Run(o, ss + [s]) == Next(o, Run(o, ss), s) && Serials(Run(o, ss + [s]))
  {
    assert (ss + [s])[..|ss|] == ss;
    RunKeeps(o, ss + [s]);
  }

  /** A request is sent, Close begins, and the answer comes before the tool call looks. */
  function Late(id: Id): seq<Step> { [Begin(id, false, 1), Copy(id, 2), Closes, CopyEnds(id, Parsed, 3)] }

  function LateState(id: Id, k: nat): Cl {
    var e := NewEntry(1);
    if k == 0 then EMPTY
    else if k == 1 then EMPTY.(objs := map[id := e], live := {id}, calls := {id})
    else if k <= 3 then EMPTY.(objs := map[id := e.(sends := 1, sending := true, start := 2)], live := {id}, calls := {id}, closed := k == 3)
    else Cl(map[id := e.(sends := 1, start := 2, done := true)], {}, {id}, true, false, [Zeroed])
  }

  lemma LateStep(o: Options, id: Id, k: nat)
    requires o.maxPending > 0 && k < 4
    ensures Serials(LateState(id, k)) && Can(o, LateState(id, k), Late(id)[k])
    ensures Next(o, LateState(id, k), Late(id)[k]) == LateState(id, k + 1)
  {
    assert HeldIds(EMPTY) == {};
    assert {id} - {id} == {};
  }

  lemma {:induction false} LateRuns(o: Options, id: Id, k: nat)
    requires o.maxPending > 0 && k <= 4
    ensures CanRun(o, Late(id)[..k]) && Run(o, Late(id)[..k]) == LateState(id, k)
  {
    if k > 0 {
      LateRuns(o, id, k - 1);
      LateStep(o, id, k - 1);
      RunSnoc(o, Late(id)[..k - 1], Late(id)[k - 1]);
      assert Late(id)[..k - 1] + [Late(id)[k - 1]] == Late(id)[..k];
    }
  }

  /** So a tool call can end without an error and without a result. */
  lemma NilAfterClose(o: Options, id: Id)
    requires o.maxPending > 0
    ensures CanRun(o, Late(id)) && Run(o, Late(id)) == LateState(id, 4) && Serials(LateState(id, 4))
    ensures Can(o, LateState(id, 4), CallEnds(id, false, 4)) && OutcomeOf(o, LateState(id, 4), CallEnds(id, false, 4)) == GivesNil
  {
    LateRuns(o, id, 4);
    assert Late(id)[..4] == Late(id);
  }

  // ---- the wait for an approval ----

  datatype Waiting = Waiting(exp: Option<Time>, now: Time)

  function HeldAll(e: Entry, ws: seq<Waiting>): Entry
    decreases |ws|
  {
    if ws == [] then e else Held(HeldAll(e, ws[..|ws| - 1]), ws[|ws| - 1].exp, ws[|ws| - 1].now)
  }

  /** Whatever approval.waiting events come, in any order and however often, an attempt's deadline never moves earlier. */
  lemma {:induction false} DeadlineGrows(o: Options, e: Entry, ws: seq<Waiting>)
    ensures Deadline(o, e) <= Deadline(o, HeldAll(e, ws)) && HeldAll(e, ws).start == e.start
    ensures e.waiting ==> HeldAll(e, ws).waiting && e.exp <= HeldAll(e, ws).exp
    decreases |ws|
  {
    if ws != [] {
      DeadlineGrows(o, e, ws[..|ws| - 1]);
    }
  }

  /** The end it waits for is the latest of the events' ends, each at most six minutes after its receipt: the same for any order. */
  lemma {:induction false} ExpIsLatest(e: Entry, ws: seq<Waiting>)
    requires ws != [] && !e.waiting
    ensures HeldAll(e, ws).waiting && exists w <- ws :: HeldAll(e, ws).exp == Clamped(w.exp, w.now)
    ensures forall w <- ws :: Clamped(w.exp, w.now) <= HeldAll(e, ws).exp && Clamped(w.exp, w.now) <= w.now + APPROVAL_TTL + MINUTE
    decreases |ws|
  {
    var n := |ws| - 1;
    if n > 0 {
      ExpIsLatest(e, ws[..n]);
      var w :| w in ws[..n] && HeldAll(e, ws[..n]).exp == Clamped(w.exp, w.now);
      assert w in ws;
    }
    assert ws[n] in ws;
    assert ws == ws[..n] + [ws[n]];
  }

  lemma OrderDoesNotMatter(e: Entry, a: seq<Waiting>, b: seq<Waiting>)
    requires !e.waiting && a != [] && forall w :: w in a <==> w in b
    ensures HeldAll(e, a).exp == HeldAll(e, b).exp
  {
    assert a[0] in b;
    ExpIsLatest(e, a);
    ExpIsLatest(e, b);
    var w :| w in a && HeldAll(e, a).exp == Clamped(w.exp, w.now);
    var v :| v in b && HeldAll(e, b).exp == Clamped(v.exp, v.now);
  }

  /** run's loop; hows: how each copy ends. The copies before the last neither got an answer nor an end. */
  method RunLoop(e: Entry, hows: seq<How>) returns (sends: nat, ok: bool, err: Option<Err>)
    requires |hows| == RETRANSMISSIONS + 1
    ensures 1 <= sends <= RETRANSMISSIONS + 1
    ensures forall k | 0 <= k < sends - 1 :: RunErr(e.(sends := k + 1), hows[k]).None?
    ensures RunErr(e.(sends := sends), hows[sends - 1]) == Some(err) && (ok <==> hows[sends - 1] == Parsed)
  {
    sends := 0;
    while sends <= RETRANSMISSIONS
      invariant sends <= RETRANSMISSIONS + 1
      invariant forall k | 0 <= k < sends :: hows[k] in {TimedOut, NotSent}
    {
      var how := hows[sends];
      sends := sends + 1;
      match how {
        case Parsed => return sends, true, None;
        case Unreadable => return sends, false, Some(ErrProtocol);
        case Declined => return sends, false, Some(ErrDenied);
        case IsRefused => return sends, false, Some(ErrRefused);
        case IsStopped => return sends, false, Some(ErrStopped);
        case IsSuperseded => return sends, false, Some(ErrSuperseded);
        case TimedOut =>
        case NotSent =>
      }
    }
    ok, err := false, Some(ErrUnreachable);
  }

  // ---- the Client ----

  /** objs and live stand for the entries the goroutines point to and the map of the Client. */
  class Client {
    const o: Options
    var objs: map<Id, Entry>
    var live: set<Id>
    var calls: set<Id>
    var closed: bool
    var ended: bool
    /** Numbers the parsed results, for the contracts. */
    var fate: seq<Fate>

    function View(): Cl reads this { Cl(objs, live, calls, closed, ended, fate) }

    ghost predicate Valid() reads this { ClOk(o, View()) && Serials(View()) }

    constructor (o: Options)
      ensures this.o == o && View() == EMPTY && Valid()
    {
      this.o, objs, live, calls, closed, ended, fate := o, map[], {}, {}, false, false, [];
      assert HeldIds(EMPTY) == {};
    }

    /** heldLocked. */
    method HeldLocked() returns (n: nat)
      requires Valid()
      ensures n == |HeldIds(View())|
    {
      n := 0;
      var left := live;
      ghost var counted: set<Id> := {};
      while left != {}
        invariant left <= live && counted == (set id | id in live - left && id in objs && Counts(objs[id])) && n == |counted|
      {
        var id :| id in left;
        left := left - {id};
        if !objs[id].done || objs[id].res.Some? {
          n := n + 1;
          counted := counted + {id};
        }
      }
      assert counted == HeldIds(View());
    }

    method TakeLocked(id: Id, toStatus: bool) returns (out: Outcome)
      requires id in objs && (objs[id].res.Some? ==> objs[id].res.value < |fate|)
      modifies this`objs, this`live, this`fate
      ensures View() == Taken(old(View()), id, toStatus) && out == TakenOutcome(old(objs)[id])
    {
      var e := objs[id];
      live := live - {id};
      objs := objs[id := e.(res := None, evicts := false)];
      if e.res.Some? {
        fate := fate[e.res.value := Returned(toStatus)];
      }
      out := if e.err.Some? then Fails(e.err.value) else if e.res.Some? then Gives(e.res.value) else GivesNil;
    }

    method DropLocked(id: Id)
      requires id in objs && (objs[id].res.Some? ==> objs[id].res.value < |fate|)
      modifies this`objs, this`live, this`fate
      ensures View() == Dropped(old(View()), id)
    {
      if objs[id].res.Some? {
        fate := fate[objs[id].res.value := Zeroed];
      }
      objs := objs[id := objs[id].(res := None, evicts := false)];
      live := live - {id};
    }

    /** The region of do that starts a request. */
    method Insert(id: Id, canceled: bool, now: Time) returns (out: Outcome)
      requires Valid() && Can(o, View(), Begin(id, canceled, now))
      modifies this
      ensures Valid() && View() == Next(o, old(View()), Begin(id, canceled, now))
      ensures out == OutcomeOf(o, old(View()), Begin(id, canceled, now))
    {
      BeginKeeps(o, View(), id, canceled, now);
      OkSerials(o, Next(o, View(), Begin(id, canceled, now)));
      if closed {
        return Fails(ErrStopped);
      }
      if canceled {
        return Fails(ErrCanceled);
      }
      var n := HeldLocked();
      if n >= o.maxPending {
        return Fails(ErrTooMany);
      }
      objs, live, calls := objs[id := NewEntry(now)], live + {id}, calls + {id};
      out := Nothing;
    }

    /** The region of do that ends a tool call. */
    method EndCall(id: Id, canceled: bool, now: Time) returns (out: Outcome)
      requires Valid() && Can(o, View(), CallEnds(id, canceled, now))
      modifies this
      ensures Valid() && View() == Next(o, old(View()), CallEnds(id, canceled, now))
      ensures out == OutcomeOf(o, old(View()), CallEnds(id, canceled, now))
    {
      StepKeeps(o, View(), CallEnds(id, canceled, now));
      OkSerials(o, Next(o, View(), CallEnds(id, canceled, now)));
      calls := calls - {id};
      if objs[id].done {
        out := TakeLocked(id, false);
      } else if canceled {
        objs := objs[id := objs[id].(abandoned := true)];
        out := Fails(ErrCanceled);
      } else {
        objs := objs[id := objs[id].(handed := true)];
        out := PendingLocked(id, now);
      }
    }

    method CheckStatus(id: Id, now: Time) returns (out: Outcome)
      requires Valid()
      modifies this
      ensures Valid() && View() == Next(o, old(View()), Step.Status(id, now)) && out == OutcomeOf(o, old(View()), Step.Status(id, now))
    {
      StepKeeps(o, View(), Step.Status(id, now));
      OkSerials(o, Next(o, View(), Step.Status(id, now)));
      if id !in live || !objs[id].handed {
        return Fails(ErrExpired);
      }
      if !objs[id].done {
        if !objs[id].waiting && now - objs[id].created >= o.unanswered {
          return Fails(ErrUnreachable);
        }
        out := PendingLocked(id, now);
        return;
      }
      assert EntryOk(objs[id], id in live, id in calls, closed);
      if objs[id].res.Some? {
        out := TakeLocked(id, true);
      } else {
        out := Fails(objs[id].err.value);
      }
    }

    /** OnEvent, approval.waiting. */
    method OnWaiting(id: Id, exp: Option<Time>, now: Time)
      requires Valid()
      modifies this`objs
      ensures Valid() && View() == Next(o, old(View()), ApprovalWaiting(id, exp, now))
    {
      StepKeeps(o, View(), ApprovalWaiting(id, exp, now));
      OkSerials(o, Next(o, View(), ApprovalWaiting(id, exp, now)));
      var at := if exp.None? || exp.value > now + APPROVAL_TTL + MINUTE then now + APPROVAL_TTL else exp.value;
      if id !in live || objs[id].done {
        return;
      }
      if !objs[id].waiting || at > objs[id].exp {
        objs := objs[id := objs[id].(waiting := true, exp := at)];
      } else {
        assert objs == objs[id := objs[id]];
      }
    }

    /** finish, with a parsed result or an error. */
    method Finish(id: Id, ok: bool, err: Option<Err>)
      requires id in objs
      modifies this`objs, this`live, this`fate
      ensures View() == Finished(old(View()), id, ok, err)
    {
      var e := objs[id].(sending := false, done := true, res := if ok then Some(|fate|) else None, err := err);
      objs := objs[id := e];
      if ok {
        fate := fate + [Kept(id)];
      }
      if e.abandoned || closed {
        DropLocked(id);
      } else if e.handed {
        objs := objs[id := e.(evicts := true)];
      }
    }

    /** pendingLocked. */
    method PendingLocked(id: Id, now: Time) returns (out: Outcome)
      requires id in objs
      ensures out == PendingOf(objs[id], id, now)
    {
      var waiting := objs[id].waiting;
      if waiting && now >= objs[id].exp {
        waiting := false;
      }
      out := Pending(id, waiting);
    }

    /** deadline, of the attempt that is on its way. */
    method AttemptDeadline(id: Id) returns (d: Time)
      requires id in objs
      ensures d == Deadline(o, objs[id]) && objs[id].start + o.attempt <= d
      ensures objs[id].waiting ==> objs[id].exp + o.grace <= d
    {
      d := objs[id].start + o.attempt;
      if objs[id].waiting {
        var a := objs[id].exp + o.grace;
        if a > d {
          d := a;
        }
      }
    }

    /** A copy's end, as run takes it. */
    method EndCopy(id: Id, how: How, now: Time)
      requires Valid() && Can(o, View(), CopyEnds(id, how, now))
      modifies this
      ensures Valid() && View() == Next(o, old(View()), CopyEnds(id, how, now))
    {
      StepKeeps(o, View(), CopyEnds(id, how, now));
      OkSerials(o, Next(o, View(), CopyEnds(id, how, now)));
      var end := RunErr(objs[id], how);
      if end.None? {
        objs := objs[id := objs[id].(sending := false)];
      } else {
        Finish(id, how == Parsed, end.value);
      }
    }

    method DropEvery()
      requires Valid()
      modifies this`objs, this`live, this`fate
      ensures View() == DropAll(old(View()), old(live))
    {
      ghost var c := View();
      var left := live;
      assert View() == DropAll(c, {});
      while left != {}
        invariant left <= c.live && View() == DropAll(c, c.live - left)
      {
        var id :| id in left;
        DropOneMore(o, c, c.live - left, id);
        DropLocked(id);
        assert c.live - left + {id} == c.live - (left - {id});
        left := left - {id};
      }
      assert c.live - {} == c.live;
    }

    /** Close, once every request's goroutine has ended. */
    method EndClose()
      requires Valid() && Can(o, View(), CloseEnds)
      modifies this
      ensures Valid() && View() == Next(o, old(View()), CloseEnds)
    {
      EndKeeps(o, View());
      OkSerials(o, Next(o, View(), CloseEnds));
      DropEvery();
      ended := true;
    }
  }

  lemma DropOneMore(o: Options, c: Cl, ids: set<Id>, id: Id)
    requires ClOk(o, c) && Serials(c) && id in c.live && id !in ids
    ensures var d := DropAll(c, ids);
            && id in d.objs && (d.objs[id].res.Some? ==> d.objs[id].res.value < |d.fate|)
            && Dropped(d, id) == DropAll(c, ids + {id})
  {
    var d := DropAll(c, ids);
    var e := c.objs[id];
    assert HoldsRight(c, id);
    forall n: nat | n < |c.fate| ensures Dropped(d, id).fate[n] == DropAll(c, ids + {id}).fate[n] {
      assert FateOk(c, n);
    }
    assert Dropped(d, id).live == DropAll(c, ids + {id}).live;
    assert Dropped(d, id).objs == DropAll(c, ids + {id}).objs;
  }
}
