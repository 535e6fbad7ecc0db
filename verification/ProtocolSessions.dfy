/**
 In which access session the grants that are listed were listed: what `listed`
 promises over whole runs, exactly when, and how it fails.
 */
module ProtocolSessions {
  import opened Common
  import opened Grants
  import opened LeashSpec
  import opened LeashInvariants
  import opened LeashOrder
  import opened Protocol
  import opened ProtocolProofs

  predicate GrantsSession(m: Message) { m.re.None? && m.typ == SessionGranted && m.body.SessionBody? }

  /** The move gives the access session held after it: a grant collected, a session a probe found, or a restart. */
  predicate StartsSession(mv: Move) {
    match mv
    case SetsAccess(a) => a.state == AccessActive
    case Collects(batch) => !HasUnlink(Messages(batch)) && exists k | 0 <= k < |batch| :: GrantsSession(Messages(batch)[k])
    case Restarts => true
    case _ => false
  }

  /** The session the last grant of a batch names. */
  function LastGranted(batch: seq<Message>): Option<Access>
    decreases |batch|
  {
    if batch == [] then None
    else
      var n := |batch| - 1;
      if GrantsSession(batch[n]) then Some(batch[n].body.access) else LastGranted(batch[..n])
  }

  /** The session such a move gives, read off the move and, for a restart, the disk. */
  function Given(s: Sys, mv: Move): Option<Access> {
    match mv
    case SetsAccess(a) => Some(a)
    case Collects(batch) => LastGranted(Messages(batch))
    case Restarts => if s.d.rec.None? then None else Some(s.d.rec.value.access)
    case _ => None
  }

  /** The last move that gave a session. */
  function LastStart(mvs: seq<Move>): Option<nat>
    decreases |mvs|
  {
    if mvs == [] then None
    else if StartsSession(mvs[|mvs| - 1]) then Some(|mvs| - 1)
    else LastStart(mvs[..|mvs| - 1])
  }

  function LastSent(mvs: seq<Move>, id: Id): Option<nat>
    decreases |mvs|
  {
    if mvs == [] then None
    else if mvs[|mvs| - 1] == SendsList(id) then Some(|mvs| - 1)
    else LastSent(mvs[..|mvs| - 1], id)
  }

  /** The move applies the full answer to the list of this id. */
  predicate AnswersList(s: Sys, mv: Move, id: Id) {
    && mv.AppliesNext? && s.p.pc.Applying? && s.p.pc.rest != []
    && s.p.pc.rest[0].msg.re == Some(id) && FullAnswer(s.p.mgr, Delivered(s.p.pc.rest[0].msg, mv.now))
  }

  /** The list the move answers in full, if it does. */
  function AnsweredList(s: Sys, mv: Move): Option<Id> {
    if mv.AppliesNext? && s.p.pc.Applying? && s.p.pc.rest != [] && s.p.pc.rest[0].msg.re.Some?
       && AnswersList(s, mv, s.p.pc.rest[0].msg.re.value)
    then s.p.pc.rest[0].msg.re else None
  }

  predicate Listed(s: Sys) { s.p.pc != Ended && s.p.mgr.flow.listed }

  // ---- along a run ----

  lemma {:induction false} PrefixCanRun(c: Agent, s: Sys, mvs: seq<Move>, k: nat)
    requires CanRun(c, s, mvs) && k <= |mvs|
    ensures CanRun(c, s, mvs[..k])
    decreases |mvs|
  {
    if k < |mvs| {
      assert mvs[..|mvs| - 1][..k] == mvs[..k];
      PrefixCanRun(c, s, mvs[..|mvs| - 1], k);
    } else {
      assert mvs[..k] == mvs;
    }
  }

  /** The system before move k of a run. */
  function AtMove(c: Agent, s: Sys, mvs: seq<Move>, k: nat): Sys
    requires CanRun(c, s, mvs) && k <= |mvs|
  {
    PrefixCanRun(c, s, mvs, k);
    After(c, s, mvs[..k])
  }

  lemma AtMoveStep(c: Agent, s: Sys, mvs: seq<Move>, k: nat)
    requires CanRun(c, s, mvs) && k < |mvs|
    ensures CanMove(c, AtMove(c, s, mvs, k), mvs[k]) && AtMove(c, s, mvs, k + 1) == Next(c, AtMove(c, s, mvs, k), mvs[k])
  {
    PrefixCanRun(c, s, mvs, k + 1);
    assert mvs[..k + 1][..k] == mvs[..k];
  }

  // ---- where the lists and listed come from ----

  lemma NextLists(c: Agent, s: Sys, mv: Move, id: Id)
    requires CanMove(c, s, mv) && id in Next(c, s, mv).p.mgr.flow.lists && mv != SendsList(id)
    ensures id in s.p.mgr.flow.lists && !mv.Restarts?
  {
    match mv
    case Region(e) => RegionFrame(c, s.p.mgr, e);
    case AppliesNext(now) => ListsOnlyShrink(c, s.p.mgr, Delivered(s.p.pc.rest[0].msg, now), id);
    case _ =>
  }

  lemma {:induction false} ListsWereSent(c: Agent, s: Sys, mvs: seq<Move>, n: nat, id: Id)
    requires Start(c, s) && CanRun(c, s, mvs) && n <= |mvs| && id in AtMove(c, s, mvs, n).p.mgr.flow.lists
    ensures LastSent(mvs[..n], id).Some? && LastSent(mvs[..n], id).value < n && mvs[LastSent(mvs[..n], id).value] == SendsList(id)
    ensures forall i | LastSent(mvs[..n], id).value < i < n :: !mvs[i].Restarts?
  {
    if n > 0 {
      AtMoveStep(c, s, mvs, n - 1);
      assert mvs[..n][..n - 1] == mvs[..n - 1];
      if mvs[n - 1] != SendsList(id) {
        NextLists(c, AtMove(c, s, mvs, n - 1), mvs[n - 1], id);
        ListsWereSent(c, s, mvs, n - 1, id);
      }
    }
  }

  /** Nothing but the full answer to a list of its own makes a process's grants listed. */
  lemma NextListed(c: Agent, s: Sys, mv: Move)
    requires CanMove(c, s, mv) && Listed(Next(c, s, mv)) && !Listed(s)
    ensures mv.AppliesNext? && s.p.pc.rest[0].msg.re.Some? && AnswersList(s, mv, s.p.pc.rest[0].msg.re.value)
  {
    match mv
    case Region(e) => ListedStep(c, s.p.mgr, e);
    case AppliesNext(now) => ListedStep(c, s.p.mgr, Delivered(s.p.pc.rest[0].msg, now));
    case _ =>
  }

  /** At move k the list sent by move j was answered in full, and what it brought is listed since. */
  predicate ListedSince(c: Agent, s: Sys, mvs: seq<Move>, n: nat, j: nat, k: nat)
    requires CanRun(c, s, mvs) && n <= |mvs|
  {
    && j < k < n && mvs[j].SendsList? && AnswersList(AtMove(c, s, mvs, k), mvs[k], mvs[j].id)
    && (forall i | j < i < n :: !mvs[i].Restarts?)
    && forall i | k < i <= n :: Listed(AtMove(c, s, mvs, i))
  }

  /** The move, of the first n, that sent the list whose answer made what is listed then. */
  function Confirming(c: Agent, s: Sys, mvs: seq<Move>, n: nat): Option<nat>
    requires CanRun(c, s, mvs) && n <= |mvs|
    decreases n
  {
    if n == 0 || !Listed(AtMove(c, s, mvs, n)) then None
    else
      var id := AnsweredList(AtMove(c, s, mvs, n - 1), mvs[n - 1]);
      if id.Some? then LastSent(mvs[..n - 1], id.value) else Confirming(c, s, mvs, n - 1)
  }

  lemma RestartUnlists(c: Agent, s: Sys)
    requires CanMove(c, s, Restarts)
    ensures !Listed(Next(c, s, Restarts))
  {}

  lemma ConfirmedHere(c: Agent, s: Sys, mvs: seq<Move>, n: nat, id: Id)
    requires Start(c, s) && CanRun(c, s, mvs) && n < |mvs| && Listed(AtMove(c, s, mvs, n + 1))
    requires AnswersList(AtMove(c, s, mvs, n), mvs[n], id)
    ensures LastSent(mvs[..n], id).Some? && ListedSince(c, s, mvs, n + 1, LastSent(mvs[..n], id).value, n)
  {
    ListsWereSent(c, s, mvs, n, id);
  }

  lemma ListedOn(c: Agent, s: Sys, mvs: seq<Move>, n: nat, j: nat, k: nat)
    requires CanRun(c, s, mvs) && n < |mvs| && ListedSince(c, s, mvs, n, j, k) && Listed(AtMove(c, s, mvs, n + 1))
    ensures ListedSince(c, s, mvs, n + 1, j, k)
  {
    AtMoveStep(c, s, mvs, n);
    if mvs[n].Restarts? {
      RestartUnlists(c, AtMove(c, s, mvs, n));
    }
  }

  /** Whatever is listed was brought by the answer to one list of this process, and was listed ever since. */
  lemma {:induction false} ConfirmingFacts(c: Agent, s: Sys, mvs: seq<Move>, n: nat)
    requires Start(c, s) && CanRun(c, s, mvs) && n <= |mvs| && Listed(AtMove(c, s, mvs, n))
    ensures Confirming(c, s, mvs, n).Some?
    ensures exists k: nat :: ListedSince(c, s, mvs, n, Confirming(c, s, mvs, n).value, k)
    decreases n
  {
    if n > 0 {
      var before := AtMove(c, s, mvs, n - 1);
      var id := AnsweredList(before, mvs[n - 1]);
      if id.Some? {
        ConfirmedHere(c, s, mvs, n - 1, id.value);
      } else {
        AtMoveStep(c, s, mvs, n - 1);
        if !Listed(before) {
          NextListed(c, before, mvs[n - 1]);
        }
        ConfirmingFacts(c, s, mvs, n - 1);
        var k: nat :| ListedSince(c, s, mvs, n - 1, Confirming(c, s, mvs, n - 1).value, k);
        ListedOn(c, s, mvs, n - 1, Confirming(c, s, mvs, n - 1).value, k);
      }
    }
  }

  // ---- the session ----

  /** A batch that grants no session keeps the one held, or ends it. */
  lemma {:induction false} BatchKeepsAccess(a: Access, batch: seq<Message>)
    requires forall k | 0 <= k < |batch| :: !GrantsSession(batch[k])
    ensures AccessFrom(a, batch) in {a, Access(AccessNone, 0, 0)}
    decreases |batch|
  {
    if batch != [] {
      BatchKeepsAccess(a, batch[..|batch| - 1]);
    }
  }

  lemma NextAccess(c: Agent, s: Sys, mv: Move)
    requires CanMove(c, s, mv) && !StartsSession(mv) && Next(c, s, mv).p.access.state == AccessActive
    ensures Next(c, s, mv).p.access == s.p.access
  {
    if mv.Collects? && !HasUnlink(Messages(mv.batch)) {
      BatchKeepsAccess(s.p.access, Messages(mv.batch));
    }
  }

  predicate NoStartIn(mvs: seq<Move>, j: nat, n: nat)
    requires n <= |mvs|
  {
    forall i: nat | j <= i < n :: !StartsSession(mvs[i])
  }

  lemma {:induction false} AccessSince(c: Agent, s: Sys, mvs: seq<Move>, j: nat, n: nat)
    requires CanRun(c, s, mvs) && j <= n <= |mvs| && NoStartIn(mvs, j, n)
    ensures AtMove(c, s, mvs, n).p.access.state == AccessActive ==> AtMove(c, s, mvs, n).p.access == AtMove(c, s, mvs, j).p.access
    decreases n
  {
    if j < n {
      AtMoveStep(c, s, mvs, n - 1);
      if AtMove(c, s, mvs, n).p.access.state == AccessActive {
        NextAccess(c, AtMove(c, s, mvs, n - 1), mvs[n - 1]);
      }
      AccessSince(c, s, mvs, j, n - 1);
    }
  }

  lemma {:induction false} LastStartFacts(mvs: seq<Move>)
    ensures LastStart(mvs).None? ==> NoStartIn(mvs, 0, |mvs|)
    ensures LastStart(mvs).Some? ==>
              var i := LastStart(mvs).value; i < |mvs| && StartsSession(mvs[i]) && NoStartIn(mvs, i + 1, |mvs|)
    decreases |mvs|
  {
    if mvs != [] && !StartsSession(mvs[|mvs| - 1]) {
      LastStartFacts(mvs[..|mvs| - 1]);
    }
  }

  /** After a batch that grants a session, that of its last grant is held, or none. */
  lemma {:induction false} BatchGives(a: Access, batch: seq<Message>)
    requires exists k | 0 <= k < |batch| :: GrantsSession(batch[k])
    ensures LastGranted(batch).Some? && AccessFrom(a, batch) in {LastGranted(batch).value, Access(AccessNone, 0, 0)}
    decreases |batch|
  {
    var n := |batch| - 1;
    if !GrantsSession(batch[n]) {
      var k :| 0 <= k < |batch| && GrantsSession(batch[k]);
      assert GrantsSession(batch[..n][k]);
      BatchGives(a, batch[..n]);
    }
  }

  lemma StartGives(c: Agent, s: Sys, mv: Move)
    requires CanMove(c, s, mv) && StartsSession(mv) && Next(c, s, mv).p.access.state == AccessActive
    ensures Given(s, mv) == Some(Next(c, s, mv).p.access)
  {
    if mv.Collects? {
      BatchGives(s.p.access, Messages(mv.batch));
    }
  }

  /** Since move j no session was given, or the last one given is the one held before j. */
  predicate SameSince(c: Agent, s: Sys, mvs: seq<Move>, j: nat)
    requires CanRun(c, s, mvs) && j <= |mvs|
  {
    NoStartIn(mvs, j, |mvs|)
    || (LastStart(mvs).Some? && var i := LastStart(mvs).value;
          j <= i < |mvs| && Given(AtMove(c, s, mvs, i), mvs[i]) == Some(AtMove(c, s, mvs, j).p.access))
  }

  /** A session active now is the one held before move j exactly if that is so. */
  lemma SameSinceExactly(c: Agent, s: Sys, mvs: seq<Move>, j: nat)
    requires CanRun(c, s, mvs) && j <= |mvs| && After(c, s, mvs).p.access.state == AccessActive
    ensures After(c, s, mvs).p.access == AtMove(c, s, mvs, j).p.access <==> SameSince(c, s, mvs, j)
  {
    var n := |mvs|;
    assert mvs[..n] == mvs;
    LastStartFacts(mvs);
    if NoStartIn(mvs, j, n) {
      AccessSince(c, s, mvs, j, n);
    } else {
      var i := LastStart(mvs).value;
      AccessSince(c, s, mvs, i + 1, n);
      AtMoveStep(c, s, mvs, i);
      StartGives(c, AtMove(c, s, mvs, i), mvs[i]);
    }
  }

  /**
   In every run: what is listed was brought by the full answer to one list of
   this process. A session active now is the one that was held when that list
   was sent exactly if no session was collected or found by a probe since, or the
   last one that was is that same session, so when its grant came again.
   */
  lemma ListedInSession(c: Agent, s: Sys, mvs: seq<Move>)
    requires Start(c, s) && CanRun(c, s, mvs) && Listed(After(c, s, mvs))
    ensures Confirming(c, s, mvs, |mvs|).Some?
    ensures var j := Confirming(c, s, mvs, |mvs|).value;
            && (exists k: nat :: ListedSince(c, s, mvs, |mvs|, j, k)) && j < |mvs|
            && (After(c, s, mvs).p.access.state == AccessActive ==>
                  (After(c, s, mvs).p.access == AtMove(c, s, mvs, j).p.access <==> SameSince(c, s, mvs, j)))
  {
    assert mvs[..|mvs|] == mvs;
    ConfirmingFacts(c, s, mvs, |mvs|);
    if After(c, s, mvs).p.access.state == AccessActive {
      SameSinceExactly(c, s, mvs, Confirming(c, s, mvs, |mvs|).value);
    }
  }

  // ---- how it fails ----

  /** The run ends with a session that is active, and grants listed from a list sent when another one, or none, was held. */
  predicate FromEarlierSession(c: Agent, s: Sys, mvs: seq<Move>, now: Time)
    requires CanRun(c, s, mvs)
  {
    && Listed(After(c, s, mvs)) && ActiveAt(After(c, s, mvs).p.access, now)
    && Confirming(c, s, mvs, |mvs|).Some? && Confirming(c, s, mvs, |mvs|).value < |mvs|
    && AtMove(c, s, mvs, Confirming(c, s, mvs, |mvs|).value).p.access != After(c, s, mvs).p.access
  }

  /** The session held when the list was sent that made what is listed. */
  function ListsSession(c: Agent, s: Sys, mvs: seq<Move>): Access
    requires Start(c, s) && CanRun(c, s, mvs) && Listed(After(c, s, mvs))
  {
    ListedInSession(c, s, mvs);
    AtMove(c, s, mvs, Confirming(c, s, mvs, |mvs|).value).p.access
  }

  lemma AtPrefix(c: Agent, s: Sys, mvs: seq<Move>, more: seq<Move>, k: nat)
    requires CanRun(c, s, mvs) && CanRun(c, s, mvs + more) && k <= |mvs|
    ensures AtMove(c, s, mvs + more, k) == AtMove(c, s, mvs, k)
  {
    assert (mvs + more)[..k] == mvs[..k];
  }

  lemma {:induction false} ConfirmingPrefix(c: Agent, s: Sys, mvs: seq<Move>, more: seq<Move>, n: nat)
    requires CanRun(c, s, mvs) && CanRun(c, s, mvs + more) && n <= |mvs|
    ensures Confirming(c, s, mvs + more, n) == Confirming(c, s, mvs, n)
    decreases n
  {
    AtPrefix(c, s, mvs, more, n);
    if n > 0 {
      AtPrefix(c, s, mvs, more, n - 1);
      assert (mvs + more)[..n - 1] == mvs[..n - 1];
      ConfirmingPrefix(c, s, mvs, more, n - 1);
    }
  }

  /** One more move: the system, and the list whose answer made what is listed then. */
  lemma OneMoreMove(c: Agent, s: Sys, mvs: seq<Move>, mv: Move)
    requires CanRun(c, s, mvs) && CanMove(c, After(c, s, mvs), mv) && Listed(Next(c, After(c, s, mvs), mv))
    ensures CanRun(c, s, mvs + [mv]) && After(c, s, mvs + [mv]) == Next(c, After(c, s, mvs), mv)
    ensures var id := AnsweredList(After(c, s, mvs), mv);
            Confirming(c, s, mvs + [mv], |mvs| + 1) == if id.Some? then LastSent(mvs, id.value) else Confirming(c, s, mvs, |mvs|)
  {
    RunSnoc(c, s, mvs, mv);
    var more := mvs + [mv];
    assert mvs[..|mvs|] == mvs && more[..|mvs|] == mvs && more[..|more|] == more;
    ConfirmingPrefix(c, s, mvs, [mv], |mvs|);
  }

  lemma CollectsGrant(c: Agent, r: Sys, l: Letter)
    requires CanMove(c, r, Collects([l])) && GrantsSession(l.msg) && Listed(r)
    ensures var n := Next(c, r, Collects([l])); Listed(n) && n.p.access == l.msg.body.access
  {
    assert Messages([l])[..0] == [];
  }

  /**
   First: a session collected in a batch is held before the batch reaches the
   grants. It fails exactly when that is not the session the list was sent in.
   */
  lemma GrantedBeforeApplied(c: Agent, s: Sys, mvs: seq<Move>, l: Letter, now: Time)
    requires Start(c, s) && CanRun(c, s, mvs) && Listed(After(c, s, mvs)) && CanMove(c, After(c, s, mvs), Collects([l]))
    requires GrantsSession(l.msg) && ActiveAt(l.msg.body.access, now)
    ensures CanRun(c, s, mvs + [Collects([l])])
    ensures FromEarlierSession(c, s, mvs + [Collects([l])], now) <==> l.msg.body.access != ListsSession(c, s, mvs)
  {
    CollectsGrant(c, After(c, s, mvs), l);
    OneMoreMove(c, s, mvs, Collects([l]));
    ListedInSession(c, s, mvs);
    AtPrefix(c, s, mvs, [Collects([l])], Confirming(c, s, mvs, |mvs|).value);
  }

  /** A batch of a session grant and the answer to a list sent before it. */
  lemma LateStates(c: Agent, r: Sys, g: Letter, a: Letter, id: Id, now: Time)
    requires CanMove(c, r, Collects([g, a])) && GrantsSession(g.msg) && now != 0
    requires IsCurrent(r.p.mgr.flow, id) && a.msg.re == Some(id) && a.msg.typ == GrantList && a.msg.ok && WellFormed(a.msg.body)
    ensures var r1 := Next(c, r, Collects([g, a]));
            && r1.p.access == g.msg.body.access && CanMove(c, r1, AppliesNext(now))
            && var r2 := Next(c, r1, AppliesNext(now));
               && r2.p.access == g.msg.body.access && CanMove(c, r2, AppliesNext(now)) && AnswersList(r2, AppliesNext(now), id)
               && Listed(Next(c, r2, AppliesNext(now))) && Next(c, r2, AppliesNext(now)).p.access == g.msg.body.access
  {
    var b := Messages([g, a]);
    assert b[..1][..0] == [] && b[..1] == [g.msg];
    assert AccessFrom(r.p.access, b[..1]) == AccessAfter(AccessFrom(r.p.access, []), g.msg);
  }

  function LateMoves(g: Letter, a: Letter, now: Time): seq<Move>
    requires now != 0
  {
    [Collects([g, a]), AppliesNext(now), AppliesNext(now)]
  }

  lemma LateRun(c: Agent, s: Sys, mvs: seq<Move>, g: Letter, a: Letter, id: Id, now: Time)
    requires CanRun(c, s, mvs) && CanMove(c, After(c, s, mvs), Collects([g, a])) && GrantsSession(g.msg) && now != 0
    requires IsCurrent(After(c, s, mvs).p.mgr.flow, id)
    requires a.msg.re == Some(id) && a.msg.typ == GrantList && a.msg.ok && WellFormed(a.msg.body)
    ensures var more := mvs + LateMoves(g, a, now); var n := |mvs|;
            && CanRun(c, s, more) && Listed(After(c, s, more)) && After(c, s, more).p.access == g.msg.body.access
            && AnswersList(AtMove(c, s, more, n + 2), more[n + 2], id)
  {
    var m1 := mvs + [Collects([g, a])];
    var m2 := m1 + [AppliesNext(now)];
    LateStates(c, After(c, s, mvs), g, a, id, now);
    RunSnoc(c, s, mvs, Collects([g, a]));
    RunSnoc(c, s, m1, AppliesNext(now));
    RunSnoc(c, s, m2, AppliesNext(now));
    assert m2 + [AppliesNext(now)] == mvs + LateMoves(g, a, now);
    assert (mvs + LateMoves(g, a, now))[..|mvs| + 2] == m2;
  }

  /**
   Second: a list is sent, then a session is granted and applied, then the
   list's answer comes. It fails exactly when that is not the session the list
   was sent in.
   */
  lemma AnsweredAfterGrant(c: Agent, s: Sys, mvs: seq<Move>, g: Letter, a: Letter, id: Id, now: Time)
    requires Start(c, s) && CanRun(c, s, mvs) && CanMove(c, After(c, s, mvs), Collects([g, a]))
    requires GrantsSession(g.msg) && ActiveAt(g.msg.body.access, now) && now != 0
    requires IsCurrent(After(c, s, mvs).p.mgr.flow, id)
    requires a.msg.re == Some(id) && a.msg.typ == GrantList && a.msg.ok && WellFormed(a.msg.body)
    ensures LastSent(mvs, id).Some? && LastSent(mvs, id).value < |mvs| && CanRun(c, s, mvs + LateMoves(g, a, now))
    ensures FromEarlierSession(c, s, mvs + LateMoves(g, a, now), now)
            <==> g.msg.body.access != AtMove(c, s, mvs, LastSent(mvs, id).value).p.access
  {
    var more := mvs + LateMoves(g, a, now);
    LateRun(c, s, mvs, g, a, id, now);
    OutstandingWasSent(c, s, mvs, id);
    assert more[..|more|] == more;
    assert more[..|mvs| + 2] == mvs + [Collects([g, a])] + [AppliesNext(now)];
    LastSentAfter(mvs, Collects([g, a]), AppliesNext(now), id);
    AtPrefix(c, s, mvs, LateMoves(g, a, now), LastSent(mvs, id).value);
  }

  lemma LastSentAfter(mvs: seq<Move>, a: Move, b: Move, id: Id)
    requires !a.SendsList? && !b.SendsList?
    ensures LastSent(mvs + [a] + [b], id) == LastSent(mvs, id)
  {
    assert (mvs + [a] + [b])[..|mvs| + 1] == mvs + [a];
    assert (mvs + [a])[..|mvs|] == mvs;
  }

  /** A list outstanding after mvs was sent in mvs. */
  lemma OutstandingWasSent(c: Agent, s: Sys, mvs: seq<Move>, id: Id)
    requires Start(c, s) && CanRun(c, s, mvs) && id in After(c, s, mvs).p.mgr.flow.lists
    ensures LastSent(mvs, id).Some? && LastSent(mvs, id).value < |mvs|
  {
    assert mvs[..|mvs|] == mvs;
    ListsWereSent(c, s, mvs, |mvs|, id);
  }

  // ---- runs in which it does ----

  /** From any start: a List begins and sends its list. */
  function Sending(id: Id): seq<Move> { [Region(ListEntered)] + [SendsList(id)] }

  /** An answer without grants, from the newest snapshot. */
  function EmptyAnswer(w: World, id: Id): Letter
    requires |w.vault| > 0
  {
    Letter(Message(GrantList, Some(id), true, NoCode, GrantSet(Some([]), Some(w.vault[|w.vault| - 1].suspended))), |w.vault| - 1)
  }

  function GrantLetter(b: Access): Letter { Letter(Message(SessionGranted, None, true, NoCode, SessionBody(b)), 0) }

  lemma SendingRuns(c: Agent, s: Sys, id: Id)
    requires Start(c, s) && id !in s.w.used
    ensures CanRun(c, s, Sending(id)) && IsCurrent(After(c, s, Sending(id)).p.mgr.flow, id)
    ensures var r := After(c, s, Sending(id));
            && r.p.pc == Idle && r.p.access == s.p.access && r.w.vault == s.w.vault && id in r.w.used && r.p.mgr.core.grants == []
            && r.w.sentAt == map[id := |s.w.vault| - 1]
    ensures LastSent(Sending(id), id) == Some(1) && AtMove(c, s, Sending(id), 1).p.access == s.p.access
  {
    RunSnoc(c, s, [], Region(ListEntered));
    assert [] + [Region(ListEntered)] == [Region(ListEntered)];
    RunSnoc(c, s, [Region(ListEntered)], SendsList(id));
    assert Sending(id)[..1] == [Region(ListEntered)];
  }

  /** From any start, with any session held: a later session is seen with what was listed in the first. */
  lemma LateGrantRun(c: Agent, s: Sys, id: Id, b: Access, now: Time)
    requires Start(c, s) && id !in s.w.used && ActiveAt(b, now) && b != s.p.access && now != 0
    ensures var mvs := Sending(id) + LateMoves(GrantLetter(b), EmptyAnswer(s.w, id), now);
            CanRun(c, s, mvs) && FromEarlierSession(c, s, mvs, now)
  {
    SendingRuns(c, s, id);
    var g, a := GrantLetter(b), EmptyAnswer(s.w, id);
    assert forall l <- [g, a] :: GenuineLetter(c, After(c, s, Sending(id)).w, l);
    AnsweredAfterGrant(c, s, Sending(id), g, a, id, now);
  }

  /** The answer applied; the save fails, and Run is idle again. */
  function Settling(a: Letter, now: Time): seq<Move> { [Collects([a]), AppliesNext(now), TakesLeash, TakesAccess, Saves(NotWritten)] }

  lemma EmptyLists(c: Agent, w: World, m: Mgr, id: Id, now: Time)
    requires |w.vault| > 0 && m.core.grants == [] && IsCurrent(m.flow, id) && now != 0
    ensures var e := Delivered(EmptyAnswer(w, id).msg, now);
            FullAnswer(m, e) && Step(c, m, e).core.grants == [] && Step(c, m, e).flow.listed
  {
    assert ParseAll(c.parse, []) == Parsed([], map[], map[]);
  }

  lemma SettlingStates(c: Agent, r: Sys, id: Id, now: Time)
    requires |r.w.vault| > 0 && r.p.pc == Idle && CanMove(c, r, Collects([EmptyAnswer(r.w, id)])) && r.p.mgr.core.grants == []
    requires IsCurrent(r.p.mgr.flow, id) && now != 0
    ensures var r1 := Next(c, r, Collects([EmptyAnswer(r.w, id)]));
            && CanMove(c, r1, AppliesNext(now)) && AnswersList(r1, AppliesNext(now), id)
            && var r2 := Next(c, r1, AppliesNext(now));
               Listed(r2) && CanMove(c, r2, TakesLeash)
  {
    EmptyLists(c, r.w, r.p.mgr, id, now);
  }

  lemma AnswerRuns(c: Agent, s: Sys, mvs: seq<Move>, a: Letter, id: Id, now: Time)
    requires CanRun(c, s, mvs) && |After(c, s, mvs).w.vault| > 0 && After(c, s, mvs).p.pc == Idle && now != 0
    requires a == EmptyAnswer(After(c, s, mvs).w, id) && CanMove(c, After(c, s, mvs), Collects([a]))
    requires After(c, s, mvs).p.mgr.core.grants == [] && IsCurrent(After(c, s, mvs).p.mgr.flow, id)
    ensures var more := mvs + [Collects([a])] + [AppliesNext(now)];
            && CanRun(c, s, more) && Listed(After(c, s, more)) && CanMove(c, After(c, s, more), TakesLeash)
            && Confirming(c, s, more, |more|) == LastSent(mvs, id)
  {
    SettlingStates(c, After(c, s, mvs), id, now);
    RunSnoc(c, s, mvs, Collects([a]));
    var m1 := mvs + [Collects([a])];
    OneMoreMove(c, s, m1, AppliesNext(now));
    assert m1[..|mvs|] == mvs;
  }

  lemma SettlingRuns(c: Agent, s: Sys, mvs: seq<Move>, a: Letter, id: Id, now: Time)
    requires CanRun(c, s, mvs) && |After(c, s, mvs).w.vault| > 0 && After(c, s, mvs).p.pc == Idle && now != 0
    requires a == EmptyAnswer(After(c, s, mvs).w, id) && CanMove(c, After(c, s, mvs), Collects([a]))
    requires After(c, s, mvs).p.mgr.core.grants == [] && IsCurrent(After(c, s, mvs).p.mgr.flow, id)
    ensures var more := mvs + Settling(a, now);
            && CanRun(c, s, more) && Listed(After(c, s, more)) && After(c, s, more).p.pc == Idle
            && Confirming(c, s, more, |more|) == LastSent(mvs, id)
  {
    AnswerRuns(c, s, mvs, a, id, now);
    SettlingEnds(c, s, mvs + [Collects([a])] + [AppliesNext(now)]);
    SettlingIs(mvs, a, now);
  }

  lemma SettlingIs(mvs: seq<Move>, a: Letter, now: Time)
    ensures mvs + [Collects([a])] + [AppliesNext(now)] + [TakesLeash] + [TakesAccess] + [Saves(NotWritten)] == mvs + Settling(a, now)
  {}

  lemma SettlingEnds(c: Agent, s: Sys, mvs: seq<Move>)
    requires CanRun(c, s, mvs) && Listed(After(c, s, mvs)) && CanMove(c, After(c, s, mvs), TakesLeash)
    ensures var more := mvs + [TakesLeash] + [TakesAccess] + [Saves(NotWritten)];
            && CanRun(c, s, more) && Listed(After(c, s, more)) && After(c, s, more).p.pc == Idle
            && Confirming(c, s, more, |more|) == Confirming(c, s, mvs, |mvs|)
  {
    OneMoreMove(c, s, mvs, TakesLeash);
    OneMoreMove(c, s, mvs + [TakesLeash], TakesAccess);
    OneMoreMove(c, s, mvs + [TakesLeash] + [TakesAccess], Saves(NotWritten));
  }

  /** So is one granted when all that was listed is settled, until its batch reaches the grants. */
  lemma EarlyGrantRun(c: Agent, s: Sys, id: Id, b: Access, now: Time)
    requires Start(c, s) && id !in s.w.used && ActiveAt(b, now) && b != s.p.access && now != 0
    ensures var mvs := Sending(id) + Settling(EmptyAnswer(s.w, id), now) + [Collects([GrantLetter(b)])];
            CanRun(c, s, mvs) && FromEarlierSession(c, s, mvs, now)
  {
    SendingRuns(c, s, id);
    SettlingRuns(c, s, Sending(id), EmptyAnswer(s.w, id), id, now);
    var mvs := Sending(id) + Settling(EmptyAnswer(s.w, id), now);
    AtPrefix(c, s, Sending(id), Settling(EmptyAnswer(s.w, id), now), 1);
    assert [GrantLetter(b)][0] == GrantLetter(b);
    GrantedBeforeApplied(c, s, mvs, GrantLetter(b), now);
  }
}
