/**
 The grants between the vault and the connector's disk: the vault's snapshots
 only grow in number; what it sends arrives in any order, late, twice or never;
 each collected batch is saved before it is acknowledged
 (internal/vaultconn/vaultconn.go, persist); any step may be the last of a
 process, and the next one starts from what the disk holds.

 A step is one locked region or one effect. A batch is applied message by
 message, which allows more interleavings than the code does.
 */
module Protocol {
  import opened Common
  import opened Grants
  import opened LeashSpec
  import opened LeashInvariants
  import opened LeashOrder
  import opened LeashManager

  /** The grants the vault has in force at one time, by id and version, and whether the agent is suspended. */
  datatype Snap = Snap(grants: set<(Id, nat)>, suspended: bool)

  /** A message and the snapshot its grant set, if any, was taken from. */
  datatype Letter = Letter(msg: Message, snap: nat)

  datatype Record = Record(access: Access, leash: Option<SavedBytes>)

  /**
   What a grant state is known to reflect: the snapshot of the last full
   answer, and those of the updates applied.
   */
  datatype Basis = Basis(full: Option<nat>, applied: set<nat>)

  /**
   used: the ids of all requests anyone sent; sentAt: the newest snapshot when
   each of this connector's lists was sent; ever: the snapshots of all updates
   any of its processes applied.
   */
  datatype World = World(vault: seq<Snap>, used: set<Id>, sentAt: map<Id, nat>, ever: set<nat>)

  /** Where Run's goroutine is in persist. */
  datatype Pc =
    | Idle
    | Applying(rest: seq<Letter>)
    | LeashTaken(leash: Option<SavedBytes>, basis: Basis)
    | Ready(rec: Record, basis: Basis, acc: nat)
    | SaveDone
    | Unlinking
    | Ended

  /**
   A process: handled are the updates applied and not yet acknowledged;
   accSeen is how much of the access history the handled batches made.
   */
  datatype Proc = Proc(mgr: Mgr, access: Access, oSaved: Option<SavedBytes>, pc: Pc, basis: Basis, handled: set<nat>, accSeen: nat)

  /** The disk, what it reflects, and what was acknowledged. */
  datatype Disk = Disk(rec: Option<Record>, basis: Basis, acc: nat, acked: set<nat>, accAcked: nat)

  /** accHist: every value the access session took, in the line of states that leads to this one. */
  datatype Sys = Sys(w: World, p: Proc, d: Disk, accHist: seq<Access>)

  datatype SaveOutcome = Written | NotWritten | MaybeWritten

  datatype Move =
    | VaultMoves(snap: Snap)
    | OthersSend(id: Id)
    | Region(e: Event)
    | SendsList(id: Id)
    | SetsAccess(access: Access)
    | Collects(batch: seq<Letter>)
    | AppliesNext(now: Time)
    | TakesLeash
    | TakesAccess
    | Saves(outcome: SaveOutcome)
    | Acknowledges
    | Wipes(done: bool)
    | Restarts

  // ---- what the vault sends ----

  predicate InSnap(s: Snap, g: Grant) { (g.id, g.version) in s.grants }

  /** Every grant in items that parses is in the snapshot. */
  predicate ItemsFrom(c: Agent, items: seq<Option<WireGrant>>, s: Snap) {
    forall i | 0 <= i < |items| && items[i].Some? && c.parse(items[i].value).Some? ::
      InSnap(s, c.parse(items[i].value).value)
  }

  predicate SetFrom(c: Agent, b: Body, s: Snap) {
    WellFormed(b) ==> b.suspended.value == s.suspended && ItemsFrom(c, b.grants.value, s)
  }

  predicate CarriesSet(m: Message) {
    (m.re.None? && m.typ == GrantUpdated) || (m.re.Some? && m.typ == GrantList && m.ok)
  }

  /**
   A grant set comes from a snapshot; a list answer answers a list someone
   sent, and one of ours from a snapshot no older than when it was sent.
   */
  predicate GenuineLetter(c: Agent, w: World, l: Letter) {
    CarriesSet(l.msg) ==>
      && l.snap < |w.vault| && SetFrom(c, l.msg.body, w.vault[l.snap])
      && (l.msg.re.Some? ==> l.msg.re.value in w.used)
      && (l.msg.re.Some? && l.msg.re.value in w.sentAt ==> w.sentAt[l.msg.re.value] <= l.snap)
  }

  // ---- the steps ----

  /** applyAccess, for one message. */
  function AccessAfter(a: Access, m: Message): Access {
    if m.re.Some? then a
    else if m.typ == SessionGranted then (if m.body.SessionBody? then m.body.access else a)
    else if m.typ == SessionEnded then Access(AccessNone, 0, 0)
    else a
  }

  /** applyAccess, for a batch. */
  function AccessFrom(a: Access, batch: seq<Message>): Access
    decreases |batch|
  {
    if batch == [] then a else AccessAfter(AccessFrom(a, batch[..|batch| - 1]), batch[|batch| - 1])
  }

  predicate IsUnlink(m: Message) { m.re.None? && m.typ == Unlinked }

  predicate HasUnlink(batch: seq<Message>) { exists k | 0 <= k < |batch| :: IsUnlink(batch[k]) }

  function Messages(batch: seq<Letter>): seq<Message> { seq(|batch|, i requires 0 <= i < |batch| => batch[i].msg) }

  /** The session after each message of a batch. */
  function AccessesOf(a: Access, batch: seq<Letter>): seq<Access> {
    seq(|batch|, i requires 0 <= i < |batch| => AccessFrom(a, Messages(batch)[..i + 1]))
  }

  function Boot(c: Agent, d: Disk, accHist: seq<Access>): Proc
    requires d.rec.Some?
  {
    var leash := d.rec.value.leash;
    Proc(Bound(c, if leash.None? then None else Decode(c.parse, leash.value)), d.rec.value.access, leash, Idle, d.basis, {}, d.acc)
  }

  /** The record's member a save of the manager's state writes. */
  function LeashOf(m: Core, oSaved: Option<SavedBytes>): Option<SavedBytes>
    requires Encodable(m.grants)
  {
    if m.saved then Some(Encode(Saved(m.grants, m.suspended, m.asOf))) else oSaved
  }

  /**
   What internal/access sets by compare-and-set, over the session it saw when it
   sent its request: none, after session_required; or, after a probe that was
   answered while none was active, one of unknown id and end.
   */
  predicate MaySet(held: Access, a: Access) {
    a == Access(AccessNone, 0, 0) || (a == Access(AccessActive, 0, 0) && held.state != AccessActive)
  }

  predicate CanMove(c: Agent, s: Sys, mv: Move) {
    match mv
    case VaultMoves(_) => true
    case OthersSend(_) => true
    case Region(e) => s.p.pc != Ended && !e.Delivered? && !e.ListSent? && Enabled(s.p.mgr, e)
    case SendsList(id) => s.p.pc != Ended && id !in s.w.used && Enabled(s.p.mgr, ListSent(id))
    case SetsAccess(a) => s.p.pc != Ended && MaySet(s.p.access, a)
    case Collects(batch) => s.p.pc == Idle && forall i | 0 <= i < |batch| :: GenuineLetter(c, s.w, batch[i])
    case AppliesNext(now) => s.p.pc.Applying? && s.p.pc.rest != [] && now != 0
    case TakesLeash => s.p.pc == Applying([]) && Encodable(s.p.mgr.core.grants)
    case TakesAccess => s.p.pc.LeashTaken?
    case Saves(_) => s.p.pc.Ready?
    case Acknowledges => s.p.pc == SaveDone
    case Wipes(_) => s.p.pc == Unlinking
    case Restarts => s.d.rec.Some?
  }

  /** What the basis becomes when a letter is applied. */
  function BasisAfter(f: Flow, b: Basis, l: Letter): Basis {
    if !CarriesSet(l.msg) || !WellFormed(l.msg.body) then b
    else if l.msg.typ == GrantUpdated then b.(applied := b.applied + {l.snap})
    else if IsCurrent(f, l.msg.re.value) then b.(full := Some(l.snap))
    else b
  }

  predicate IsUpdateLetter(l: Letter) { l.msg.re.None? && l.msg.typ == GrantUpdated }

  function ApplyLetter(c: Agent, w: World, p: Proc, l: Letter, rest: seq<Letter>, now: Time): (World, Proc)
    requires now != 0
  {
    var w' := if IsUpdateLetter(l) then w.(ever := w.ever + {l.snap}) else w;
    (w', p.(mgr := Deliver(c, p.mgr, l.msg, now), pc := Applying(rest), basis := BasisAfter(p.mgr.flow, p.basis, l),
            handled := if IsUpdateLetter(l) && WellFormed(l.msg.body) then p.handled + {l.snap} else p.handled))
  }

  function Newest(w: World): nat { if |w.vault| == 0 then 0 else |w.vault| - 1 }

  function Next(c: Agent, s: Sys, mv: Move): Sys
    requires CanMove(c, s, mv)
  {
    match mv
    case VaultMoves(snap) => s.(w := s.w.(vault := s.w.vault + [snap]))
    case OthersSend(id) => s.(w := s.w.(used := s.w.used + {id}))
    case Region(e) => s.(p := s.p.(mgr := Step(c, s.p.mgr, e)))
    case SendsList(id) =>
      s.(w := s.w.(used := s.w.used + {id}, sentAt := s.w.sentAt[id := Newest(s.w)]),
         p := s.p.(mgr := Step(c, s.p.mgr, ListSent(id))))
    case SetsAccess(a) => s.(p := s.p.(access := a), accHist := s.accHist + [a])
    case Collects(batch) =>
      if HasUnlink(Messages(batch)) then s.(p := s.p.(pc := Unlinking))
      else
        var hist := s.accHist + AccessesOf(s.p.access, batch);
        s.(p := s.p.(access := AccessFrom(s.p.access, Messages(batch)), pc := Applying(batch), accSeen := |hist|), accHist := hist)
    case AppliesNext(now) =>
      var r := ApplyLetter(c, s.w, s.p, s.p.pc.rest[0], s.p.pc.rest[1..], now);
      s.(w := r.0, p := r.1)
    case TakesLeash => s.(p := s.p.(pc := LeashTaken(LeashOf(s.p.mgr.core, s.p.oSaved), s.p.basis)))
    case TakesAccess => s.(p := s.p.(pc := Ready(Record(s.p.access, s.p.pc.leash), s.p.pc.basis, |s.accHist|)))
    case Saves(outcome) =>
      var d := s.d.(rec := Some(s.p.pc.rec), basis := s.p.pc.basis, acc := s.p.pc.acc);
      (match outcome
       case Written => s.(p := s.p.(pc := SaveDone), d := d)
       case NotWritten => s.(p := s.p.(pc := Idle))
       case MaybeWritten => s.(p := s.p.(pc := Idle), d := d))
    case Acknowledges =>
      s.(p := s.p.(pc := Idle, handled := {}), d := s.d.(acked := s.d.acked + s.p.handled, accAcked := s.p.accSeen))
    case Wipes(done) =>
      if done then s.(p := s.p.(pc := Ended), d := s.d.(rec := None)) else s.(p := s.p.(pc := Ended))
    case Restarts =>
      s.(p := Boot(c, s.d, s.accHist), accHist := if s.d.acc <= |s.accHist| then s.accHist[..s.d.acc] else s.accHist)
  }

  // ---- the invariant ----

  /** g is current as of snapshot k, or as of a newer full answer. */
  predicate AsOf(vault: seq<Snap>, g: Grant, full: Option<nat>, k: nat) {
    || (k < |vault| && InSnap(vault[k], g))
    || (full.Some? && k <= full.value < |vault| && InSnap(vault[full.value], g))
  }

  /** Grants and a suspension that reflect every update applied, or a newer full answer. */
  ghost predicate Fresh(vault: seq<Snap>, gs: seq<Grant>, suspended: bool, b: Basis) {
    && (b.full.Some? ==> b.full.value < |vault| && (suspended || !vault[b.full.value].suspended))
    && (forall g <- gs :: b.full.Some? && InSnap(vault[b.full.value], g))
    && (forall k <- b.applied :: k < |vault| && forall g <- gs :: AsOf(vault, g, b.full, k))
    && (forall k <- b.applied :: k < |vault| && (vault[k].suspended && !suspended ==> b.full.Some? && k <= b.full.value))
  }

  /** A saved member that can be read, and reflects its basis. */
  ghost predicate LeashOk(ok: iset<Grant>, c: Agent, vault: seq<Snap>, leash: Option<SavedBytes>, b: Basis) {
    if leash.None? then b.full.None? && Fresh(vault, [], false, b)
    else
      exists s: Saved ::
        && Decode(c.parse, leash.value) == Some(s) && s.asOf != 0 && GrantsOk(ok, c.ik, s.grants)
        && Fresh(vault, s.grants, s.suspended, b)
  }

  /** No update was ever applied after a list that is still current was sent. */
  ghost predicate ListsCurrent(w: World, f: Flow) {
    forall id <- f.lists :: id in w.sentAt && (IsCurrent(f, id) ==> forall k <- w.ever :: k <= w.sentAt[id])
  }

  ghost predicate WorldOk(w: World) {
    && |w.vault| > 0 && (forall k <- w.ever :: k < |w.vault|) && (forall id <- w.sentAt :: w.sentAt[id] < |w.vault| && id in w.used)
  }

  /** While listed, the basis covers every update any process ever applied. */
  ghost predicate ListedFresh(w: World, m: Mgr, b: Basis) {
    m.flow.listed ==> b.full.Some? && forall k <- w.ever :: k <= b.full.value || k in b.applied
  }

  ghost predicate MgrOk(ok: iset<Grant>, c: Agent, w: World, p: Proc) {
    && Inv(ok, c, p.mgr)
    && Fresh(w.vault, p.mgr.core.grants, p.mgr.core.suspended, p.basis)
    && ListsCurrent(w, p.mgr.flow) && ListedFresh(w, p.mgr, p.basis)
    && p.basis.applied <= w.ever && p.handled <= p.basis.applied
    && (p.basis.full.Some? ==> p.mgr.core.saved) && (!p.mgr.core.saved ==> p.oSaved.None?)
  }

  ghost predicate PcOk(ok: iset<Grant>, c: Agent, s: Sys) {
    match s.p.pc
    case Applying(rest) => forall i | 0 <= i < |rest| :: GenuineLetter(c, s.w, rest[i])
    case LeashTaken(leash, b) => LeashOk(ok, c, s.w.vault, leash, b) && s.p.handled + s.d.acked <= b.applied <= s.w.ever
    case Ready(rec, b, acc) =>
      && LeashOk(ok, c, s.w.vault, rec.leash, b) && s.p.handled + s.d.acked <= b.applied <= s.w.ever
      && s.p.accSeen <= acc <= |s.accHist| && 0 < acc && rec.access == s.accHist[acc - 1]
    case SaveDone => s.p.handled <= s.d.basis.applied && s.p.accSeen <= s.d.acc
    case _ => true
  }

  /** The disk holds the effects of every acknowledged message. */
  ghost predicate DiskOk(ok: iset<Grant>, c: Agent, s: Sys) {
    && s.d.accAcked <= s.d.acc <= |s.accHist| && 0 < s.d.acc
    && s.d.acked <= s.d.basis.applied <= s.w.ever
    && (s.d.rec.Some? ==> s.d.rec.value.access == s.accHist[s.d.acc - 1])
    && (s.d.rec.Some? ==> LeashOk(ok, c, s.w.vault, s.d.rec.value.leash, s.d.basis))
  }

  ghost predicate ProcOk(ok: iset<Grant>, c: Agent, s: Sys) {
    && MgrOk(ok, c, s.w, s.p) && PcOk(ok, c, s)
    && s.d.acked <= s.p.basis.applied && s.d.accAcked <= s.p.accSeen <= |s.accHist|
    && s.accHist != [] && s.p.access == s.accHist[|s.accHist| - 1]
  }

  ghost predicate SysInv(ok: iset<Grant>, c: Agent, s: Sys) {
    && WorldOk(s.w)
    && (s.p.pc != Ended ==> ProcOk(ok, c, s))
    && DiskOk(ok, c, s)
  }
}
