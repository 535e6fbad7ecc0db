/** Every run of the protocol keeps what the connector presents fresh and what the vault dropped on disk. */
module ProtocolProofs {
  import opened Common
  import opened Grants
  import opened LeashSpec
  import opened LeashInvariants
  import opened LeashOrder
  import opened LeashManager
  import opened Protocol

  ghost predicate Reproduces(ok: iset<Grant>, parse: Parser) { forall g <- ok :: ReadsBack(parse, g) }

  lemma AgentReproduces(c: Config)
    requires c.limits.Valid()
    ensures Reproduces(AcceptedBy(ParserFor(c)), ParserFor(c))
  {
    forall g <- AcceptedBy(ParserFor(c)) ensures ReadsBack(ParserFor(c), g) {
      var w :| ParserFor(c)(w) == Some(g);
      assert ParseGrant(c, w) == Some(g);
      AcceptedReadsBack(c, g);
    }
  }

  ghost predicate Setting(ok: iset<Grant>, c: Agent) { Covers(ok, c.parse) && Reproduces(ok, c.parse) }

  // ---- the vault only grows ----

  lemma FreshGrows(vault: seq<Snap>, snap: Snap, gs: seq<Grant>, suspended: bool, b: Basis)
    requires Fresh(vault, gs, suspended, b)
    ensures Fresh(vault + [snap], gs, suspended, b)
  {}

  lemma LeashGrows(ok: iset<Grant>, c: Agent, vault: seq<Snap>, snap: Snap, leash: Option<SavedBytes>, b: Basis)
    requires LeashOk(ok, c, vault, leash, b)
    ensures LeashOk(ok, c, vault + [snap], leash, b)
  {}

  lemma GenuineGrows(c: Agent, w: World, snap: Snap, l: Letter)
    requires GenuineLetter(c, w, l)
    ensures GenuineLetter(c, w.(vault := w.vault + [snap]), l)
  {}

  lemma VaultMovesKeeps(ok: iset<Grant>, c: Agent, s: Sys, snap: Snap)
    requires SysInv(ok, c, s)
    ensures SysInv(ok, c, Next(c, s, VaultMoves(snap)))
  {
    var vault := s.w.vault;
    if s.d.rec.Some? {
      LeashGrows(ok, c, vault, snap, s.d.rec.value.leash, s.d.basis);
    }
    if s.p.pc != Ended {
      FreshGrows(vault, snap, s.p.mgr.core.grants, s.p.mgr.core.suspended, s.p.basis);
    }
    match s.p.pc
    case Applying(rest) =>
      forall i | 0 <= i < |rest| ensures GenuineLetter(c, s.w.(vault := vault + [snap]), rest[i]) {
        GenuineGrows(c, s.w, snap, rest[i]);
      }
    case LeashTaken(leash, b) => LeashGrows(ok, c, vault, snap, leash, b);
    case Ready(rec, b, acc) => LeashGrows(ok, c, vault, snap, rec.leash, b);
    case _ =>
  }

  // ---- the manager's own regions ----

  lemma RegionFrame(c: Agent, m: Mgr, e: Event)
    requires Enabled(m, e) && !e.Delivered? && !e.ListSent?
    ensures var r := Step(c, m, e);
            && r.core.grants == m.core.grants && (m.core.suspended ==> r.core.suspended) && (m.core.saved ==> r.core.saved)
            && (r.flow.listed ==> m.flow.listed) && m.flow.gen <= r.flow.gen
            && forall id <- r.flow.lists :: id in m.flow.lists && r.flow.lists[id] == m.flow.lists[id]
  {}

  lemma RegionKeeps(ok: iset<Grant>, c: Agent, w: World, p: Proc, e: Event)
    requires Setting(ok, c) && MgrOk(ok, c, w, p) && Enabled(p.mgr, e) && !e.Delivered? && !e.ListSent?
    ensures MgrOk(ok, c, w, p.(mgr := Step(c, p.mgr, e)))
  {
    InvStep(ok, c, p.mgr, e);
    RegionFrame(c, p.mgr, e);
    var m, r := p.mgr, Step(c, p.mgr, e);
    forall id <- r.flow.lists | IsCurrent(r.flow, id) ensures IsCurrent(m.flow, id) {
      assert m.flow.lists[id] <= m.flow.gen;
    }
  }

  lemma SendsListKeeps(ok: iset<Grant>, c: Agent, w: World, p: Proc, id: Id)
    requires Setting(ok, c) && WorldOk(w) && MgrOk(ok, c, w, p) && Enabled(p.mgr, ListSent(id)) && id !in w.used
    ensures MgrOk(ok, c, w.(used := w.used + {id}, sentAt := w.sentAt[id := Newest(w)]), p.(mgr := Step(c, p.mgr, ListSent(id))))
  {}

  // ---- applying a letter ----

  lemma IncomingFresh(c: Agent, items: seq<Option<WireGrant>>, snap: Snap, g: Grant)
    requires ItemsFrom(c, items, snap) && g in Incoming(c, ParseAll(c.parse, items))
    ensures InSnap(snap, g)
  {
    IncomingFacts(c, items);
    var w := ParseAll(c.parse, items).raw[g.id];
    var i :| 0 <= i < |items| && items[i] == Some(w);
    assert items[i].Some? && c.parse(items[i].value).Some?;
  }

  /** A narrowing keeps only grants its snapshot has in the same version. */
  lemma KeptFresh(c: Agent, items: seq<Option<WireGrant>>, snap: Snap, held: seq<Grant>, g: Grant)
    requires ItemsFrom(c, items, snap)
    requires g in Kept(ById(Incoming(c, ParseAll(c.parse, items))), held)
    ensures g in held && InSnap(snap, g)
  {
    var gs := Incoming(c, ParseAll(c.parse, items));
    FilterFacts(IsConfirmed(ById(gs)), held);
    ByIdFacts(gs);
    assert Confirms(ById(gs), g);
    IncomingFresh(c, items, snap, ById(gs)[g.id]);
  }

  lemma NarrowShape(m: Core, gs: seq<Grant>, suspended: bool, now: Time)
    ensures Narrow(m, gs, suspended, now).grants == Kept(ById(gs), m.grants)
    ensures Narrow(m, gs, suspended, now).suspended == (m.suspended || suspended)
    ensures m.saved ==> Narrow(m, gs, suspended, now).saved
  {
    FilterShorter(IsConfirmed(ById(gs)), m.grants);
  }

  lemma FewerFresh(vault: seq<Snap>, gs: seq<Grant>, fewer: seq<Grant>, suspended: bool, now: bool, b: Basis)
    requires Fresh(vault, gs, suspended, b) && (forall g <- fewer :: g in gs) && (suspended ==> now)
    ensures Fresh(vault, fewer, now, b)
  {}

  /** An update narrows what is held to what its snapshot has, so it can be counted as applied. */
  lemma UpdateFresh(c: Agent, vault: seq<Snap>, m: Core, body: Body, k: nat, now: Time, b: Basis)
    requires WellFormed(body) && k < |vault| && SetFrom(c, body, vault[k]) && Fresh(vault, m.grants, m.suspended, b)
    ensures var r := Narrow(m, Incoming(c, ParseAll(c.parse, body.grants.value)), body.suspended.value, now);
            && Fresh(vault, r.grants, r.suspended, b.(applied := b.applied + {k}))
            && (forall g <- r.grants :: g in m.grants && InSnap(vault[k], g))
  {
    var gs := Incoming(c, ParseAll(c.parse, body.grants.value));
    var r := Narrow(m, gs, body.suspended.value, now);
    NarrowShape(m, gs, body.suspended.value, now);
    forall g <- r.grants ensures g in m.grants && InSnap(vault[k], g) {
      KeptFresh(c, body.grants.value, vault[k], m.grants, g);
    }
    FewerFresh(vault, m.grants, r.grants, m.suspended, r.suspended, b);
  }

  lemma ReplacedFresh(c: Agent, items: seq<Option<WireGrant>>, snap: Snap, held: seq<Grant>)
    requires ItemsFrom(c, items, snap)
    ensures forall g <- SortById(NotOlder(held, Incoming(c, ParseAll(c.parse, items)))) :: InSnap(snap, g)
  {
    var gs := Incoming(c, ParseAll(c.parse, items));
    IncomingFacts(c, items);
    FilterFacts(IsNotOlder(held), gs);
    FilterOrder(IsNotOlder(held), gs);
    SortFacts(NotOlder(held, gs));
    forall g <- SortById(NotOlder(held, gs)) ensures InSnap(snap, g) {
      IncomingFresh(c, items, snap, g);
    }
  }

  /** The full answer to a list no older than any update applied makes its snapshot the basis. */
  lemma AnswerFresh(c: Agent, vault: seq<Snap>, m: Core, body: Body, k: nat, now: Time, b: Basis)
    requires WellFormed(body) && k < |vault| && SetFrom(c, body, vault[k]) && (forall j <- b.applied :: j <= k)
    ensures var p := ParseAll(c.parse, body.grants.value);
            var r := Replace(c, m, Incoming(c, p), p.raw, body.suspended.value, now);
            Fresh(vault, r.grants, r.suspended, b.(full := Some(k)))
  {
    ReplacedFresh(c, body.grants.value, vault[k], m.grants);
  }

  lemma UpdateKeeps(ok: iset<Grant>, c: Agent, w: World, p: Proc, l: Letter, rest: seq<Letter>, now: Time)
    requires Setting(ok, c) && WorldOk(w) && MgrOk(ok, c, w, p) && GenuineLetter(c, w, l) && IsUpdateLetter(l) && now != 0
    ensures var r := ApplyLetter(c, w, p, l, rest, now); MgrOk(ok, c, r.0, r.1)
  {
    DeliverKeeps(ok, c, p.mgr, l.msg, now);
    var r := ApplyLetter(c, w, p, l, rest, now);
    assert forall id <- r.1.mgr.flow.lists :: !IsCurrent(r.1.mgr.flow, id);
    if WellFormed(l.msg.body) {
      UpdateFresh(c, w.vault, p.mgr.core, l.msg.body, l.snap, now, p.basis);
      NarrowShape(p.mgr.core, Incoming(c, ParseAll(c.parse, l.msg.body.grants.value)), l.msg.body.suspended.value, now);
    }
  }

  lemma AnswerKeeps(ok: iset<Grant>, c: Agent, w: World, p: Proc, l: Letter, rest: seq<Letter>, now: Time)
    requires Setting(ok, c) && WorldOk(w) && MgrOk(ok, c, w, p) && GenuineLetter(c, w, l) && now != 0
    requires l.msg.re.Some? && CarriesSet(l.msg)
    ensures var r := ApplyLetter(c, w, p, l, rest, now); MgrOk(ok, c, r.0, r.1)
  {
    DeliverKeeps(ok, c, p.mgr, l.msg, now);
    var id, body, m := l.msg.re.value, l.msg.body, p.mgr.core;
    if WellFormed(body) {
      if IsCurrent(p.mgr.flow, id) {
        AnswerFresh(c, w.vault, m, body, l.snap, now, p.basis);
      } else {
        var gs := Incoming(c, ParseAll(c.parse, body.grants.value));
        NarrowShape(m, gs, body.suspended.value, now);
        FilterFacts(IsConfirmed(ById(gs)), m.grants);
        var n := Narrow(m, gs, body.suspended.value, now);
        FewerFresh(w.vault, m.grants, n.grants, m.suspended, n.suspended, p.basis);
      }
    }
  }

  lemma LetterKeeps(ok: iset<Grant>, c: Agent, w: World, p: Proc, l: Letter, rest: seq<Letter>, now: Time)
    requires Setting(ok, c) && WorldOk(w) && MgrOk(ok, c, w, p) && GenuineLetter(c, w, l) && now != 0
    ensures var r := ApplyLetter(c, w, p, l, rest, now); MgrOk(ok, c, r.0, r.1)
  {
    if IsUpdateLetter(l) {
      UpdateKeeps(ok, c, w, p, l, rest, now);
    } else if CarriesSet(l.msg) {
      AnswerKeeps(ok, c, w, p, l, rest, now);
    } else {
      DeliverKeeps(ok, c, p.mgr, l.msg, now);
    }
  }

  // ---- the disk ----

  /** Cutting the fractions off their lifetimes leaves grants as fresh, and as acceptable, as they were. */
  lemma TruncatedOk(ok: iset<Grant>, c: Agent, vault: seq<Snap>, gs: seq<Grant>, suspended: bool, b: Basis)
    requires Setting(ok, c) && GrantsOk(ok, c.ik, gs) && Fresh(vault, gs, suspended, b)
    ensures GrantsOk(ok, c.ik, TruncatedAll(gs)) && Fresh(vault, TruncatedAll(gs), suspended, b)
  {
    var back := TruncatedAll(gs);
    forall g <- back ensures g in ok && Mine(c.ik, g) && exists h <- gs :: g == Truncated(h) {
      var i :| 0 <= i < |back| && back[i] == g;
      assert ReadsBack(c.parse, gs[i]) && gs[i] in gs;
    }
    forall g <- back, k <- b.applied ensures AsOf(vault, g, b.full, k) {
      var h :| h in gs && g == Truncated(h);
      assert AsOf(vault, h, b.full, k);
    }
  }

  /** What is written of the manager reads back, and reflects what the manager reflects. */
  lemma LeashTakenOk(ok: iset<Grant>, c: Agent, w: World, p: Proc)
    requires Setting(ok, c) && MgrOk(ok, c, w, p)
    ensures Encodable(p.mgr.core.grants) && LeashOk(ok, c, w.vault, LeashOf(p.mgr.core, p.oSaved), p.basis)
  {
    var m := p.mgr.core;
    if m.saved {
      var s := Saved(m.grants, m.suspended, m.asOf);
      DecodeEncode(c.parse, s);
      TruncatedOk(ok, c, w.vault, m.grants, m.suspended, p.basis);
    }
  }

  /** A process that starts from a good record is as fresh as the record. */
  lemma BootKeeps(ok: iset<Grant>, c: Agent, w: World, d: Disk, accHist: seq<Access>)
    requires Setting(ok, c) && d.rec.Some? && LeashOk(ok, c, w.vault, d.rec.value.leash, d.basis) && d.basis.applied <= w.ever
    ensures MgrOk(ok, c, w, Boot(c, d, accHist))
  {
    var leash := d.rec.value.leash;
    if leash.None? {
      InvBound(ok, c, None);
    } else {
      var s: Saved :| Decode(c.parse, leash.value) == Some(s) && s.asOf != 0 && GrantsOk(ok, c.ik, s.grants)
                      && Fresh(w.vault, s.grants, s.suspended, d.basis);
      InvBound(ok, c, Some(s));
      FilterFacts(IsMine(c.ik), s.grants);
      FewerFresh(w.vault, s.grants, ForMe(c.ik, s.grants), s.suspended, s.suspended, d.basis);
    }
  }

  lemma AccessesEnd(a: Access, batch: seq<Letter>)
    ensures batch != [] ==> AccessesOf(a, batch)[|batch| - 1] == AccessFrom(a, Messages(batch))
    ensures batch == [] ==> AccessFrom(a, Messages(batch)) == a
  {
    assert Messages(batch)[..|batch|] == Messages(batch);
  }

  // ---- every move ----

  /** More requests sent, and a region of the manager: the rest stays as it was. */
  lemma MgrFrame(ok: iset<Grant>, c: Agent, s: Sys, w: World, m: Mgr)
    requires SysInv(ok, c, s) && WorldOk(w) && w.vault == s.w.vault && w.ever == s.w.ever
    requires forall l: Letter | GenuineLetter(c, s.w, l) :: GenuineLetter(c, w, l)
    requires s.p.pc != Ended ==> MgrOk(ok, c, w, s.p.(mgr := m))
    ensures SysInv(ok, c, s.(w := w, p := s.p.(mgr := m)))
  {}

  lemma RegionMoveKeeps(ok: iset<Grant>, c: Agent, s: Sys, e: Event)
    requires Setting(ok, c) && SysInv(ok, c, s) && CanMove(c, s, Region(e))
    ensures SysInv(ok, c, Next(c, s, Region(e)))
  {
    RegionKeeps(ok, c, s.w, s.p, e);
    MgrFrame(ok, c, s, s.w, Step(c, s.p.mgr, e));
  }

  lemma SendsMoveKeeps(ok: iset<Grant>, c: Agent, s: Sys, id: Id)
    requires Setting(ok, c) && SysInv(ok, c, s) && CanMove(c, s, SendsList(id))
    ensures SysInv(ok, c, Next(c, s, SendsList(id)))
  {
    SendsListKeeps(ok, c, s.w, s.p, id);
    MgrFrame(ok, c, s, s.w.(used := s.w.used + {id}, sentAt := s.w.sentAt[id := Newest(s.w)]), Step(c, s.p.mgr, ListSent(id)));
  }

  lemma LetterMoveKeeps(ok: iset<Grant>, c: Agent, s: Sys, now: Time)
    requires Setting(ok, c) && SysInv(ok, c, s) && CanMove(c, s, AppliesNext(now))
    ensures SysInv(ok, c, Next(c, s, AppliesNext(now)))
  {
    LetterKeeps(ok, c, s.w, s.p, s.p.pc.rest[0], s.p.pc.rest[1..], now);
  }

  lemma Taken(ok: iset<Grant>, c: Agent, s: Sys, batch: seq<Letter>, access: Access, hist: seq<Access>)
    requires SysInv(ok, c, s) && s.p.pc == Idle && forall i | 0 <= i < |batch| :: GenuineLetter(c, s.w, batch[i])
    requires |s.accHist| <= |hist| && hist[..|s.accHist|] == s.accHist && access == hist[|hist| - 1]
    ensures SysInv(ok, c, s.(p := s.p.(access := access, pc := Applying(batch), accSeen := |hist|), accHist := hist))
  {}

  lemma CollectMoveKeeps(ok: iset<Grant>, c: Agent, s: Sys, batch: seq<Letter>)
    requires Setting(ok, c) && SysInv(ok, c, s) && CanMove(c, s, Collects(batch))
    ensures SysInv(ok, c, Next(c, s, Collects(batch)))
  {
    AccessesEnd(s.p.access, batch);
    if !HasUnlink(Messages(batch)) {
      Taken(ok, c, s, batch, AccessFrom(s.p.access, Messages(batch)), s.accHist + AccessesOf(s.p.access, batch));
    }
  }

  lemma RestartMoveKeeps(ok: iset<Grant>, c: Agent, s: Sys)
    requires Setting(ok, c) && SysInv(ok, c, s) && CanMove(c, s, Restarts)
    ensures SysInv(ok, c, Next(c, s, Restarts))
  {
    BootKeeps(ok, c, s.w, s.d, s.accHist);
  }

  lemma SaveMoveKeeps(ok: iset<Grant>, c: Agent, s: Sys, outcome: SaveOutcome)
    requires Setting(ok, c) && SysInv(ok, c, s) && CanMove(c, s, Saves(outcome))
    ensures SysInv(ok, c, Next(c, s, Saves(outcome)))
  {}

  lemma TakeMoveKeeps(ok: iset<Grant>, c: Agent, s: Sys)
    requires Setting(ok, c) && SysInv(ok, c, s) && CanMove(c, s, TakesLeash)
    ensures SysInv(ok, c, Next(c, s, TakesLeash))
  {
    LeashTakenOk(ok, c, s.w, s.p);
  }

  lemma AccessMoveKeeps(ok: iset<Grant>, c: Agent, s: Sys)
    requires Setting(ok, c) && SysInv(ok, c, s) && CanMove(c, s, TakesAccess)
    ensures SysInv(ok, c, Next(c, s, TakesAccess))
  {}

  lemma AcknowledgeMoveKeeps(ok: iset<Grant>, c: Agent, s: Sys)
    requires Setting(ok, c) && SysInv(ok, c, s) && CanMove(c, s, Acknowledges)
    ensures SysInv(ok, c, Next(c, s, Acknowledges))
  {}

  lemma WipeMoveKeeps(ok: iset<Grant>, c: Agent, s: Sys, done: bool)
    requires Setting(ok, c) && SysInv(ok, c, s) && CanMove(c, s, Wipes(done))
    ensures SysInv(ok, c, Next(c, s, Wipes(done)))
  {}

  lemma OthersMoveKeeps(ok: iset<Grant>, c: Agent, s: Sys, id: Id)
    requires Setting(ok, c) && SysInv(ok, c, s) && CanMove(c, s, OthersSend(id))
    ensures SysInv(ok, c, Next(c, s, OthersSend(id)))
  {
    MgrFrame(ok, c, s, s.w.(used := s.w.used + {id}), s.p.mgr);
  }

  lemma SetAccessMoveKeeps(ok: iset<Grant>, c: Agent, s: Sys, access: Access)
    requires Setting(ok, c) && SysInv(ok, c, s) && CanMove(c, s, SetsAccess(access))
    ensures SysInv(ok, c, Next(c, s, SetsAccess(access)))
  {}

  lemma DiskMoveKeeps(ok: iset<Grant>, c: Agent, s: Sys, mv: Move)
    requires Setting(ok, c) && SysInv(ok, c, s) && CanMove(c, s, mv)
    requires mv.TakesLeash? || mv.TakesAccess? || mv.Saves? || mv.Acknowledges? || mv.Wipes? || mv.Restarts?
    ensures SysInv(ok, c, Next(c, s, mv))
  {
    match mv
    case TakesLeash => TakeMoveKeeps(ok, c, s);
    case Saves(outcome) => SaveMoveKeeps(ok, c, s, outcome);
    case Restarts => RestartMoveKeeps(ok, c, s);
    case TakesAccess => AccessMoveKeeps(ok, c, s);
    case Acknowledges => AcknowledgeMoveKeeps(ok, c, s);
    case Wipes(done) => WipeMoveKeeps(ok, c, s, done);
  }

  lemma MoveKeeps(ok: iset<Grant>, c: Agent, s: Sys, mv: Move)
    requires Setting(ok, c) && SysInv(ok, c, s) && CanMove(c, s, mv)
    ensures SysInv(ok, c, Next(c, s, mv))
  {
    match mv
    case VaultMoves(snap) => VaultMovesKeeps(ok, c, s, snap);
    case Region(e) => RegionMoveKeeps(ok, c, s, e);
    case SendsList(id) => SendsMoveKeeps(ok, c, s, id);
    case AppliesNext(now) => LetterMoveKeeps(ok, c, s, now);
    case Collects(batch) => CollectMoveKeeps(ok, c, s, batch);
    case OthersSend(id) => OthersMoveKeeps(ok, c, s, id);
    case SetsAccess(access) => SetAccessMoveKeeps(ok, c, s, access);
    case _ => DiskMoveKeeps(ok, c, s, mv);
  }

  /** The moves can be made one after the other from s. */
  predicate CanRun(c: Agent, s: Sys, mvs: seq<Move>)
    decreases |mvs|, 0
  {
    mvs == [] || (CanRun(c, s, mvs[..|mvs| - 1]) && CanMove(c, After(c, s, mvs[..|mvs| - 1]), mvs[|mvs| - 1]))
  }

  function After(c: Agent, s: Sys, mvs: seq<Move>): Sys
    requires CanRun(c, s, mvs)
    decreases |mvs|, 1
  {
    if mvs == [] then s else Next(c, After(c, s, mvs[..|mvs| - 1]), mvs[|mvs| - 1])
  }

  lemma RunSnoc(c: Agent, s: Sys, mvs: seq<Move>, mv: Move)
    requires CanRun(c, s, mvs) && CanMove(c, After(c, s, mvs), mv)
    ensures CanRun(c, s, mvs + [mv]) && After(c, s, mvs + [mv]) == Next(c, After(c, s, mvs), mv)
  {}

  /** Just paired: nothing sent, nothing applied, no grants on the disk, nothing acknowledged. */
  predicate Start(c: Agent, s: Sys) {
    && |s.w.vault| > 0 && s.w.sentAt == map[] && s.w.ever == {}
    && s.d.rec.Some? && s.d.rec.value.leash.None? && s.d.basis == Basis(None, {}) && s.d.acked == {}
    && s.accHist == [s.d.rec.value.access] && s.d.acc == 1 && s.d.accAcked <= 1
    && s.p == Boot(c, s.d, s.accHist)
  }

  lemma {:induction false} RunKeeps(ok: iset<Grant>, c: Agent, s: Sys, mvs: seq<Move>)
    requires Setting(ok, c) && Start(c, s) && CanRun(c, s, mvs)
    ensures SysInv(ok, c, After(c, s, mvs))
    decreases |mvs|
  {
    if mvs == [] {
      BootKeeps(ok, c, s.w, s.d, s.accHist);
    } else {
      RunKeeps(ok, c, s, mvs[..|mvs| - 1]);
      MoveKeeps(ok, c, After(c, s, mvs[..|mvs| - 1]), mvs[|mvs| - 1]);
    }
  }
}
