/** What holds in every run of the protocol, over any number of crashes and restarts. */
module ProtocolTheorems {
  import opened Common
  import opened Grants
  import opened LeashSpec
  import opened LeashInvariants
  import opened LeashOrder
  import opened LeashManager
  import opened Protocol
  import opened ProtocolProofs

  /** The agent of a connector with leashwire's bounds. */
  lemma AnySetting(c: Config)
    requires c.limits.Valid()
    ensures Setting(AcceptedBy(ParserFor(c)), AgentOf(c))
  {
    AcceptedCovers(ParserFor(c));
    AgentReproduces(c);
  }

  // ---- freshness ----

  predicate Tops(s: set<nat>, n: nat, m: nat) { (m == n || m in s) && n <= m && forall k <- s :: k <= m }

  lemma {:induction false} Topmost(s: set<nat>, n: nat)
    ensures exists m: nat :: Tops(s, n, m)
    decreases |s|
  {
    if s == {} {
      assert Tops(s, n, n);
    } else {
      var x :| x in s;
      var y := if n < x then x else n;
      Topmost(s - {x}, y);
      var m: nat :| Tops(s - {x}, y, m);
      assert forall k <- s :: k == x || k in s - {x};
      assert Tops(s, n, m);
    }
  }

  /** Snapshot n, as new as every update any process applied, has every grant held in its version, and resumes if m does. */
  ghost predicate FreshAt(w: World, m: Core, n: nat) {
    && n < |w.vault| && (forall k <- w.ever :: k <= n)
    && (forall g <- m.grants :: InSnap(w.vault[n], g))
    && (!m.suspended ==> !w.vault[n].suspended)
  }

  lemma ListedIsFresh(w: World, m: Mgr, b: Basis)
    requires m.flow.listed && ListedFresh(w, m, b) && Fresh(w.vault, m.core.grants, m.core.suspended, b) && WorldOk(w)
    ensures exists n: nat :: FreshAt(w, m.core, n)
  {
    Topmost(w.ever, b.full.value);
    var n: nat :| Tops(w.ever, b.full.value, n);
    if n != b.full.value {
      assert n in b.applied;
      forall g <- m.core.grants ensures InSnap(w.vault[n], g) {
        assert AsOf(w.vault, g, b.full, n);
      }
    }
    assert FreshAt(w, m.core, n);
  }

  /**
   In every run, whatever order, repetition or loss of messages, and whatever
   crashes: while listed, all grants held are in one vault snapshot at least as
   new as every update applied so far, by this process or an earlier one.
   */
  lemma Freshness(c: Config, s: Sys, mvs: seq<Move>)
    requires c.limits.Valid() && Start(AgentOf(c), s) && CanRun(AgentOf(c), s, mvs)
    ensures var r := After(AgentOf(c), s, mvs);
            r.p.pc != Ended && r.p.mgr.flow.listed ==> exists n: nat :: FreshAt(r.w, r.p.mgr.core, n)
  {
    AnySetting(c);
    RunKeeps(AcceptedBy(ParserFor(c)), AgentOf(c), s, mvs);
    var r := After(AgentOf(c), s, mvs);
    if r.p.pc != Ended && r.p.mgr.flow.listed {
      ListedIsFresh(r.w, r.p.mgr, r.p.basis);
    }
  }

  /** So everything Present finds presentable is one of these, and the vault had not suspended the agent. */
  lemma PresentsFresh(c: Config, s: Sys, mvs: seq<Move>, a: Access, id: Id, now: Time)
    requires c.limits.Valid() && Start(AgentOf(c), s) && CanRun(AgentOf(c), s, mvs)
    requires var r := After(AgentOf(c), s, mvs); r.p.pc != Ended && Presentable(AgentOf(c), r.p.mgr, a, id, now).0.Some?
    ensures var r := After(AgentOf(c), s, mvs);
            var g := Presentable(AgentOf(c), r.p.mgr, a, id, now).0.value;
            exists n: nat :: FreshAt(r.w, r.p.mgr.core, n) && InSnap(r.w.vault[n], g) && !r.w.vault[n].suspended
  {
    Freshness(c, s, mvs);
    var r := After(AgentOf(c), s, mvs);
    FindFacts(r.p.mgr.core.grants, id);
    var n :| FreshAt(r.w, r.p.mgr.core, n);
    assert Presentable(AgentOf(c), r.p.mgr, a, id, now).0.value in r.p.mgr.core.grants;
  }

  // ---- crash safety ----

  /** The record reads back as grants and a suspension that reflect update k, or a newer full answer. */
  ghost predicate Reflects(c: Agent, w: World, d: Disk, k: nat) {
    && d.rec.Some? && k < |w.vault|
    && var m := Boot(c, d, []).mgr.core;
    && (forall g <- m.grants :: AsOf(w.vault, g, d.basis.full, k))
    && (w.vault[k].suspended && !m.suspended ==> d.basis.full.Some? && k <= d.basis.full.value)
  }

  lemma DiskReflects(ok: iset<Grant>, c: Agent, w: World, d: Disk, k: nat)
    requires Setting(ok, c) && d.rec.Some? && LeashOk(ok, c, w.vault, d.rec.value.leash, d.basis) && d.basis.applied <= w.ever
    requires k in d.basis.applied
    ensures Reflects(c, w, d, k)
  {
    BootKeeps(ok, c, w, d, []);
  }

  /**
   After every run, and so after a crash at any step: what a new process reads
   from the disk reflects every grant update acknowledged by any process, and
   an access session at least as late as every acknowledged session message.
   */
  lemma CrashSafety(c: Config, s: Sys, mvs: seq<Move>)
    requires c.limits.Valid() && Start(AgentOf(c), s) && CanRun(AgentOf(c), s, mvs)
    requires After(AgentOf(c), s, mvs).d.rec.Some?
    ensures var r := After(AgentOf(c), s, mvs);
            && (forall k <- r.d.acked :: Reflects(AgentOf(c), r.w, r.d, k))
            && r.d.accAcked <= r.d.acc <= |r.accHist| && 0 < r.d.acc && r.d.rec.value.access == r.accHist[r.d.acc - 1]
  {
    AnySetting(c);
    var ok := AcceptedBy(ParserFor(c));
    RunKeeps(ok, AgentOf(c), s, mvs);
    var r := After(AgentOf(c), s, mvs);
    forall k <- r.d.acked ensures Reflects(AgentOf(c), r.w, r.d, k) {
      DiskReflects(ok, AgentOf(c), r.w, r.d, k);
    }
  }

  // ---- restarting ----

  /** A batch collected again after a restart, before the new process lists, only narrows what it started with. */
  lemma ReappliedOnlyNarrows(c: Agent, s: Sys, batch: seq<Message>, clock: seq<Time>)
    requires CanMove(c, s, Restarts) && |clock| == |batch|
    requires Legal(c, Next(c, s, Restarts).p.mgr, Deliveries(batch, clock))
    ensures var m := Next(c, s, Restarts).p.mgr;
            !Widens(m.core, Run(c, m, Deliveries(batch, clock)).core) && !Run(c, m, Deliveries(batch, clock)).flow.listed
  {
    var m := Next(c, s, Restarts).p.mgr;
    var es := Deliveries(batch, clock);
    BeforeAnyList(c, m, es);
    NeverListed(c, m, es);
  }

  lemma {:induction false} NeverListed(c: Agent, m: Mgr, es: seq<Event>)
    requires Legal(c, m, es) && m.flow.lists == map[] && !m.flow.listed && forall e <- es :: !e.ListSent?
    ensures !Run(c, m, es).flow.listed
    decreases |es|
  {
    if es != [] {
      NeverListed(c, m, es[..|es| - 1]);
      BeforeAnyList(c, m, es[..|es| - 1]);
      ListedStep(c, Run(c, m, es[..|es| - 1]), es[|es| - 1]);
    }
  }

  /**
   A process that starts from what a reachable manager's Snapshot wrote has the
   same suspension and time, and the same grants, their lifetimes cut to whole
   seconds: so exactly the same grants if and only if all lifetimes are.
   */
  lemma RestartRestores(c: Config, m: Mgr)
    requires c.limits.Valid() && Inv(AcceptedBy(ParserFor(c)), AgentOf(c), m) && m.core.saved
    ensures Encodable(m.core.grants)
    ensures var b := Bound(AgentOf(c), Decode(ParserFor(c), Encode(Saved(m.core.grants, m.core.suspended, m.core.asOf)))).core;
            && b.grants == TruncatedAll(m.core.grants) && b.suspended == m.core.suspended && b.asOf == m.core.asOf
            && (b.grants == m.core.grants <==> forall g <- m.core.grants :: Whole(g))
  {
    var s := Saved(m.core.grants, m.core.suspended, m.core.asOf);
    forall g <- s.grants ensures Accepted(c, g) {
      var w :| ParserFor(c)(w) == Some(g);
      assert ParseGrant(c, w) == Some(g);
    }
    SavedRoundTrip(c, s);
    TruncatedSame(s.grants);
    var back := TruncatedAll(s.grants);
    forall g <- back ensures Mine(c.ik, g) {
      var i :| 0 <= i < |back| && back[i] == g;
      assert s.grants[i] in s.grants;
    }
    AllMine(c.ik, back);
  }

  lemma {:induction false} AllMine(ik: Key, gs: seq<Grant>)
    requires forall g <- gs :: Mine(ik, g)
    ensures ForMe(ik, gs) == gs
    decreases |gs|
  {
    if gs != [] {
      AllMine(ik, gs[..|gs| - 1]);
      assert gs == gs[..|gs| - 1] + [gs[|gs| - 1]];
    }
  }
}
