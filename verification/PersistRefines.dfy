/** persist of the vault connection makes the moves of the protocol, in their order, and saves the record they make. */
module PersistRefines {
  import opened Common
  import opened Grants
  import opened LeashSpec
  import opened LeashManager
  import opened Protocol
  import opened ProtocolProofs
  import opened VaultConn

  /** Collecting a batch and applying its first k messages. */
  function Applies(batch: seq<Letter>, clock: seq<Time>, k: nat): seq<Move>
    requires k <= |clock|
  {
    if k == 0 then [Collects(batch)] else Applies(batch, clock, k - 1) + [AppliesNext(clock[k - 1])]
  }

  /** The manager after the first k messages. */
  predicate HasApplied(c: Agent, s: Sys, r: Sys, batch: seq<Letter>, clock: seq<Time>, k: nat)
    requires k <= |batch| == |clock|
  {
    var es := Deliveries(Messages(batch), clock)[..k];
    && r.p.pc == Applying(batch[k..]) && r.p.oSaved == s.p.oSaved && r.p.access == AccessFrom(s.p.access, Messages(batch))
    && Legal(c, s.p.mgr, es) && r.p.mgr == Run(c, s.p.mgr, es)
  }

  lemma {:induction false} AppliesRun(c: Agent, s: Sys, batch: seq<Letter>, clock: seq<Time>, k: nat)
    requires CanMove(c, s, Collects(batch)) && !HasUnlink(Messages(batch))
    requires k <= |batch| == |clock| && forall t <- clock :: t != 0
    ensures CanRun(c, s, Applies(batch, clock, k)) && HasApplied(c, s, After(c, s, Applies(batch, clock, k)), batch, clock, k)
  {
    var es := Deliveries(Messages(batch), clock);
    if k == 0 {
      assert [] + [Collects(batch)] == [Collects(batch)];
      RunSnoc(c, s, [], Collects(batch));
      assert es[..0] == [] && batch[0..] == batch;
    } else {
      AppliesRun(c, s, batch, clock, k - 1);
      var mvs := Applies(batch, clock, k - 1);
      var r := After(c, s, mvs);
      assert clock[k - 1] in clock;
      assert batch[k - 1..][0] == batch[k - 1] && batch[k - 1..][1..] == batch[k..];
      RunSnoc(c, s, mvs, AppliesNext(clock[k - 1]));
      assert es[..k - 1] + [es[k - 1]] == es[..k];
      LegalAppend(c, s.p.mgr, es[..k - 1], es[k - 1]);
    }
  }

  /** Once the batch is applied, the record is taken: the manager's member, then the session. */
  lemma TakesRecord(c: Agent, r: Sys)
    requires r.p.pc == Applying([]) && Encodable(r.p.mgr.core.grants)
    ensures CanMove(c, r, TakesLeash) && CanMove(c, Next(c, r, TakesLeash), TakesAccess)
    ensures var e := Next(c, Next(c, r, TakesLeash), TakesAccess);
            e.p.pc.Ready? && e.p.pc.rec == RecordOf(r.p.access, r.p.mgr, r.p.oSaved)
  {}

  /** The moves for a batch. */
  function PersistMoves(batch: seq<Letter>, clock: seq<Time>): seq<Move>
    requires |batch| == |clock|
  {
    Applies(batch, clock, |batch|) + [TakesLeash] + [TakesAccess]
  }

  /**
   For every batch without device.unlinked: the protocol's moves for it can be
   made one after the other, and the record they are about to save is the one
   ApplyAndSave writes, of the session and the manager it computes.
   */
  lemma PersistMakesTheMoves(c: Agent, s: Sys, batch: seq<Letter>, clock: seq<Time>)
    requires CanMove(c, s, Collects(batch)) && !HasUnlink(Messages(batch)) && |clock| == |batch| && forall t <- clock :: t != 0
    requires CanWrite(c) && Sane(c, s.p.mgr)
    ensures Legal(c, s.p.mgr, Deliveries(Messages(batch), clock)) && CanRun(c, s, PersistMoves(batch, clock))
    ensures var m := Run(c, s.p.mgr, Deliveries(Messages(batch), clock));
            && Encodable(m.core.grants) && After(c, s, PersistMoves(batch, clock)).p.pc.Ready?
            && After(c, s, PersistMoves(batch, clock)).p.pc.rec == RecordOf(AccessFrom(s.p.access, Messages(batch)), m, s.p.oSaved)
  {
    var es := Deliveries(Messages(batch), clock);
    var mvs := Applies(batch, clock, |batch|);
    AppliesRun(c, s, batch, clock, |batch|);
    assert es[..|batch|] == es && batch[|batch|..] == [];
    RunCanBeWritten(c, s.p.mgr, es);
    TakesRecord(c, After(c, s, mvs));
    RunSnoc(c, s, mvs, TakesLeash);
    RunSnoc(c, s, mvs + [TakesLeash], TakesAccess);
  }
}
