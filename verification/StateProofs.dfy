/** What the operations' relations mean: over every sequence of them, at every crash, and for what can still be opened. */
module StateProofs {
  import opened Common
  import opened StateSpec
  import opened StateStore

  /** A file the Store's key backs is loaded through its protector. */
  lemma BackedFileLoads(s: Sys, st: State, resolve: Resolver)
    requires Backs(s, st) && resolve(s.held.prot.name) == Some(s.held.prot)
    ensures AtPath(s.d).Some? && Decoded(AtPath(s.d).value, Some(resolve), s.keys) == Ok(st)
  {}

  // ---- sequences of operations ----

  datatype Op =
    | Create(p: Protector, st: State)
    | CreateReplace(p: Protector, st: State, resolve: Option<Resolver>, held: bool)
    | Save(st: State)
    | Load(resolve: Option<Resolver>, pt: State)
    | Wipe(resolve: Option<Resolver>, removed: bool)
    | WipeAll(ps: seq<Option<Protector>>, failed: set<nat>, removed: bool)

  /** op, taken in a, can end in b with r. */
  ghost predicate Takes(a: Sys, op: Op, r: Err, b: Sys) {
    match op
    case Create(p, st) => if r in {ErrClosed, ErrExists} then b == a else CreateRel(a, b, p, st, r)
    case CreateReplace(p, st, resolve, held) =>
      if a.d.path == Missing then (if r == ErrClosed then b == a else CreateRel(a, b, p, st, r))
      else ReplaceRel(a, b, p, st, resolve, held, r)
    case Save(st) => SaveRel(a, b, st, r)
    case Load(resolve, pt) => LoadRel(a, b, resolve, r, pt)
    case Wipe(resolve, removed) => WipeRel(a, b, resolve, r, removed)
    case WipeAll(ps, failed, removed) => WipeAllRel(a, b, ps, r, failed, removed)
  }

  /** The state last put in place or read. */
  function LastPut(op: Op, r: Err, last: Option<State>): Option<State> {
    match op
    case Create(_, st) => if r in {Nil, ErrNotDurable} then Some(st) else last
    case CreateReplace(_, st, _, _) => if r in {Nil, ErrNotDurable, ErrReplacedPartly} then Some(st) else last
    case Save(st) => if r in {Nil, ErrNotDurable} then Some(st) else last
    case Load(_, pt) => if r == Nil then Some(pt) else last
    case _ => last
  }

  /** If the Store holds a data key, the file at the path opens under it to the last state. */
  predicate HoldsLast(s: Sys, last: Option<State>) {
    s.held.Held? ==> last.Some? && Backs(s, last.value)
  }

  lemma SaveHolds(a: Sys, st: State, r: Err, b: Sys, last: Option<State>)
    requires HoldsLast(a, last) && SaveRel(a, b, st, r)
    ensures HoldsLast(b, LastPut(Save(st), r, last))
  {}

  lemma OpHolds(a: Sys, op: Op, r: Err, b: Sys, last: Option<State>)
    requires HoldsLast(a, last) && Takes(a, op, r, b)
    ensures HoldsLast(b, LastPut(op, r, last))
  {
    match op
    case Save(st) => SaveHolds(a, st, r, b, last);
    case _ =>
  }

  datatype Taken = Taken(op: Op, r: Err, to: Sys)

  function EndOf(a: Sys, ts: seq<Taken>): Sys { if ts == [] then a else ts[|ts| - 1].to }

  ghost predicate CanTake(a: Sys, ts: seq<Taken>)
    decreases |ts|
  {
    ts == [] || (var n := |ts| - 1; CanTake(a, ts[..n]) && Takes(EndOf(a, ts[..n]), ts[n].op, ts[n].r, ts[n].to))
  }

  function LastOf(ts: seq<Taken>): Option<State>
    decreases |ts|
  {
    if ts == [] then None else LastPut(ts[|ts| - 1].op, ts[|ts| - 1].r, LastOf(ts[..|ts| - 1]))
  }

  /**
   After any sequence of operations with any failures: if the Store holds a
   data key, the file at the path opens under it to the last state put in
   place, and a new process loads that state from it.
   */
  lemma {:induction false} KeyOpensLast(a: Sys, ts: seq<Taken>)
    requires a.held == NoKey && CanTake(a, ts)
    ensures HoldsLast(EndOf(a, ts), LastOf(ts))
    decreases |ts|
  {
    if ts != [] {
      var n := |ts| - 1;
      KeyOpensLast(a, ts[..n]);
      OpHolds(EndOf(a, ts[..n]), ts[n].op, ts[n].r, ts[n].to, LastOf(ts[..n]));
    }
  }

  lemma ReopensToLast(a: Sys, ts: seq<Taken>, resolve: Resolver)
    requires a.held == NoKey && CanTake(a, ts) && EndOf(a, ts).held.Held?
    requires resolve(EndOf(a, ts).held.prot.name) == Some(EndOf(a, ts).held.prot)
    ensures var e := EndOf(a, ts);
            AtPath(e.d).Some? && LastOf(ts).Some? && Decoded(AtPath(e.d).value, Some(resolve), e.keys) == Ok(LastOf(ts).value)
  {
    KeyOpensLast(a, ts);
    BackedFileLoads(EndOf(a, ts), LastOf(ts).value, resolve);
  }

  // ---- crashes ----

  /** What is at the path is what a crash leaves. */
  predicate Durable(d: Disk) { d.path.At? && d.after == {d.path} && d.path.inode in d.files && d.path.inode !in d.soft }

  /**
   A Save of a durable state cut by a crash at any step (seen: everything a
   crash would have left since before it) leaves a whole file that loads to the
   state before or to the new one.
   */
  lemma CutSaveLoads(a: Sys, last: State, st: State, seen: iset<Found>, x: Found, resolve: Resolver)
    requires Backs(a, last) && Durable(a.d) && resolve(a.held.prot.name) == Some(a.held.prot)
    requires forall y <- seen - Leaves(a.d) :: y.FoundFile? && y.content.Whole? && Opens(y.content.file, a.held, st)
    requires x in seen
    ensures x.FoundFile? && Decoded(x.content, Some(resolve), a.keys) in {Ok(last), Ok(st)}
  {}

  /** Save of a durable state: whatever a crash at any of its steps would leave loads to the state before or to the new one. */
  method WatchedSave(s: Store, last: State, st: State, ghost resolve: Resolver) returns (r: Err)
    requires s.Valid() && Backs(s.View(), last) && Durable(s.m.d) && resolve(s.held.prot.name) == Some(s.held.prot)
    modifies s.m`d, s.m`seen, s.m`unusedInode
    ensures s.Valid() && SaveRel(old(s.View()), s.View(), st, r)
    ensures forall x <- s.m.seen :: x.FoundFile? && Decoded(x.content, Some(resolve), s.m.keys) in {Ok(last), Ok(st)}
  {
    ghost var a := s.View();
    s.m.Watch();
    r := s.Save(st);
    forall x <- s.m.seen ensures x.FoundFile? && Decoded(x.content, Some(resolve), s.m.keys) in {Ok(last), Ok(st)} {
      CutSaveLoads(a, last, st, s.m.seen, x, resolve);
    }
  }

  /** x is what a crash left before, or loads to st through p. */
  ghost predicate AsBeforeOr(a: Sys, x: Found, keys: Keys, st: State, resolve: Resolver) {
    x in Leaves(a.d) || (x.FoundFile? && Decoded(x.content, Some(resolve), keys) == Ok(st))
  }

  /** Create: whatever a crash at any step would leave is what it would have left before, or loads to the new state. */
  method WatchedCreate(s: Store, p: Protector, st: State, ghost resolve: Resolver) returns (r: Err)
    requires s.Valid() && resolve(p.name) == Some(p)
    modifies s`held, s.m`d, s.m`seen, s.m`unusedInode, s.m`keys, s.m`unusedKey
    ensures s.Valid() && forall x <- s.m.seen :: AsBeforeOr(old(s.View()), x, s.m.keys, st, resolve)
  {
    ghost var a := s.View();
    s.m.Watch();
    r := s.Create(p, st);
    forall x <- s.m.seen ensures AsBeforeOr(a, x, s.m.keys, st, resolve) {
      if x !in Leaves(a.d) {
        NewLoads(x, p, st, s.m.keys, resolve);
      }
    }
  }

  /** So CreateReplace, where the old file is held open; where it is not, its bytes are overwritten first. */
  method WatchedReplace(s: Store, p: Protector, st: State, old_: Option<Resolver>, ghost resolve: Resolver) returns (r: Err)
    requires s.Valid() && s.m.renamesOverOpen && resolve(p.name) == Some(p)
    modifies s`held, s.m`d, s.m`seen, s.m`unusedInode, s.m`keys, s.m`unusedKey
    ensures s.Valid() && forall x <- s.m.seen :: AsBeforeOr(old(s.View()), x, s.m.keys, st, resolve)
  {
    ghost var a := s.View();
    s.m.Watch();
    r := s.CreateReplace(p, st, old_);
    forall x <- s.m.seen ensures AsBeforeOr(a, x, s.m.keys, st, resolve) {
      if x !in Leaves(a.d) {
        NewLoads(x, p, st, s.m.keys, resolve);
      }
    }
  }

  // ---- what an error of CreateReplace leaves ----

  /**
   An existing file that opened to was under its protector: no sentinel means
   it still does; ErrReplaceIncomplete, with a protector that has a key of its
   own, that nothing of it opens any more; the rest, that the new state does.
   */
  lemma ReplaceErrorsTell(a: Sys, b: Sys, p: Protector, st: State, resolve: Resolver, newResolve: Resolver, held: bool, r: Err, was: State)
    requires AtPath(a.d).Some? && Decoded(AtPath(a.d).value, Some(resolve), a.keys) == Ok(was)
    requires a.held.Held? ==> resolve(AtPath(a.d).value.file.header.prot) == Some(a.held.prot)
    requires ReplaceRel(a, b, p, st, Some(resolve), held, r) && newResolve(p.name) == Some(p)
    ensures r in {Failed, ErrClosed, ErrProtectorUnknown} ==>
              b.held == a.held && AtPath(b.d) == AtPath(a.d) && Decoded(AtPath(b.d).value, Some(resolve), b.keys) == Ok(was)
    ensures r == ErrReplaceIncomplete ==>
              b.held == NoKey && b.d.path == a.d.path
              && (!OldProtector(a, Some(resolve)).value.keyless ==> Decoded(AtPath(a.d).value, Some(resolve), b.keys) == Err(ErrUnwrap))
    ensures r in {Nil, ErrNotDurable, ErrReplacedPartly} ==>
              AtPath(b.d).Some? && Decoded(AtPath(b.d).value, Some(newResolve), b.keys) == Ok(st)
    ensures r !in {Nil, ErrNotDurable, ErrReplacedPartly} ==> b.d.path == a.d.path
    ensures r == ErrNotDurable && held ==> a.d.path.inode in b.d.files && b.d.files[a.d.path.inode] == AtPath(a.d).value
    ensures r == Nil ==> b.d.after == {b.d.path} && b.d.files[a.d.path.inode] == Zeros
  {}

  /** After a Wipe that returned nil nothing is left, and no copy of the file opens under a protector with a key of its own. */
  lemma WipedIsGone(a: Sys, b: Sys, resolve: Resolver, c: Content, was: State)
    requires Decoded(c, Some(resolve), a.keys) == Ok(was) && WipeRel(a, b, Some(resolve), Nil, true)
    requires OldProtector(a, Some(resolve)) == resolve(c.file.header.prot)
    ensures b.d.path == Missing && b.d.temps == {} && b.held == NoKey
    ensures !OldProtector(a, Some(resolve)).value.keyless ==> Decoded(c, Some(resolve), b.keys) == Err(ErrUnwrap)
  {}

  // ---- wiping and crashes ----

  /** After files were removed a crash can bring one back exactly when none was there before, a flush had failed for good, and one could come back already. */
  lemma ClearedExactly(a: Disk, b: Disk)
    requires DiskOk(a) && DiskOk(b) && Cleared(a, b)
    ensures Leaves(b) == iset{FoundNothing} <==> !(a.path == Missing && a.failed) || a.after == {Missing}
  {
    assert FoundNothing in Leaves(b) by {
      assert Missing in b.after && Shows(b, Missing, FoundNothing);
    }
    if n: Node :| n in b.after && n != Missing {
      var x := if n.At? then FoundFile(b.files[n.inode]) else FoundOther;
      assert Shows(b, n, x) && x in Leaves(b);
    }
  }

  /** A Wipe that returns nil after any sequence of operations: no crash brings the file back. */
  lemma NilWipeLasts(a: Sys, ts: seq<Taken>, resolve: Option<Resolver>, b: Sys, x: Found)
    requires a.held == NoKey && CanTake(a, ts) && WipeRel(EndOf(a, ts), b, resolve, Nil, true)
    ensures MayLeave(b.d, x) <==> x == FoundNothing
  {
    KeyOpensLast(a, ts);
    assert EndOf(a, ts).d.path.At?;
    assert b.d.after == {Missing};
    if x == FoundNothing {
      assert Missing in b.d.after && Shows(b.d, Missing, x);
    }
  }

  /** A WipeAll whose flush fails for good and that is called again returns nil, and a crash may bring the zeroed file back. */
  lemma RetriedWipeAll(a: Sys) returns (b: Sys, c: Sys)
    requires DiskOk(a.d) && a.d.path == At(0) && a.d.after == {At(0)} && a.d.temps == {} && !a.d.failed
    ensures WipeAllRel(a, b, [], Failed, {}, false) && WipeAllRel(b, c, [], Nil, {}, true)
    ensures MayLeave(c.d, FoundFile(Zeros))
  {
    b := Sys(a.d.(files := a.d.files[0 := Zeros], soft := a.d.soft - {0}, path := Missing, after := {At(0), Missing}, failed := true), a.keys, NoKey);
    c := b;
    assert At(0) in c.d.after && Shows(c.d, At(0), FoundFile(Zeros));
  }
}
