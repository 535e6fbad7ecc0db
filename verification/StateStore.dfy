/**
 The Store of internal/state/state.go over a file system and protectors any of
 whose steps may fail, in any way the contracts of Machine allow.
 */
module StateStore {
  import opened Common
  import opened StateSpec

  ghost function Anything(): iset<Found> { iset x: Found | x == FoundNothing || x == FoundOther || x.FoundFile? }

  /** What is outside the process: the state directory and the protectors' keys. */
  class Machine {
    const posix: bool
    /** How often a failed flush is retried; a failed fsync is final on POSIX. */
    const flushRetries: nat
    /** Whether this file system can rename over a file held open. */
    const renamesOverOpen: bool

    var d: Disk
    var keys: Keys
    /** No inode, and no key of a protector or of a file, this large was ever used. */
    var unusedInode: nat
    var unusedKey: nat
    /** Everything that a crash at some step so far would have left at the path. */
    ghost var seen: iset<Found>

    ghost predicate Valid() reads this {
      && DiskOk(d) && Leaves(d) <= seen && (posix ==> flushRetries == 0) && (d.failed ==> posix)
      && (forall i <- d.files :: i < unusedInode) && (forall id <- keys :: forall u <- keys[id] :: u < unusedKey)
      && forall i <- d.files :: Used(d.files[i], unusedKey)
    }

    constructor (posix: bool, flushRetries: nat, renamesOverOpen: bool, d: Disk, keys: Keys, unusedInode: nat, unusedKey: nat)
      requires DiskOk(d) && (posix ==> flushRetries == 0) && (d.failed ==> posix)
      requires (forall i <- d.files :: i < unusedInode) && forall id <- keys :: forall u <- keys[id] :: u < unusedKey
      requires forall i <- d.files :: Used(d.files[i], unusedKey)
      ensures Valid() && this.d == d && this.keys == keys && seen == Leaves(d)
    {
      this.posix, this.flushRetries, this.renamesOverOpen := posix, flushRetries, renamesOverOpen;
      this.d, this.keys, this.unusedInode, this.unusedKey, seen := d, keys, unusedInode, unusedKey, Leaves(d);
    }

    /** From here on, seen is what a crash would leave from here on. */
    ghost method Watch()
      requires Valid()
      modifies this`seen
      ensures Valid() && seen == Leaves(d)
    {
      seen := Leaves(d);
    }

    /** A new file under a temporary name, or none. */
    method CreateTemp() returns (t: Option<nat>)
      requires Valid()
      modifies this`d, this`unusedInode
      ensures Valid() && Untouched(old(d), d)
      ensures t.None? ==> d == old(d)
      ensures t.Some? ==> t.value !in old(d).files && d == old(d).(files := old(d).files[t.value := Junk],
                                                                  soft := old(d).soft + {t.value}, temps := old(d).temps + {t.value})
    {
      if * {
        return None;
      }
      t := Some(unusedInode);
      d := d.(files := d.files[unusedInode := Junk], soft := d.soft + {unusedInode}, temps := d.temps + {unusedInode});
      unusedInode := unusedInode + 1;
      UntouchedLeaves(old(d), d);
    }

    /** Writes to a temporary file, whole or, failing, in part. */
    method WriteTemp(t: nat, f: StateFile) returns (ok: bool)
      requires Valid() && t in d.temps && Used(Whole(f), unusedKey)
      modifies this`d
      ensures Valid()
      ensures d == old(d).(files := old(d).files[t := if ok then Whole(f) else Junk], soft := old(d).soft + {t})
    {
      ok := *;
      d := d.(files := d.files[t := if ok then Whole(f) else Junk], soft := d.soft + {t});
      OtherFile(old(d), d, t);
    }

    method SyncTemp(t: nat) returns (ok: bool)
      requires Valid() && t in d.temps
      modifies this`d
      ensures Valid() && d == if ok then old(d).(soft := old(d).soft - {t}) else old(d)
    {
      ok := *;
      if ok {
        d := d.(soft := d.soft - {t});
        OtherFile(old(d), d, t);
      }
    }

    /** os.Remove of a temporary name, its error ignored. */
    method RemoveTemp(t: nat) returns (ok: bool)
      requires Valid()
      modifies this`d
      ensures Valid() && d == if ok then old(d).(temps := old(d).temps - {t}) else old(d)
    {
      ok := *;
      if ok {
        d := d.(temps := d.temps - {t});
        UntouchedLeaves(old(d), d);
      }
    }

    /** Atomically gives the temporary file the path's name. After a crash it may be there or not. */
    method Rename(t: nat) returns (ok: bool)
      requires Valid() && t in d.temps
      modifies this`d, this`seen
      ensures Valid()
      ensures d == if ok then old(d).(path := At(t), after := old(d).after + {At(t)}, failed := false, temps := old(d).temps - {t}) else old(d)
      ensures seen <= old(seen) + if t in old(d).soft then Anything() else iset{FoundFile(old(d).files[t])}
    {
      ok := *;
      if ok {
        d := d.(path := At(t), after := d.after + {At(t)}, failed := false, temps := d.temps - {t});
        seen := seen + Leaves(d);
        OneMoreName(old(d), d, At(t));
      }
    }

    /**
     makeDurable or syncDir: the name as it is now survives a crash. On POSIX
     a flush that failed did so for good: a later one succeeds and does nothing.
     */
    method Flush() returns (ok: bool)
      requires Valid()
      modifies this`d
      ensures Valid() && Extends(old(d), d) && d.path == old(d).path && d.temps == old(d).temps
      ensures d.files == old(d).files && d.soft == old(d).soft
      ensures d.after == if ok && !old(d).failed then {d.path} else old(d).after
      ensures d.failed == (old(d).failed || (!ok && posix))
    {
      ok := *;
      if !ok {
        d := d.(failed := d.failed || posix);
      } else if !d.failed {
        d := d.(after := {d.path});
      }
      FewerNames(old(d), d);
    }

    /** Zeros over a file's bytes, flushed; failing, any part of that. */
    method Overwrite(i: nat) returns (ok: bool)
      requires Valid() && i in d.files
      modifies this`d, this`seen
      ensures Valid() && Same(old(d), d, i) && d.files[i] in {old(d).files[i], Junk, Zeros}
      ensures ok ==> d.files[i] == Zeros && i !in d.soft
      ensures At(i) !in old(d).after ==> seen == old(seen)
    {
      if * {
        return false;
      }
      ok := *;
      var c: Content := *;
      d := d.(files := d.files[i := if ok then Zeros else if c.Zeros? then Zeros else Junk],
              soft := if ok then d.soft - {i} else d.soft + {i});
      if At(i) in d.after {
        seen := Anything();
      } else {
        OtherFile(old(d), d, i);
      }
    }

    /** os.Remove of the path; a file that is not there counts as removed. */
    method RemovePath() returns (ok: bool)
      requires Valid()
      modifies this`d, this`seen
      ensures Valid()
      ensures d == if ok && old(d).path != Missing then old(d).(path := Missing, after := old(d).after + {Missing}, failed := false) else old(d)
    {
      ok := *;
      if ok && d.path != Missing {
        d := d.(path := Missing, after := d.after + {Missing}, failed := false);
        seen := seen + Leaves(d);
      }
    }

    /** A data key from the system's randomness. */
    method NewDataKey() returns (key: nat)
      requires Valid()
      modifies this`unusedKey
      ensures Valid() && key == old(unusedKey) < unusedKey
    {
      key := unusedKey;
      unusedKey := unusedKey + 1;
    }

    /** Protector.Wrap: under a live key, with keyed protectors a new one. */
    method Wrap(p: Protector, key: nat) returns (w: Option<Wrapped>)
      requires Valid()
      modifies this`keys, this`unusedKey
      ensures Valid() && Alive(old(keys), p.id) <= Alive(keys, p.id)
      ensures forall u <- Alive(keys, p.id) - Alive(old(keys), p.id) :: old(unusedKey) <= u
      ensures old(unusedKey) <= unusedKey
      ensures forall id :: id != p.id ==> Alive(keys, id) == Alive(old(keys), id)
      ensures w.Some? ==> w.value.holder == p.id && w.value.key == key && w.value.under in Alive(keys, p.id)
    {
      var fails: bool := *;
      if fails {
        return None;
      }
      keys := keys[p.id := Alive(keys, p.id) + {unusedKey}];
      w := Some(Wrapped(p.id, unusedKey, key));
      unusedKey := unusedKey + 1;
    }

    /** Protector.Unwrap: never a wrong key. */
    method Unwrap(p: Protector, w: Wrapped) returns (key: Option<nat>)
      ensures key.Some? ==> w.holder == p.id && w.under in Alive(keys, p.id) && key.value == w.key
    {
      var fails: bool := *;
      key := if fails || w.holder != p.id || w.under !in Alive(keys, p.id) then None else Some(w.key);
    }

    /** Protector.Wipe, all or nothing. */
    method WipeKeys(p: Protector) returns (ok: bool)
      requires Valid()
      modifies this`keys
      ensures Valid() && keys == if ok && !p.keyless then old(keys)[p.id := {}] else old(keys)
    {
      ok := *;
      if ok && !p.keyless {
        keys := keys[p.id := {}];
      }
    }
  }

  /** A Store: one state directory, locked while open. */
  class Store {
    const m: Machine
    var open: bool
    var held: Held

    function View(): Sys reads this, m { Sys(m.d, m.keys, held) }

    ghost predicate Valid() reads this, m { m.Valid() && (held.Held? ==> held.key < m.unusedKey) }

    constructor (m: Machine)
      requires m.Valid()
      ensures Valid() && this.m == m && open && held == NoKey
    {
      this.m, open, held := m, true, NoKey;
    }

    /** Open: temporary files a crash left are removed, or it is not opened. */
    static method Open(m: Machine) returns (s: Option<Store>)
      requires m.Valid()
      modifies m`d, m`seen
      ensures m.Valid() && m.seen == old(m.seen) && m.d.path == old(m.d).path && m.d.after == old(m.d).after
      ensures s.Some? ==> fresh(s.value) && s.value.Valid() && s.value.m == m && s.value.open && s.value.held == NoKey && m.d.temps == {}
    {
      var t := new Store(m);
      var clean := t.RemoveTemps();
      if !clean {
        t.Close();
        return None;
      }
      return Some(t);
    }

    /** Close forgets the keys. */
    method Close()
      modifies this`open, this`held
      ensures !open && held == NoKey
    {
      open, held := false, NoKey;
    }

    method Exists() returns (r: Option<bool>)
      ensures r.Some? ==> r.value == (m.d.path != Missing)
    {
      var fails: bool := *;
      r := if fails then None else Some(m.d.path != Missing);
    }

    // ---- writing ----

    /** writeAtomic: a crash at any step leaves what was there or the whole new file. */
    method WriteAtomic(f: StateFile) returns (r: Err)
      requires m.Valid() && f.body.key < m.unusedKey
      modifies m`d, m`seen, m`unusedInode
      ensures m.Valid() && WriteRel(old(m.d), m.d, f, r)
      ensures m.seen <= old(m.seen) + iset{FoundFile(Whole(f))}
    {
      ghost var a := m.d;
      var t := m.CreateTemp();
      if t.None? {
        return Failed;
      }
      var ok := m.WriteTemp(t.value, f);
      if ok {
        ok := m.SyncTemp(t.value);
      }
      if ok {
        ok := *;
      }
      if ok {
        ok := m.Rename(t.value);
      }
      if !ok {
        var _ := m.RemoveTemp(t.value);
        assert Untouched(a, m.d);
        return Failed;
      }
      ok := m.Flush();
      r := if ok then Nil else ErrNotDurable;
    }

    method Save(st: State) returns (r: Err)
      requires Valid()
      modifies m`d, m`seen, m`unusedInode
      ensures Valid() && SaveRel(old(View()), View(), st, r)
      ensures forall x <- m.seen - old(m.seen) :: x.FoundFile? && x.content.Whole? && Opens(x.content.file, held, st)
    {
      if !open {
        return ErrClosed;
      }
      if held == NoKey {
        return ErrNotLoaded;
      }
      var nonce: nat := *;
      var encodes: bool := *;
      if !encodes {
        return Failed;
      }
      r := WriteAtomic(FileFor(held, nonce, st));
    }
  
    /** create: a new data key wrapped by p. */
    method CreateFile(p: Protector, st: State) returns (r: Err)
      requires Valid()
      modifies this`held, m`d, m`seen, m`unusedInode, m`keys, m`unusedKey
      ensures Valid() && CreateRel(old(View()), View(), p, st, r)
      ensures r != Failed ==> old(m.unusedKey) <= held.key
      ensures forall u <- Alive(m.keys, p.id) - Alive(old(m.keys), p.id) :: old(m.unusedKey) <= u
      ensures forall x <- m.seen - old(m.seen) :: IsNew(x, p, st, m.keys)
    {
      var nonce: nat, now: Time := *, *;
      var key := m.NewDataKey();
      var w := m.Wrap(p, key);
      if w.None? {
        return Failed;
      }
      var h := Held(p, w.value, key, now);
      var encodes: bool := *;
      if !encodes {
        return Failed;
      }
      r := WriteAtomic(FileFor(h, nonce, st));
      if r == Failed {
        return;
      }
      held := h;
    }

    method Create(p: Protector, st: State) returns (r: Err)
      requires Valid()
      modifies this`held, m`d, m`seen, m`unusedInode, m`keys, m`unusedKey
      ensures Valid()
      ensures r in {ErrClosed, ErrExists} ==> View() == old(View())
      ensures r !in {ErrClosed, ErrExists} ==> CreateRel(old(View()), View(), p, st, r)
      ensures r in {Nil, ErrNotDurable} ==> old(m.d).path == Missing
      ensures r == ErrExists ==> old(m.d).path != Missing
      ensures old(open) ==> r != ErrClosed
      ensures forall x <- m.seen - old(m.seen) :: IsNew(x, p, st, m.keys)
    {
      if !open {
        return ErrClosed;
      }
      var there := Exists();
      if there.None? {
        return Failed;
      }
      if there.value {
        return ErrExists;
      }
      r := CreateFile(p, st);
    }

    // ---- wiping ----

    method GetOldProtector(resolve: Option<Resolver>) returns (p: Option<Protector>)
      ensures p.Some? ==> p == OldProtector(View(), resolve)
      ensures p.None? ==> held == NoKey
    {
      var readable: bool := *;
      p := if held.Held? || readable then OldProtector(View(), resolve) else None;
    }

    /** overwriteAndRemove of a temporary name. */
    method BlankTemp(t: nat) returns (done: bool)
      requires m.Valid() && t in m.d.temps
      modifies m`d, m`seen
      ensures m.Valid() && m.seen == old(m.seen) && m.d.files.Keys == old(m.d).files.Keys
      ensures m.d.path == old(m.d).path && m.d.after == old(m.d).after && m.d.failed == old(m.d).failed
      ensures KeptBut(old(m.d), m.d, {t}) && m.d.temps in {old(m.d).temps, old(m.d).temps - {t}}
      ensures done ==> Blank(m.d, t) && m.d.temps == old(m.d).temps - {t}
    {
      done := *;
      if done {
        done := m.Overwrite(t);
        SameKeeps(old(m.d), m.d, t);
      }
      if done {
        done := m.RemoveTemp(t);
      }
    }

    /** overwriteAndRemove for each temporary name. */
    method RemoveTemps() returns (ok: bool)
      requires m.Valid()
      modifies m`d, m`seen
      ensures m.Valid() && m.seen == old(m.seen)
      ensures m.d.path == old(m.d).path && m.d.after == old(m.d).after && m.d.failed == old(m.d).failed
      ensures m.d.files.Keys == old(m.d).files.Keys && KeptBut(old(m.d), m.d, old(m.d).temps)
      ensures ok ==> m.d.temps == {} && forall t <- old(m.d).temps :: Blank(m.d, t)
    {
      ok := *;
      if !ok {
        return;
      }
      var left := m.d.temps;
      while left != {}
        invariant m.Valid() && m.seen == old(m.seen) && m.d.files.Keys == old(m.d).files.Keys && left <= m.d.temps && (ok ==> m.d.temps == left)
        invariant m.d.path == old(m.d).path && m.d.after == old(m.d).after && m.d.failed == old(m.d).failed
        invariant left <= old(m.d).temps && KeptBut(old(m.d), m.d, old(m.d).temps)
        invariant ok ==> forall t <- old(m.d).temps - left :: Blank(m.d, t)
      {
        var t :| t in left;
        left := left - {t};
        ghost var was := m.d;
        var done := BlankTemp(t);
        BlankNext(old(m.d).temps - left - {t}, was, m.d, t);
        ok := ok && done;
      }
    }

    /** removeFiles. */
    method RemoveFiles() returns (ok: bool)
      requires m.Valid()
      modifies m`d, m`seen
      ensures m.Valid() && (ok ==> Cleared(old(m.d), m.d)) && SameOrGone(old(m.d), m.d)
    {
      ok := true;
      if m.d.path.At? {
        ok := *;
        if ok {
          ok := m.Overwrite(m.d.path.inode);
        }
      }
      if ok {
        ok := m.RemovePath();
      }
      var temps := RemoveTemps();
      var flushed := m.Flush();
      ok := ok && temps && flushed;
    }

    /** removed: the error, if any, is not of the files. */
    method Wipe(resolve: Option<Resolver>) returns (r: Err, removed: bool)
      requires Valid()
      modifies this`held, m`d, m`seen, m`keys
      ensures Valid() && WipeRel(old(View()), View(), resolve, r, removed)
    {
      removed := false;
      if !open {
        return ErrClosed, removed;
      }
      var p := GetOldProtector(resolve);
      if p.None? {
        var there := Exists();
        if there.None? {
          return Failed, removed;
        }
        if !there.value && m.d.temps == {} {
          return ErrNothingToWipe, removed;
        }
      } else {
        var wiped := m.WipeKeys(p.value);
        if !wiped {
          return Failed, removed;
        }
      }
      removed := RemoveFiles();
      held := NoKey;
      r := if p.None? then ErrProtectorUnknown else if removed then Nil else Failed;
    }

    /** failed: the protectors whose errors are among those returned; removed: no error is of the files. */
    method WipeAll(ps: seq<Option<Protector>>) returns (r: Err, failed: set<nat>, removed: bool)
      requires Valid()
      modifies this`held, m`d, m`seen, m`keys
      ensures Valid() && WipeAllRel(old(View()), View(), ps, r, failed, removed)
      ensures old(open) ==> r != ErrClosed
    {
      failed, removed := {}, false;
      if !open {
        return ErrClosed, failed, removed;
      }
      for i := 0 to |ps|
        invariant Valid() && m.d == old(m.d)
        invariant forall j <- failed :: j < i && ps[j].Some?
        invariant KeysLeft(old(m.keys), m.keys, ps[..i], failed)
      {
        ghost var was, before := failed, m.keys;
        var wiped := true;
        if ps[i].Some? {
          wiped := m.WipeKeys(ps[i].value);
          if !wiped {
            failed := failed + {i};
          }
        }
        KeysNext(old(m.keys), before, m.keys, ps, was, failed, i);
      }
      assert ps[..|ps|] == ps;
      removed := RemoveFiles();
      held := NoKey;
      r := if failed == {} && removed then Nil else Failed;
    }

    // ---- loading and replacing ----

    method Load(resolve: Option<Resolver>) returns (r: Err, pt: State)
      requires Valid()
      modifies this`held
      ensures Valid() && LoadRel(old(View()), View(), resolve, r, pt)
    {
      pt := NoRecord(0);
      if !open {
        return ErrClosed, pt;
      }
      var readable: bool := *;
      if !readable || m.d.path == NotRegular {
        return Failed, pt;
      }
      if m.d.path == Missing {
        return ErrNotFound, pt;
      }
      var c := m.d.files[m.d.path.inode];
      if !c.Whole? {
        return ErrFormat, pt;
      }
      var h, body := c.file.header, c.file.body;
      if resolve.None? || resolve.value(h.prot).None? || resolve.value(h.prot).value.name != h.prot {
        return ErrUnknownProtector, pt;
      }
      var p := resolve.value(h.prot).value;
      var key := m.Unwrap(p, h.wrapped);
      if key.None? {
        return ErrUnwrap, pt;
      }
      if !(body.key == key.value && body.nonce == h.nonce && body.ad == h) {
        return ErrDecrypt, pt;
      }
      held := Held(p, h.wrapped, key.value, h.createdAt);
      r, pt := Nil, body.pt;
    }

    method RetryDurable() returns (ok: bool)
      requires m.Valid()
      modifies m`d
      ensures m.Valid() && Extends(old(m.d), m.d) && m.d.path == old(m.d).path
      ensures ok ==> m.d.after == {m.d.path}
      ensures !ok ==> m.d.after == old(m.d).after
    {
      for i := 0 to m.flushRetries
        invariant m.Valid() && Extends(old(m.d), m.d) && m.d.path == old(m.d).path && m.d.after == old(m.d).after
      {
        ok := m.Flush();
        if ok {
          return;
        }
      }
      ok := false;
    }

    method CreateReplace(p: Protector, st: State, resolve: Option<Resolver>) returns (r: Err)
      requires Valid()
      modifies this`held, m`d, m`seen, m`unusedInode, m`keys, m`unusedKey
      ensures Valid()
      ensures old(m.d).path == Missing ==> r == ErrClosed || CreateRel(old(View()), View(), p, st, r)
      ensures old(m.d).path != Missing ==> ReplaceRel(old(View()), View(), p, st, resolve, m.renamesOverOpen, r)
      ensures m.renamesOverOpen ==> forall x <- m.seen - old(m.seen) :: IsNew(x, p, st, m.keys)
    {
      if !open {
        return ErrClosed;
      }
      var there := Exists();
      if there.None? {
        return Failed;
      }
      if !there.value {
        r := CreateFile(p, st);
        return;
      }
      var oldP := GetOldProtector(resolve);
      if oldP.None? {
        return ErrProtectorUnknown;
      }
      var probed: bool := *;
      if !probed {
        return Failed;
      }
      var wiped := m.WipeKeys(oldP.value);
      if !wiped {
        return Failed;
      }
      held := NoKey;
      ghost var before, unused := m.keys, m.unusedKey;
      r := TakeOver(p, st);
      StaysGone(old(m.keys), before, m.keys, unused, p, oldP.value);
    }

    /** CreateReplace once the old key is wiped. */
    method TakeOver(p: Protector, st: State) returns (r: Err)
      requires Valid() && held == NoKey && m.d.path != Missing
      modifies this`held, m`d, m`seen, m`unusedInode, m`keys, m`unusedKey
      ensures Valid() && TakeRel(old(View()), View(), p, st, m.renamesOverOpen, r)
      ensures forall id :: id != p.id ==> Alive(m.keys, id) == Alive(old(m.keys), id)
      ensures forall u <- Alive(m.keys, p.id) - Alive(old(m.keys), p.id) :: old(m.unusedKey) <= u
      ensures m.renamesOverOpen ==> forall x <- m.seen - old(m.seen) :: IsNew(x, p, st, m.keys)
      ensures r != ErrReplaceIncomplete ==> old(m.unusedKey) <= held.key
    {
      var old_: Option<nat> := None;
      if m.d.path.At? {
        var opens: bool := *;
        if !opens {
          return ErrReplaceIncomplete;
        }
        old_ := Some(m.d.path.inode);
      }
      if old_.Some? && !m.renamesOverOpen {
        var ok := m.Overwrite(old_.value);
        old_ := None;
        if !ok {
          return ErrReplaceIncomplete;
        }
      }
      r := PutInPlace(p, st, old_);
    }

    /** CreateReplace from the new file's creation on; was: the old file, held open. */
    method PutInPlace(p: Protector, st: State, was: Option<nat>) returns (r: Err)
      requires Valid() && held == NoKey && (was.Some? ==> m.d.path == At(was.value))
      modifies this`held, m`d, m`seen, m`unusedInode, m`keys, m`unusedKey
      ensures Valid() && PutRel(old(View()), View(), p, st, was, r)
      ensures forall id :: id != p.id ==> Alive(m.keys, id) == Alive(old(m.keys), id)
      ensures forall u <- Alive(m.keys, p.id) - Alive(old(m.keys), p.id) :: old(m.unusedKey) <= u
      ensures forall x <- m.seen - old(m.seen) :: IsNew(x, p, st, m.keys)
      ensures r != ErrReplaceIncomplete ==> old(m.unusedKey) <= held.key
    {
      r := CreateFile(p, st);
      if r == Failed {
        return ErrReplaceIncomplete;
      }
      if r == ErrNotDurable {
        if was.None? {
          return;
        }
        var flushed := RetryDurable();
        if !flushed {
          return ErrNotDurable;
        }
      }
      if was.None? {
        return Nil;
      }
      var ok := m.Overwrite(was.value);
      if ok {
        ok := *;
      }
      r := if ok then Nil else ErrReplacedPartly;
    }
  }

  /** Where a replace ends once the old key is wiped. hold: the old file was held open. */
  ghost predicate TakeRel(a: Sys, b: Sys, p: Protector, st: State, hold: bool, r: Err) {
    && r in {Nil, ErrReplaceIncomplete, ErrNotDurable, ErrReplacedPartly}
    && (r == ErrReplaceIncomplete ==> b.d.path == a.d.path && b.held == NoKey && (hold ==> Untouched(a.d, b.d)))
    && (r != ErrReplaceIncomplete ==> Backs(b, st) && b.held.prot == p && b.d.path.inode !in a.d.files && b.d.path in b.d.after)
    && (r == ErrNotDurable && hold ==> Extends(a.d, b.d))
    && (r == Nil || r == ErrReplacedPartly ==> b.d.after == {b.d.path})
    && (r == Nil && a.d.path.At? ==>
          a.d.path.inode in b.d.files && b.d.files[a.d.path.inode] == Zeros && a.d.path.inode !in b.d.soft)
  }

  /** Where PutInPlace ends: the old bytes are gone only once the new name is flushed. */
  ghost predicate PutRel(a: Sys, b: Sys, p: Protector, st: State, was: Option<nat>, r: Err) {
    && (r == ErrReplaceIncomplete ==> Untouched(a.d, b.d) && b.held == NoKey)
    && (r != ErrReplaceIncomplete ==>
          && r in {Nil, ErrNotDurable, ErrReplacedPartly}
          && Backs(b, st) && b.held.prot == p && b.d.path.inode !in a.d.files && b.d.path in b.d.after)
    && (r == ErrNotDurable || (was.None? && r == Nil) ==> Extends(a.d, b.d))
    && (r == Nil || r == ErrReplacedPartly ==> b.d.after == {b.d.path})
    && (r == Nil && was.Some? ==> was.value in b.d.files && b.d.files[was.value] == Zeros && was.value !in b.d.soft)
    && (r == ErrReplacedPartly ==> was.Some?)
  }

  lemma DeletesNext(ps: seq<Option<Protector>>, was: set<nat>, failed: set<nat>, i: nat, id: nat)
    requires i < |ps| && (forall j <- was :: j < i) && failed - {i} == was
    ensures Deletes(ps[..i + 1], failed, id)
            <==> Deletes(ps[..i], was, id) || (i !in failed && ps[i].Some? && !ps[i].value.keyless && ps[i].value.id == id)
  {
    assert ps[..i + 1][i] == ps[i] && forall j | 0 <= j < i :: ps[..i + 1][j] == ps[..i][j] && (j in failed <==> j in was);
  }

  lemma KeysNext(a: Keys, before: Keys, b: Keys, ps: seq<Option<Protector>>, was: set<nat>, failed: set<nat>, i: nat)
    requires i < |ps| && (forall j <- was :: j < i) && failed == (if i in failed then was + {i} else was)
    requires KeysLeft(a, before, ps[..i], was)
    requires b == if i !in failed && ps[i].Some? && !ps[i].value.keyless then before[ps[i].value.id := {}] else before
    ensures KeysLeft(a, b, ps[..i + 1], failed)
  {
    forall id: nat ensures Alive(b, id) == if Deletes(ps[..i + 1], failed, id) then {} else Alive(a, id) {
      DeletesNext(ps, was, failed, i, id);
    }
  }

  /** Files not in these keep their bytes, and are flushed if they were. */
  predicate KeptBut(a: Disk, b: Disk, these: set<nat>) {
    forall i <- a.files | i !in these :: i in b.files && b.files[i] == a.files[i] && (i in b.soft ==> i in a.soft)
  }

  lemma SameKeeps(a: Disk, b: Disk, i: nat)
    requires Same(a, b, i)
    ensures KeptBut(a, b, {i})
  {
    forall j | j != i ensures j in b.soft <==> j in a.soft {
      assert (j in b.soft <==> j in b.soft - {i}) && (j in a.soft <==> j in a.soft - {i});
    }
  }

  lemma BlankNext(ts: set<nat>, a: Disk, b: Disk, t: nat)
    requires KeptBut(a, b, {t}) && t !in ts
    ensures (forall u <- ts :: Blank(a, u)) ==> forall u <- ts :: Blank(b, u)
  {}

  /** A file's data key is below unused. */
  predicate Used(c: Content, unused: nat) { c.Whole? ==> c.file.body.key < unused }

  /** Wiped keys stay gone when p wraps again under a new one. */
  lemma StaysGone(a: Keys, wiped: Keys, b: Keys, unused: nat, p: Protector, oldP: Protector)
    requires forall u <- Alive(a, oldP.id) :: u < unused
    requires !oldP.keyless ==> Alive(wiped, oldP.id) == {}
    requires forall id :: id != p.id ==> Alive(b, id) == Alive(wiped, id)
    requires forall u <- Alive(b, p.id) - Alive(wiped, p.id) :: unused <= u
    ensures KeyGone(a, b, oldP)
  {
    forall u <- Alive(b, oldP.id) | !oldP.keyless ensures u !in Alive(a, oldP.id) {
      assert p.id == oldP.id ==> u in Alive(b, p.id) - Alive(wiped, p.id);
    }
  }

  /** A whole file that opens to st under a key that p wrapped and, with these keys, unwraps. */
  ghost predicate IsNew(x: Found, p: Protector, st: State, keys: Keys) {
    && x.FoundFile? && x.content.Whole?
    && exists h: Held :: Opens(x.content.file, h, st) && h.prot == p && Unwrappable(h, keys)
  }

  predicate Unwrappable(h: Held, keys: Keys) {
    h.Held? && h.wrapped.key == h.key && h.wrapped.holder == h.prot.id && h.wrapped.under in Alive(keys, h.prot.id)
  }

  /** So a process that finds it loads st through p. */
  lemma NewLoads(x: Found, p: Protector, st: State, keys: Keys, resolve: Resolver)
    requires IsNew(x, p, st, keys) && resolve(p.name) == Some(p)
    ensures x.FoundFile? && Decoded(x.content, Some(resolve), keys) == Ok(st)
  {}

  /** b differs from a in file i's bytes only. */
  predicate Same(a: Disk, b: Disk, i: nat) {
    && b.files.Keys == a.files.Keys && b.soft - {i} == a.soft - {i} && (forall j <- a.files :: j != i ==> b.files[j] == a.files[j])
    && b.path == a.path && b.after == a.after && b.failed == a.failed && b.temps == a.temps
  }

  lemma OtherFile(a: Disk, b: Disk, i: nat)
    requires DiskOk(a) && Same(a, b, i) && At(i) !in a.after
    ensures Leaves(b) == Leaves(a)
  {
    forall x: Found ensures MayLeave(b, x) <==> MayLeave(a, x) {
      forall n: Node | n in a.after ensures Shows(b, n, x) <==> Shows(a, n, x) {
        assert n.At? ==> (n.inode in b.soft <==> n.inode in b.soft - {i}) && (n.inode in a.soft <==> n.inode in a.soft - {i});
      }
    }
  }

  lemma OneMoreName(a: Disk, b: Disk, n: Node)
    requires b.files == a.files && b.soft == a.soft && b.after == a.after + {n}
    ensures forall x <- Leaves(b) :: x in Leaves(a) || Shows(b, n, x)
  {}

  lemma FewerNames(a: Disk, b: Disk)
    requires b.files == a.files && b.soft == a.soft && b.after <= a.after
    ensures Leaves(b) <= Leaves(a)
  {}
}
