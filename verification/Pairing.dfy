/**
 Pair of internal/pairing/pair.go over the Store: what it tells the operator
 about the earlier state, and what it leaves. The relay, the vault and the
 operator's console answer in any way.
 */
module Pairing {
  import opened Common
  import opened StateSpec
  import opened StateStore

  datatype Replacing = NotReplacing | Unfinished | PairedBefore | Unreadable

  datatype Text = Kept | MaybeReplaced | Discarded(what: Replacing) | ShowsSAS | SaysWaiting | SaysPaired | NotFlushed | SaysResumes

  /** A line shown, and the state when it was. */
  datatype Said = Said(text: Text, at: Sys)

  /** Interrupted: while waiting, so that it can be resumed; InterruptedEarly: before. */
  datatype PairErr = NoErr | AlreadyPaired | Expired | Rejected | Interrupted | InterruptedEarly | Other

  /** How a pairing ended; left: its state could not be deleted, and the error says so. */
  datatype End = End(err: PairErr, left: bool)

  /** The state the file at the path holds, if the Store's key opens it. */
  function AtPathState(s: Sys): Option<State> {
    if AtPath(s.d).Some? && AtPath(s.d).value.Whole? then Some(AtPath(s.d).value.file.body.pt) else None
  }

  /** The file at the path is a pairing record of this phase, and opens under the Store's key. */
  predicate InPhase(s: Sys, phase: Phase) {
    && AtPathState(s).Some? && AtPathState(s).value.Record? && AtPathState(s).value.phase == phase
    && Backs(s, AtPathState(s).value)
  }

  /** The earlier state is as it was: the same file under the same name, the same keys. */
  predicate Intact(first: Sys, now: Sys) { Untouched(first.d, now.d) && now.keys == first.keys }

  /** A new file is in place of the earlier one. */
  predicate Superseded(first: Sys, now: Sys) {
    now.d.path.At? && now.d.path.inode !in first.d.files && InPhase(now, Started)
  }

  /** rec is in a new file in place of the earlier one. */
  predicate PutOver(first: Sys, now: Sys, rec: State) {
    Backs(now, rec) && now.d.path.inode !in first.d.files
  }

  /** What a line says of the state is so. */
  predicate True(first: Sys, said: Said) {
    match said.text
    case Kept => Intact(first, said.at) && first.d.path != Missing
    case Discarded(_) => Superseded(first, said.at) && first.d.path != Missing
    case ShowsSAS => InPhase(said.at, Waiting) && said.at.d.after == {said.at.d.path}
    case SaysPaired => InPhase(said.at, Paired)
    case SaysResumes => InPhase(said.at, Waiting)
    case _ => true
  }

  predicate AllTrue(first: Sys, said: seq<Said>) { forall s <- said :: True(first, s) }

  /** How AwaitPaired ended. */
  datatype Awaited = Approved | WasRejected | ContextEnded | WindowEnded | AnswerUnreadable

  /** The file is a record of this phase, or of a pairing made since. */
  predicate OrPaired(s: Sys, phase: Phase) { InPhase(s, phase) || InPhase(s, Paired) }

  predicate Resumable(s: Sys) { OrPaired(s, Waiting) }

  /** Nothing of this run is left: no file, or the earlier one, as it was unless the operator is told it may be gone. */
  predicate NothingKept(first: Sys, now: Sys, oldMaybeGone: bool) {
    now.d.path == Missing || (now.d.path == first.d.path && (oldMaybeGone || Intact(first, now)))
  }

  /** run. */
  class Run {
    const store: Store
    const restart: bool
    const codeGiven: bool
    const resolve: Option<Resolver>
    const all: seq<Option<Protector>>
    /** The state when Pair was called. */
    ghost const first: Sys

    var replacing: Replacing
    var replace: bool
    var replaced: bool
    var oldMaybeGone: bool
    var created: bool
    var persistedPaired: bool
    var prot: Protector
    var said: seq<Said>
    /** Every text said. */
    ghost var told: set<Text>

    constructor (store: Store, restart: bool, codeGiven: bool, resolve: Option<Resolver>, all: seq<Option<Protector>>, p: Protector)
      ensures this.store == store && this.restart == restart && this.first == store.View()
      ensures !replace && !replaced && !oldMaybeGone && !created && !persistedPaired && said == []
    {
      this.store, this.restart, this.codeGiven, this.resolve, this.all, this.first := store, restart, codeGiven, resolve, all, store.View();
      replacing, replace, replaced, oldMaybeGone, created, persistedPaired := NotReplacing, false, false, false, false, false;
      prot, said, told := p, [], {};
    }

    ghost predicate Valid() reads this, store, store.m { store.Valid() && store.open && AllTrue(first, said) }

    /** Before the first write, the earlier state is intact. */
    ghost predicate Fresh() reads this, store, store.m {
      && Valid() && !created && !replaced && !oldMaybeGone && !persistedPaired && Intact(first, store.View())
      && (replace <==> first.d.path != Missing)
    }

    method Say(text: Text)
      requires Valid() && True(first, Said(text, store.View()))
      modifies this`said, this`told
      ensures Valid() && said == old(said) + [Said(text, store.View())] && told == old(told) + {text}
    {
      said, told := said + [Said(text, store.View())], told + {text};
    }

    // ---- writing ----

    /** The first write over an earlier state. */
    method WriteOver(rec: State) returns (r: Err)
      requires Fresh() && replace
      modifies this`oldMaybeGone, store`held, store.m`d, store.m`seen, store.m`unusedInode, store.m`keys, store.m`unusedKey
      ensures store.Valid() && store.open
      ensures r in {Nil, ErrNotDurable, ErrReplacedPartly} ==> PutOver(first, store.View(), rec)
      ensures r == Nil ==> store.m.d.after == {store.m.d.path}
      ensures r !in {Nil, ErrNotDurable, ErrReplacedPartly} && !oldMaybeGone ==> r != ErrReplaceIncomplete && Intact(first, store.View())
      ensures r !in {Nil, ErrNotDurable, ErrReplacedPartly} ==> NothingKept(first, store.View(), oldMaybeGone)
    {
      r := store.CreateReplace(prot, rec, resolve);
      if r == ErrProtectorUnknown && restart {
        oldMaybeGone := true;
        var failed, removed;
        r, failed, removed := store.WipeAll(all);
        if r == Nil {
          r := store.Create(prot, rec);
        }
        return;
      }
      if r == ErrReplaceIncomplete {
        oldMaybeGone := true;
      }
    }

    /** write, the first time. */
    method WriteFirst(rec: State) returns (r: Err)
      requires Fresh() && rec.Record? && rec.phase == Started
      modifies this`replaced, this`oldMaybeGone, this`created, this`said, this`told
      modifies store`held, store.m`d, store.m`seen, store.m`unusedInode, store.m`keys, store.m`unusedKey
      ensures Valid() && (r in {Nil, ErrNotDurable} ==> Written(rec))
      ensures replace && !replaced && !oldMaybeGone ==> Intact(first, store.View())
      ensures created ==> r in {Nil, ErrNotDurable, ErrReplacedPartly} && Backs(store.View(), rec)
      ensures r == Nil ==> store.m.d.after == {store.m.d.path}
      ensures !created ==> NothingKept(first, store.View(), oldMaybeGone)
      ensures created && replace ==> replaced || oldMaybeGone
      ensures old(told) <= told && (replaced ==> Discarded(replacing) in told)
    {
      if replace {
        r := WriteOver(rec);
        if r == ErrReplacedPartly {
          oldMaybeGone, created := true, true;
        }
      } else {
        r := store.Create(prot, rec);
      }
      if r == Nil || r == ErrNotDurable {
        created := true;
        if replace && !replaced {
          replaced := true;
          Say(Discarded(replacing));
        }
      }
    }

    /** This run's record is in place. */
    ghost predicate Written(rec: State) reads this, store, store.m {
      created && Backs(store.View(), rec) && (replace ==> replaced)
    }

    /** Store.Save of this run's record, once it was written. */
    method SaveAgain(rec: State) returns (r: Err)
      requires Valid() && created && KeyLive(store.View())
      modifies store.m`d, store.m`seen, store.m`unusedInode
      ensures Valid() && KeyLive(store.View())
      ensures r in {Nil, ErrNotDurable} ==> Backs(store.View(), rec)
      ensures r == Nil ==> store.m.d.after == {store.m.d.path}
      ensures r !in {Nil, ErrNotDurable} ==> forall st :: Backs(old(store.View()), st) ==> Backs(store.View(), st)
    {
      ghost var a := store.View();
      r := store.Save(rec);
      if r in {Nil, ErrNotDurable} {
        ghost var nonce: nat :| WriteRel(a.d, store.m.d, FileFor(store.held, nonce, rec), r);
      }
    }

    /** save: a write that is in place but not flushed is saved once more. */
    method Save(rec: State) returns (r: Err)
      requires rec.Record? && ((Fresh() && rec.phase == Started) || (Valid() && created && KeyLive(store.View())))
      modifies this`replaced, this`oldMaybeGone, this`created, this`said, this`told
      modifies store`held, store.m`d, store.m`seen, store.m`unusedInode, store.m`keys, store.m`unusedKey
      ensures Valid()
      ensures r in {Nil, ErrNotDurable} ==> created && KeyLive(store.View()) && (old(created) || !replace || replaced)
      ensures r == Nil ==> Backs(store.View(), rec) && store.m.d.after == {store.m.d.path}
      ensures r == ErrNotDurable ==> Backs(store.View(), rec)
      ensures replace && !replaced && !oldMaybeGone && !old(created) ==> Intact(first, store.View())
      ensures old(created) ==> created && said == old(said) && replaced == old(replaced) && oldMaybeGone == old(oldMaybeGone)
      ensures !created ==> NothingKept(first, store.View(), oldMaybeGone)
      ensures created && replace && !old(created) ==> replaced || oldMaybeGone
      ensures old(told) <= told
    {
      var prepared: bool := *;
      if !prepared {
        return Failed;
      }
      if created {
        r := SaveAgain(rec);
      } else {
        r := WriteFirst(rec);
      }
      if r == ErrNotDurable {
        r := SaveAgain(rec);
      }
    }

    /** failWipe: nothing of a failed pairing is kept, or the error says so. */
    method FailWipe(err: PairErr) returns (e: End)
      requires Valid()
      modifies this`created, store`held, store.m`d, store.m`seen, store.m`keys
      ensures Valid() && e.err == err
      ensures old(created) && !e.left ==> store.m.d.path == Missing && store.m.d.temps == {}
      ensures !old(created) ==> !e.left && store.View() == old(store.View())
    {
      if !created {
        return End(err, false);
      }
      var r, _ := store.Wipe(resolve);
      if r != Nil && r != ErrNothingToWipe {
        return End(err, true);
      }
      created := false;
      e := End(err, false);
    }

    // ---- waiting ----

    /** persist, for one collected batch; rec: the phase so far; hasDevice: the client recorded device.paired; noVault: it holds no vault. */
    method Persist(rec: State, hasDevice: bool, noVault: bool, device: nat) returns (ok: bool)
      requires Valid() && created && rec.Record? && rec.phase != Paired && OrPaired(store.View(), rec.phase)
      requires persistedPaired ==> hasDevice && InPhase(store.View(), Paired)
      modifies this`persistedPaired, store.m`d, store.m`seen, store.m`unusedInode
      ensures Valid() && created && OrPaired(store.View(), rec.phase)
      ensures persistedPaired ==> hasDevice && InPhase(store.View(), Paired)
      ensures !hasDevice && old(InPhase(store.View(), rec.phase)) ==> InPhase(store.View(), rec.phase)
      ensures ok && hasDevice ==> persistedPaired
    {
      if !hasDevice && noVault {
        return true;
      }
      var r := SaveAgain(Record(if hasDevice then Paired else rec.phase, if hasDevice then 0 else rec.deadline, device));
      if r != Nil {
        return false;
      }
      if hasDevice {
        persistedPaired := true;
      }
      return true;
    }

    /** The client's handshake: any batches, each persisted; it records no device before the SAS is confirmed. */
    method Greet(rec: State) returns (err: PairErr)
      requires Valid() && created && !persistedPaired && rec.Record? && rec.phase == Started && InPhase(store.View(), Started)
      modifies this`persistedPaired, store.m`d, store.m`seen, store.m`unusedInode
      ensures Valid() && created && !persistedPaired && InPhase(store.View(), Started)
    {
      var batches: nat, hasDevice: bool := *, false;
      for i := 0 to batches
        invariant Valid() && created && !persistedPaired && InPhase(store.View(), Started)
      {
        var noVault: bool, device: nat := *, *;
        var _ := Persist(rec, hasDevice, noVault, device);
      }
      err := *;
    }

    /** AwaitPaired: any batches, each persisted. */
    method AwaitPaired(rec: State) returns (how: Awaited)
      requires Valid() && created && !persistedPaired && InPhase(store.View(), Waiting) && rec.Record? && rec.phase == Waiting
      modifies this`persistedPaired, store.m`d, store.m`seen, store.m`unusedInode
      ensures Valid() && created && Resumable(store.View()) && (persistedPaired ==> InPhase(store.View(), Paired))
    {
      var batches: nat, hasDevice: bool := *, false;
      for i := 0 to batches
        invariant Valid() && created && Resumable(store.View())
        invariant persistedPaired ==> hasDevice && InPhase(store.View(), Paired)
      {
        var paired: bool, noVault: bool, device: nat := *, *, *;
        hasDevice := hasDevice || paired;
        var _ := Persist(rec, hasDevice, noVault, device);
      }
      how := *;
    }

    /** The vault approved: the pairing is saved as paired, or deleted. */
    method Approve() returns (e: End)
      requires Valid() && created && KeyLive(store.View()) && (persistedPaired ==> InPhase(store.View(), Paired))
      modifies this`replaced, this`oldMaybeGone, this`created, this`said, this`told
      modifies store`held, store.m`d, store.m`seen, store.m`unusedInode, store.m`keys, store.m`unusedKey
      ensures Valid() && replaced == old(replaced) && oldMaybeGone == old(oldMaybeGone)
      ensures e.err in {NoErr, Other} && (e.err == NoErr ==> InPhase(store.View(), Paired) && SaysPaired in told)
      ensures old(told) <= told
      ensures e.err == Other && !e.left ==> store.m.d.path == Missing
    {
      if persistedPaired {
        Say(SaysPaired);
        return End(NoErr, false);
      }
      var device: nat := *;
      var r := Save(Record(Paired, 0, device));
      if r != Nil && r != ErrNotDurable {
        e := FailWipe(Other);
        return;
      }
      Say(SaysPaired);
      if r == ErrNotDurable {
        Say(NotFlushed);
      }
      e := End(NoErr, false);
    }

    method Wait(rec: State) returns (e: End)
      requires Valid() && created && !persistedPaired && InPhase(store.View(), Waiting) && rec.Record? && rec.phase == Waiting
      modifies this`replaced, this`oldMaybeGone, this`created, this`persistedPaired, this`said, this`told
      modifies store`held, store.m`d, store.m`seen, store.m`unusedInode, store.m`keys, store.m`unusedKey
      ensures Valid() && replaced == old(replaced) && oldMaybeGone == old(oldMaybeGone)
      ensures e.err in {NoErr, Interrupted, Rejected, Expired, Other} && old(told) <= told
      ensures e.err == NoErr ==> InPhase(store.View(), Paired) && SaysPaired in told
      ensures e.err == Interrupted ==> Resumable(store.View())
      ensures e.err !in {NoErr, Interrupted} && !e.left ==> store.m.d.path == Missing
    {
      var how := AwaitPaired(rec);
      match how
      case Approved => e := Approve();
      case WasRejected => e := FailWipe(Rejected);
      case ContextEnded => e := End(Interrupted, false);
      case WindowEnded => e := FailWipe(Expired);
      case AnswerUnreadable => e := FailWipe(Other);
    }

    // ---- pairing ----

    /** pairNew. */
    method PairNew(now: Time, window: Time) returns (e: End)
      requires Fresh()
      modifies this`replaced, this`oldMaybeGone, this`created, this`persistedPaired, this`said, this`told
      modifies store`held, store.m`d, store.m`seen, store.m`unusedInode, store.m`keys, store.m`unusedKey
      ensures Valid() && e.err != AlreadyPaired
      ensures e.err == NoErr ==> InPhase(store.View(), Paired)
      ensures e.err == Interrupted ==> Resumable(store.View())
      ensures e.err !in {NoErr, Interrupted} && !e.left ==> NothingKept(first, store.View(), oldMaybeGone)
      ensures e.err == NoErr && replace ==> replaced
      ensures replace && !replaced && !oldMaybeGone ==> Intact(first, store.View())
    {
      var err: PairErr := *;
      if err in {Expired, InterruptedEarly, Other} {
        return End(err, false);
      }
      var device: nat := *;
      var rec := Record(Started, now + window, device);
      var r := Save(rec);
      if r != Nil {
        e := FailWipe(Other);
        return;
      }
      e := Handshake(rec);
    }

    /** pairNew, once the pairing was saved as started. */
    method Handshake(started: State) returns (e: End)
      requires Valid() && created && !persistedPaired && started.Record? && started.phase == Started && InPhase(store.View(), Started)
      modifies this`replaced, this`oldMaybeGone, this`created, this`persistedPaired, this`said, this`told
      modifies store`held, store.m`d, store.m`seen, store.m`unusedInode, store.m`keys, store.m`unusedKey
      ensures Valid() && replaced == old(replaced) && oldMaybeGone == old(oldMaybeGone) && e.err != AlreadyPaired
      ensures e.err == NoErr ==> InPhase(store.View(), Paired)
      ensures e.err == Interrupted ==> Resumable(store.View())
      ensures e.err in {NoErr, Interrupted} ==> ShowsSAS in told
      ensures e.err !in {NoErr, Interrupted} && !e.left ==> store.m.d.path == Missing
    {
      var err := Greet(started);
      if err in {Expired, InterruptedEarly, Other} {
        e := FailWipe(err);
        return;
      }
      var device: nat := *;
      var rec := Record(Waiting, started.deadline, device);
      var r := Save(rec);
      if r != Nil {
        e := FailWipe(Other);
        return;
      }
      e := ShowSAS(rec);
    }

    /** The SAS, over the record saved as waiting. */
    method ShowSAS(rec: State) returns (e: End)
      requires Valid() && created && !persistedPaired && InPhase(store.View(), Waiting) && rec.Record? && rec.phase == Waiting
      requires store.m.d.after == {store.m.d.path}
      modifies this`replaced, this`oldMaybeGone, this`created, this`persistedPaired, this`said, this`told
      modifies store`held, store.m`d, store.m`seen, store.m`unusedInode, store.m`keys, store.m`unusedKey
      ensures Valid() && replaced == old(replaced) && oldMaybeGone == old(oldMaybeGone) && e.err != AlreadyPaired
      ensures e.err == NoErr ==> InPhase(store.View(), Paired)
      ensures e.err == Interrupted ==> Resumable(store.View())
      ensures ShowsSAS in told
      ensures e.err !in {NoErr, Interrupted} && !e.left ==> store.m.d.path == Missing
    {
      Say(ShowsSAS);
      Say(SaysWaiting);
      e := Wait(rec);
    }

    /** loadExisting: a record to resume, none to pair over what is there, or an error. */
    method LoadExisting(now: Time) returns (e: End, rec: Option<State>)
      requires Valid() && first == store.View() && !created && !replaced && !oldMaybeGone && !persistedPaired
      requires !replace && first.d.path != Missing
      modifies this`replace, this`replacing, store`held, store.m`d, store.m`seen, store.m`keys
      ensures Valid()
      ensures e.err == NoErr && rec.None? ==> Fresh()
      ensures e.err == NoErr && rec.Some? ==> rec.value.Record? && rec.value.phase == Waiting && Backs(store.View(), rec.value) && now < rec.value.deadline
      ensures e.err == NoErr ==> Intact(first, store.View())
      ensures e.err !in {NoErr, Expired} ==> e.err != Interrupted && Intact(first, store.View())
      ensures e.err == Expired && !e.left ==> store.m.d.path == Missing && store.m.d.temps == {}
    {
      rec := None;
      var r, pt := store.Load(resolve);
      if r != Nil || pt.NoRecord? {
        if !restart {
          return End(Other, false), None;
        }
        replace, replacing := true, Unreadable;
        return End(NoErr, false), None;
      }
      replace := true;
      match pt.phase {
      case Paired =>
        if !restart {
          return End(AlreadyPaired, false), None;
        }
        replacing := PairedBefore;
      case Waiting =>
        if restart || codeGiven {
          replacing := Unfinished;
        } else if now < pt.deadline {
          rec := Some(pt);
        } else {
          var w, _ := store.Wipe(resolve);
          return End(Expired, w != Nil), None;
        }
      case Started => replacing := Unfinished;
      }
      e := End(NoErr, false);
    }

    /** resume: the wait goes on over the record read. */
    method Resume(rec: State) returns (e: End)
      requires Valid() && !created && !persistedPaired && !oldMaybeGone && rec.Record? && rec.phase == Waiting && Backs(store.View(), rec)
      requires Intact(first, store.View())
      modifies this`replaced, this`oldMaybeGone, this`created, this`persistedPaired, this`said, this`told
      modifies store`held, store.m`d, store.m`seen, store.m`unusedInode, store.m`keys, store.m`unusedKey
      ensures Valid() && e.err != AlreadyPaired && !oldMaybeGone
      ensures e.err == NoErr ==> InPhase(store.View(), Paired)
      ensures e.err == Interrupted ==> Resumable(store.View())
      ensures e.err !in {NoErr, Interrupted} && !e.left ==> NothingKept(first, store.View(), false)
    {
      var restores: bool := *;
      if !restores {
        return End(Other, false);
      }
      created := true;
      Say(SaysResumes);
      Say(SaysWaiting);
      e := Wait(rec);
    }

    /** tried: a new pairing was tried, over what was there or not. */
    method Pair(now: Time, window: Time) returns (e: End, ghost tried: bool)
      requires Valid() && first == store.View() && !created && !replaced && !oldMaybeGone && !persistedPaired && !replace && said == []
      modifies this, store`held, store.m`d, store.m`seen, store.m`unusedInode, store.m`keys, store.m`unusedKey
      ensures Valid()
      ensures e.err == NoErr ==> InPhase(store.View(), Paired)
      ensures e.err == Interrupted ==> Resumable(store.View())
      ensures e.err == AlreadyPaired ==> Intact(first, store.View())
      ensures e.err !in {NoErr, Interrupted} && !e.left ==> NothingKept(first, store.View(), oldMaybeGone)
      ensures tried && e.err != NoErr && replace && !replaced ==>
                said != [] && said[|said| - 1].text == if oldMaybeGone then MaybeReplaced else Kept
    {
      tried := false;
      var there := store.Exists();
      if there.None? {
        return End(Other, false), tried;
      }
      if there.value {
        var rec: Option<State>;
        e, rec := LoadExisting(now);
        if e.err != NoErr {
          return;
        }
        if rec.Some? {
          e := Resume(rec.value);
          return;
        }
      }
      tried := true;
      e := PairNew(now, window);
      if e.err != NoErr && replace && !replaced {
        Say(if oldMaybeGone then MaybeReplaced else Kept);
      }
    }
  }
}
