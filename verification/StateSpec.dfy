/**
 The state file and what each operation of internal/state/state.go may do to it:
 the file system as a path, inodes and temporary names; what a crash may leave;
 and relations between the state before and after an operation.

 Encryption is ideal: a Sealed value opens only under its key, nonce and
 associated data. A protector's key is a number; a Wrapped value unwraps while
 the number it was wrapped under is among the protector's live keys.
 */
module StateSpec {
  import opened Common

  datatype Phase = Started | Waiting | Paired

  /** The plaintext: a pairing record, or anything else. */
  datatype State = Record(phase: Phase, deadline: Time, device: nat) | NoRecord(n: nat)

  /** keyless: it has no key outside the state file, so its Wipe destroys nothing (passphrase, TPM). */
  datatype Protector = Protector(id: nat, name: string, keyless: bool)

  /** A resolver's answer for a header's protector name. */
  type Resolver = string -> Option<Protector>

  datatype Wrapped = Wrapped(holder: nat, under: nat, key: nat)

  datatype Header = Header(prot: string, wrapped: Wrapped, nonce: nat, createdAt: Time)

  datatype Sealed = Sealed(key: nat, nonce: nat, ad: Header, pt: State)

  datatype StateFile = StateFile(header: Header, body: Sealed)

  datatype Content = Whole(file: StateFile) | Zeros | Junk

  datatype Node = Missing | NotRegular | At(inode: nat)

  /**
   files: every inode's bytes; soft: those not flushed; path: the state file's
   name now; after: what it may be after a crash; failed: a flush since the name
   changed failed for good; temps: the inodes under temporary names.
   */
  datatype Disk = Disk(files: map<nat, Content>, soft: set<nat>, path: Node, after: set<Node>, failed: bool, temps: set<nat>)

  type Keys = map<nat, set<nat>>

  datatype Held = NoKey | Held(prot: Protector, wrapped: Wrapped, key: nat, createdAt: Time)

  /** The disk, the protectors' live keys, and what the Store holds. */
  datatype Sys = Sys(d: Disk, keys: Keys, held: Held)

  datatype Err = Nil | Failed | ErrClosed | ErrExists | ErrNotLoaded | ErrNotDurable | ErrReplaceIncomplete | ErrReplacedPartly
               | ErrProtectorUnknown | ErrNothingToWipe | ErrNotFound | ErrFormat | ErrUnknownProtector | ErrUnwrap | ErrDecrypt

  function Alive(keys: Keys, id: nat): set<nat> { if id in keys then keys[id] else {} }

  // ---- what a crash leaves ----

  datatype Found = FoundNothing | FoundOther | FoundFile(content: Content)

  predicate Shows(d: Disk, n: Node, x: Found) {
    match n
    case Missing => x == FoundNothing
    case NotRegular => x == FoundOther
    case At(i) => x.FoundFile? && (i in d.soft || (i in d.files && d.files[i] == x.content))
  }

  ghost predicate MayLeave(d: Disk, x: Found) { exists n: Node :: n in d.after && Shows(d, n, x) }

  /** What may be at the path after a crash now. */
  ghost function Leaves(d: Disk): iset<Found> { iset x: Found | MayLeave(d, x) }

  predicate DiskOk(d: Disk) {
    && d.path in d.after && d.soft <= d.files.Keys && d.temps <= d.files.Keys
    && forall n <- d.after | n.At? :: n.inode in d.files && n.inode !in d.temps
  }

  /** b has every file of a with the same bytes. */
  predicate Extends(a: Disk, b: Disk) {
    a.files.Keys <= b.files.Keys && forall i <- a.files :: b.files[i] == a.files[i] && (i in b.soft <==> i in a.soft)
  }

  /** The path names the same file, with the same bytes, now and after a crash. */
  predicate Untouched(a: Disk, b: Disk) {
    Extends(a, b) && b.path == a.path && b.after == a.after && b.failed == a.failed
  }

  lemma UntouchedLeaves(a: Disk, b: Disk)
    requires DiskOk(a) && Untouched(a, b)
    ensures Leaves(b) == Leaves(a)
  {}

  // ---- the operations ----

  /** writeAtomic. */
  ghost predicate WriteRel(a: Disk, b: Disk, f: StateFile, r: Err) {
    && Extends(a, b)
    && match r
       case Nil => Placed(a, b, f) && b.after == {b.path}
       case ErrNotDurable => Placed(a, b, f) && b.after == a.after + {b.path}
       case Failed => Untouched(a, b)
       case _ => false
  }

  /** f is in a new file at the path, flushed. */
  predicate Placed(a: Disk, b: Disk, f: StateFile) {
    && b.path.At? && b.path.inode !in a.files && b.path.inode in b.files
    && b.files[b.path.inode] == Whole(f) && b.path.inode !in b.soft
  }

  function FileFor(h: Held, nonce: nat, st: State): StateFile
    requires h.Held?
  {
    var hd := Header(h.prot.name, h.wrapped, nonce, h.createdAt);
    StateFile(hd, Sealed(h.key, nonce, hd, st))
  }

  predicate Opens(f: StateFile, h: Held, st: State) {
    h.Held? && f == FileFor(h, f.header.nonce, st)
  }

  /** The Store holds a data key that its protector can still unwrap. */
  predicate KeyLive(s: Sys) {
    && s.held.Held? && s.held.wrapped.key == s.held.key && s.held.wrapped.holder == s.held.prot.id
    && s.held.wrapped.under in Alive(s.keys, s.held.prot.id)
  }

  /** The file at the path opens under the held key to st. */
  predicate Backs(s: Sys, st: State) {
    && KeyLive(s) && s.d.path.At? && s.d.path.inode in s.d.files
    && s.d.files[s.d.path.inode].Whole? && Opens(s.d.files[s.d.path.inode].file, s.held, st)
  }

  ghost predicate SaveRel(a: Sys, b: Sys, st: State, r: Err) {
    && b.keys == a.keys && b.held == a.held
    && (r != Nil && r != ErrNotDurable ==> Untouched(a.d, b.d))
    && (a.held == NoKey ==> r == ErrNotLoaded || r == ErrClosed)
    && (r == Nil || r == ErrNotDurable ==>
          a.held.Held? && exists nonce: nat :: WriteRel(a.d, b.d, FileFor(a.held, nonce, st), r))
  }

  /** key seals nothing on the disk, and the Store does not hold it. */
  predicate NewKey(a: Sys, key: nat) {
    (forall i <- a.d.files | a.d.files[i].Whole? :: a.d.files[i].file.body.key != key) && (a.held.Held? ==> a.held.key != key)
  }

  /** What create leaves: a new file under a new data key that p wrapped, or, failing, everything but new keys of p as it was. */
  ghost predicate CreateRel(a: Sys, b: Sys, p: Protector, st: State, r: Err) {
    && (forall id :: id != p.id ==> Alive(b.keys, id) == Alive(a.keys, id)) && Alive(a.keys, p.id) <= Alive(b.keys, p.id)
    && (r != Nil && r != ErrNotDurable ==> r == Failed && Untouched(a.d, b.d) && b.held == a.held)
    && (r == Nil || r == ErrNotDurable ==>
          Backs(b, st) && b.held.prot == p && NewKey(a, b.held.key) && WriteRel(a.d, b.d, b.d.files[b.d.path.inode].file, r))
  }

  /** The protector of what the Store holds, or the one the resolver gives for the header at the path. */
  function OldProtector(s: Sys, resolve: Option<Resolver>): Option<Protector> {
    if s.held.Held? then Some(s.held.prot)
    else if resolve.None? || !s.d.path.At? || s.d.path.inode !in s.d.files || !s.d.files[s.d.path.inode].Whole? then None
    else
      var name := s.d.files[s.d.path.inode].file.header.prot;
      var p := resolve.value(name);
      if p.Some? && p.value.name == name then p else None
  }

  /** Nothing p wrapped before unwraps any more, if p has a key of its own. */
  predicate KeyGone(a: Keys, b: Keys, p: Protector) {
    !p.keyless ==> Alive(a, p.id) !! Alive(b, p.id)
  }

  /** Where a replace of an existing file ends, by its error. held: the old file was held open, not overwritten first. */
  ghost predicate ReplaceRel(a: Sys, b: Sys, p: Protector, st: State, resolve: Option<Resolver>, held: bool, r: Err) {
    match r
    case Failed => b.keys == a.keys && b.held == a.held && Untouched(a.d, b.d)
    case ErrClosed => b == a
    case ErrProtectorUnknown => b == a
    case ErrReplaceIncomplete =>
      && b.d.path == a.d.path && b.held == NoKey
      && OldProtector(a, resolve).Some? && KeyGone(a.keys, b.keys, OldProtector(a, resolve).value)
      && (held ==> Untouched(a.d, b.d))
    case ErrNotDurable =>
      && Replaced(a, b, p, st, resolve) && b.d.path in b.d.after
      && (held ==> Extends(a.d, b.d))
    case ErrReplacedPartly => Replaced(a, b, p, st, resolve) && b.d.after == {b.d.path}
    case Nil =>
      && Replaced(a, b, p, st, resolve) && b.d.after == {b.d.path}
      && (a.d.path.At? ==> a.d.path.inode in b.d.files && b.d.files[a.d.path.inode] == Zeros && a.d.path.inode !in b.d.soft)
    case _ => false
  }

  ghost predicate Replaced(a: Sys, b: Sys, p: Protector, st: State, resolve: Option<Resolver>) {
    && Backs(b, st) && b.held.prot == p && NewKey(a, b.held.key) && b.d.path.inode !in a.d.files
    && OldProtector(a, resolve).Some? && KeyGone(a.keys, b.keys, OldProtector(a, resolve).value)
  }

  /** decodeFile, as far as the bytes, the resolver and the protectors' keys decide it. */
  function Decoded(c: Content, resolve: Option<Resolver>, keys: Keys): Result<State, Err> {
    if !c.Whole? then Err(ErrFormat)
    else
      var h, body := c.file.header, c.file.body;
      if resolve.None? || resolve.value(h.prot).None? || resolve.value(h.prot).value.name != h.prot then Err(ErrUnknownProtector)
      else
        var p := resolve.value(h.prot).value;
        if h.wrapped.holder != p.id || h.wrapped.under !in Alive(keys, p.id) then Err(ErrUnwrap)
        else if body.key != h.wrapped.key || body.nonce != h.nonce || body.ad != h then Err(ErrDecrypt)
        else Ok(body.pt)
  }

  /** What is at the path, if it is a file. */
  function AtPath(d: Disk): Option<Content> {
    if d.path.At? && d.path.inode in d.files then Some(d.files[d.path.inode]) else None
  }

  /** A protector may also fail to unwrap, and the file to be read, for reasons of their own. */
  ghost predicate LoadRel(a: Sys, b: Sys, resolve: Option<Resolver>, r: Err, pt: State) {
    && b.d == a.d && b.keys == a.keys
    && (r != Nil ==> b == a)
    && (r == Nil ==> Backs(b, pt) && AtPath(a.d).Some? && Decoded(AtPath(a.d).value, resolve, a.keys) == Ok(pt))
    && (r in {ErrFormat, ErrUnknownProtector, ErrDecrypt} ==> AtPath(a.d).Some? && Decoded(AtPath(a.d).value, resolve, a.keys) == Err(r))
    && (r == ErrNotFound ==> a.d.path == Missing)
    && r in {Nil, Failed, ErrClosed, ErrNotFound, ErrFormat, ErrUnknownProtector, ErrUnwrap, ErrDecrypt}
  }

  /** Zeros, flushed. */
  predicate Blank(d: Disk, i: nat) { i in d.files && d.files[i] == Zeros && i !in d.soft }

  /**
   Nothing is left at the path or under a temporary name, and what was there is
   zeros. A crash brings a name back only if the file was gone before and a flush
   had failed for good.
   */
  predicate Cleared(a: Disk, b: Disk) {
    && b.path == Missing && b.temps == {}
    && b.after == (if a.path == Missing && a.failed then a.after else {Missing})
    && (a.path.At? ==> Blank(b, a.path.inode)) && forall t <- a.temps :: Blank(b, t)
  }

  /** The file is where it was, or gone. */
  predicate SameOrGone(a: Disk, b: Disk) { b.path in {a.path, Missing} && a.files.Keys <= b.files.Keys }

  /** removed: the files are gone. */
  ghost predicate WipeRel(a: Sys, b: Sys, resolve: Option<Resolver>, r: Err, removed: bool) {
    && (removed ==> Cleared(a.d, b.d)) && SameOrGone(a.d, b.d)
    && match r
       case Nil => removed && b.held == NoKey && OldGone(a, b, resolve)
       case ErrClosed => b == a && !removed
       case ErrNothingToWipe => b == a && !removed && a.d.path == Missing && a.d.temps == {} && a.held == NoKey
       case Failed => !removed && (b == a || (b.held == NoKey && OldGone(a, b, resolve)))
       case ErrProtectorUnknown => b.held == NoKey && a.held == NoKey && b.keys == a.keys
       case _ => false
  }

  /** The old protector is known and, if it has a key of its own, opens nothing it wrapped. */
  ghost predicate OldGone(a: Sys, b: Sys, resolve: Option<Resolver>) {
    && OldProtector(a, resolve).Some? && KeyGone(a.keys, b.keys, OldProtector(a, resolve).value)
    && forall id :: id != OldProtector(a, resolve).value.id ==> Alive(b.keys, id) == Alive(a.keys, id)
  }

  /** A protector of ps with a key of its own under id deleted it. */
  predicate Deletes(ps: seq<Option<Protector>>, failed: set<nat>, id: nat) {
    exists i | 0 <= i < |ps| :: i !in failed && ps[i].Some? && !ps[i].value.keyless && ps[i].value.id == id
  }

  ghost predicate KeysLeft(a: Keys, b: Keys, ps: seq<Option<Protector>>, failed: set<nat>) {
    forall id: nat :: Alive(b, id) == if Deletes(ps, failed, id) then {} else Alive(a, id)
  }

  /** failed: the places in ps of the protectors that could not delete their keys; removed: the files are gone. */
  ghost predicate WipeAllRel(a: Sys, b: Sys, ps: seq<Option<Protector>>, r: Err, failed: set<nat>, removed: bool) {
    if r == ErrClosed then b == a
    else
      && r == (if failed == {} && removed then Nil else Failed) && b.held == NoKey
      && (forall i <- failed :: i < |ps| && ps[i].Some?)
      && KeysLeft(a.keys, b.keys, ps, failed)
      && (removed ==> Cleared(a.d, b.d)) && SameOrGone(a.d, b.d)
  }
}
