/**
 The macOS Keychain protector of internal/protect/keychain.go over a store of
 items whose calls may fail: what its Wipe deletes, in which order, and for
 which items it is all or nothing. Account 0 stands for the empty name.
 */
module Keychain {
  import opened Common

  /** created: seconds; kek: the key it holds. */
  datatype Item = Item(service: nat, created: int, kek: nat, thisDeviceOnly: bool, synchronizable: bool)

  type Items = map<nat, Item>

  datatype Listed = Listed(account: nat, created: int)

  datatype Blob = Blob(name: nat, kek: nat, key: nat)

  // ---- what Wipe does, as functions ----

  /** remember. */
  function Remember(names: seq<nat>, name: nat): seq<nat> {
    if name in names then names else names + [name]
  }

  /** The first of the newest. */
  function Newest(listed: seq<Listed>): Listed
    decreases |listed|
  {
    if listed == [] then Listed(0, 0)
    else
      var n := |listed| - 1;
      var before := Newest(listed[..n]);
      if before.account == 0 || listed[n].created > before.created then listed[n] else before
  }

  /** The key in use: the name last remembered for the first time or, for an instance that opened nothing, the newest listed. */
  function InUse(names: seq<nat>, listed: seq<Listed>): nat {
    if names != [] then names[|names| - 1] else Newest(listed).account
  }

  function Accounts(listed: seq<Listed>): seq<nat> { seq(|listed|, i requires 0 <= i < |listed| => listed[i].account) }

  /** The names of s not in seen, once each, in order. */
  function Unseen(s: seq<nat>, seen: set<nat>): seq<nat>
    decreases |s|
  {
    if s == [] then []
    else
      var n := |s| - 1;
      var before := Unseen(s[..n], seen);
      if s[n] in seen || s[n] in before then before else before + [s[n]]
  }

  lemma {:induction false} UnseenFacts(s: seq<nat>, seen: set<nat>)
    ensures forall a :: a in Unseen(s, seen) <==> a in s && a !in seen
    decreases |s|
  {
    if s != [] {
      UnseenFacts(s[..|s| - 1], seen);
      assert s == s[..|s| - 1] + [s[|s| - 1]];
    }
  }

  /** What Wipe deletes before the key in use. */
  function Others(names: seq<nat>, listed: seq<Listed>): seq<nat> {
    Unseen(Accounts(listed) + names, {InUse(names, listed), 0})
  }

  /** Deletes the accounts in order up to the first that is stuck; true: all of them. */
  function Deleted(items: Items, stuck: set<nat>, accounts: seq<nat>): (Items, bool)
    decreases |accounts|
  {
    if accounts == [] then (items, true)
    else
      var n := |accounts| - 1;
      var before := Deleted(items, stuck, accounts[..n]);
      if !before.1 || accounts[n] in stuck then (before.0, false) else (before.0 - {accounts[n]}, true)
  }

  lemma {:induction false} DeletedFacts(items: Items, stuck: set<nat>, accounts: seq<nat>)
    ensures var r := Deleted(items, stuck, accounts);
            && r.0.Keys <= items.Keys && (forall a <- r.0 :: r.0[a] == items[a])
            && (forall a <- items :: a !in accounts ==> a in r.0)
            && (r.1 ==> forall a <- accounts :: a !in r.0)
            && (r.1 <==> forall a <- accounts :: a !in stuck)
    decreases |accounts|
  {
    if accounts != [] {
      var n := |accounts| - 1;
      DeletedFacts(items, stuck, accounts[..n]);
      assert accounts == accounts[..n] + [accounts[n]];
    }
  }

  /** Wipe, once the items are listed: the key in use is deleted last. */
  function Wiped(items: Items, stuck: set<nat>, names: seq<nat>, listed: seq<Listed>): (Items, bool) {
    var r := Deleted(items, stuck, Others(names, listed));
    var inUse := InUse(names, listed);
    if !r.1 || inUse == 0 then r
    else if inUse in stuck then (r.0, false)
    else (r.0 - {inUse}, true)
  }

  // ---- what that means ----

  /** A Wipe that failed kept the key in use; one that succeeded left nothing listed or remembered. */
  lemma WipeKeepsInUse(items: Items, stuck: set<nat>, names: seq<nat>, listed: seq<Listed>)
    ensures var r := Wiped(items, stuck, names, listed);
            && (!r.1 && InUse(names, listed) in items ==> InUse(names, listed) in r.0 && r.0[InUse(names, listed)] == items[InUse(names, listed)])
            && (r.1 ==> forall a <- Accounts(listed) + names :: a != 0 ==> a !in r.0)
            && (forall a <- items :: a !in Accounts(listed) + names && a != InUse(names, listed) ==> a in r.0)
  {
    UnseenFacts(Accounts(listed) + names, {InUse(names, listed), 0});
    DeletedFacts(items, stuck, Others(names, listed));
  }

  lemma {:induction false} NewestListed(listed: seq<Listed>)
    requires forall l <- listed :: l.account != 0
    ensures listed != [] ==> Newest(listed) in listed && forall l <- listed :: l.created <= Newest(listed).created
    decreases |listed|
  {
    if listed != [] {
      NewestListed(listed[..|listed| - 1]);
      assert listed == listed[..|listed| - 1] + [listed[|listed| - 1]];
    }
  }

  /** Whatever fails, a Wipe that returns an error leaves f. */
  ghost predicate AllOrNothingFor(items: Items, names: seq<nat>, listed: seq<Listed>, f: nat) {
    forall stuck: set<nat> :: !Wiped(items, stuck, names, listed).1 ==> f in Wiped(items, stuck, names, listed).0
  }

  /**
   The contract CreateReplace relies on, for the item f the state file's key is
   under: Wipe is all or nothing for f exactly when f is not one of the other
   items, that is, when f is the key in use or neither listed nor remembered.
   */
  lemma AllOrNothingExactly(items: Items, names: seq<nat>, listed: seq<Listed>, f: nat)
    requires f in items && f != 0 && (forall l <- listed :: l.account != 0) && 0 !in names
    ensures AllOrNothingFor(items, names, listed, f) <==> f == InUse(names, listed) || f !in Accounts(listed) + names
  {
    var inUse := InUse(names, listed);
    UnseenFacts(Accounts(listed) + names, {inUse, 0});
    if f in Others(names, listed) {
      if names == [] {
        NewestListed(listed);
      }
      UnseenFacts(Accounts(listed) + names, {inUse, 0});
      DeletedFacts(items, {inUse}, Others(names, listed));
      assert !Wiped(items, {inUse}, names, listed).1 && f !in Wiped(items, {inUse}, names, listed).0;
    } else {
      forall stuck: set<nat> ensures !Wiped(items, stuck, names, listed).1 ==> f in Wiped(items, stuck, names, listed).0 {
        DeletedFacts(items, stuck, Others(names, listed));
      }
    }
  }

  /**
   An instance that wrapped under 1, then under 2, and then opened the file
   under 1 again takes 2 for the key in use: a Wipe that fails on 2 has
   deleted 1.
   */
  lemma ReopenedItemIsNotInUse(items: Items, listed: seq<Listed>)
    requires items.Keys == {1, 2} && listed == [Listed(1, items[1].created), Listed(2, items[2].created)]
    ensures var names := Remember(Remember(Remember([], 1), 2), 1);
            InUse(names, listed) == 2 && !Wiped(items, {2}, names, listed).1 && 1 !in Wiped(items, {2}, names, listed).0
  {
    var names := Remember(Remember(Remember([], 1), 2), 1);
    assert names == [1, 2];
    UnseenFacts(Accounts(listed) + names, {2, 0});
    assert 1 in Accounts(listed) + names;
    DeletedFacts(items, {2}, Others(names, listed));
  }

  /** It is the key in use when it was the last to be remembered for the first time. */
  lemma LastRememberedIsInUse(names: seq<nat>, f: nat, listed: seq<Listed>)
    ensures InUse(Remember(names, f), listed) == f <==> f !in names || names[|names| - 1] == f
  {}

  /**
   Where a failed replacement may call the earlier state kept, whatever deletion
   failed: always, if this process opened the file, having remembered nothing
   else; if it only read its header, exactly when f is the newest item listed or
   is not listed.
   */
  lemma ReplacementKeeps(items: Items, listed: seq<Listed>, f: nat)
    requires f in items && f != 0 && forall l <- listed :: l.account != 0
    ensures AllOrNothingFor(items, Remember([], f), listed, f)
    ensures AllOrNothingFor(items, [], listed, f) <==> f == Newest(listed).account || f !in Accounts(listed)
  {
    assert Remember([], f) == [f];
    AllOrNothingExactly(items, [f], listed, f);
    AllOrNothingExactly(items, [], listed, f);
    assert Accounts(listed) + [] == Accounts(listed);
  }

  // ---- the protector ----

  /** The Keychain: what is in it, and which items it does not delete now. */
  class ItemStore {
    var items: Items
    var stuck: set<nat>

    constructor (items: Items, stuck: set<nat>)
      ensures this.items == items && this.stuck == stuck
    {
      this.items, this.stuck := items, stuck;
    }

    method Add(service: nat, kek: nat) returns (name: Option<nat>)
      modifies this`items
      ensures name.None? ==> items == old(items)
      ensures name.Some? ==> name.value !in old(items) && name.value != 0 && name.value in items
                             && items == old(items)[name.value := items[name.value]]
    {
      name := *;
      if name == Some(0) || (name.Some? && name.value in items) {
        name := None;
      }
      if name.Some? {
        var stored: Item := *;
        items := items[name.value := stored];
      }
    }

    /** remove: an item not found counts as removed. */
    method Remove(account: nat) returns (ok: bool)
      requires account != 0
      modifies this`items
      ensures ok <==> account !in stuck
      ensures items == if ok then old(items) - {account} else old(items)
    {
      ok := account !in stuck;
      if ok {
        items := items - {account};
      }
    }

    /** list: each item with this service once, in any order. */
    method List(service: nat) returns (listed: Option<seq<Listed>>)
      ensures listed.Some? ==> IsListing(items, service, listed.value)
    {
      var fails: bool := *;
      if fails {
        return None;
      }
      var out: seq<Listed>, left := [], items.Keys;
      while left != {}
        invariant left <= items.Keys
        invariant forall l <- out :: l.account in items.Keys - left && l.account != 0 && items[l.account].service == service
        invariant forall a <- items.Keys - left :: a != 0 && items[a].service == service ==> exists l <- out :: l.account == a
      {
        var a :| a in left;
        ghost var was := out;
        if a != 0 && items[a].service == service {
          out := out + [Listed(a, items[a].created)];
          assert out[|out| - 1].account == a;
        }
        left := left - {a};
        forall b <- items.Keys - left | b != 0 && items[b].service == service ensures exists l <- out :: l.account == b {
          if b != a {
            var l :| l in was && l.account == b;
            assert l in out;
          }
        }
      }
      return Some(out);
    }
  }

  predicate IsListing(items: Items, service: nat, listed: seq<Listed>) {
    && (forall l <- listed :: l.account in items && l.account != 0 && items[l.account].service == service)
    && (forall a <- items :: a != 0 && items[a].service == service ==> exists l <- listed :: l.account == a)
  }

  /** Unwrap's result, as far as the item decides it. */
  function Unwrapped(items: Items, b: Blob): Option<nat> {
    if b.name in items && items[b.name].thisDeviceOnly && !items[b.name].synchronizable && items[b.name].kek == b.kek
    then Some(b.key) else None
  }

  class Protector {
    const ops: ItemStore
    const service: nat
    var names: seq<nat>

    constructor (ops: ItemStore, service: nat)
      ensures this.ops == ops && this.service == service && names == []
    {
      this.ops, this.service, names := ops, service, [];
    }

    /** Wrap: a new item, checked after it is stored; only then is it remembered. */
    method Wrap(key: nat) returns (b: Option<Blob>)
      modifies this`names, ops`items
      ensures b.None? ==> names == old(names)
      ensures b.Some? ==> names == Remember(old(names), b.value.name) && b.value.name !in old(ops.items)
                          && Unwrapped(ops.items, b.value) == Some(key)
      ensures forall a <- old(ops.items) :: a in ops.items && ops.items[a] == old(ops.items)[a]
    {
      var kek: nat := *;
      var name := ops.Add(service, kek);
      if name.None? {
        return None;
      }
      var item := ops.items[name.value];
      var readable: bool := *;
      if !readable || item.kek != kek || !item.thisDeviceOnly || item.synchronizable || item.service != service {
        var _ := ops.Remove(name.value);
        return None;
      }
      names := Remember(names, name.value);
      b := Some(Blob(name.value, kek, key));
    }

    /** Unwrap: an item opened from another directory is retagged, if the Keychain lets it. */
    method Unwrap(b: Blob) returns (key: Option<nat>)
      modifies this`names, ops`items
      ensures key.Some? ==> key == Unwrapped(old(ops.items), b) && names == Remember(old(names), b.name)
      ensures key.None? ==> names == old(names) && ops.items == old(ops.items)
      ensures ops.items.Keys == old(ops.items).Keys && Unwrapped(ops.items, b) == Unwrapped(old(ops.items), b)
    {
      var fails: bool := *;
      key := if fails then None else Unwrapped(ops.items, b);
      if key.None? {
        return;
      }
      var retags: bool := *;
      if ops.items[b.name].service != service && retags {
        ops.items := ops.items[b.name := ops.items[b.name].(service := service)];
      }
      names := Remember(names, b.name);
    }

    method NewestOf(listed: seq<Listed>) returns (r: nat)
      ensures r == Newest(listed).account
    {
      var best := Listed(0, 0);
      for i := 0 to |listed|
        invariant best == Newest(listed[..i])
      {
        assert listed[..i + 1][..i] == listed[..i];
        if best.account == 0 || listed[i].created > best.created {
          best := listed[i];
        }
      }
      assert listed[..|listed|] == listed;
      r := best.account;
    }

    method OthersOf(s: seq<nat>, skip: set<nat>) returns (others: seq<nat>)
      ensures others == Unseen(s, skip)
    {
      others := [];
      var seen := skip;
      for i := 0 to |s|
        invariant others == Unseen(s[..i], skip) && seen == skip + set a | a in others
      {
        assert s[..i + 1][..i] == s[..i];
        if s[i] !in seen {
          seen := seen + {s[i]};
          others := others + [s[i]];
        }
      }
      assert s[..|s|] == s;
    }

    method DeleteAll(accounts: seq<nat>) returns (ok: bool)
      requires 0 !in accounts
      modifies ops`items
      ensures (ops.items, ok) == Deleted(old(ops.items), ops.stuck, accounts)
    {
      for i := 0 to |accounts|
        invariant (ops.items, true) == Deleted(old(ops.items), ops.stuck, accounts[..i])
      {
        assert accounts[..i + 1][..i] == accounts[..i];
        ok := ops.Remove(accounts[i]);
        if !ok {
          DeleteStops(old(ops.items), ops.stuck, accounts, i);
          return;
        }
      }
      assert accounts[..|accounts|] == accounts;
      ok := true;
    }

    /** Wipe. listed: what the Keychain listed, if it did. */
    method Wipe() returns (ok: bool, ghost listed: Option<seq<Listed>>)
      modifies this`names, ops`items
      ensures listed.None? ==> !ok && names == old(names) && ops.items == old(ops.items)
      ensures listed.Some? ==> IsListing(old(ops.items), service, listed.value)
                               && (ops.items, ok) == Wiped(old(ops.items), ops.stuck, old(names), listed.value)
                               && names == if ok then [] else old(names)
    {
      var found := ops.List(service);
      listed := found;
      if found.None? {
        return false, None;
      }
      var inUse := 0;
      if names != [] {
        inUse := names[|names| - 1];
      } else {
        inUse := NewestOf(found.value);
      }
      var others := OthersOf(Accounts(found.value) + names, {inUse, 0});
      assert others == Others(names, found.value);
      UnseenFacts(Accounts(found.value) + names, {inUse, 0});
      ok := DeleteAll(others);
      if !ok {
        return;
      }
      if inUse != 0 {
        var removed := ops.Remove(inUse);
        if !removed {
          return false, listed;
        }
      }
      names := [];
      ok := true;
    }
  }

  lemma {:induction false} DeleteStops(items: Items, stuck: set<nat>, accounts: seq<nat>, i: nat)
    requires i < |accounts| && !Deleted(items, stuck, accounts[..i + 1]).1
    ensures Deleted(items, stuck, accounts) == Deleted(items, stuck, accounts[..i + 1])
    decreases |accounts|
  {
    if i + 1 < |accounts| {
      assert accounts[..|accounts| - 1][..i + 1] == accounts[..i + 1];
      DeleteStops(items, stuck, accounts[..|accounts| - 1], i);
    } else {
      assert accounts[..i + 1] == accounts;
    }
  }
}
