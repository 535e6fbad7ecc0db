/**
 One LEASH grant: how its wire form is checked (internal/leash/grant.go) and
 how the grants are saved with the state and read back (internal/leash/saved.go).

 Bytes that carry signatures are ideal: a delegation either is a canonical
 encoding of a Delegation or it is not, and a signature names its signer and
 what it signs. Ids are the numbers their ULID text stands for, so that the
 text order is the numeric order.
 */
module Grants {
  import opened Common

  type Id = nat
  type Key = nat

  const ULIDS: nat := 0x1_0000_0000_0000_0000_0000_0000_0000_0000
  const MAX_GRANTS: nat := 32
  const MAX_SCOPE: nat := 64
  const SCOPE_ITEMS := "items.read"
  const SIGNATURE_SIZE: nat := 64
  const SAVED_VERSION: nat := 1

  /** The bounds the leashwire package sets. */
  datatype Limits = Limits(maxList: nat, maxTags: nat, maxUses: nat, maxPerHour: nat, maxPerDay: nat,
                           minStatusTTL: int, maxStatusTTL: int, statusSkew: int, maxRotations: nat)
  {
    /** A status_ttl is a whole number of seconds, at least one, and fits a Duration. */
    predicate Valid() {
      0 < minStatusTTL <= maxStatusTTL < TWO_63 && minStatusTTL % SECOND == 0 && 0 <= statusSkew
    }
  }

  /** The connector the grants are for: its device id and its identity key. */
  datatype Config = Config(deviceID: nat, ik: Key, limits: Limits)

  datatype TimeText = NoText | Stamp(t: Time) | BadText

  /** leashwire reads a delegation's lifetime as a whole number of seconds. */
  type WholeSeconds = t: int | t % SECOND == 0 witness 0

  datatype Delegation = Delegation(iss: Key, sub: Key, statusIssuer: Key, grantID: Id, version: nat, op: string,
                                   approval: string, statusTTL: WholeSeconds, connections: seq<Id>, tags: seq<string>,
                                   match_: string, access: string, uses: nat, limits: Option<(nat, nat)>,
                                   expires: Time)

  datatype DelegationBytes = Canonical(d: Delegation) | NotCanonical

  datatype StatusDoc = StatusDoc(over: Delegation, issuedAt: Time, notAfter: Time)

  datatype StatusBytes = Status(doc: StatusDoc) | NotStatus

  datatype Signature = DelegationSigned(signer: Key, over: Delegation) | StatusSigned(signer: Key, doc: StatusDoc) | Noise(length: nat)
  {
    function Length(): nat { if Noise? then length else SIGNATURE_SIZE }
  }

  /** A signed change of the vault's key. */
  datatype Rotation = Rotation(from: Key, to: Key)

  datatype WireGrant = WireGrant(
    grantID: Id, agentID: nat, version: nat, scope: string, approval: string,
    connections: Option<seq<Id>>, tags: Option<seq<string>>, match_: string, access: string, uses: nat,
    perHour: nat, perDay: nat, expiresAt: TimeText, statusTTL: nat, issuedAt: TimeText,
    delegation: Option<DelegationBytes>, sig: Option<Signature>,
    status: Option<StatusBytes>, statusSig: Option<Signature>, rotations: Option<seq<Option<Rotation>>>)

  datatype Grant = Grant(
    id: Id, agentID: nat, version: nat, scope: string, approval: string,
    connections: Option<seq<Id>>, tags: Option<seq<string>>, match_: string, access: string, uses: nat,
    perHour: nat, perDay: nat, expiresAt: Time, issuedAt: Time, statusTTL: int,
    del: Option<Delegation>, sig: Option<Signature>)
  {
    predicate Expired(now: Time) { expiresAt != 0 && now >= expiresAt }
  }

  function Items<T>(o: Option<seq<T>>): seq<T> {
    if o.Some? then o.value else []
  }

  predicate Lower(c: char) { 'a' <= c <= 'z' }

  predicate Digit(c: char) { '0' <= c <= '9' }

  /** ^[a-z][a-z0-9-]*(\.[a-z][a-z0-9-]*)+$ */
  predicate IsScope(s: string) {
    && |s| > 0 && Lower(s[0]) && '.' in s
    && (forall i | 0 <= i < |s| :: Lower(s[i]) || Digit(s[i]) || s[i] == '-' || s[i] == '.')
    && (forall i | 0 <= i < |s| && s[i] == '.' :: i + 1 < |s| && Lower(s[i + 1]))
  }

  /** ^[a-z0-9][a-z0-9 _-]{0,31}$ */
  predicate IsTag(s: string) {
    && 1 <= |s| <= 32 && (Lower(s[0]) || Digit(s[0]))
    && forall i | 0 <= i < |s| :: Lower(s[i]) || Digit(s[i]) || s[i] == ' ' || s[i] == '_' || s[i] == '-'
  }

  function ParseTime(s: TimeText): Option<Time> {
    if s.Stamp? then Some(s.t) else None
  }

  function FormatTime(t: Time): TimeText { Stamp(t) }

  /** The members other than the delegation, as far as they can be checked without it. */
  predicate MembersOk(c: Config, w: WireGrant, ttl: int) {
    var items := w.scope == SCOPE_ITEMS;
    && w.grantID < ULIDS && c.deviceID != 0 && w.agentID == c.deviceID && w.version >= 1
    && |w.scope| <= MAX_SCOPE && IsScope(w.scope) && (w.approval == "ask" || w.approval == "auto")
    && (w.connections.Some? ==>
          !items && 0 < |w.connections.value| <= c.limits.maxList && forall x <- w.connections.value :: x < ULIDS)
    && (if items then
          && w.tags.Some? && 0 < |w.tags.value| <= c.limits.maxTags && (w.match_ == "any" || w.match_ == "all")
          && w.access == "read" && w.uses <= c.limits.maxUses && forall t <- w.tags.value :: IsTag(t)
        else
          w.tags.None? && w.match_ == "" && w.access == "" && w.uses == 0)
    && (w.perHour == 0 <==> w.perDay == 0) && w.perHour <= c.limits.maxPerHour && w.perDay <= c.limits.maxPerDay
    && (w.perHour != 0 <==> w.approval == "auto" || items)
    && c.limits.minStatusTTL <= ttl <= c.limits.maxStatusTTL
  }

  /** What the members say is what the signed delegation says. */
  predicate SameAsDelegation(g: Grant, d: Delegation) {
    && d.grantID == g.id && d.version == g.version && d.op == g.scope && d.approval == g.approval
    && d.statusTTL == g.statusTTL && d.connections == Items(g.connections) && d.tags == Items(g.tags)
    && d.match_ == g.match_ && d.access == g.access && d.uses == g.uses
    && (if d.limits.None? then g.perHour == 0 else d.limits.value == (g.perHour, g.perDay))
    && (d.expires == 0 <==> g.expiresAt == 0)
    && (d.expires == 0 || d.expires / SECOND == g.expiresAt / SECOND)
  }

  /** time.Duration(w.StatusTTL) * time.Second, in 64 bits. */
  function StatusTTL(w: WireGrant): int { Int64(w.statusTTL * SECOND) }

  function ParseGrant(c: Config, w: WireGrant): (r: Option<Grant>) {
    var ttl := StatusTTL(w);
    var issued := ParseTime(w.issuedAt);
    var expires := if w.expiresAt.NoText? then Some(0) else ParseTime(w.expiresAt);
    if !MembersOk(c, w, ttl) || issued.None? || expires.None? then None
    else
      var g := Grant(w.grantID, w.agentID, w.version, w.scope, w.approval, w.connections, w.tags, w.match_, w.access,
                     w.uses, w.perHour, w.perDay, expires.value, issued.value, ttl, None, None);
      if w.delegation.None? && w.sig.None? then Some(g)
      else if w.sig.None? || w.sig.value.Length() != SIGNATURE_SIZE then None
      else if w.delegation.None? || w.delegation.value.NotCanonical? then None
      else
        var d := w.delegation.value.d;
        if w.sig.value != DelegationSigned(d.iss, d) || !SameAsDelegation(g, d) then None
        else Some(g.(del := Some(d), sig := w.sig))
  }

  method AllIds(ids: seq<Id>) returns (ok: bool)
    ensures ok <==> forall x <- ids :: x < ULIDS
  {
    for i := 0 to |ids|
      invariant forall k | 0 <= k < i :: ids[k] < ULIDS
    {
      if ids[i] >= ULIDS {
        assert ids[i] in ids;
        return false;
      }
    }
    ok := true;
  }

  method AllTags(tags: seq<string>) returns (ok: bool)
    ensures ok <==> forall t <- tags :: IsTag(t)
  {
    for i := 0 to |tags|
      invariant forall k | 0 <= k < i :: IsTag(tags[k])
    {
      if !IsTag(tags[i]) {
        assert tags[i] in tags;
        return false;
      }
    }
    ok := true;
  }

  /** parseGrant's checks of the members, in its order. */
  method CheckMembers(c: Config, w: WireGrant, ttl: int) returns (ok: bool)
    ensures ok <==> MembersOk(c, w, ttl)
  {
    if w.grantID >= ULIDS || c.deviceID == 0 || w.agentID != c.deviceID || w.version < 1 {
      return false;
    }
    if |w.scope| > MAX_SCOPE || !IsScope(w.scope) || (w.approval != "ask" && w.approval != "auto") {
      return false;
    }
    if w.connections.Some? {
      if w.scope == SCOPE_ITEMS || |w.connections.value| == 0 || |w.connections.value| > c.limits.maxList {
        return false;
      }
      var ids := AllIds(w.connections.value);
      if !ids {
        return false;
      }
    }
    if w.scope == SCOPE_ITEMS {
      if |Items(w.tags)| == 0 || |Items(w.tags)| > c.limits.maxTags || (w.match_ != "any" && w.match_ != "all")
         || w.access != "read" || w.uses > c.limits.maxUses {
        return false;
      }
      var tags := AllTags(w.tags.value);
      if !tags {
        return false;
      }
    } else if w.tags.Some? || w.match_ != "" || w.access != "" || w.uses != 0 {
      return false;
    }
    if (w.perHour == 0) != (w.perDay == 0) || w.perHour > c.limits.maxPerHour || w.perDay > c.limits.maxPerDay
       || (w.perHour != 0) != (w.approval == "auto" || w.scope == SCOPE_ITEMS) {
      return false;
    }
    ok := c.limits.minStatusTTL <= ttl <= c.limits.maxStatusTTL;
  }

  method CheckGrant(c: Config, w: WireGrant) returns (r: Option<Grant>)
    ensures r == ParseGrant(c, w)
  {
    var ttl := StatusTTL(w);
    var members := CheckMembers(c, w, ttl);
    if !members || ParseTime(w.issuedAt).None? {
      return None;
    }
    var expires := 0;
    if !w.expiresAt.NoText? {
      if ParseTime(w.expiresAt).None? {
        return None;
      }
      expires := ParseTime(w.expiresAt).value;
    }
    var g := Grant(w.grantID, w.agentID, w.version, w.scope, w.approval, w.connections, w.tags, w.match_, w.access,
                   w.uses, w.perHour, w.perDay, expires, ParseTime(w.issuedAt).value, ttl, None, None);
    if w.delegation.None? && w.sig.None? {
      return Some(g);
    }
    if w.sig.None? || w.sig.value.Length() != SIGNATURE_SIZE || w.delegation.None? || w.delegation.value.NotCanonical? {
      return None;
    }
    var d := w.delegation.value.d;
    if w.sig.value != DelegationSigned(d.iss, d) || !SameAsDelegation(g, d) {
      return None;
    }
    r := Some(g.(del := Some(d), sig := w.sig));
  }

  /** The grant's saved form. */
  function Wire(g: Grant): WireGrant
    requires g.statusTTL >= 0
  {
    WireGrant(g.id, g.agentID, g.version, g.scope, g.approval, g.connections, g.tags, g.match_, g.access, g.uses,
              g.perHour, g.perDay, if g.expiresAt == 0 then NoText else FormatTime(g.expiresAt), g.statusTTL / SECOND,
              FormatTime(g.issuedAt), if g.del.None? then None else Some(Canonical(g.del.value)), g.sig, None, None, None)
  }

  /** g came from a grant the vault sent. */
  ghost predicate Accepted(c: Config, g: Grant) {
    exists w: WireGrant :: ParseGrant(c, w) == Some(g)
  }

  predicate Whole(g: Grant) { g.statusTTL % SECOND == 0 }

  /** g with its status lifetime cut to whole seconds: what its saved form holds. */
  function Truncated(g: Grant): Grant { g.(statusTTL := g.statusTTL - g.statusTTL % SECOND) }

  lemma Int64Small(x: int)
    requires -TWO_63 <= x < TWO_63
    ensures Int64(x) == x
  {}

  /** The saved form of an accepted grant is accepted, as the same grant with its lifetime in whole seconds. */
  lemma WireReads(c: Config, w: WireGrant, g: Grant)
    requires c.limits.Valid() && ParseGrant(c, w) == Some(g)
    ensures g.statusTTL >= 0 && ParseGrant(c, Wire(g)) == Some(Truncated(g))
  {
    var v := Wire(g);
    assert v.statusTTL * SECOND == g.statusTTL - g.statusTTL % SECOND;
    Int64Small(v.statusTTL * SECOND);
    assert StatusTTL(v) == Truncated(g).statusTTL;
    assert MembersOk(c, v, Truncated(g).statusTTL);
  }

  /**
   Saving an accepted grant and reading it back gives the same grant exactly
   when its status lifetime is a whole number of seconds.
   */
  lemma WireReproduces(c: Config, w: WireGrant, g: Grant)
    requires c.limits.Valid() && ParseGrant(c, w) == Some(g)
    ensures g.statusTTL >= 0
    ensures ParseGrant(c, Wire(g)) == Some(g) <==> Whole(g)
  {
    WireReads(c, w, g);
  }

  /** The wire value decides it: any status_ttl that does not overflow 64 bits is reproduced. */
  lemma WireReproducesInRange(c: Config, w: WireGrant, g: Grant)
    requires c.limits.Valid() && ParseGrant(c, w) == Some(g)
    requires w.statusTTL * SECOND < TWO_63
    ensures g.statusTTL == w.statusTTL * SECOND && ParseGrant(c, Wire(g)) == Some(g)
  {
    Int64Small(w.statusTTL * SECOND);
    WireReproduces(c, w, g);
  }

  /**
   A status_ttl whose 64-bit product wraps to a fraction of a second is
   accepted without a delegation, and is not what is read back.
   */
  lemma WireOverflowExample(c: Config, w: WireGrant)
    requires c.limits.Valid() && c.limits.minStatusTTL == MINUTE && c.limits.maxStatusTTL >= 2 * MINUTE && c.deviceID != 0
    requires w == WireGrant(1, c.deviceID, 1, "message.send", "ask", None, None, "", "", 0, 0, 0, NoText,
                            20211507185753257, Stamp(5), None, None, None, None, None)
    ensures ParseGrant(c, w).Some? && ParseGrant(c, w).value.statusTTL == 60_000_000_512
    ensures ParseGrant(c, Wire(ParseGrant(c, w).value)).Some?
    ensures ParseGrant(c, Wire(ParseGrant(c, w).value)).value.statusTTL == MINUTE
  {
    var s := "message.send";
    assert s[7] == '.';
    assert IsScope(s);
    assert StatusTTL(w) == 60_000_000_512;
    var g := ParseGrant(c, w).value;
    assert Wire(g).statusTTL == 60;
    assert StatusTTL(Wire(g)) == MINUTE;
  }

  // ---- status statements ----

  datatype Statement = Statement(doc: StatusDoc, sig: Signature, rotations: seq<Rotation>)
  {
    function IssuedAt(): Time { doc.issuedAt }
    function NotAfter(): Time { doc.notAfter }
    function TTL(): int { doc.notAfter - doc.issuedAt }

    /** When less than a quarter of the lifetime, and at least a minute, remains. */
    function RefreshAt(): Time { doc.notAfter - Max(Quarter(TTL()), MINUTE) }
  }

  /** Go's d/4, which truncates toward zero. */
  function Quarter(d: int): int { if d >= 0 then d / 4 else -((-d) / 4) }

  /** The key k became through the rotations, if each continues the one before. */
  function Rotated(k: Key, rots: seq<Rotation>): Option<Key>
    decreases |rots|
  {
    if rots == [] then Some(k)
    else if rots[0].from != k then None
    else Rotated(rots[0].to, rots[1..])
  }

  /** st is a statement of the delegation's status issuer about exactly this delegation, living no longer than it allows. */
  predicate Proves(d: Delegation, st: Statement) {
    && st.doc.over == d && Rotated(d.statusIssuer, st.rotations).Some?
    && st.sig == StatusSigned(Rotated(d.statusIssuer, st.rotations).value, st.doc)
    && st.TTL() <= d.statusTTL
  }

  predicate Current(l: Limits, st: Statement, now: Time) {
    st.IssuedAt() - l.statusSkew <= now < st.NotAfter()
  }

  function Known(rots: seq<Option<Rotation>>): Option<seq<Rotation>>
    decreases |rots|
  {
    if rots == [] then Some([])
    else
      var n := |rots| - 1;
      var r := Known(rots[..n]);
      if r.None? || rots[n].None? then None else Some(r.value + [rots[n].value])
  }

  lemma {:induction false} KnownStops(rots: seq<Option<Rotation>>, i: nat)
    requires i < |rots| && Known(rots[..i + 1]).None?
    ensures Known(rots).None?
    decreases |rots|
  {
    if i + 1 < |rots| {
      assert rots[..|rots| - 1][..i + 1] == rots[..i + 1];
      KnownStops(rots[..|rots| - 1], i);
    } else {
      assert rots[..i + 1] == rots;
    }
  }

  /** What checkStatement accepts. */
  function Checked(l: Limits, g: Grant, status: Option<StatusBytes>, sig: Option<Signature>, rots: seq<Option<Rotation>>,
                   now: Time): (r: Option<Statement>)
    ensures r.Some? ==> g.del.Some? && Proves(g.del.value, r.value) && Current(l, r.value, now)
  {
    var known := Known(rots);
    if g.del.None? || sig.None? || sig.value.Length() != SIGNATURE_SIZE || |rots| > l.maxRotations then None
    else if known.None? || status.None? || status.value.NotStatus? then None
    else
      var st := Statement(status.value.doc, sig.value, known.value);
      if Proves(g.del.value, st) && Current(l, st, now) then Some(st) else None
  }

  method CheckStatement(l: Limits, g: Grant, status: Option<StatusBytes>, sig: Option<Signature>,
                        rots: seq<Option<Rotation>>, now: Time) returns (r: Option<Statement>)
    ensures r == Checked(l, g, status, sig, rots, now)
  {
    if g.del.None? || sig.None? || sig.value.Length() != SIGNATURE_SIZE || |rots| > l.maxRotations {
      return None;
    }
    var known: seq<Rotation> := [];
    for i := 0 to |rots|
      invariant Known(rots[..i]) == Some(known)
    {
      assert rots[..i + 1][..i] == rots[..i];
      if rots[i].None? {
        KnownStops(rots, i);
        return None;
      }
      known := known + [rots[i].value];
    }
    assert rots[..|rots|] == rots;
    if status.None? || status.value.NotStatus? {
      return None;
    }
    var st := Statement(status.value.doc, sig.value, known);
    return if Proves(g.del.value, st) && Current(l, st, now) then Some(st) else None;
  }

  // ---- sequences of grants ----

  predicate Sorted(gs: seq<Grant>) {
    forall i, j | 0 <= i < j < |gs| :: gs[i].id < gs[j].id
  }

  predicate Distinct(gs: seq<Grant>) {
    forall i, j | 0 <= i < j < |gs| :: gs[i].id != gs[j].id
  }

  lemma SortedSnoc(r: seq<Grant>, g: Grant)
    requires Sorted(r) && forall h <- r :: h.id < g.id
    ensures Sorted(r + [g])
  {}

  lemma {:induction false} FilterSorted(p: Grant -> bool, gs: seq<Grant>)
    requires Sorted(gs)
    ensures Sorted(Filter(p, gs))
    decreases |gs|
  {
    if gs != [] {
      var n := |gs| - 1;
      FilterSorted(p, gs[..n]);
      if p(gs[n]) {
        forall x <- Filter(p, gs[..n]) ensures x.id < gs[n].id {
          FilterFacts(p, gs[..n]);
          var k :| 0 <= k < n && gs[k] == x;
        }
        SortedSnoc(Filter(p, gs[..n]), gs[n]);
      }
    }
  }

  lemma DistinctSnoc(r: seq<Grant>, g: Grant)
    requires Distinct(r) && forall h <- r :: h.id != g.id
    ensures Distinct(r + [g])
  {}

  lemma {:induction false} FilterDistinct(p: Grant -> bool, gs: seq<Grant>)
    requires Distinct(gs)
    ensures Distinct(Filter(p, gs))
    decreases |gs|
  {
    if gs != [] {
      var n := |gs| - 1;
      FilterDistinct(p, gs[..n]);
      if p(gs[n]) {
        forall x <- Filter(p, gs[..n]) ensures x.id != gs[n].id {
          FilterFacts(p, gs[..n]);
          var k :| 0 <= k < n && gs[k] == x;
        }
        DistinctSnoc(Filter(p, gs[..n]), gs[n]);
      }
    }
  }

  lemma FilterOrder(p: Grant -> bool, gs: seq<Grant>)
    ensures Sorted(gs) ==> Sorted(Filter(p, gs))
    ensures Distinct(gs) ==> Distinct(Filter(p, gs))
  {
    if Sorted(gs) {
      FilterSorted(p, gs);
    }
    if Distinct(gs) {
      FilterDistinct(p, gs);
    }
  }

  function Find(gs: seq<Grant>, id: Id): Option<Grant> {
    if gs == [] then None
    else if gs[0].id == id then Some(gs[0])
    else Find(gs[1..], id)
  }

  lemma {:induction false} FindFacts(gs: seq<Grant>, id: Id)
    ensures Find(gs, id).Some? ==> Find(gs, id).value in gs && Find(gs, id).value.id == id
    ensures Find(gs, id).None? ==> forall g <- gs :: g.id != id
  {
    if gs != [] && gs[0].id != id {
      FindFacts(gs[1..], id);
    }
  }

  function Insert(gs: seq<Grant>, g: Grant): seq<Grant> {
    if gs == [] || g.id < gs[0].id then [g] + gs else [gs[0]] + Insert(gs[1..], g)
  }

  /** slices.SortFunc by id. */
  function SortById(gs: seq<Grant>): seq<Grant>
    decreases |gs|
  {
    if gs == [] then [] else Insert(SortById(gs[..|gs| - 1]), gs[|gs| - 1])
  }

  lemma {:induction false} InsertFacts(gs: seq<Grant>, g: Grant)
    requires Sorted(gs) && forall x <- gs :: x.id != g.id
    ensures var r := Insert(gs, g); Sorted(r) && |r| == |gs| + 1 && forall x :: x in r <==> x in gs || x == g
  {
    if !(gs == [] || g.id < gs[0].id) {
      InsertFacts(gs[1..], g);
      var rest := Insert(gs[1..], g);
      assert forall x :: x in gs <==> x == gs[0] || x in gs[1..];
      assert forall x <- rest :: gs[0].id < x.id;
    }
  }

  lemma {:induction false} SortFacts(gs: seq<Grant>)
    requires Distinct(gs)
    ensures var r := SortById(gs); Sorted(r) && |r| == |gs| && forall x :: x in r <==> x in gs
    decreases |gs|
  {
    if gs != [] {
      var n := |gs| - 1;
      SortFacts(gs[..n]);
      assert gs == gs[..n] + [gs[n]];
      forall x <- SortById(gs[..n]) ensures x.id != gs[n].id {
        var k :| 0 <= k < n && gs[k] == x;
      }
      InsertFacts(SortById(gs[..n]), gs[n]);
    }
  }

  lemma SortedFirst(gs: seq<Grant>, g: Grant)
    requires Sorted(gs) && g in gs
    ensures gs[0] == g || gs[0].id < g.id
  {}

  lemma {:induction false} SortedUnique(a: seq<Grant>, b: seq<Grant>)
    requires Sorted(a) && Sorted(b) && |a| == |b| && forall x :: x in a <==> x in b
    ensures a == b
    decreases |a|
  {
    if a != [] {
      assert a[0] in b;
      SortedFirst(b, a[0]);
      assert b[0] in a;
      SortedFirst(a, b[0]);
      forall x ensures x in a[1..] <==> x in b[1..] {
        assert x in a <==> x == a[0] || x in a[1..];
        assert x in b <==> x == b[0] || x in b[1..];
        assert a[0] !in a[1..] && b[0] !in b[1..];
      }
      SortedUnique(a[1..], b[1..]);
    }
  }

  // ---- the saved form ----

  datatype Saved = Saved(grants: seq<Grant>, suspended: bool, asOf: Time)

  datatype SavedJSON = SavedJSON(v: nat, asOf: Time, suspended: bool, grants: seq<Option<WireGrant>>)

  /** The record's `leash` member: JSON of the expected form, or anything else. */
  datatype SavedBytes = Strict(json: SavedJSON) | NotStrict

  predicate Encodable(gs: seq<Grant>) { forall g <- gs :: g.statusTTL >= 0 }

  function WireAll(gs: seq<Grant>): (ws: seq<Option<WireGrant>>)
    requires Encodable(gs)
    ensures |ws| == |gs| && forall i | 0 <= i < |gs| :: ws[i] == Some(Wire(gs[i]))
  {
    seq(|gs|, i requires 0 <= i < |gs| => Some(Wire(gs[i])))
  }

  function Encode(s: Saved): SavedBytes
    requires Encodable(s.grants)
  {
    Strict(SavedJSON(SAVED_VERSION, s.asOf, s.suspended, WireAll(s.grants)))
  }

  method EncodeSaved(gs: seq<Grant>, suspended: bool, asOf: Time) returns (r: SavedBytes)
    requires Encodable(gs)
    ensures r == Encode(Saved(gs, suspended, asOf))
  {
    var ws: seq<Option<WireGrant>> := [];
    for i := 0 to |gs|
      invariant |ws| == i && forall k | 0 <= k < i :: ws[k] == Some(Wire(gs[k]))
    {
      ws := ws + [Some(Wire(gs[i]))];
    }
    assert ws == WireAll(gs);
    r := Strict(SavedJSON(SAVED_VERSION, asOf, suspended, ws));
  }

  predicate NoStatus(w: WireGrant) { w.status.None? && w.statusSig.None? && w.rotations.None? }

  type Parser = WireGrant -> Option<Grant>

  /** parseGrant for one agent, as a value. */
  function ParserFor(c: Config): Parser { w => ParseGrant(c, w) }

  /** The grants of a saved member in the order they were read, all of them or none. */
  function ReadAll(parse: Parser, ws: seq<Option<WireGrant>>): Option<seq<Grant>>
    decreases |ws|
  {
    if ws == [] then Some([])
    else
      var n := |ws| - 1;
      var before := ReadAll(parse, ws[..n]);
      if before.None? || ws[n].None? || !NoStatus(ws[n].value) then None
      else
        var g := parse(ws[n].value);
        if g.None? || Find(before.value, g.value.id).Some? then None else Some(before.value + [g.value])
  }

  lemma {:induction false} ReadFacts(parse: Parser, ws: seq<Option<WireGrant>>)
    requires ReadAll(parse, ws).Some?
    ensures var r := ReadAll(parse, ws).value;
            |r| == |ws| && Distinct(r) && forall i | 0 <= i < |ws| :: Reads(parse, ws[i], r[i])
    decreases |ws|
  {
    if ws != [] {
      var n := |ws| - 1;
      ReadFacts(parse, ws[..n]);
      var before := ReadAll(parse, ws[..n]).value;
      var g := parse(ws[n].value).value;
      FindFacts(before, g.id);
      assert forall i | 0 <= i < n :: Reads(parse, ws[i], before[i]) by {
        assert forall i | 0 <= i < n :: ws[..n][i] == ws[i];
      }
    }
  }

  predicate Reads(parse: Parser, w: Option<WireGrant>, g: Grant) {
    w.Some? && NoStatus(w.value) && parse(w.value) == Some(g)
  }

  function Decode(parse: Parser, raw: SavedBytes): Option<Saved> {
    if raw.NotStrict? || raw.json.v != SAVED_VERSION || raw.json.asOf == 0 || |raw.json.grants| > MAX_GRANTS then None
    else
      var gs := ReadAll(parse, raw.json.grants);
      if gs.None? then None else Some(Saved(SortById(gs.value), raw.json.suspended, raw.json.asOf))
  }

  /** What is read back is in order, dated, within bounds, and each grant is one the vault could have sent. */
  lemma DecodeFacts(parse: Parser, raw: SavedBytes)
    requires Decode(parse, raw).Some?
    ensures var s := Decode(parse, raw).value;
            && s.asOf != 0 && |s.grants| <= MAX_GRANTS && Sorted(s.grants)
            && forall g <- s.grants :: exists w :: parse(w) == Some(g)
  {
    ReadFacts(parse, raw.json.grants);
    var gs := ReadAll(parse, raw.json.grants).value;
    SortFacts(gs);
    forall g <- SortById(gs) ensures exists w :: parse(w) == Some(g) {
      var i :| 0 <= i < |gs| && gs[i] == g;
      assert Reads(parse, raw.json.grants[i], gs[i]);
    }
  }

  method DecodeSaved(parse: Parser, raw: SavedBytes) returns (r: Option<Saved>)
    ensures r == Decode(parse, raw)
  {
    if raw.NotStrict? || raw.json.v != SAVED_VERSION || raw.json.asOf == 0 || |raw.json.grants| > MAX_GRANTS {
      return None;
    }
    var gs := ReadGrants(parse, raw.json.grants);
    r := if gs.None? then None else Some(Saved(SortById(gs.value), raw.json.suspended, raw.json.asOf));
  }

  method ReadGrants(parse: Parser, ws: seq<Option<WireGrant>>) returns (r: Option<seq<Grant>>)
    ensures r == ReadAll(parse, ws)
  {
    var gs: seq<Grant> := [];
    for i := 0 to |ws|
      invariant ReadAll(parse, ws[..i]) == Some(gs)
    {
      assert ws[..i + 1][..i] == ws[..i];
      var g: Option<Grant> := None;
      if ws[i].Some? && NoStatus(ws[i].value) {
        g := parse(ws[i].value);
      }
      if g.None? || Find(gs, g.value.id).Some? {
        ReadAllStops(parse, ws, i);
        return None;
      }
      gs := gs + [g.value];
    }
    assert ws[..|ws|] == ws;
    r := Some(gs);
  }

  lemma {:induction false} ReadAllStops(parse: Parser, ws: seq<Option<WireGrant>>, i: nat)
    requires i < |ws| && ReadAll(parse, ws[..i + 1]).None?
    ensures ReadAll(parse, ws).None?
    decreases |ws|
  {
    if i + 1 < |ws| {
      assert ws[..|ws| - 1][..i + 1] == ws[..i + 1];
      ReadAllStops(parse, ws[..|ws| - 1], i);
    } else {
      assert ws[..i + 1] == ws;
    }
  }

  lemma {:induction false} ReadAllIs(parse: Parser, ws: seq<Option<WireGrant>>, gs: seq<Grant>)
    requires |ws| == |gs| && Distinct(gs) && forall i | 0 <= i < |ws| :: Reads(parse, ws[i], gs[i])
    ensures ReadAll(parse, ws) == Some(gs)
    decreases |gs|
  {
    if gs != [] {
      var n := |gs| - 1;
      ReadAllIs(parse, ws[..n], gs[..n]);
      assert Reads(parse, ws[n], gs[n]);
      FindFacts(gs[..n], gs[n].id);
      assert gs == gs[..n] + [gs[n]];
    }
  }

  /** Every grant as its saved form holds it. */
  function TruncatedAll(gs: seq<Grant>): (r: seq<Grant>)
    ensures |r| == |gs| && forall i | 0 <= i < |gs| :: r[i] == Truncated(gs[i])
  {
    seq(|gs|, i requires 0 <= i < |gs| => Truncated(gs[i]))
  }

  /** A held grant can be written, and reads back with its lifetime in whole seconds. */
  ghost predicate ReadsBack(parse: Parser, g: Grant) { g.statusTTL >= 0 && Reads(parse, Some(Wire(g)), Truncated(g)) }

  lemma AcceptedReadsBack(c: Config, g: Grant)
    requires c.limits.Valid() && Accepted(c, g)
    ensures ReadsBack(ParserFor(c), g)
  {
    var w: WireGrant :| ParseGrant(c, w) == Some(g);
    WireReads(c, w, g);
  }

  /** The whole member reads back, in its order, each grant with its lifetime in whole seconds. */
  lemma DecodeEncode(parse: Parser, s: Saved)
    requires s.asOf != 0 && |s.grants| <= MAX_GRANTS && Sorted(s.grants) && forall g <- s.grants :: ReadsBack(parse, g)
    ensures Encodable(s.grants) && Decode(parse, Encode(s)) == Some(s.(grants := TruncatedAll(s.grants)))
  {
    var back := TruncatedAll(s.grants);
    forall i | 0 <= i < |back| ensures Reads(parse, WireAll(s.grants)[i], back[i]) {
      assert ReadsBack(parse, s.grants[i]);
    }
    ReadAllIs(parse, WireAll(s.grants), back);
    SortFacts(back);
    SortedUnique(SortById(back), back);
  }

  lemma TruncatedSame(gs: seq<Grant>)
    ensures TruncatedAll(gs) == gs <==> forall g <- gs :: Whole(g)
  {
    forall i | 0 <= i < |gs| ensures TruncatedAll(gs)[i] == gs[i] <==> Whole(gs[i]) {}
    if forall g <- gs :: Whole(g) {
      assert forall i | 0 <= i < |gs| :: Whole(gs[i]);
    }
  }

  /**
   Reading back what was saved gives the same grants in the same order, the
   same suspension and the same time, exactly when every grant's status
   lifetime is a whole number of seconds; the others come back with the
   fraction cut off.
   */
  lemma SavedRoundTrip(c: Config, s: Saved)
    requires c.limits.Valid() && s.asOf != 0 && |s.grants| <= MAX_GRANTS && Sorted(s.grants)
    requires forall g <- s.grants :: Accepted(c, g)
    ensures Encodable(s.grants) && Decode(ParserFor(c), Encode(s)) == Some(s.(grants := TruncatedAll(s.grants)))
    ensures Decode(ParserFor(c), Encode(s)) == Some(s) <==> forall g <- s.grants :: Whole(g)
  {
    forall g <- s.grants ensures ReadsBack(ParserFor(c), g) {
      AcceptedReadsBack(c, g);
    }
    DecodeEncode(ParserFor(c), s);
    TruncatedSame(s.grants);
  }
}
