/**
 * Tenant subscriptions kept under `data["tenants"]` (services/tenant.py): creation with an
 * expiry date, lookup of the tenant that owns a group, the validity check, adding a group to a
 * tenant and the usage counters. Time is an integer number of seconds; the token generator is
 * a parameter.
 */
module TenantStore {
  import opened Wrappers
  import opened Data

  const SecondsPerDay: int := 86400

  /** The record `create_tenant` writes: the given token, expiry 30 days per month from now, no
    * groups and zero counters. */
  function NewTenant(token: string, now: int, months: int): (rec: TenantRecord)
    ensures rec.groups == [] && rec.translateCount == 0 && rec.charCount == 0
    ensures rec.expiresAt == Some(now + 30 * months * SecondsPerDay)
  {
    TenantRecord(token, Some(now + 30 * months * SecondsPerDay), [], 0, 0, now)
  }

  /** Writing back the record a key already has changes nothing. */
  lemma PutSame(t: TenantTable, u: UserId)
    requires u in Keys(t)
    ensures Put(t, u, Lookup(t, u).value) == t
  {
    var k := KeyIndex(t, u);
    assert t[k := TenantEntry(u, t[k].record)] == t;
  }

  /** A second write to the same key replaces the first. */
  lemma PutPut(t: TenantTable, u: UserId, r1: TenantRecord, r2: TenantRecord)
    ensures Put(Put(t, u, r1), u, r2) == Put(t, u, r2)
  {
    var t1 := Put(t, u, r1);
    if u in Keys(t) {
      SameKeysSameIndex(t, t1, u);
    } else {
      assert KeyIndex(t1, u) == |t| by {
        assert t1 == t + [TenantEntry(u, r1)];
      }
    }
  }

  /** `create_tenant(user_id, months)`: the user's record is replaced by a fresh one (an
    * existing user keeps their place in the table, a new one goes last), no other tenant
    * changes, and the token and the expiry are returned. */
  method CreateTenant(store: DataStore, userId: UserId, months: int, token: string, now: int)
    returns (tok: string, expiresAt: int)
    modifies store
    ensures old(store.Valid()) ==> store.Valid()
    ensures store.data == old(store.data).(tenants := Put(old(store.data.tenants), userId, NewTenant(token, now, months)))
    ensures Lookup(store.data.tenants, userId) == Some(NewTenant(token, now, months))
    ensures forall v :: v != userId ==> Lookup(store.data.tenants, v) == Lookup(old(store.data.tenants), v)
    ensures tok == token && expiresAt == now + 30 * months * SecondsPerDay
  {
    var rec := NewTenant(token, now, months);
    store.data := store.data.(tenants := Put(store.data.tenants, userId, rec));
    tok, expiresAt := token, rec.expiresAt.value;
  }

  /** The first tenant, in table order, whose group list holds `g`. */
  function FirstOwner(t: TenantTable, g: GroupId): (r: Option<TenantEntry>)
    ensures r.None? <==> forall i :: 0 <= i < |t| ==> g !in t[i].record.groups
    ensures r.Some? ==> exists i :: 0 <= i < |t| && t[i] == r.value
                          && g in t[i].record.groups
                          && forall j :: 0 <= j < i ==> g !in t[j].record.groups
  {
    if t == [] then None
    else if g in t[0].record.groups then Some(t[0])
    else
      var r := FirstOwner(t[1..], g);
      assert r.Some? ==> exists i :: 0 <= i < |t| && t[i] == r.value
                          && g in t[i].record.groups
                          && forall j :: 0 <= j < i ==> g !in t[j].record.groups by {
        if r.Some? {
          var i :| 0 <= i < |t[1..]| && t[1..][i] == r.value && g in t[1..][i].record.groups
                   && forall j :: 0 <= j < i ==> g !in t[1..][j].record.groups;
          assert t[i + 1] == r.value;
          assert forall j :: 0 <= j < i + 1 ==> g !in t[j].record.groups by {
            forall j | 0 <= j < i + 1 ensures g !in t[j].record.groups {
              if j > 0 { assert t[j] == t[1..][j - 1]; }
            }
          }
        }
      }
      r
  }

  /** `get_tenant_by_group(group_id)`: walks the tenants in insertion order and returns the
    * first whose groups hold `groupId`, or None. */
  method GetTenantByGroup(store: DataStore, groupId: GroupId) returns (owner: Option<TenantEntry>)
    ensures owner == FirstOwner(store.data.tenants, groupId)
    ensures store.Valid() && owner.Some? ==>
      Lookup(store.data.tenants, owner.value.userId) == Some(owner.value.record)
  {
    var tenants := store.data.tenants;
    var i := 0;
    while i < |tenants|
      invariant 0 <= i <= |tenants|
      invariant forall j :: 0 <= j < i ==> groupId !in tenants[j].record.groups
    {
      if groupId in tenants[i].record.groups {
        FirstOwnerAt(tenants, groupId, i);
        if store.Valid() {
          OwnerIsLookedUp(tenants, groupId);
        }
        return Some(tenants[i]);
      }
      i := i + 1;
    }
    return None;
  }

  /** With unique keys, the owner `FirstOwner` names is the record stored under its user id, so
    * a stats update for that user changes that very entry. */
  lemma OwnerIsLookedUp(t: TenantTable, g: GroupId)
    requires UniqueKeys(t) && FirstOwner(t, g).Some?
    ensures Lookup(t, FirstOwner(t, g).value.userId) == Some(FirstOwner(t, g).value.record)
  {
    var owner := FirstOwner(t, g).value;
    var k :| 0 <= k < |t| && t[k] == owner && g in t[k].record.groups
             && forall j :: 0 <= j < k ==> g !in t[j].record.groups;
    assert Keys(t)[k] == owner.userId;
    var i := KeyIndex(t, owner.userId);
    assert i == k;
  }

  /** The first entry holding the group is the one `FirstOwner` names. */
  lemma FirstOwnerAt(t: TenantTable, g: GroupId, i: nat)
    requires i < |t| && g in t[i].record.groups
    requires forall j :: 0 <= j < i ==> g !in t[j].record.groups
    ensures FirstOwner(t, g) == Some(t[i])
  {
    var r := FirstOwner(t, g);
    var k :| 0 <= k < |t| && t[k] == r.value && g in t[k].record.groups
             && forall j :: 0 <= j < k ==> g !in t[j].record.groups;
    assert k == i;
  }

  /** `is_tenant_valid(user_id)`: the user has a record with a readable expiry that is still
    * strictly in the future. */
  function IsTenantValid(t: TenantTable, userId: UserId, now: int): (valid: bool)
    ensures valid ==> userId in Keys(t)
    ensures valid <==> (exists e :: Lookup(t, userId).Some? && Lookup(t, userId).value.expiresAt == Some(e) && now < e)
  {
    match Lookup(t, userId)
    case None => false
    case Some(rec) =>
      match rec.expiresAt
      case None => false
      case Some(e) => now < e
  }

  /** A tenant created at `now` for `months` months is valid exactly until 30·months days later. */
  lemma ValidAfterCreate(t: TenantTable, u: UserId, token: string, now: int, months: int, later: int)
    ensures IsTenantValid(Put(t, u, NewTenant(token, now, months)), u, later)
            <==> later < now + 30 * months * SecondsPerDay
  {
  }

  /** The group list after `add_group_to_tenant`: appended once, if not already there. */
  function AddedGroup(groups: seq<GroupId>, g: GroupId): (r: seq<GroupId>)
    ensures g in r
    ensures g in groups ==> r == groups
    ensures g !in groups ==> r == groups + [g] && multiset(r)[g] == 1
    ensures (forall i, j :: 0 <= i < j < |groups| ==> groups[i] != groups[j]) ==>
            (forall i, j :: 0 <= i < j < |r| ==> r[i] != r[j])
  {
    if g in groups then groups else groups + [g]
  }

  /** The tenants table after `add_group_to_tenant(user_id, g)`. */
  function WithGroup(t: TenantTable, u: UserId, g: GroupId): (r: TenantTable)
    ensures Keys(r) == Keys(t)
    ensures u in Keys(t) ==> Lookup(r, u).value.groups == AddedGroup(Lookup(t, u).value.groups, g)
    ensures u in Keys(t) ==> Lookup(r, u).value == Lookup(t, u).value.(groups := Lookup(r, u).value.groups)
    ensures forall v :: v != u ==> Lookup(r, v) == Lookup(t, v)
    ensures UniqueKeys(t) ==> UniqueKeys(r)
  {
    match Lookup(t, u)
    case None => t
    case Some(rec) => Put(t, u, rec.(groups := AddedGroup(rec.groups, g)))
  }

  /** Adding the same group twice is adding it once. */
  lemma WithGroupIdempotent(t: TenantTable, u: UserId, g: GroupId)
    ensures WithGroup(WithGroup(t, u, g), u, g) == WithGroup(t, u, g)
  {
    if u in Keys(t) {
      PutSame(WithGroup(t, u, g), u);
    }
  }

  /** `add_group_to_tenant(user_id, group_id)`: False with nothing changed for an unknown user;
    * otherwise True, and the group is in that tenant's list exactly once if it was not there
    * before. There is no quota check, and other tenants' lists are not touched, even if they
    * also hold the group. */
  method AddGroupToTenant(store: DataStore, userId: UserId, groupId: GroupId) returns (ok: bool)
    modifies store
    ensures old(store.Valid()) ==> store.Valid()
    ensures ok <==> userId in Keys(old(store.data.tenants))
    ensures store.data == old(store.data).(tenants := WithGroup(old(store.data.tenants), userId, groupId))
    ensures !ok ==> store.data == old(store.data)
    ensures ok ==> groupId in Lookup(store.data.tenants, userId).value.groups
    ensures forall v :: v != userId ==> Lookup(store.data.tenants, v) == Lookup(old(store.data.tenants), v)
  {
    var rec := Lookup(store.data.tenants, userId);
    if rec.None? {
      return false;
    }
    if groupId !in rec.value.groups {
      var updated := rec.value.(groups := rec.value.groups + [groupId]);
      store.data := store.data.(tenants := Put(store.data.tenants, userId, updated));
    } else {
      PutSame(store.data.tenants, userId);
    }
    return true;
  }

  /** The tenants table after `update_tenant_stats(user_id, dt, dc)`. */
  function WithUsage(t: TenantTable, u: UserId, dt: int, dc: int): (r: TenantTable)
    ensures Keys(r) == Keys(t)
    ensures u in Keys(t) ==>
      var before, after := Lookup(t, u).value, Lookup(r, u).value;
      after == before.(translateCount := before.translateCount + dt, charCount := before.charCount + dc)
    ensures forall v :: v != u ==> Lookup(r, v) == Lookup(t, v)
    ensures UniqueKeys(t) ==> UniqueKeys(r)
  {
    match Lookup(t, u)
    case None => t
    case Some(rec) =>
      Put(t, u, rec.(translateCount := rec.translateCount + dt, charCount := rec.charCount + dc))
  }

  /** Two usage updates for one tenant add up to one update with the summed deltas. */
  lemma WithUsageAdds(t: TenantTable, u: UserId, a: int, b: int, c: int, d: int)
    ensures WithUsage(WithUsage(t, u, a, b), u, c, d) == WithUsage(t, u, a + c, b + d)
  {
    if u in Keys(t) {
      var rec := Lookup(t, u).value;
      PutPut(t, u, rec.(translateCount := rec.translateCount + a, charCount := rec.charCount + b),
             rec.(translateCount := rec.translateCount + a + c, charCount := rec.charCount + b + d));
    }
  }

  /** A usage update of zero changes nothing. */
  lemma WithUsageZero(t: TenantTable, u: UserId)
    ensures WithUsage(t, u, 0, 0) == t
  {
    if u in Keys(t) {
      PutSame(t, u);
    }
  }

  /** The user id of the first tenant holding `g`: what `get_tenant_by_group` returns first. */
  function OwnerId(t: TenantTable, g: GroupId): Option<UserId> {
    match FirstOwner(t, g)
    case None => None
    case Some(e) => Some(e.userId)
  }

  /** Two tables that agree, entry by entry, on user ids and group lists have the same owner
    * for every group. */
  lemma SameOwners(t: TenantTable, t': TenantTable, g: GroupId)
    requires |t| == |t'|
    requires forall i :: 0 <= i < |t| ==> t[i].userId == t'[i].userId && t[i].record.groups == t'[i].record.groups
    ensures OwnerId(t, g) == OwnerId(t', g)
  {
    var r := FirstOwner(t, g);
    if r.Some? {
      var i :| 0 <= i < |t| && t[i] == r.value && g in t[i].record.groups
               && forall j :: 0 <= j < i ==> g !in t[j].record.groups;
      FirstOwnerAt(t', g, i);
    }
  }

  /** Counting usage never moves a group to another owner. */
  lemma UsageKeepsOwner(t: TenantTable, u: UserId, dt: int, dc: int, g: GroupId)
    ensures OwnerId(WithUsage(t, u, dt, dc), g) == OwnerId(t, g)
  {
    if u in Keys(t) {
      SameOwners(t, WithUsage(t, u, dt, dc), g);
    }
  }

  /** `update_tenant_stats(user_id, translate_count, char_count)`: adds the deltas to that
    * tenant's counters (absent counters count as 0); does nothing for an unknown user; no
    * other tenant changes. With non-negative deltas the counters never decrease. */
  method UpdateTenantStats(store: DataStore, userId: UserId, translateCount: int, charCount: int)
    modifies store
    ensures old(store.Valid()) ==> store.Valid()
    ensures store.data == old(store.data).(tenants := WithUsage(old(store.data.tenants), userId, translateCount, charCount))
    ensures userId !in Keys(old(store.data.tenants)) ==> store.data == old(store.data)
    ensures userId in Keys(old(store.data.tenants)) ==>
      var before, after := Lookup(old(store.data.tenants), userId).value, Lookup(store.data.tenants, userId).value;
      && after == before.(translateCount := before.translateCount + translateCount,
                          charCount := before.charCount + charCount)
      && (translateCount >= 0 && charCount >= 0 ==>
            after.translateCount >= before.translateCount && after.charCount >= before.charCount)
    ensures forall v :: v != userId ==> Lookup(store.data.tenants, v) == Lookup(old(store.data.tenants), v)
  {
    if Lookup(store.data.tenants, userId).Some? {
      store.data := store.data.(tenants := WithUsage(store.data.tenants, userId, translateCount, charCount));
    }
  }
}
