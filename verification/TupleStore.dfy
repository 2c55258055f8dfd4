/** The relationship store, its client's batched writes and scoped reads. */
module TupleStore {
  import opened Identifiers
  import opened Outcomes
  import opened Text

  datatype PermissionTuple = PermissionTuple(resourceType: string, resourceId: string, relation: string,
                                             subjectType: string, subjectId: string, subjectRelation: string)

  datatype Update = Touch(item: PermissionTuple) | Delete(item: PermissionTuple)

  function ApplyUpdate(s: set<PermissionTuple>, u: Update): set<PermissionTuple> {
    match u
    case Touch(t) => s + {t}
    case Delete(t) => s - {t}
  }

  function Applied(s: set<PermissionTuple>, us: seq<Update>): set<PermissionTuple> {
    if us == [] then s else ApplyUpdate(Applied(s, us[..|us| - 1]), us[|us| - 1])
  }

  lemma {:induction false} AppliedAppend(s: set<PermissionTuple>, a: seq<Update>, b: seq<Update>)
    ensures Applied(s, a + b) == Applied(Applied(s, a), b)
  {
    if b == [] {
      assert a + b == a;
    } else {
      AppliedAppend(s, a, b[..|b| - 1]);
      assert (a + b)[..|a + b| - 1] == a + b[..|b| - 1];
    }
  }

  function Touches(items: seq<PermissionTuple>): seq<Update> {
    seq(|items|, i requires 0 <= i < |items| => Touch(items[i]))
  }

  function Deletes(items: seq<PermissionTuple>): seq<Update> {
    seq(|items|, i requires 0 <= i < |items| => Delete(items[i]))
  }

  function Elements<T>(items: seq<T>): set<T> {
    set x | x in items
  }

  lemma {:induction false} AppliedTouches(s: set<PermissionTuple>, items: seq<PermissionTuple>)
    ensures Applied(s, Touches(items)) == s + Elements(items)
  {
    if items != [] {
      var init := items[..|items| - 1];
      AppliedTouches(s, init);
      assert Touches(items)[..|items| - 1] == Touches(init);
      assert items == init + [items[|items| - 1]];
    }
  }

  lemma {:induction false} AppliedDeletes(s: set<PermissionTuple>, items: seq<PermissionTuple>)
    ensures Applied(s, Deletes(items)) == s - Elements(items)
  {
    if items != [] {
      var init := items[..|items| - 1];
      AppliedDeletes(s, init);
      assert Deletes(items)[..|items| - 1] == Deletes(init);
      assert items == init + [items[|items| - 1]];
    }
  }

  /** A prefix of the updates only touches what is to be touched and deletes what is to be deleted. */
  lemma {:induction false} AppliedWithin(s: set<PermissionTuple>, us: seq<Update>, touches: set<PermissionTuple>, deletes: set<PermissionTuple>)
    requires forall i :: 0 <= i < |us| ==> us[i].item in (if us[i].Touch? then touches else deletes)
    ensures s - deletes <= Applied(s, us) <= s + touches
  {
    if us != [] {
      AppliedWithin(s, us[..|us| - 1], touches, deletes);
      assert us[|us| - 1].item in (if us[|us| - 1].Touch? then touches else deletes);
    }
  }

  /** Some order of a set's elements; the code sorts them. */
  method Sorted(items: set<PermissionTuple>) returns (q: seq<PermissionTuple>)
    ensures Elements(q) == items && |q| == |items|
  {
    q := [];
    var rest := items;
    while rest != {}
      invariant Elements(q) + rest == items && Elements(q) !! rest && |q| + |rest| == |items|
      decreases rest
    {
      var x :| x in rest;
      q, rest := q + [x], rest - {x};
    }
  }

  /** Calls needed to write n updates. */
  function BatchCount(n: nat, size: nat): nat
    requires size >= 1
  {
    if n == 0 then 0 else (n - 1) / size + 1
  }

  lemma BatchCountMore(n: nat, size: nat, k: nat)
    requires size >= 1 && k * size < n
    ensures k < BatchCount(n, size)
    ensures (k + 1) * size >= n ==> BatchCount(n, size) == k + 1
  {
    var q := (n - 1) / size;
    assert q * size <= n - 1 < (q + 1) * size;
    assert q < k ==> (q + 1) * size <= k * size;
    assert q > k ==> q * size >= (k + 1) * size;
  }

  const MANAGED_RESOURCE_TYPES: seq<string> := ["kgm/group", "kgm/folder", "kgm/document"]

  predicate Managed(t: PermissionTuple, prefix: string) {
    t.resourceType in MANAGED_RESOURCE_TYPES && prefix <= t.resourceId
  }

  predicate DirectGrant(t: PermissionTuple, prefix: string, userId: string) {
    && t.resourceType == "kgm/document" && prefix <= t.resourceId && t.relation == "oauth_viewer"
    && t.subjectType == "kgm/user" && t.subjectId == userId && t.subjectRelation == ""
  }

  function ManagedOf(s: set<PermissionTuple>, prefix: string): set<PermissionTuple> {
    set t | t in s && Managed(t, prefix)
  }

  function DirectGrantsOf(s: set<PermissionTuple>, prefix: string, userId: string): set<PermissionTuple> {
    set t | t in s && DirectGrant(t, prefix, userId)
  }

  /** What one call of the scoped read returns. */
  function OfKind(tuples: set<PermissionTuple>, c: nat, kind: string): set<PermissionTuple> {
    set t | t in tuples && t.resourceType == kind && ConnectionPrefix(c) <= t.resourceId
  }

  /** Tuples of other connections are in no scope of this one. */
  lemma OtherConnectionsOutOfScope(t: PermissionTuple, c: nat, d: nat, rest: string)
    requires t.resourceId == ConnectionPrefix(d) + rest
    ensures Managed(t, ConnectionPrefix(c)) ==> c == d
    ensures forall userId :: DirectGrant(t, ConnectionPrefix(c), userId) ==> c == d
  {
    PrefixesKeepApart(c, d, rest);
  }

  class SpiceDb {
    var tuples: set<PermissionTuple>
    var accepted: nat

    constructor ()
      ensures tuples == {} && accepted == 0
    {
      tuples, accepted := {}, 0;
    }

    /** One call; the store applies its updates together and answers with a token. */
    method WriteRelationships(updates: seq<Update>) returns (token: string)
      modifies this
      ensures tuples == Applied(old(tuples), updates) && accepted == old(accepted) + 1
      ensures token == Decimal(accepted)
    {
      for i := 0 to |updates|
        invariant tuples == Applied(old(tuples), updates[..i]) && accepted == old(accepted)
      {
        assert updates[..i + 1][..i] == updates[..i];
        tuples := ApplyUpdate(tuples, updates[i]);
      }
      assert updates[..|updates|] == updates;
      accepted := accepted + 1;
      token := Decimal(accepted);
    }

    /** Touches and then deletes, in batches; the store fails after it took `limit` of them. */
    method WriteUpdates(touches: set<PermissionTuple>, deletes: set<PermissionTuple>, size: nat, limit: nat)
        returns (r: Result<string>)
      requires size >= 1
      modifies this
      ensures old(tuples) - deletes <= tuples <= old(tuples) + touches
      ensures r.Ok? <==> BatchCount(|touches| + |deletes|, size) <= limit
      ensures r.Ok? ==> tuples == old(tuples) + touches - deletes
      ensures r.Ok? ==> (r.value == "" <==> touches + deletes == {})
      ensures accepted <= old(accepted) + limit
    {
      var ts := Sorted(touches);
      var ds := Sorted(deletes);
      var updates := Touches(ts) + Deletes(ds);
      r := WriteBatches(updates, touches, deletes, size, limit);
      AppliedAppend(old(tuples), Touches(ts), Deletes(ds));
      AppliedTouches(old(tuples), ts);
      AppliedDeletes(old(tuples) + touches, ds);
      assert touches + deletes == {} <==> |updates| == 0;
    }

    method WriteBatches(updates: seq<Update>, ghost touches: set<PermissionTuple>, ghost deletes: set<PermissionTuple>,
                        size: nat, limit: nat) returns (r: Result<string>)
      requires size >= 1
      requires forall i :: 0 <= i < |updates| ==> updates[i].item in (if updates[i].Touch? then touches else deletes)
      modifies this
      ensures old(tuples) - deletes <= tuples <= old(tuples) + touches
      ensures r.Ok? <==> BatchCount(|updates|, size) <= limit
      ensures r.Ok? ==> tuples == Applied(old(tuples), updates)
      ensures r.Ok? ==> (r.value == "" <==> updates == [])
      ensures accepted <= old(accepted) + limit
    {
      var offset, calls, revision := 0, 0, "";
      AppliedWithin(tuples, [], touches, deletes);
      while offset < |updates|
        invariant 0 <= offset <= |updates| && calls <= limit && accepted == old(accepted) + calls
        invariant offset == |updates| || offset == calls * size
        invariant offset == |updates| ==> calls == BatchCount(|updates|, size)
        invariant tuples == Applied(old(tuples), updates[..offset])
        invariant old(tuples) - deletes <= tuples <= old(tuples) + touches
        invariant revision == "" <==> offset == 0
        decreases |updates| - offset
      {
        BatchCountMore(|updates|, size, calls);
        if calls == limit {
          return Err("spicedb_operation_failed");
        }
        var end := if offset + size <= |updates| then offset + size else |updates|;
        revision := WriteRelationships(updates[offset..end]);
        AppliedAppend(old(tuples), updates[..offset], updates[offset..end]);
        assert updates[..offset] + updates[offset..end] == updates[..end];
        AppliedWithin(old(tuples), updates[..end], touches, deletes);
        offset, calls := end, calls + 1;
      }
      assert updates[..offset] == updates;
      r := Ok(revision);
    }

    /** Everything of the connection, one resource type after the other. */
    method ReadManagedTuples(prefix: string) returns (r: set<PermissionTuple>)
      ensures r == ManagedOf(tuples, prefix)
    {
      r := {};
      for i := 0 to |MANAGED_RESOURCE_TYPES|
        invariant r == set t | t in tuples && t.resourceType in MANAGED_RESOURCE_TYPES[..i] && prefix <= t.resourceId
      {
        var responses := set t | t in tuples && t.resourceType == MANAGED_RESOURCE_TYPES[i] && prefix <= t.resourceId;
        r := r + responses;
      }
    }

    method ReadOauthViewerTuples(prefix: string, userId: string) returns (r: set<PermissionTuple>)
      ensures r == DirectGrantsOf(tuples, prefix, userId)
    {
      var responses := set t | t in tuples && t.resourceType == "kgm/document" && prefix <= t.resourceId
                               && t.relation == "oauth_viewer" && t.subjectType == "kgm/user" && t.subjectId == userId;
      r := set t | t in responses && DirectGrant(t, prefix, userId);
    }
  }

  // ----- what every reconciliation sends

  datatype Reconciliation = Reconciliation(revision: string, relationshipsTouched: nat, relationshipsDeleted: nat)

  /** Where the store's calls fail: either read, or the write after some batches. */
  datatype Faults = Faults(readFails: bool, batches: nat, rereadFails: bool)

  /** How many updates are sent: one tuple is touched again when there is nothing to add. */
  function Updates(current: set<PermissionTuple>, desired: set<PermissionTuple>): nat {
    (if desired != {} && desired <= current then 1 else |desired - current|) + |current - desired|
  }

  method UpdatesFor(current: set<PermissionTuple>, desired: set<PermissionTuple>)
      returns (touches: set<PermissionTuple>, deletes: set<PermissionTuple>)
    ensures desired - current <= touches <= desired && deletes == current - desired
    ensures desired != {} ==> touches != {}
    ensures |touches| + |deletes| == Updates(current, desired)
  {
    touches, deletes := desired - current, current - desired;
    assert forall t :: t in desired ==> t in current || t in touches;
    if touches == {} && desired != {} {
      var least :| least in desired;
      touches := {least};
      assert |touches| == 1;
    }
  }

  /** Only tuples in scope and not desired may be gone, only desired ones may be new. */
  ghost predicate Between(now: set<PermissionTuple>, before: set<PermissionTuple>, current: set<PermissionTuple>, desired: set<PermissionTuple>) {
    before - (current - desired) <= now <= before + desired
  }

  lemma DifferenceIs<T>(s: set<T>, current: set<T>, desired: set<T>, touches: set<T>, deletes: set<T>)
    requires current <= s && desired - current <= touches <= desired && deletes == current - desired
    requires desired != {} ==> touches != {}
    ensures s + touches - deletes == s - current + desired
    ensures touches + deletes == {} <==> current == desired == {}
  {
    assert forall x :: x in current ==> x in deletes || x in desired;
  }

  /** Sends the difference between the tuples in scope and the desired ones. */
  method WriteDifference(db: SpiceDb, current: set<PermissionTuple>, desired: set<PermissionTuple>, size: nat, limit: nat)
      returns (r: Result<Reconciliation>)
    requires size >= 1 && current <= db.tuples
    modifies db
    ensures r.Ok? <==> BatchCount(Updates(current, desired), size) <= limit
    ensures Between(db.tuples, old(db.tuples), current, desired)
    ensures r.Ok? ==> db.tuples == old(db.tuples) - current + desired
    ensures r.Ok? ==> (r.value.revision == "" <==> current == desired == {})
    ensures r.Ok? ==> r.value.relationshipsTouched + r.value.relationshipsDeleted == Updates(current, desired)
    ensures r.Ok? ==> r.value.relationshipsDeleted == |current - desired|
  {
    var touches, deletes := UpdatesFor(current, desired);
    var revision := db.WriteUpdates(touches, deletes, size, limit);
    DifferenceIs(old(db.tuples), current, desired, touches, deletes);
    r := if revision.Ok? then Ok(Reconciliation(revision.value, |touches|, |deletes|)) else Err(revision.code);
  }
}
