/** Reconciling one user's direct grants: the exact set, and nothing of anyone else. */
module OAuthViewer {
  import opened Identifiers
  import opened Outcomes
  import opened TupleStore

  /** The columns of a document row that bound the scope. */
  datatype IndexedRow = IndexedRow(connection: nat, active: bool)

  predicate Indexed(rows: map<nat, IndexedRow>, c: nat, id: nat) {
    id in rows && rows[id].connection == c && rows[id].active
  }

  function GrantOf(c: nat, userId: string, id: nat): PermissionTuple {
    PermissionTuple("kgm/document", DocumentId(c, id), "oauth_viewer", "kgm/user", userId, "")
  }

  function GrantsOf(c: nat, userId: string, ids: set<nat>): set<PermissionTuple> {
    set id | id in ids :: GrantOf(c, userId, id)
  }

  predicate PositiveUpTo(ids: seq<int>, n: nat)
    requires n <= |ids|
  {
    forall i :: 0 <= i < n ==> ids[i] > 0
  }

  function Distinct(ids: seq<int>): set<nat> {
    set i | 0 <= i < |ids| && ids[i] > 0 :: ids[i] as nat
  }

  /** The requested ids run over the cap before one of them is found invalid. */
  ghost predicate ExceedsCap(ids: seq<int>, cap: nat) {
    exists n :: 0 <= n <= |ids| && PositiveUpTo(ids, n) && |Distinct(ids[..n])| > cap
  }

  ghost predicate ValidScope(ids: seq<int>, rows: map<nat, IndexedRow>, c: nat, cap: nat) {
    && PositiveUpTo(ids, |ids|)
    && |Distinct(ids)| <= cap
    && forall i :: 0 <= i < |ids| ==> Indexed(rows, c, ids[i])
  }

  lemma DistinctMore(ids: seq<int>, i: nat)
    requires i < |ids| && ids[i] > 0
    ensures Distinct(ids[..i + 1]) == Distinct(ids[..i]) + {ids[i] as nat}
  {
    var more := Distinct(ids[..i + 1]);
    assert ids[..i + 1] == ids[..i] + [ids[i]];
    forall x | x in Distinct(ids[..i]) ensures x in more {
      var j :| 0 <= j < i && ids[..i][j] == x;
      assert ids[..i + 1][j] == x;
    }
    assert ids[..i + 1][i] == ids[i];
  }

  lemma DistinctGrows(ids: seq<int>, n: nat, m: nat)
    requires n <= m <= |ids|
    ensures |Distinct(ids[..n])| <= |Distinct(ids[..m])|
  {
    var fewer, more := Distinct(ids[..n]), Distinct(ids[..m]);
    forall x | x in fewer ensures x in more {
      var j :| 0 <= j < n && ids[..n][j] == x;
      assert ids[..m][j] == x;
    }
    assert more == fewer + (more - fewer);
  }

  /** The distinct ids of the loop, or why it stopped. */
  method CollectIds(ids: seq<int>, cap: nat) returns (r: Result<set<nat>>)
    ensures r.Ok? ==> PositiveUpTo(ids, |ids|) && |Distinct(ids)| <= cap && r.value == Distinct(ids)
    ensures r == Err("document_scope_exceeds_cap") <==> ExceedsCap(ids, cap)
    ensures r.Err? && !ExceedsCap(ids, cap) ==> r == Err("document_scope_invalid") && !PositiveUpTo(ids, |ids|)
  {
    var seen: set<nat> := {};
    for i := 0 to |ids|
      invariant PositiveUpTo(ids, i) && seen == Distinct(ids[..i]) && |seen| <= cap
    {
      if ids[i] <= 0 {
        NotBeyond(ids, i, cap);
        return Err("document_scope_invalid");
      }
      DistinctMore(ids, i);
      seen := seen + {ids[i]};
      if |seen| > cap {
        return Err("document_scope_exceeds_cap");
      }
    }
    assert ids[..|ids|] == ids;
    NotBeyond(ids, |ids|, cap);
    r := Ok(seen);
  }

  lemma NotBeyond(ids: seq<int>, i: nat, cap: nat)
    requires i <= |ids| && PositiveUpTo(ids, i) && |Distinct(ids[..i])| <= cap
    requires i == |ids| || ids[i] <= 0
    ensures !ExceedsCap(ids, cap)
  {
    forall n | 0 <= n <= |ids| && PositiveUpTo(ids, n) ensures |Distinct(ids[..n])| <= cap {
      DistinctGrows(ids, n, i);
    }
  }

  lemma ValidIsWithinCap(ids: seq<int>, rows: map<nat, IndexedRow>, c: nat, cap: nat)
    requires ValidScope(ids, rows, c, cap)
    ensures !ExceedsCap(ids, cap)
  {
    assert ids[..|ids|] == ids;
    NotBeyond(ids, |ids|, cap);
  }

  method DesiredTuples(rows: map<nat, IndexedRow>, c: nat, userId: string, ids: seq<int>, cap: nat)
      returns (r: Result<set<PermissionTuple>>)
    ensures r.Ok? <==> ValidScope(ids, rows, c, cap)
    ensures r.Ok? ==> r.value == GrantsOf(c, userId, Distinct(ids))
    ensures r.Err? ==> r.code == if ExceedsCap(ids, cap) then "document_scope_exceeds_cap" else "document_scope_invalid"
  {
    var collected := CollectIds(ids, cap);
    if collected.Err? {
      if ValidScope(ids, rows, c, cap) { ValidIsWithinCap(ids, rows, c, cap); }
      return Err(collected.code);
    }
    var indexed := set id | id in collected.value && Indexed(rows, c, id);
    if indexed != collected.value {
      var id :| id in collected.value && id !in indexed;
      assert exists i :: 0 <= i < |ids| && ids[i] == id;
      return Err("document_scope_invalid");
    }
    assert forall i :: 0 <= i < |ids| ==> ids[i] in Distinct(ids);
    r := Ok(GrantsOf(c, userId, collected.value));
  }

  /** A scope is valid if every id is of an active document of the connection and there are no more of
      them than the cap, however often each is repeated. */
  lemma ScopeByColumns(ids: seq<int>, rows: map<nat, IndexedRow>, c: nat, cap: nat)
    ensures ValidScope(ids, rows, c, cap) <==>
      && (forall id :: id in ids ==> id > 0 && id in rows && rows[id].connection == c && rows[id].active)
      && |set id | id in ids| <= cap
  {
    assert forall i :: 0 <= i < |ids| ==> ids[i] in ids;
    if PositiveUpTo(ids, |ids|) { assert Distinct(ids) == set id | id in ids; }
  }

  /** Once the direct grants are those asked for, the user has one on each requested document and on no other. */
  lemma GrantsNameRequested(tuples: set<PermissionTuple>, c: nat, userId: string, ids: seq<int>, d: nat)
    requires DirectGrantsOf(tuples, ConnectionPrefix(c), userId) == GrantsOf(c, userId, Distinct(ids))
    ensures PermissionTuple("kgm/document", DocumentId(c, d), "oauth_viewer", "kgm/user", userId, "") in tuples <==> d > 0 && d in ids
  {
    var grant := PermissionTuple("kgm/document", DocumentId(c, d), "oauth_viewer", "kgm/user", userId, "");
    assert grant in tuples <==> grant in DirectGrantsOf(tuples, ConnectionPrefix(c), userId);
    if grant in tuples {
      var id :| id in Distinct(ids) && GrantOf(c, userId, id) == grant;
      DocumentIdInjective(c, id, c, d);
    }
    if d > 0 && d in ids {
      assert d in Distinct(ids);
      assert GrantOf(c, userId, d) in GrantsOf(c, userId, Distinct(ids));
    }
  }

  predicate InScope(current: set<PermissionTuple>, prefix: string, userId: string) {
    forall t :: t in current ==> DirectGrant(t, prefix, userId)
  }

  lemma GrantsInScope(c: nat, userId: string, ids: set<nat>)
    ensures InScope(GrantsOf(c, userId, ids), ConnectionPrefix(c), userId)
  {
  }

  /** Reads, writes the difference, reads again and compares. With no other writer the grants in
      scope become exactly the desired ones, unless a call fails; nothing out of scope changes. */
  method WriteGrants(db: SpiceDb, prefix: string, userId: string, desired: set<PermissionTuple>, size: nat, faults: Faults)
      returns (r: Result<Reconciliation>)
    requires size >= 1 && InScope(desired, prefix, userId)
    modifies db
    ensures r.Ok? <==> !faults.readFails && !faults.rereadFails && BatchCount(Updates(DirectGrantsOf(old(db.tuples), prefix, userId), desired), size) <= faults.batches
    ensures r.Err? ==> r.code == "spicedb_operation_failed"
    ensures r.Ok? ==> DirectGrantsOf(db.tuples, prefix, userId) == desired
    ensures r.Ok? ==> (r.value.revision == "" <==> DirectGrantsOf(old(db.tuples), prefix, userId) == desired == {})
    ensures Between(db.tuples, old(db.tuples), DirectGrantsOf(old(db.tuples), prefix, userId), desired)
  {
    if faults.readFails {
      return Err("spicedb_operation_failed");
    }
    var current := db.ReadOauthViewerTuples(prefix, userId);
    if !InScope(current, prefix, userId) {
      return Err("relationship_scope_mismatch");
    }
    r := WriteDifference(db, current, desired, size, faults.batches);
    if r.Err? || faults.rereadFails {
      return Err("spicedb_operation_failed");
    }
    var verified := db.ReadOauthViewerTuples(prefix, userId);
    if !InScope(verified, prefix, userId) {
      return Err("relationship_scope_mismatch");
    }
    if verified != desired {
      return Err("relationship_verification_mismatch");
    }
  }

  /** Makes the user's direct grants exactly match the requested documents. */
  method Reconcile(db: SpiceDb, rows: map<nat, IndexedRow>, c: nat, userId: string, ids: seq<int>,
                   cap: nat, size: nat, faults: Faults) returns (r: Result<Reconciliation>)
    requires size >= 1
    modifies db
    ensures !ValidScope(ids, rows, c, cap) ==> db.tuples == old(db.tuples)
    ensures !ValidScope(ids, rows, c, cap) ==> r == Err(if ExceedsCap(ids, cap) then "document_scope_exceeds_cap" else "document_scope_invalid")
    ensures r.Err? && ValidScope(ids, rows, c, cap) ==> r.code == "spicedb_operation_failed"
    ensures r.Ok? <==> && ValidScope(ids, rows, c, cap) && !faults.readFails && !faults.rereadFails
                       && BatchCount(Updates(DirectGrantsOf(old(db.tuples), ConnectionPrefix(c), userId), GrantsOf(c, userId, Distinct(ids))), size) <= faults.batches
    ensures r.Ok? ==> DirectGrantsOf(db.tuples, ConnectionPrefix(c), userId) == GrantsOf(c, userId, Distinct(ids))
    ensures r.Ok? && ids != [] ==> r.value.revision != ""
    ensures forall t :: !DirectGrant(t, ConnectionPrefix(c), userId) ==> (t in db.tuples <==> t in old(db.tuples))
    ensures old(db.tuples) * GrantsOf(c, userId, Distinct(ids)) <= db.tuples <= old(db.tuples) + GrantsOf(c, userId, Distinct(ids))
  {
    var desired := DesiredTuples(rows, c, userId, ids, cap);
    if desired.Err? {
      return Err(desired.code);
    }
    GrantsInScope(c, userId, Distinct(ids));
    assert ids != [] ==> ids[0] in Distinct(ids) && GrantOf(c, userId, ids[0]) in desired.value;
    r := WriteGrants(db, ConnectionPrefix(c), userId, desired.value, size, faults);
  }
}
