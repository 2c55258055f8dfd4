/** What the commit of a delegated run, a scan and a metadata sync do to a document's evidence, column
    by column, and by what steps alone a document that a run excluded comes to pass again. */
module DelegatedCommit {
  import opened DelegatedEvidence
  import opened DesiredState
  import opened Outcomes

  /** Nothing is left of the evidence; the other columns are as before. */
  predicate StrippedOf(after: Row, before: Row) {
    && !after.eligible && after.spicedbVersion == Blank && after.verifiedAt == None
    && after.active == before.active && after.acl == before.acl && after.sourceVersion == before.sourceVersion
  }

  /** The evidence is of the version and the time; the other columns are as before. */
  predicate EnabledAt(after: Row, before: Row, version: Version, time: nat) {
    && after.eligible && after.spicedbVersion == version && after.verifiedAt == Some(time)
    && after.active == before.active && after.acl == before.acl && after.sourceVersion == before.sourceVersion
  }

  ghost predicate NeverPasses(row: Row) {
    forall version, cutoff :: !VerifiedAt(row, version, cutoff)
  }

  /** A run never sorts a document both ways. */
  lemma SortedOnce(w: World, r: nat, d: nat)
    requires Inv(w) && r in w.runs && w.runs[r].phase.TimeRead? && d in w.runs[r].result.eligible
    ensures d !in w.runs[r].result.excluded
  {
    assert RunOk(w.log, |w.older|, w.connection, r, w.runs[r]);
    var scan, result := w.runs[r].scan, w.runs[r].result;
    var unresolved, memberships :| GroupsSettled(scan, unresolved, memberships) && Partitioned(scan, unresolved, result)
                                   && Exact(scan, unresolved, memberships, result);
  }

  /** The commit strips every excluded document, enables every eligible one that is still in scope at
      the version it was computed from, and leaves the others alone. */
  lemma CommitDecides(w: World, r: nat, d: nat)
    requires Inv(w) && r in w.runs && w.runs[r].phase.TimeRead?
    ensures Apply(w, CommitDocuments(r)).table.Keys == w.table.Keys
    ensures d in w.table ==>
      var before, after, result := w.table[d], Apply(w, CommitDocuments(r)).table[d], w.runs[r].result;
      Decided(before, after, result, w.runs[r].time, d)
  {
    if d in w.runs[r].result.eligible { SortedOnce(w, r, d); }
    hide Inv, Decided, CommittedRow;
    CommitWrites(w, r);
    if d in w.table { RowDecides(w.table[d], w.runs[r].result, w.runs[r].time, d); }
  }

  /** What becomes of a row: stripped if the run excluded the document, enabled if the run found it
      eligible and the row is still in scope at the version, and otherwise as it was. */
  ghost predicate Decided(before: Row, after: Row, result: SyncResult, time: nat, d: nat) {
    if d in result.excluded then StrippedOf(after, before) && NeverPasses(after)
    else if d in result.eligible && before.active && before.sourceVersion == result.eligible[d] then
      && EnabledAt(after, before, result.eligible[d], time)
      && forall cutoff :: VerifiedAt(after, result.eligible[d], cutoff) <==> cutoff <= time
    else after == before
  }

  lemma RowDecides(before: Row, result: SyncResult, time: nat, d: nat)
    requires d in result.eligible ==> d !in result.excluded
    ensures Decided(before, CommittedRow(before, VersionFor(result.eligible, d), d in result.excluded.Keys, time), result, time, d)
  {
  }

  lemma CommitWrites(w: World, r: nat)
    requires r in w.runs && w.runs[r].phase.TimeRead?
    ensures Apply(w, CommitDocuments(r)).table
         == CommittedTable(w.table, w.runs[r].result.eligible, w.runs[r].result.excluded.Keys, w.runs[r].time)
  {
    hide CommittedTable;
  }

  /** The row passes for some version and some age. */
  ghost predicate Passes(row: Row) {
    exists version, cutoff :: VerifiedAt(row, version, cutoff)
  }

  lemma PassesByColumns(row: Row)
    ensures Passes(row) <==> row.active && row.eligible && row.verifiedAt.Some? && row.sourceVersion == row.spicedbVersion
  {
    if row.active && row.eligible && row.verifiedAt.Some? && row.sourceVersion == row.spicedbVersion {
      assert VerifiedAt(row, row.sourceVersion, row.verifiedAt.value);
    }
  }

  /** The step commits a run that found the document eligible, at the version its row still has. */
  ghost predicate CommitsEligible(v: World, s: Step, d: nat) {
    && s.CommitDocuments? && s.r in v.runs && v.runs[s.r].phase.TimeRead? && d in v.runs[s.r].result.eligible
    && d in v.table && v.table[d].active && v.table[d].sourceVersion == v.runs[s.r].result.eligible[d]
  }

  /** The step writes back evidence that a metadata sync read before: the row then passed for the list
      the file has now and was young enough. */
  ghost predicate WritesBack(v: World, s: Step, d: nat) {
    && s.WriteMetadata? && s.m in v.known && v.known[s.m].document == d && v.known[s.m].row.Some? && !s.perUser && !s.excluded
    && var row := v.known[s.m].row.value;
       && row.active && row.eligible && row.sourceVersion == row.spicedbVersion == DigestOf(Canonical(s.acl.permissions))
       && row.verifiedAt.Some? && row.verifiedAt.value + s.maxAge >= v.now
  }

  /** A document without evidence passes after a step if and only if the step is one of the two. */
  lemma PassesExactlyBy(v: World, s: Step, d: nat)
    requires Inv(v) && d in v.table && v.table[d].verifiedAt.None?
    ensures d in Apply(v, s).table
    ensures Passes(Apply(v, s).table[d]) <==> CommitsEligible(v, s, d) || WritesBack(v, s, d)
    ensures Passes(Apply(v, s).table[d]) <==> Apply(v, s).table[d].verifiedAt.Some?
  {
    hide Inv;
    if s.CommitDocuments? {
      if s.r in v.runs && v.runs[s.r].phase.TimeRead? {
        CommitDecides(v, s.r, d);
        PassesByColumns(Apply(v, s).table[d]);
        if d in v.runs[s.r].result.eligible { SortedOnce(v, s.r, d); }
      }
    } else if s.WriteMetadata? && s.m in v.known && v.known[s.m].document == d {
      SyncDecides(v, s, d);
    } else {
      PassesByColumns(Apply(v, s).table[d]);
    }
  }

  /** The first step by which a document without evidence passes again. */
  lemma {:induction false} PassesAgainBy(w: World, steps: seq<Step>, d: nat) returns (n: nat)
    requires Inv(w) && d in w.table && w.table[d].verifiedAt.None?
    requires d in Run(w, steps).table && Passes(Run(w, steps).table[d])
    ensures n < |steps| && (CommitsEligible(Run(w, steps[..n]), steps[n], d) || WritesBack(Run(w, steps[..n]), steps[n], d))
    decreases |steps|
  {
    hide Inv, CommitsEligible, WritesBack, Apply;
    PassesByColumns(w.table[d]);
    if steps == [] {
      assert false;
    } else {
      PassesExactlyBy(w, steps[0], d);
      StepKeeps(w, steps[0]);
      assert steps[..0] == [];
      if Passes(Apply(w, steps[0]).table[d]) {
        n := 0;
      } else {
        var m := PassesAgainBy(Apply(w, steps[0]), steps[1..], d);
        n := m + 1;
        assert steps[..n] == [steps[0]] + steps[1..][..m];
        RunFrom(w, steps[0], steps[1..][..m]);
      }
    }
  }

  lemma RunFrom(w: World, s: Step, rest: seq<Step>)
    ensures Run(w, [s] + rest) == Run(Apply(w, s), rest)
  {
    assert ([s] + rest)[1..] == rest;
  }

  /** Once a run that excluded a document has committed, the document passes again only after the
      commit of a run that found it eligible, or after a metadata sync wrote back what it had read. */
  lemma ExcludedPassesAgainBy(w: World, r: nat, steps: seq<Step>, d: nat) returns (n: nat)
    requires Inv(w) && r in w.runs && w.runs[r].phase.TimeRead? && d in w.runs[r].result.excluded && d in w.table
    requires var u := Run(Apply(w, CommitDocuments(r)), steps); d in u.table && Passes(u.table[d])
    ensures var v := Apply(w, CommitDocuments(r));
            n < |steps| && (CommitsEligible(Run(v, steps[..n]), steps[n], d) || WritesBack(Run(v, steps[..n]), steps[n], d))
  {
    CommitDecides(w, r, d);
    StepKeeps(w, CommitDocuments(r));
    n := PassesAgainBy(Apply(w, CommitDocuments(r)), steps, d);
  }

  /** The second way is open: a sync that read the row before the commit restores what the run withdrew,
      as long as the list is the one the row was verified for. */
  lemma StaleReadRestores(w: World, r: nat, m: nat, acl: Snapshot, maxAge: nat, d: nat)
    requires Inv(w) && r in w.runs && w.runs[r].phase.TimeRead? && d in w.runs[r].result.excluded && d in w.table
    requires m in w.known && w.known[m] == Existing(d, Some(w.table[d]))
    requires VerifiedAt(w.table[d], VersionOf(acl), w.now - maxAge)
    ensures var v := Apply(w, CommitDocuments(r)); d in v.table && !Passes(v.table[d])
    ensures var u := Apply(Apply(w, CommitDocuments(r)), WriteMetadata(m, acl, false, false, maxAge)); d in u.table && Passes(u.table[d])
  {
    hide Inv, CommittedTable;
    CommitDecides(w, r, d);
    var v := Apply(w, CommitDocuments(r));
    PassesByColumns(v.table[d]);
    assert v.known == w.known && v.now == w.now;
    SyncDecides(v, WriteMetadata(m, acl, false, false, maxAge), d);
  }

  /** After a complete scan a document passes exactly if it was found with entries of the version it was
      verified at; one that is no longer found leaves the scope with its evidence. */
  lemma ScanDecides(w: World, r: nat, found: map<nat, Snapshot>, d: nat)
    requires r !in w.runs && d in w.table
    ensures d in Apply(w, PersistScan(r, found)).table
    ensures var before, after := w.table[d], Apply(w, PersistScan(r, found)).table[d];
            && (after.active <==> d in found)
            && (d in found ==> after.acl == found[d] && after.sourceVersion == DigestOf(Canonical(found[d].permissions)))
            && (Passes(after) <==> d in found && before.eligible && before.verifiedAt.Some?
                                   && before.spicedbVersion == DigestOf(Canonical(found[d].permissions)))
            && (before.active && d !in found ==> !after.eligible && after.spicedbVersion == Blank && after.verifiedAt == None)
            && (d in found ==> after.eligible == before.eligible && after.spicedbVersion == before.spicedbVersion && after.verifiedAt == before.verifiedAt)
  {
    PassesByColumns(Apply(w, PersistScan(r, found)).table[d]);
  }

  /** After a metadata sync wrote a file, its document passes exactly if the sync wrote back what it had
      read; it has the list and the version of the file in any case. */
  lemma SyncDecides(w: World, s: Step, d: nat)
    requires s.WriteMetadata? && s.m in w.known && w.known[s.m].document == d
    ensures d in Apply(w, s).table && forall e :: e in w.table && e != d ==> e in Apply(w, s).table && Apply(w, s).table[e] == w.table[e]
    ensures var after := Apply(w, s).table[d];
            && after.active && after.acl == s.acl && after.sourceVersion == DigestOf(Canonical(s.acl.permissions))
            && (Passes(after) <==> WritesBack(w, s, d))
            && (WritesBack(w, s, d) ==> after.verifiedAt == w.known[s.m].row.value.verifiedAt)
            && (!WritesBack(w, s, d) ==> !after.eligible && after.spicedbVersion == Blank && after.verifiedAt == None)
  {
    PassesByColumns(Apply(w, s).table[d]);
  }

  /** What takes documents out of retrieval does so in one step: leaving the scope, a new root or subject
      and a cutover. The first and the last take the evidence along, the last the version as well. */
  lemma WithdrawalDecides(w: World, s: Step, d: nat)
    requires d in w.table && (s.LeaveScope? || s.Rescope? || s.DenyDocuments?) && d in s.documents
    ensures d in Apply(w, s).table && !Passes(Apply(w, s).table[d])
    ensures var before, after := w.table[d], Apply(w, s).table[d];
            && !after.eligible && after.acl == before.acl && after.active == (before.active && !s.LeaveScope?)
            && after.sourceVersion == (if s.DenyDocuments? then Blank else before.sourceVersion)
            && after.spicedbVersion == (if s.Rescope? then before.spicedbVersion else Blank)
            && after.verifiedAt == (if s.Rescope? then before.verifiedAt else None)
  {
    PassesByColumns(Apply(w, s).table[d]);
  }

  /** The mark of the per-user mode makes a document eligible only in scope and at a known version, and
      then it passes exactly if the evidence of an earlier run is still there at that version. */
  lemma MarkDecides(w: World, d: nat)
    requires d in w.table
    ensures var before, after := w.table[d], Apply(w, MarkReady(d)).table[d];
            && (after.eligible <==> before.eligible || (before.active && before.sourceVersion != Blank))
            && (Passes(after) <==> Passes(before) || (before.active && before.verifiedAt.Some? && before.sourceVersion != Blank
                                                       && before.spicedbVersion == before.sourceVersion))
  {
    PassesByColumns(w.table[d]);
    PassesByColumns(Apply(w, MarkReady(d)).table[d]);
  }
}
