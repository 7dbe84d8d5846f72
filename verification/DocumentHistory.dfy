/** Document versions in every reachable state: contiguous, one current at most, linked per lineage. */
module DocumentHistory {
  import opened BnsModel
  import opened RegistryTables
  import opened RegistryHistory
  import opened RegistryInvariants
  import opened RegistryRuns

  /** No version was added since the name was last registered before position i. */
  predicate OpensLineage(log: Records, i: nat, n: Name, ty: DocType)
    requires i <= |log|
  {
    forall j: nat | j < i && AddsVersion(log[j].event, n, ty) ::
      exists k | j < k < i :: Registers(log[k].event, n)
  }

  lemma {:induction false} CurrentIsLatestOrNone(log: Records, n: Name, ty: DocType)
    ensures LogCurrent(log, n, ty) == 0 || LogCurrent(log, n, ty) == LogLatest(log, n, ty)
  {
    if log != [] {
      CurrentIsLatestOrNone(log[..|log| - 1], n, ty);
    }
  }

  /** Nothing is current exactly when no version was added in the present lineage. */
  lemma {:induction false} NothingCurrentIff(log: Records, i: nat, n: Name, ty: DocType)
    requires VersionsInOrder(log) && i <= |log|
    ensures LogCurrent(log[..i], n, ty) == 0 <==> OpensLineage(log, i, n, ty)
    decreases i
  {
    if i > 0 {
      var last := i - 1;
      assert log[..i][..last] == log[..last] && log[..i][last] == log[last];
      NothingCurrentIff(log, last, n, ty);
      var e := log[last].event;
      if Registers(e, n) {
        assert OpensLineage(log, i, n, ty);
      } else if AddsVersion(e, n, ty) {
        assert e.version == LogLatest(log[..last], n, ty) + 1;
        assert !OpensLineage(log, i, n, ty);
      } else {
        LineageUnmoved(log, last, n, ty);
      }
    }
  }

  lemma LineageUnmoved(log: Records, last: nat, n: Name, ty: DocType)
    requires last < |log|
    requires !Registers(log[last].event, n) && !AddsVersion(log[last].event, n, ty)
    ensures OpensLineage(log, last, n, ty) <==> OpensLineage(log, last + 1, n, ty)
  {
    if OpensLineage(log, last + 1, n, ty) {
      forall j: nat | j < last && AddsVersion(log[j].event, n, ty)
        ensures exists k | j < k < last :: Registers(log[k].event, n)
      {
        var k :| j < k < last + 1 && Registers(log[k].event, n);
      }
    }
  }

  /** Later additions carry higher versions. */
  lemma {:induction false} LatestGrows(log: Records, i: nat, j: nat, n: Name, ty: DocType)
    requires VersionsInOrder(log) && i < j <= |log| && AddsVersion(log[i].event, n, ty)
    ensures LogLatest(log[..j], n, ty) >= log[i].event.version
    decreases j
  {
    var last := j - 1;
    assert log[..j][..last] == log[..last] && log[..j][last] == log[last];
    if i < last {
      LatestGrows(log, i, last, n, ty);
      assert AddsVersion(log[last].event, n, ty) ==>
        log[last].event.version == LogLatest(log[..last], n, ty) + 1;
    }
  }

  /** The link of a version is what was current when it was added. */
  lemma {:induction false} PreviousOfAdded(log: Records, j: nat, i: nat, n: Name, ty: DocType)
    requires VersionsInOrder(log) && i < j <= |log| && AddsVersion(log[i].event, n, ty)
    ensures LogPrevious(log[..j], n, ty, log[i].event.version) == LogCurrent(log[..i], n, ty)
    decreases j
  {
    var last := j - 1;
    assert log[..j][..last] == log[..last] && log[..j][last] == log[last];
    if i < last {
      PreviousOfAdded(log, last, i, n, ty);
      LatestGrows(log, i, last, n, ty);
      assert AddsVersion(log[last].event, n, ty) ==>
        log[last].event.version == LogLatest(log[..last], n, ty) + 1;
    }
  }

  lemma {:induction false} WhereAdded(log: Records, j: nat, n: Name, ty: DocType, v: nat) returns (i: nat)
    requires VersionsInOrder(log) && j <= |log| && 1 <= v <= LogLatest(log[..j], n, ty)
    ensures i < j && AddsVersion(log[i].event, n, ty) && log[i].event.version == v
    decreases j
  {
    var last := j - 1;
    assert log[..j][..last] == log[..last] && log[..j][last] == log[last];
    if AddsVersion(log[last].event, n, ty) && log[last].event.version == v {
      i := last;
    } else {
      assert AddsVersion(log[last].event, n, ty) ==>
        log[last].event.version == LogLatest(log[..last], n, ty) + 1;
      i := WhereAdded(log, last, n, ty, v);
    }
  }

  /**
   * For each name and document type of a reachable state: the versions are exactly 1..m; at most one
   * row is current and it is the highest; the name row carries the version of the current owner document, or 0.
   */
  lemma DocumentVersionsInOrder(txs: seq<Tx>, n: Name, ty: DocType)
    requires ClockOk(txs)
    ensures var t := Run(txs); var m := LatestVersion(t.documents, n, ty);
      && (forall v: nat :: DocumentKey(n, ty, v) in t.documents <==> 1 <= v <= m)
      && (forall v: nat | DocumentKey(n, ty, v) in t.documents && t.documents[DocumentKey(n, ty, v)].current :: v == m)
      && (n in t.names ==> t.names[n].ownerDocumentVersion == CurrentVersion(t.documents, n, OWNER_DOC_TYPE))
  {
    hide Run, Log, GraphGrounded, OwnersLive, LatestVersion, CurrentVersion;
    var t := Run(txs);
    var log := Log(t);
    RunKeepsInv(txs);
    assert DocumentsMatch(t.documents, log, n, ty) && DocumentsMatch(t.documents, log, n, OWNER_DOC_TYPE);
    assert NameMatches(t, log, n);
    ReadVersions(t.documents, log, n, ty);
    ReadVersions(t.documents, log, n, OWNER_DOC_TYPE);
  }

  /** A stored version was added by an event; it links to its predecessor, or to 0 where its lineage opens. */
  lemma DocumentVersionsLinked(txs: seq<Tx>, n: Name, ty: DocType, v: nat)
    requires ClockOk(txs) && DocumentKey(n, ty, v) in Run(txs).documents
    ensures var t := Run(txs);
      exists i: nat | i < |Log(t)| ::
        && AddsVersion(Log(t)[i].event, n, ty) && Log(t)[i].event.version == v
        && t.documents[DocumentKey(n, ty, v)].state.previousVersion ==
           if OpensLineage(Log(t), i, n, ty) then 0 else v - 1
  {
    hide Run, Log, GraphGrounded, OwnersLive, OpensLineage;
    var t := Run(txs);
    RunKeepsInv(txs);
    assert DocumentsMatch(t.documents, Log(t), n, ty);
    var i := LinkOf(Log(t), n, ty, v);
  }

  lemma LinkOf(log: Records, n: Name, ty: DocType, v: nat) returns (i: nat)
    requires VersionsInOrder(log) && 1 <= v <= LogLatest(log, n, ty)
    ensures i < |log| && AddsVersion(log[i].event, n, ty) && log[i].event.version == v
    ensures LogPrevious(log, n, ty, v) == if OpensLineage(log, i, n, ty) then 0 else v - 1
  {
    assert log[..|log|] == log;
    i := WhereAdded(log, |log|, n, ty, v);
    PreviousOfAdded(log, |log|, i, n, ty);
    NothingCurrentIff(log, i, n, ty);
    CurrentIsLatestOrNone(log[..i], n, ty);
  }
}
