/** How the tables of a run relate to those of a longer run: what changed was announced. */
module RegistryEvolution {
  import opened BnsModel
  import opened RegistryTables
  import opened RegistryLog
  import opened RegistrySpec
  import opened RegistryHistory
  import opened RegistryInvariants
  import opened RegistryOperations
  import opened RegistryRuns

  /** Nothing disappears, and every difference between t and u has an event in between. */
  ghost predicate Evolves(t: Tables, u: Tables) {
    && Log(t) <= Log(u)
    && Extends(t.events, u.events)
    && t.names.Keys <= u.names.Keys
    && t.documents.Keys <= u.documents.Keys
    && (forall n :: NamePushed(NewRecords(t, u), n) || SameName(t, u, n))
    && (forall k :: DocumentPushed(NewRecords(t, u), k) || SameDocument(t, u, k))
    && (forall n :: SetPushed(NewRecords(t, u), n) || SameSet(t, u, n))
  }

  lemma EvolvesSelf(t: Tables)
    ensures Evolves(t, t) && NewRecords(t, t) == []
  {
  }

  lemma EvolvesTrans(t: Tables, u: Tables, w: Tables)
    requires Evolves(t, u) && Evolves(u, w)
    ensures Evolves(t, w) && NewRecords(t, w) == NewRecords(t, u) + NewRecords(u, w)
  {
    hide Log;
    var a, b := NewRecords(t, u), NewRecords(u, w);
    NewRecordsConcat(t, u, w);
    forall n
      ensures NamePushed(a + b, n) || SameName(t, w, n)
      ensures SetPushed(a + b, n) || SameSet(t, w, n)
    {
      PushedAcross(a, b, n, DocumentKey(n, "", 0));
      assert NamePushed(a, n) || NamePushed(b, n) || (SameName(t, u, n) && SameName(u, w, n));
      assert SetPushed(a, n) || SetPushed(b, n) || (SameSet(t, u, n) && SameSet(u, w, n));
    }
    forall k
      ensures DocumentPushed(a + b, k) || SameDocument(t, w, k)
    {
      PushedAcross(a, b, k.name, k);
      assert DocumentPushed(a, k) || DocumentPushed(b, k) || (SameDocument(t, u, k) && SameDocument(u, w, k));
    }
  }

  lemma {:induction false} LatestNeverFalls(log: Records, i: nat, n: Name, ty: DocType)
    requires VersionsInOrder(log) && i <= |log|
    ensures LogLatest(log[..i], n, ty) <= LogLatest(log, n, ty)
    decreases |log| - i
  {
    if i == |log| {
      assert log[..i] == log;
    } else {
      LatestNeverFalls(log, i + 1, n, ty);
      assert log[..i + 1][..i] == log[..i];
    }
  }

  lemma DocumentsStay(t: Tables, u: Tables)
    requires LogDetermines(t) && LogDetermines(u) && Log(t) <= Log(u)
    ensures t.documents.Keys <= u.documents.Keys
  {
    forall k | k in t.documents
      ensures k in u.documents
    {
      LatestNeverFalls(Log(u), |Log(t)|, k.name, k.docType);
      assert Log(u)[..|Log(t)|] == Log(t);
      assert DocumentsMatch(t.documents, Log(t), k.name, k.docType);
      assert DocumentsMatch(u.documents, Log(u), k.name, k.docType);
      assert k == DocumentKey(k.name, k.docType, k.version);
    }
  }

  lemma CommitEvolves(t: Tables, op: Operation, now: nat)
    requires Inv(t, now)
    ensures Evolves(t, Commit(t, op, now)) && Inv(Commit(t, op, now), now)
  {
    hide Commit, LogDetermines, GraphGrounded, OwnersLive, Log, SequenceMoves;
    var u := Commit(t, op, now);
    CommitSound(t, op, now);
    if u == t {
      EvolvesSelf(t);
    } else {
      DocumentsStay(t, u);
      var target := Target(op);
      forall n
        ensures NamePushed(NewRecords(t, u), n) || SameName(t, u, n)
        ensures n in t.names ==> n in u.names
      {
        assert n != target ==> SameName(t, u, n);
      }
    }
  }

  lemma {:induction false} RunEvolves(txs: seq<Tx>, i: nat)
    requires ClockOk(txs) && i <= |txs|
    ensures Evolves(Run(txs[..i]), Run(txs))
    decreases |txs|
  {
    hide Evolves, Inv, Commit;
    if i == |txs| {
      assert txs[..i] == txs;
      EvolvesSelf(Run(txs));
    } else {
      var k := |txs| - 1;
      assert txs[..k][..i] == txs[..i];
      RunEvolves(txs[..k], i);
      RunKeepsInv(txs[..k]);
      ClockAdvances(Run(txs[..k]), Clock(txs[..k]), txs[k].now);
      CommitEvolves(Run(txs[..k]), txs[k].op, txs[k].now);
      EvolvesTrans(Run(txs[..i]), Run(txs[..k]), Run(txs));
    }
  }
}
