/** Runs of the registry: what holds in every reachable state. */
module RegistryRuns {
  import opened Wrappers
  import opened BnsModel
  import opened RegistryTables
  import opened OwnerGraph
  import opened RegistrySpec
  import opened RegistryLog
  import opened RegistryHistory
  import opened RegistryInvariants
  import opened RegistryOperations

  datatype Tx = Tx(op: Operation, now: nat)

  /** The tables after a sequence of transactions, failed ones included. */
  function Run(txs: seq<Tx>): Tables {
    if txs == [] then EMPTY_TABLES
    else
      var last := txs[|txs| - 1];
      Commit(Run(txs[..|txs| - 1]), last.op, last.now)
  }

  predicate ClockOk(txs: seq<Tx>) {
    forall i, j | 0 <= i < j < |txs| :: txs[i].now <= txs[j].now
  }

  function Clock(txs: seq<Tx>): nat {
    if txs == [] then 0 else txs[|txs| - 1].now
  }

  predicate Committed(txs: seq<Tx>, i: nat)
    requires i < |txs|
  {
    Apply(Run(txs[..i]), txs[i].op, txs[i].now).Success?
  }

  lemma EmptyInv()
    ensures Inv(EMPTY_TABLES, 0)
  {
    assert Log(EMPTY_TABLES) == [];
  }

  /** Time only takes active names away. */
  lemma ClockAdvances(t: Tables, now: nat, later: nat)
    requires Inv(t, now) && now <= later
    ensures Inv(t, later)
  {
    hide LogDetermines;
    forall n | n in t.names && t.names[n].ActiveAt(later) && t.names[n].semanticOwner.BnsName?
      ensures LiveOwner(t, t.names[n].semanticOwner.name)
    {
      assert t.names[n].ActiveAt(now);
    }
  }

  lemma CommitSound(t: Tables, op: Operation, now: nat)
    requires Inv(t, now)
    ensures Sound(t, op, Commit(t, op, now), now) || Commit(t, op, now) == t
    ensures Inv(Commit(t, op, now), now)
  {
    hide Apply, Changes, LogDetermines, GraphGrounded, OwnersLive;
    if Apply(t, op, now).Success? {
      OperationSound(t, op, now);
    }
  }

  lemma {:induction false} RunKeepsInv(txs: seq<Tx>)
    requires ClockOk(txs)
    ensures Inv(Run(txs), Clock(txs))
  {
    hide Inv, Apply, Sound;
    if txs == [] {
      EmptyInv();
    } else {
      var k := |txs| - 1;
      RunKeepsInv(txs[..k]);
      ClockAdvances(Run(txs[..k]), Clock(txs[..k]), txs[k].now);
      CommitSound(Run(txs[..k]), txs[k].op, txs[k].now);
    }
  }

  // ----- owner references -----

  lemma {:induction false} GroundedWalkStops(names: Names, n: Name, edges: nat) returns (k: nat, m: Name)
    requires Grounded(names, n, edges)
    ensures k <= edges && Walk(names, n, k) == Some(m)
    ensures m in names && Terminal(m, names[m])
    decreases edges
  {
    if Terminal(n, names[n]) {
      k, m := 0, n;
    } else {
      k, m := GroundedWalkStops(names, Next(n, names[n]), edges - 1);
      k := k + 1;
    }
  }

  /**
   * In every reachable state, following owner references from any stored name, active or not,
   * stops at a self-owned name or at a top-level name without a semantic owner, and never returns.
   */
  lemma OwnerWalksEnd(txs: seq<Tx>, n: Name)
    requires ClockOk(txs) && n in Run(txs).names
    ensures var names := Run(txs).names;
      && (exists k: nat, m :: Walk(names, n, k) == Some(m) && m in names && Terminal(m, names[m]))
      && (forall k: nat | k > 0 :: Walk(names, n, k) != Some(n))
  {
    var names := Run(txs).names;
    RunKeepsInv(txs);
    var edges: nat :| Grounded(names, n, edges);
    var k, m := GroundedWalkStops(names, n, edges);
    forall j: nat | j > 0
      ensures Walk(names, n, j) != Some(n)
    {
      if Walk(names, n, j) == Some(n) {
        CycleNeverEnds(names, n, j, edges);
      }
    }
  }

  /**
   * At the clock of the last transaction and at any later time, every active name with an explicit
   * owner names a stored owner that is neither released nor tombstoned and counts at least one key.
   */
  lemma ActiveNamesHaveLiveOwners(txs: seq<Tx>, now: nat, n: Name)
    requires ClockOk(txs) && Clock(txs) <= now
    requires var t := Run(txs); n in t.names && t.names[n].ActiveAt(now) && t.names[n].semanticOwner.BnsName?
    ensures var t := Run(txs); var owner := t.names[n].semanticOwner.name;
      && owner in t.names
      && t.names[owner].status !in {Released, Tombstoned}
      && owner in t.sets && t.sets[owner].activeKeyCount > 0
  {
    RunKeepsInv(txs);
    ClockAdvances(Run(txs), Clock(txs), now);
    assert LiveOwner(Run(txs), Run(txs).names[n].semanticOwner.name);
  }

  // ----- sequence numbers and lineages -----

  lemma {:induction false} SequenceNeverFalls(txs: seq<Tx>, i: nat, n: Name)
    requires ClockOk(txs) && i <= |txs| && n in Run(txs[..i]).names
    ensures n in Run(txs).names
    ensures Run(txs[..i]).names[n].nameSeq <= Run(txs).names[n].nameSeq
    decreases |txs|
  {
    hide Inv, Apply, Log, NewRecords;
    if i == |txs| {
      assert txs[..i] == txs;
    } else {
      var k := |txs| - 1;
      assert txs[..k][..i] == txs[..i];
      SequenceNeverFalls(txs[..k], i, n);
      var t := Run(txs[..k]);
      RunKeepsInv(txs[..k]);
      ClockAdvances(t, Clock(txs[..k]), txs[k].now);
      CommitSound(t, txs[k].op, txs[k].now);
      assert Changes(t, Run(txs), Target(txs[k].op)) ==> n == Target(txs[k].op) || SameName(t, Run(txs), n);
    }
  }

  /**
   * Of two guarded mutations of one name that expect the same sequence number, other than
   * pure authority-key updates, at most one ever commits.
   */
  lemma StaleGuardNeverCommits(txs: seq<Tx>, i: nat, j: nat)
    requires ClockOk(txs) && i < j < |txs|
    requires Guarded(txs[i].op) && Guarded(txs[j].op)
    requires !PureKeyUpdate(txs[i].op) && !PureKeyUpdate(txs[j].op)
    requires txs[i].op.name == txs[j].op.name
    requires txs[i].op.guard.expectedNameSeq == txs[j].op.guard.expectedNameSeq
    ensures !Committed(txs, i) || !Committed(txs, j)
  {
    hide Apply;
    if Committed(txs, i) && Committed(txs, j) {
      var n := txs[i].op.name;
      CommittedMoves(txs, i);
      CommittedMoves(txs, j);
      assert txs[..j][..i + 1] == txs[..i + 1];
      SequenceNeverFalls(txs[..j], i + 1, n);
    }
  }

  lemma CommittedMoves(txs: seq<Tx>, i: nat)
    requires ClockOk(txs) && i < |txs| && Committed(txs, i)
    ensures SequenceMoves(Run(txs[..i]), txs[i].op, Run(txs[..i + 1]))
  {
    hide Inv, Apply, Changes, NewRecords;
    var t := Run(txs[..i]);
    RunKeepsInv(txs[..i]);
    ClockAdvances(t, Clock(txs[..i]), txs[i].now);
    OperationSound(t, txs[i].op, txs[i].now);
    assert txs[..i + 1][..i] == txs[..i];
  }

  /** The lineage epoch of a stored name is its number of registrations minus one. */
  lemma LineageCountsRegistrations(txs: seq<Tx>, n: Name)
    requires ClockOk(txs)
    ensures var t := Run(txs);
      && (n in t.names <==> LogRegistrations(Log(t), n) > 0)
      && (n in t.names ==> t.names[n].lineageEpoch == LogRegistrations(Log(t), n) - 1)
  {
    RunKeepsInv(txs);
    assert NameMatches(Run(txs), Log(Run(txs)), n);
  }

  // ----- the event log -----

  lemma RunExtendsLog(txs: seq<Tx>, i: nat)
    requires ClockOk(txs) && i <= |txs|
    ensures LogOk(Run(txs[..i]).events) && LogOk(Run(txs).events)
    ensures Extends(Run(txs[..i]).events, Run(txs).events)
    decreases |txs|
  {
    hide Apply, LogDetermines, NewRecords, Log, GraphGrounded, OwnersLive, CheckpointsOk, SameName, SameDocument, SameSet;
    hide DocumentPushed, SetPushed, SequenceMoves;
    RunKeepsInv(txs);
    if i == |txs| {
      assert txs[..i] == txs;
    } else {
      var k := |txs| - 1;
      assert txs[..k][..i] == txs[..i];
      RunExtendsLog(txs[..k], i);
      RunKeepsInv(txs[..k]);
      ClockAdvances(Run(txs[..k]), Clock(txs[..k]), txs[k].now);
      CommitSound(Run(txs[..k]), txs[k].op, txs[k].now);
    }
  }

  /** The log of a reachable state is contiguous from 1 and chained, and a published checkpoint stays true. */
  lemma CheckpointsStayTrue(txs: seq<Tx>, i: nat, c: nat)
    requires ClockOk(txs) && i <= |txs| && c in Run(txs[..i]).checkpoints
    ensures LogOk(Run(txs).events)
    ensures var published := Run(txs[..i]).checkpoints[c];
      && published.lastSeq <= LatestSeq(Run(txs).events)
      && published.logRoot == RootAt(Run(txs).events, published.lastSeq)
  {
    RunKeepsInv(txs[..i]);
    RunExtendsLog(txs, i);
    ExtensionKeepsRoots(Run(txs[..i]).events, Run(txs).events, c);
  }
}
