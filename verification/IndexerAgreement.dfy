/** The index agrees with the contract: on a growing fork after stopped calls, and across reorgs. */
module IndexerAgreement {
  import opened Wrappers
  import opened RegistryTables
  import opened RegistryRuns
  import opened RegistryHistory
  import opened RegistryInvariants
  import opened RegistryEvolution
  import opened EventProjector
  import opened Projection
  import opened Mirror
  import opened WindowReplay
  import opened IndexerSync

  // ----- states of one fork -----

  lemma {:induction false} HistoryInOrder(f: Fork, k: nat)
    requires ForkOk(f) && k <= |f|
    ensures ClockOk(History(f, k))
    ensures forall i | 0 <= i < |History(f, k)| :: History(f, k)[i].now <= TimeAt(f, k)
  {
    if k > 0 {
      HistoryInOrder(f, k - 1);
    }
  }

  lemma StateInv(f: Fork, k: nat)
    requires ForkOk(f) && k <= |f|
    ensures Inv(StateAt(f, k), TimeAt(f, k))
  {
    hide Inv;
    HistoryInOrder(f, k);
    RunKeepsInv(History(f, k));
    ClockAdvances(StateAt(f, k), Clock(History(f, k)), TimeAt(f, k));
  }

  lemma {:induction false} HistoryPrefix(f: Fork, i: nat, j: nat)
    requires i <= j <= |f|
    ensures History(f, i) <= History(f, j)
    decreases j
  {
    if i < j {
      HistoryPrefix(f, i, j - 1);
    }
  }

  lemma StateEvolves(f: Fork, i: nat, j: nat)
    requires ForkOk(f) && i <= j <= |f|
    ensures Evolves(StateAt(f, i), StateAt(f, j))
    ensures TimeAt(f, i) <= TimeAt(f, j)
  {
    hide Evolves;
    HistoryPrefix(f, i, j);
    assert History(f, j)[..|History(f, i)|] == History(f, i);
    HistoryInOrder(f, j);
    RunEvolves(History(f, j), |History(f, i)|);
  }

  lemma {:induction false} SharedPrefix(f: Fork, g: Fork, k: nat)
    requires k <= |f| && k <= |g| && f[..k] == g[..k]
    ensures StateAt(f, k) == StateAt(g, k) && TimeAt(f, k) == TimeAt(g, k)
    ensures History(f, k) == History(g, k)
    decreases k
  {
    if k > 0 {
      assert f[..k - 1] == f[..k][..k - 1] && g[..k - 1] == g[..k][..k - 1];
      assert f[k - 1] == f[..k][k - 1] && g[k - 1] == g[..k][k - 1];
      SharedPrefix(f, g, k - 1);
    }
  }

  lemma StageOf(f: Fork, a: nat, c: nat)
    requires ForkOk(f) && a <= c <= |f|
    ensures Stage(StateAt(f, a), StateAt(f, c), RecordsIn(f, a, c))
    ensures TimeAt(f, a) <= TimeAt(f, c)
  {
    hide Evolves, LogDetermines;
    StateEvolves(f, a, c);
    StateInv(f, a);
    StateInv(f, c);
  }

  // ----- what the chain answers -----

  /** The logs of a window: its records, split into protocol and registry events. */
  predicate Emits(logs: seq<ContractEvent>, w: Records) {
    && Covered(logs)
    && |Registries(logs)| == |Protocols(logs)| == |w|
    && forall i | 0 <= i < |w| ::
      && Registries(logs)[i] == w[i].event
      && Protocols(logs)[i].seq_ == w[i].seq_
      && Protocols(logs)[i].previousLogRoot == w[i].previousLogRoot
      && Protocols(logs)[i].logRoot == w[i].logRoot
  }

  /** The log query of a call returns the logs of the window it asks for. */
  predicate Honest(config: Config, s: Index, call: Call)
    requires call.fork != [] && config.maxBlockSpan > 0
  {
    Checked(s, call).Success? ==>
      var from := NextBlock(config, Checked(s, call).value);
      var target := TargetBlock(config, HeadFor(s, call.fork, call.refresh));
      var to := WindowEnd(config, from, target);
      from <= target && to < |call.fork| ==> Emits(call.logs, RecordsIn(call.fork, from, to + 1))
  }

  lemma EmittedInputs(logs: seq<ContractEvent>, w: Records, calls: seq<DecodedCall>, observedAt: nat)
    requires Emits(logs, w)
    ensures |Registries(logs)| <= |Protocols(logs)|
    ensures Carries(InputsOf(Pairs(logs, observedAt), calls), w)
  {
  }

  /** Nothing was registered before the block the indexer starts from. */
  predicate DeployedFrom(f: Fork, start: nat) {
    start <= |f| ==> StateAt(f, start) == EMPTY_TABLES
  }

  // ----- one window -----

  /** A write that stops early has replayed a prefix. */
  lemma {:induction false} WrittenIsReplay(t: Tables, snap: Snapshot, inputs: seq<Input>) returns (m: nat)
    ensures m <= |inputs| && Replay(t, snap, inputs[..m]) == Success(WriteRecords(t, snap, inputs).tables)
    ensures WriteRecords(t, snap, inputs).complete ==> m == |inputs|
    decreases |inputs|
  {
    if inputs == [] {
      m := 0;
    } else {
      var k := |inputs| - 1;
      m := WrittenIsReplay(t, snap, inputs[..k]);
      assert inputs[..k][..m] == inputs[..m];
      if WriteRecords(t, snap, inputs).complete {
        m := |inputs|;
        assert inputs[..m] == inputs;
      }
    }
  }

  /** The tables are on their way from a mirror of the state before block next to one of the state before block hi. */
  ghost predicate WrittenUpTo(t: Tables, f: Fork, next: nat, hi: nat)
    requires next <= hi <= |f|
  {
    Between(t, StateAt(f, next), StateAt(f, hi), TimeAt(f, hi))
  }

  ghost predicate InSync(t: Tables, f: Fork, next: nat)
    requires next <= |f|
  {
    Mirrors(t, StateAt(f, next), TimeAt(f, next))
  }

  lemma InSyncExactlyWhen(t: Tables, f: Fork, next: nat)
    requires ForkOk(f) && next <= |f|
    ensures InSync(t, f, next) <==> WrittenUpTo(t, f, next, next)
  {
    hide Mirrors, Between, Stage, StateAt;
    var c, now := StateAt(f, next), TimeAt(f, next);
    var snap := Snapshot(map[], map[], map[], map[], None);
    StageOf(f, next, next);
    assert RecordsIn(f, next, next) == [] by {
      NothingNew(c);
    }
    assert Replays(t, snap, [], [], c, now, 0, t);
    ReplayMirrorsExactlyWhen(t, c, c, now, snap, [], [], t);
  }

  lemma NothingNew(c: Tables)
    ensures NewRecords(c, c) == []
  {
  }

  lemma WrittenWidens(t: Tables, f: Fork, next: nat, hi: nat, to: nat)
    requires ForkOk(f) && next <= hi <= to <= |f| && WrittenUpTo(t, f, next, hi)
    ensures WrittenUpTo(t, f, next, to)
  {
    hide Between, StateAt;
    StateEvolves(f, next, hi);
    StateEvolves(f, hi, to);
    BetweenWidens(t, StateAt(f, next), StateAt(f, hi), StateAt(f, to), TimeAt(f, hi), TimeAt(f, to));
  }

  function Max(a: nat, b: nat): nat {
    if a < b then b else a
  }

  /** Replaying some records of a window: what was on its way stays on its way. */
  lemma ReplayPart(
    t: Tables, f: Fork, from: nat, hi: nat, to: nat, snap: Snapshot, inputs: seq<Input>, m: nat, u: Tables)
    requires ForkOk(f) && from <= hi <= |f| && from <= to + 1 <= |f| && WrittenUpTo(t, f, from, hi)
    requires Replays(t, snap, inputs, RecordsIn(f, from, to + 1), StateAt(f, to + 1), TimeAt(f, to + 1), m, u)
    ensures WrittenUpTo(u, f, from, Max(hi, to + 1))
  {
    hide Between, Stage, ReadFrom, Replay, StateAt;
    var w := RecordsIn(f, from, to + 1);
    StageOf(f, from, to + 1);
    if hi <= to + 1 {
      WrittenWidens(t, f, from, hi, to + 1);
      ReplayStaysBetween(t, StateAt(f, from), StateAt(f, to + 1), TimeAt(f, to + 1), snap, inputs, w, m, u);
    } else {
      StateEvolves(f, to + 1, hi);
      ShorterReplayStaysBetween(t, StateAt(f, from), StateAt(f, to + 1), StateAt(f, hi), TimeAt(f, hi), TimeAt(f, to + 1),
                                snap, inputs, w, m, u);
    }
  }

  lemma ReplayWhole(t: Tables, f: Fork, from: nat, to: nat, snap: Snapshot, inputs: seq<Input>, u: Tables)
    requires ForkOk(f) && from <= to + 1 <= |f|
    requires Replays(t, snap, inputs, RecordsIn(f, from, to + 1), StateAt(f, to + 1), TimeAt(f, to + 1), |inputs|, u)
    ensures InSync(u, f, to + 1) <==> WrittenUpTo(t, f, from, to + 1)
  {
    hide Between, Mirrors, Stage, ReadFrom, Replay, StateAt;
    StageOf(f, from, to + 1);
    ReplayMirrorsExactlyWhen(t, StateAt(f, from), StateAt(f, to + 1), TimeAt(f, to + 1), snap, inputs,
                             RecordsIn(f, from, to + 1), u);
  }

  /** What a call makes of its window: some prefix of its records, and all of them when it completes. */
  lemma WindowReplays(s: Index, head: Head, from: nat, to: nat, call: Call)
    returns (snap: Snapshot, inputs: seq<Input>, m: nat)
    requires from <= to + 1 <= |call.fork|
    requires Emits(call.logs, RecordsIn(call.fork, from, to + 1))
    ensures var r := WriteWindow(s, head, to, call); var f := call.fork;
      && ((r.index.tables == s.tables && !r.completed)
          || Replays(s.tables, snap, inputs, RecordsIn(f, from, to + 1), StateAt(f, to + 1), TimeAt(f, to + 1), m,
                     r.index.tables))
      && (r.completed ==> m == |inputs|)
  {
    hide Covered, Emits, ReadFrom, LoadSnapshot, Pairs, InputsOf, PlannedReads, StateAt, RecordsIn;
    var f := call.fork;
    var w := RecordsIn(f, from, to + 1);
    EmittedInputs(call.logs, w, call.calls, call.observedAt);
    inputs := InputsOf(Pairs(call.logs, call.observedAt), call.calls);
    var loaded := LoadSnapshot(StateAt(f, to + 1), TimeAt(f, to + 1), PlannedReads(inputs));
    snap, m := Snapshot(map[], map[], map[], map[], None), 0;
    if loaded.Success? {
      LoadedFrom(StateAt(f, to + 1), TimeAt(f, to + 1), PlannedReads(inputs));
      snap := loaded.value;
      var count := if call.reach.Records? && call.reach.count < |inputs| then call.reach.count else |inputs|;
      m := WrittenIsReplay(s.tables, snap, inputs[..count]);
      assert inputs[..count][..m] == inputs[..m];
    }
  }

  /** A stopped call leaves the tables on their way to the later of the two windows' ends. */
  lemma WindowWrites(s: Index, head: Head, from: nat, hi: nat, to: nat, call: Call)
    requires ForkOk(call.fork) && from <= hi <= |call.fork| && from <= to + 1 <= |call.fork|
    requires WrittenUpTo(s.tables, call.fork, from, hi)
    requires Emits(call.logs, RecordsIn(call.fork, from, to + 1))
    ensures WrittenUpTo(WriteWindow(s, head, to, call).index.tables, call.fork, from, Max(hi, to + 1))
  {
    hide WrittenUpTo, Covered, WriteWindow, Replays, RecordsIn;
    var snap, inputs, m := WindowReplays(s, head, from, to, call);
    if WriteWindow(s, head, to, call).index.tables == s.tables {
      if hi <= to + 1 {
        WrittenWidens(s.tables, call.fork, from, hi, to + 1);
      }
    } else {
      ReplayPart(s.tables, call.fork, from, hi, to, snap, inputs, m, WriteWindow(s, head, to, call).index.tables);
    }
  }

  /** A completed window is in sync exactly when the tables were on their way to its end. */
  lemma WindowInSyncExactlyWhen(s: Index, head: Head, from: nat, to: nat, call: Call)
    requires ForkOk(call.fork) && from <= to + 1 <= |call.fork|
    requires Emits(call.logs, RecordsIn(call.fork, from, to + 1))
    requires WriteWindow(s, head, to, call).completed
    ensures InSync(WriteWindow(s, head, to, call).index.tables, call.fork, to + 1) <==>
            WrittenUpTo(s.tables, call.fork, from, to + 1)
  {
    hide WrittenUpTo, InSync, Covered, WriteWindow, Replays, RecordsIn;
    var snap, inputs, m := WindowReplays(s, head, from, to, call);
    ReplayWhole(s.tables, call.fork, from, to, snap, inputs, WriteWindow(s, head, to, call).index.tables);
  }
}
