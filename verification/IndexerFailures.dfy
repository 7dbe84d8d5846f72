/** Runs that show why every condition of the index theorems is needed. */
module IndexerFailures {
  import opened Wrappers
  import opened BnsModel
  import opened RegistryTables
  import opened OwnerGraph
  import opened Ownership
  import opened RegistrySpec
  import opened RegistryRuns
  import opened RegistryInvariants
  import opened EventProjector
  import opened Projection
  import opened IndexerSync
  import opened IndexerAgreement
  import opened IndexerRuns
  import opened IndexerGrowth

  // ----- a contract with one registration -----

  const NAME := Top("x")
  const OPTIONS := RegisterOptions(10, 0, true, true, Unset, false, ZeroHash, ZeroHash)
  const REGISTER := Register(NAME, "o", OPTIONS, [], CallAuthority(PublicRole, Unset, ""), MutationGuard(0, 0))

  const FRESH := NameState("o", Unset, Unset, NoSource, false, Active, 1, 11, 11, 1, 1, 0, 0, 0, 0, true, true, false,
                           ZeroHash, ZeroHash, ZeroHash)
  const STORED := FRESH.(effectiveOwner := ChainAccount("o"), ownerSource := AssetOwnerFallback,
                         standardTransferEnabled := true)
  const ANNOUNCED := NameRegistered(NAME, "o", 11, 0, 1)

  function Registration(): EventRecord {
    NextRecord(map[], ANNOUNCED, 1)
  }

  /** Registering a top-level name in an empty registry. */
  lemma FirstRegistration()
    ensures var u := EMPTY_TABLES.(names := map[NAME := STORED], events := map[1 := Registration()]);
      && Apply(EMPTY_TABLES, REGISTER, 1) == Success(Outcome(u, 1))
      && NewRecords(EMPTY_TABLES, u) == [Registration()]
      && ReadName(u, NAME, 1) == Success(Some(STORED))
  {
    assert FreshState(EMPTY_TABLES, NAME, "o", OPTIONS, 1) == FRESH;
    assert MaterializeNameState(EMPTY_TABLES, NAME, FRESH, 1) == Success(STORED);
    OwnGraphOk();
    var u := EMPTY_TABLES.(names := map[NAME := STORED], events := map[1 := Registration()]);
    assert SaveOwnedName(EMPTY_TABLES, NAME, FRESH, 1) == Success(EMPTY_TABLES.(names := map[NAME := STORED]));
    assert RegisterRow(EMPTY_TABLES, NAME, "o", OPTIONS, 1) == Success(u);
    assert RegisterTx(EMPTY_TABLES, NAME, "o", OPTIONS, [], REGISTER.authority, REGISTER.guard, 1) ==
           Success(Outcome(u, 1));
    OneRecord(u);
    assert MaterializeNameState(u, NAME, STORED, 1) == Success(STORED);
  }

  lemma OwnGraphOk()
    ensures OwnerGraphOk(map[NAME := FRESH], map[], 1)
  {
    assert Terminal(NAME, FRESH) && FRESH.ActiveAt(1);
  }

  lemma OneRecord(u: Tables)
    requires u.events == map[1 := Registration()]
    ensures NewRecords(EMPTY_TABLES, u) == [Registration()]
  {
    assert u.events.Keys == {1};
    assert LatestSeq(u.events) == 1;
    assert EventsUpTo(u.events, 1) == EventsUpTo(u.events, 0) + [u.events[1]];
    assert Log(u) == [Registration()] && Log(EMPTY_TABLES) == [];
  }

  // ----- blocks and forks -----

  const QUIET_A := Block("a", 0, [])
  const QUIET_B := Block("b", 0, [])
  const REGISTERING := Block("x", 1, [REGISTER])
  const QUIET_Y := Block("y", 1, [])

  /** Blocks without transactions leave the contract empty. */
  lemma {:induction false} QuietState(f: Fork, k: nat)
    requires k <= |f| && forall i | 0 <= i < k :: f[i].ops == []
    ensures StateAt(f, k) == EMPTY_TABLES && History(f, k) == []
  {
    if k > 0 {
      QuietState(f, k - 1);
      assert BlockTxs(f[k - 1]) == [];
    }
  }

  lemma RegisteredState(f: Fork)
    requires f == [QUIET_A, REGISTERING]
    ensures StateAt(f, 1) == EMPTY_TABLES
    ensures StateAt(f, 2) == EMPTY_TABLES.(names := map[NAME := STORED], events := map[1 := Registration()])
  {
    QuietState(f, 1);
    assert BlockTxs(REGISTERING) == [Tx(REGISTER, 1)];
    assert History(f, 2) == History(f, 1) + BlockTxs(f[1]) == [Tx(REGISTER, 1)];
    assert [Tx(REGISTER, 1)][..0] == [];
    FirstRegistration();
  }

  const LOGS: seq<ContractEvent> := [
    Protocol(ProtocolEvent(1, ZeroHash, "", Registration().previousLogRoot, Registration().logRoot)),
    Registry(ANNOUNCED)]

  lemma LogsEmit()
    ensures Emits(LOGS, [Registration()]) && Emits([], [])
  {
    var first := LOGS[..1];
    assert first[..0] == [] && first == [LOGS[0]] && LOGS[..0] == [] && LOGS[..2] == LOGS;
    assert Protocols(first) == [LOGS[0].protocol];
    assert Registries(first) == Registries(first[..0]) + [];
    assert Protocols(LOGS) == Protocols(first) + [] && Registries(LOGS) == Registries(first) + [ANNOUNCED];
  }

  // ----- windows -----

  /** A window without logs moves the cursor and writes nothing. */
  lemma QuietWindow(s: Index, head: Head, to: nat, call: Call)
    requires to < |call.fork| && call.logs == [] && call.reach.Unhindered? && BlockHashAt(call.fork, head, to).Some?
    ensures Covered([])
    ensures WriteWindow(s, head, to, call) ==
            Synced(s.(cursor := Some(Cursor(to, BlockHashAt(call.fork, head, to)))), true)
  {
    hide StateAt, NamesIn, DocumentsIn, SetsIn, AliasesIn;
    assert InputsOf(Pairs([], call.observedAt), call.calls) == [];
    assert PlannedReads([]) == {};
  }

  lemma OneInput(call: Call)
    requires call.logs == LOGS
    ensures Covered(LOGS) && |Registries(LOGS)| <= |Protocols(LOGS)|
    ensures var inputs := InputsOf(Pairs(LOGS, call.observedAt), call.calls);
      |inputs| == 1 && inputs[0].record.event == ANNOUNCED && PlannedReads(inputs) == {NameRead(NAME)}
  {
    hide NextRecord;
    LogsEmit();
    EmittedInputs(LOGS, [Registration()], call.calls, call.observedAt);
    var inputs := InputsOf(Pairs(LOGS, call.observedAt), call.calls);
    assert ReadsFor(inputs[0]) == {NameRead(NAME)};
  }

  lemma RegistrationSnapshot(c: Tables)
    requires ReadName(c, NAME, 1) == Success(Some(STORED))
    ensures LoadSnapshot(c, 1, {NameRead(NAME)}).Success?
    ensures NAME in LoadSnapshot(c, 1, {NameRead(NAME)}).value.names
    ensures LoadSnapshot(c, 1, {NameRead(NAME)}).value.names[NAME] == Some(STORED)
  {
    hide ReadName;
    var plan := {NameRead(NAME)};
    assert Readable(c, 1, plan);
    assert NAME in NamesIn(c, 1, plan) by {
      assert NameRead(NAME) in plan;
    }
  }

  lemma RegistrationWritten(t: Tables, snap: Snapshot, inputs: seq<Input>)
    requires |inputs| == 1 && inputs[0].record.event == ANNOUNCED
    requires NAME in snap.names && snap.names[NAME] == Some(STORED)
    ensures NAME in WriteRecords(t, snap, inputs).tables.names
  {
    assert inputs[..0] == [];
    assert ProjectionFor(snap, inputs[0]).Success?;
  }

  /** A window that stops after its one record holds the registered name, and its cursor has not moved. */
  lemma HalfWrittenWindow(s: Index, head: Head, call: Call)
    requires call.fork == [QUIET_A, REGISTERING] && call.logs == LOGS && call.reach == Records(1)
    ensures Covered(LOGS)
    ensures var r := WriteWindow(s, head, 1, call);
      !r.completed && NAME in r.index.tables.names && r.index == s.(tables := r.index.tables)
  {
    hide StateAt, LoadSnapshot, PlannedReads, WriteRecords, ReadName, Apply, NextRecord, Covered;
    RegisteredState(call.fork);
    FirstRegistration();
    OneInput(call);
    var c := StateAt(call.fork, 2);
    RegistrationSnapshot(c);
    var inputs := InputsOf(Pairs(LOGS, call.observedAt), call.calls);
    assert inputs[..1] == inputs;
    RegistrationWritten(s.tables, LoadSnapshot(c, 1, {NameRead(NAME)}).value, inputs);
  }

  // ----- runs -----

  /** A round of a process that was not restarted, indexing from block 0 without waiting for confirmations. */
  function Plain(span: nat, fork: Fork, logs: seq<ContractEvent>, reach: Reach): Round {
    Round(Config(0, 0, span), false, Call(fork, true, logs, [], 0, reach))
  }

  predicate RoundFits(s: Index, r: Round) {
    ProperRound(0, r) && HonestRound(s, r) && OnFork(RoundHead(s, r), r.call.fork)
  }

  lemma TwoRounds(r: Round, q: Round)
    requires RoundFits(EMPTY_INDEX, r) && RoundFits(RoundSync(EMPTY_INDEX, r).index, q)
    ensures Served(0, [r, q]) && OneForkPerCall([r, q])
    ensures IndexAfter([r]) == RoundSync(EMPTY_INDEX, r).index
    ensures IndexAfter([r, q]) == RoundSync(IndexAfter([r]), q).index
  {
    hide RoundSync, ProperRound, HonestRound, OnFork, RoundHead;
    assert forall x | x in [r, q] :: x.Proper() by {
      FitsProper(EMPTY_INDEX, r);
      FitsProper(RoundSync(EMPTY_INDEX, r).index, q);
    }
    assert [r][..0] == [] && [r, q][..0] == [] && [r, q][..1] == [r];
  }

  lemma ThreeRounds(r: Round, q: Round, p: Round)
    requires RoundFits(EMPTY_INDEX, r) && RoundFits(RoundSync(EMPTY_INDEX, r).index, q)
    requires RoundFits(RoundSync(RoundSync(EMPTY_INDEX, r).index, q).index, p)
    ensures Served(0, [r, q, p]) && OneForkPerCall([r, q, p])
    ensures IndexAfter([r, q]) == RoundSync(RoundSync(EMPTY_INDEX, r).index, q).index
    ensures IndexAfter([r, q, p]) == RoundSync(IndexAfter([r, q]), p).index
  {
    hide RoundSync, ProperRound, HonestRound, OnFork, RoundHead;
    TwoRounds(r, q);
    assert p.Proper() && r.Proper() && q.Proper() by {
      FitsProper(EMPTY_INDEX, r);
      FitsProper(RoundSync(EMPTY_INDEX, r).index, q);
      FitsProper(RoundSync(RoundSync(EMPTY_INDEX, r).index, q).index, p);
    }
    var rounds := [r, q, p];
    assert rounds[..0] == [] && rounds[..1] == [r] && rounds[..2] == [r, q];
  }

  lemma FitsProper(s: Index, r: Round)
    requires ProperRound(0, r)
    ensures r.Proper()
  {
  }

  lemma QuietRecords(f: Fork, a: nat, b: nat)
    requires a <= b <= |f| && forall i | 0 <= i < b :: f[i].ops == []
    ensures RecordsIn(f, a, b) == []
  {
    QuietState(f, a);
    QuietState(f, b);
  }

  /** The cursor block, if there is one, is still in place. */
  predicate CursorInPlace(s: Index, f: Fork) {
    s.cursor.Some? ==> s.cursor.value.block < |f| && s.cursor.value.hash == Some(f[s.cursor.value.block].hash)
  }

  /** A plain round whose cursor block is in place writes the window after it. */
  lemma PlainWindow(s: Index, r: Round, from: nat, to: nat)
    requires r == Plain(r.config.maxBlockSpan, r.call.fork, r.call.logs, r.call.reach) && r.config.maxBlockSpan > 0
    requires r.call.reach.Records? || r.call.reach.Unhindered?
    requires ForkOk(r.call.fork) && CursorInPlace(s, r.call.fork)
    requires from == NextFrom(0, s) < |r.call.fork| && to == WindowEnd(r.config, from, |r.call.fork| - 1)
    requires Emits(r.call.logs, RecordsIn(r.call.fork, from, to + 1))
    ensures RoundFits(s, r) && Covered(r.call.logs)
    ensures var head := LatestHead(r.call.fork);
      RoundSync(s, r) == WriteWindow(s.(cachedHead := Some(head)), head, to, r.call)
  {
    hide StateAt, WriteWindow, Emits, RecordsIn, Covered;
    CoveredByEmits(r.call.logs, RecordsIn(r.call.fork, from, to + 1));
    QuietState(r.call.fork, 0);
  }

  /** A plain round over quiet blocks moves the cursor and writes nothing. */
  lemma QuietRound(s: Index, r: Round, from: nat, to: nat)
    requires r == Plain(r.config.maxBlockSpan, r.call.fork, [], Unhindered) && r.config.maxBlockSpan > 0
    requires ForkOk(r.call.fork) && CursorInPlace(s, r.call.fork)
    requires from == NextFrom(0, s) < |r.call.fork| && to == WindowEnd(r.config, from, |r.call.fork| - 1)
    requires forall i | 0 <= i <= to :: r.call.fork[i].ops == []
    ensures RoundFits(s, r)
    ensures RoundSync(s, r) == Synced(
      Index(s.tables, Some(Cursor(to, Some(r.call.fork[to].hash))), Some(LatestHead(r.call.fork))), true)
  {
    hide StateAt, WriteWindow, Emits, RecordsIn, Covered, RoundSync, RoundFits, ForkOk;
    QuietRecords(r.call.fork, from, to + 1);
    LogsEmit();
    PlainWindow(s, r, from, to);
    QuietWindow(s.(cachedHead := Some(LatestHead(r.call.fork))), LatestHead(r.call.fork), to, r.call);
  }

  // ----- a stop between caching the head and the check -----

  function HiddenReorg(): seq<Round> {
    [Plain(1, [QUIET_A], [], Unhindered), Plain(1, [QUIET_B], [], NoCheck), Plain(1, [QUIET_B], [], Unhindered)]
  }

  const STALE_CURSOR := Index(EMPTY_TABLES, Some(Cursor(0, Some("a"))), Some(Head(0, "b")))

  lemma HiddenRun()
    ensures var rounds := HiddenReorg();
      && Served(0, rounds) && HashesFixHistory(rounds) && OneForkPerCall(rounds)
      && RoundSync(IndexAfter(rounds[..2]), rounds[2]) == Synced(STALE_CURSOR, true)
      && IndexAfter(rounds) == STALE_CURSOR
  {
    hide StateAt, WriteWindow, RecordsIn, Emits;
    var r, q, p := HiddenReorg()[0], HiddenReorg()[1], HiddenReorg()[2];
    QuietRound(EMPTY_INDEX, r, 0, 0);
    QuietState([QUIET_B], 0);
    QuietRecords([QUIET_B], 0, 1);
    LogsEmit();
    var s := RoundSync(EMPTY_INDEX, r).index;
    assert RoundSync(s, q) == Synced(STALE_CURSOR, false);
    ThreeRounds(r, q, p);
    assert HiddenReorg()[..2] == [r, q];
  }

  /**
   * The block under the cursor is replaced, and the call that caches the new head stops before the check. The next
   * call completes with nothing to do, and its cursor still names the replaced block.
   */
  lemma StoppedCheckHidesReorg(n: Name, now: nat)
    ensures var rounds := HiddenReorg();
      && Served(0, rounds) && HashesFixHistory(rounds) && OneForkPerCall(rounds)
      && RoundSync(IndexAfter(rounds[..2]), rounds[2]).completed
      && IndexAfter(rounds).cursor == Some(Cursor(0, Some("a"))) && rounds[2].call.fork[0].hash == "b"
      && !ReflectsFor(IndexAfter(rounds), rounds[2].call.fork, n, now)
  {
    hide Served, HashesFixHistory, OneForkPerCall, IndexAfter, RoundSync;
    HiddenRun();
  }

  // ----- a stop inside a window that the next fork replaces -----

  function HalfWritten(): seq<Round> {
    [Plain(1, [QUIET_A], [], Unhindered),
     Plain(1, [QUIET_A, REGISTERING], LOGS, Records(1)),
     Plain(1, [QUIET_A, QUIET_Y], [], Unhindered)]
  }

  lemma RegistrationRound(s: Index, r: Round)
    requires r == Plain(r.config.maxBlockSpan, [QUIET_A, REGISTERING], LOGS, Records(1)) && 0 < r.config.maxBlockSpan
    requires CursorInPlace(s, r.call.fork) && 2 <= NextFrom(0, s) + r.config.maxBlockSpan && NextFrom(0, s) < 2
    ensures RoundFits(s, r)
    ensures var o := RoundSync(s, r);
      && !o.completed && NAME in o.index.tables.names
      && o.index == s.(tables := o.index.tables, cachedHead := Some(Head(1, "x")))
  {
    hide StateAt, WriteWindow, Emits, Covered, RoundFits, RoundSync, ReadName, NextRecord, Apply;
    var f := r.call.fork;
    RegisteredState(f);
    QuietState(f, 0);
    FirstRegistration();
    LogsEmit();
    assert RecordsIn(f, NextFrom(0, s), 2) == [Registration()];
    PlainWindow(s, r, NextFrom(0, s), 1);
    HalfWrittenWindow(s.(cachedHead := Some(LatestHead(f))), LatestHead(f), r.call);
  }

  lemma HalfWrittenRun()
    ensures var rounds := HalfWritten();
      && Served(0, rounds) && HashesFixHistory(rounds) && OneForkPerCall(rounds)
      && RoundSync(IndexAfter(rounds[..2]), rounds[2]).completed
      && IndexAfter(rounds).cursor == Some(Cursor(1, Some("y"))) && NAME in IndexAfter(rounds).tables.names
  {
    hide RoundSync, RoundFits, Served, OneForkPerCall, IndexAfter;
    var rounds := HalfWritten();
    var r, q, p := rounds[0], rounds[1], rounds[2];
    QuietRound(EMPTY_INDEX, r, 0, 0);
    RegistrationRound(RoundSync(EMPTY_INDEX, r).index, q);
    QuietRound(RoundSync(RoundSync(EMPTY_INDEX, r).index, q).index, p, 1, 1);
    ThreeRounds(r, q, p);
    assert rounds[..2] == [r, q];
  }

  /**
   * A call stops inside a window; the fork that follows keeps the cursor block and replaces the window. The next call
   * completes, and the name that the replaced window registered stays in the index, although no block of the fork
   * registers it.
   */
  lemma HalfWrittenWindowOutlivesFork(now: nat)
    ensures var rounds := HalfWritten();
      && Served(0, rounds) && HashesFixHistory(rounds) && OneForkPerCall(rounds)
      && RoundSync(IndexAfter(rounds[..2]), rounds[2]).completed
      && IndexAfter(rounds).cursor == Some(Cursor(1, Some("y"))) && NAME in IndexAfter(rounds).tables.names
      && StateAt(rounds[2].call.fork, 2) == EMPTY_TABLES
      && !ReflectsFor(IndexAfter(rounds), rounds[2].call.fork, NAME, now)
  {
    hide Served, HashesFixHistory, OneForkPerCall, IndexAfter, RoundSync, ReadName, StateAt;
    HalfWrittenRun();
    QuietState(HalfWritten()[2].call.fork, 2);
  }

  // ----- a window that shrinks -----

  function ShrunkWindow(): seq<Round> {
    [Plain(2, [QUIET_A, REGISTERING], LOGS, Records(1)), Plain(1, [QUIET_A, REGISTERING], [], Unhindered)]
  }

  lemma ShrunkRun()
    ensures var rounds := ShrunkWindow();
      && Served(0, rounds) && Growing(rounds)
      && RoundSync(IndexAfter(rounds[..1]), rounds[1]).completed
      && IndexAfter(rounds).cursor == Some(Cursor(0, Some("a"))) && NAME in IndexAfter(rounds).tables.names
  {
    hide RoundSync, RoundFits, Served, IndexAfter;
    var rounds := ShrunkWindow();
    var r, q := rounds[0], rounds[1];
    RegistrationRound(EMPTY_INDEX, r);
    QuietRound(RoundSync(EMPTY_INDEX, r).index, q, 0, 0);
    TwoRounds(r, q);
    assert rounds[..1] == [r];
  }

  /**
   * Even on one unchanging fork: a call stops inside a window of two blocks, and the span is then set to one. The next
   * call completes at the first block, while the index holds the name that only the second block registers.
   */
  lemma ShrunkWindowRunsAhead(now: nat)
    ensures var rounds := ShrunkWindow();
      && Served(0, rounds) && Growing(rounds)
      && RoundSync(IndexAfter(rounds[..1]), rounds[1]).completed
      && IndexAfter(rounds).cursor == Some(Cursor(0, Some("a"))) && NAME in IndexAfter(rounds).tables.names
      && StateAt(rounds[1].call.fork, 1) == EMPTY_TABLES
      && !ReflectsFor(IndexAfter(rounds), rounds[1].call.fork, NAME, now)
  {
    hide Served, Growing, IndexAfter, RoundSync, ReadName, StateAt;
    ShrunkRun();
    QuietState(ShrunkWindow()[1].call.fork, 1);
  }
}
