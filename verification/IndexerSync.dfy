/** One sync call of the indexer, as a function of its state and of the fork it is served. */
module IndexerSync {
  import opened Wrappers
  import opened RegistryTables
  import opened RegistrySpec
  import opened RegistryRuns
  import opened RegistryHistory
  import opened RegistryInvariants
  import opened EventProjector
  import opened Projection

  // ----- the chain -----

  datatype Block = Block(hash: string, time: nat, ops: seq<Operation>)
  type Fork = seq<Block>

  predicate ForkOk(f: Fork) {
    f != [] && forall i, j | 0 <= i < j < |f| :: f[i].time <= f[j].time
  }

  function BlockTxs(b: Block): seq<Tx> {
    seq(|b.ops|, i requires 0 <= i < |b.ops| => Tx(b.ops[i], b.time))
  }

  /** The transactions of the first k blocks. */
  function History(f: Fork, k: nat): seq<Tx>
    requires k <= |f|
  {
    if k == 0 then [] else History(f, k - 1) + BlockTxs(f[k - 1])
  }

  /** The contract after the first k blocks. */
  function StateAt(f: Fork, k: nat): Tables
    requires k <= |f|
  {
    Run(History(f, k))
  }

  function TimeAt(f: Fork, k: nat): nat
    requires k <= |f|
  {
    if k == 0 then 0 else f[k - 1].time
  }

  /** What the contract announced in blocks a, .., b - 1. */
  function RecordsIn(f: Fork, a: nat, b: nat): Records
    requires a <= b <= |f|
  {
    NewRecords(StateAt(f, a), StateAt(f, b))
  }

  // ----- the indexer -----

  datatype Head = Head(number: nat, hash: string)
  datatype Cursor = Cursor(block: nat, hash: Option<string>)
  datatype Config = Config(startBlock: nat, confirmations: nat, maxBlockSpan: nat)

  /** The indexed tables with their cursor, and the client's cached head. */
  datatype Index = Index(tables: Tables, cursor: Option<Cursor>, cachedHead: Option<Head>)

  const EMPTY_INDEX := Index(EMPTY_TABLES, None, None)

  datatype SyncError = BlockUnavailable | ProjectionFailed | ReadFailed

  function LatestHead(f: Fork): Head
    requires f != []
  {
    Head(|f| - 1, f[|f| - 1].hash)
  }

  /** A backlog call reuses the cached head; any other call fetches it anew. */
  function HeadFor(s: Index, f: Fork, refresh: bool): Head
    requires f != []
  {
    if !refresh && s.cachedHead.Some? then s.cachedHead.value else LatestHead(f)
  }

  function BlockHashAt(f: Fork, head: Head, k: nat): Option<string> {
    if head.number == k then Some(head.hash) else if k < |f| then Some(f[k].hash) else None
  }

  function Reset(s: Index): Index {
    s.(tables := EMPTY_TABLES, cursor := None)
  }

  /** Drop everything when the cursor block is above the head or no longer has the hash it had. */
  function ResetIfReorged(s: Index, f: Fork, head: Head): Result<Index, SyncError> {
    match s.cursor
    case None => Success(s)
    case Some(cursor) =>
      var actual := BlockHashAt(f, head, cursor.block);
      if cursor.block > head.number then Success(Reset(s))
      else if actual.None? then Failure(BlockUnavailable)
      else if cursor.hash.None? then Success(s.(cursor := Some(Cursor(cursor.block, actual))))
      else if actual != cursor.hash then Success(Reset(s))
      else Success(s)
  }

  function NextFrom(start: nat, s: Index): nat {
    var next := if s.cursor.Some? then s.cursor.value.block + 1 else start;
    if next < start then start else next
  }

  function NextBlock(config: Config, s: Index): nat {
    NextFrom(config.startBlock, s)
  }

  function TargetBlock(config: Config, head: Head): nat {
    if head.number < config.confirmations then 0 else head.number - config.confirmations
  }

  function WindowEnd(config: Config, from: nat, target: nat): nat
    requires config.maxBlockSpan > 0
  {
    var last := from + config.maxBlockSpan - 1;
    if target < last then target else last
  }

  /** One call: the fork it is served, what the log and calldata queries return, how far it gets. */
  datatype Call = Call(
    fork: Fork, refresh: bool, logs: seq<ContractEvent>, calls: seq<DecodedCall>, observedAt: nat, reach: Reach)

  /** A call may be stopped before it has a head, before the reorg check, or after some records. */
  datatype Reach = NoHead | NoCheck | Records(count: nat) | Unhindered

  function CallOf(calls: seq<DecodedCall>, i: nat): DecodedCall {
    if i < |calls| then calls[i] else NoCall
  }

  function InputsOf(records: Records, calls: seq<DecodedCall>): seq<Input> {
    seq(|records|, i requires 0 <= i < |records| => Input(records[i], CallOf(calls, i)))
  }

  datatype Synced = Synced(index: Index, completed: bool)

  /** The state after the head is known and the reorg check passed. */
  function Checked(s: Index, call: Call): Result<Index, SyncError>
    requires call.fork != []
  {
    var head := HeadFor(s, call.fork, call.refresh);
    var s1 := s.(cachedHead := Some(head));
    if s.cachedHead == Some(head) then Success(s1) else ResetIfReorged(s1, call.fork, head)
  }

  function Sync(config: Config, s: Index, call: Call): Synced
    requires call.fork != [] && config.maxBlockSpan > 0
  {
    if call.reach.NoHead? then Synced(s, false)
    else
      var head := HeadFor(s, call.fork, call.refresh);
      var s1 := s.(cachedHead := Some(head));
      if call.reach.NoCheck? then Synced(s1, false)
      else match Checked(s, call)
        case Failure(_) => Synced(s1, false)
        case Success(s2) => SyncWindow(config, s2, head, call)
  }

  /** The window after the cursor, if the head has passed it. */
  function SyncWindow(config: Config, s: Index, head: Head, call: Call): Synced
    requires call.fork != [] && config.maxBlockSpan > 0
  {
    var from := NextBlock(config, s);
    var target := TargetBlock(config, head);
    if from > target then Synced(s, !call.reach.Records?)
    else
      var to := WindowEnd(config, from, target);
      if to >= |call.fork| || !Covered(call.logs) then Synced(s, false)
      else WriteWindow(s, head, to, call)
  }

  function WriteWindow(s: Index, head: Head, to: nat, call: Call): Synced
    requires to < |call.fork| && Covered(call.logs)
  {
    var f := call.fork;
    CoveredWhole(call.logs);
    var inputs := InputsOf(Pairs(call.logs, call.observedAt), call.calls);
    match LoadSnapshot(StateAt(f, to + 1), TimeAt(f, to + 1), PlannedReads(inputs))
    case Failure(_) => Synced(s, false)
    case Success(snap) =>
      var count := if call.reach.Records? && call.reach.count < |inputs| then call.reach.count else |inputs|;
      var written := WriteRecords(s.tables, snap, inputs[..count]);
      var hash := BlockHashAt(f, head, to);
      if written.complete && !call.reach.Records? && hash.Some? then
        Synced(s.(tables := written.tables, cursor := Some(Cursor(to, hash))), true)
      else Synced(s.(tables := written.tables), false)
  }

  datatype Written = Written(tables: Tables, complete: bool)

  /** One transaction per record, up to the first that cannot be projected. */
  function WriteRecords(t: Tables, snap: Snapshot, inputs: seq<Input>): Written {
    if inputs == [] then Written(t, true)
    else
      var k := |inputs| - 1;
      var before := WriteRecords(t, snap, inputs[..k]);
      if !before.complete then before
      else match ProjectRecord(before.tables, snap, inputs[k])
        case Success(u) => Written(u, true)
        case Failure(_) => Written(before.tables, false)
  }

  lemma CoveredWhole(log: seq<ContractEvent>)
    requires Covered(log)
    ensures |Registries(log)| <= |Protocols(log)|
  {
    assert log[..|log|] == log;
  }

  // ----- rounds -----

  /** One round: the configuration in force, whether the process was restarted before it, and the call. */
  datatype Round = Round(config: Config, restarted: bool, call: Call)
  {
    predicate Proper() {
      config.maxBlockSpan > 0 && call.fork != []
    }
  }

  /** Tables and cursor are stored; the cached head is in memory and a restart loses it. */
  function Entered(s: Index, r: Round): Index {
    if r.restarted then s.(cachedHead := None) else s
  }

  function RoundSync(s: Index, r: Round): Synced
    requires r.Proper()
  {
    Sync(r.config, Entered(s, r), r.call)
  }

  /** The index after a sequence of rounds, stopped ones included. */
  function IndexAfter(rounds: seq<Round>): Index
    requires forall i | 0 <= i < |rounds| :: rounds[i].Proper()
  {
    if rounds == [] then EMPTY_INDEX
    else
      var k := |rounds| - 1;
      RoundSync(IndexAfter(rounds[..k]), rounds[k]).index
  }

  /** The head a round works with. */
  function RoundHead(s: Index, r: Round): Head
    requires r.Proper()
  {
    HeadFor(Entered(s, r), r.call.fork, r.call.refresh)
  }

  /** The first block after the window that starts at `next`, or `next` when the head has not passed it. */
  function WindowStop(config: Config, next: nat, head: Head): nat
    requires config.maxBlockSpan > 0
  {
    var target := TargetBlock(config, head);
    if next > target then next else WindowEnd(config, next, target) + 1
  }
}
