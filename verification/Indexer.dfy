/** The indexer object: sync calls and the polling loop, step by step. */
module Indexer {
  import opened Wrappers
  import opened BnsModel
  import opened RegistryTables
  import opened RegistryStore
  import opened EventProjector
  import Projection
  import opened IndexerSync
  import opened IndexerWindows

  type Input = Projection.Input
  type Snapshot = Projection.Snapshot
  type ReadKey = Projection.ReadKey

  /** The last call left blocks between its window and the newest confirmed one. */
  predicate HasBacklog(config: Config, s: Index, call: Call)
    requires call.fork != [] && config.maxBlockSpan > 0
  {
    var w := NewWindow(config, s, call);
    w != [] && w[0].to + w[0].confirmations < w[0].head
  }

  lemma {:induction false} SyncAllLast(config: Config, s: Index, calls: seq<Call>, last: Call)
    requires config.maxBlockSpan > 0 && last.fork != [] && forall i | 0 <= i < |calls| :: calls[i].fork != []
    ensures SyncAll(config, s, calls + [last]) == Sync(config, SyncAll(config, s, calls), last).index
    decreases |calls|
  {
    hide Sync;
    if calls != [] {
      assert (calls + [last])[1..] == calls[1..] + [last];
      SyncAllLast(config, Sync(config, s, calls[0]).index, calls[1..], last);
    }
  }

  /** The head is fetched for the first call and after every call that left no backlog. */
  predicate NextRefresh(config: Config, s: Index, made: seq<Call>)
    requires config.maxBlockSpan > 0 && forall i | 0 <= i < |made| :: made[i].fork != []
  {
    made == [] ||
    var k := |made| - 1;
    !HasBacklog(config, SyncAll(config, s, made[..k]), made[k])
  }

  predicate RefreshesWhenIdle(config: Config, s: Index, made: seq<Call>) {
    && config.maxBlockSpan > 0
    && (forall i | 0 <= i < |made| :: made[i].fork != [])
    && (forall i | 0 <= i < |made| :: made[i].refresh == NextRefresh(config, s, made[..i]))
  }

  lemma NothingMade(config: Config, s: Index)
    requires config.maxBlockSpan > 0
    ensures SyncAll(config, s, []) == s && RefreshesWhenIdle(config, s, [])
  {
  }

  lemma OneMore(config: Config, s: Index, made: seq<Call>, call: Call)
    requires RefreshesWhenIdle(config, s, made) && call.fork != []
    requires call.refresh == NextRefresh(config, s, made)
    ensures RefreshesWhenIdle(config, s, made + [call])
    ensures NextRefresh(config, s, made + [call]) == !HasBacklog(config, SyncAll(config, s, made), call)
  {
    hide HasBacklog, SyncAll;
    var longer := made + [call];
    assert longer[..|made|] == made;
    forall i | 0 <= i < |longer|
      ensures longer[i].refresh == NextRefresh(config, s, longer[..i])
    {
      if i < |made| {
        assert longer[..i] == made[..i];
      }
    }
  }

  /** One more answer of the multicall, filed under its key. */
  function Insert(snap: Snapshot, c: Tables, now: nat, r: ReadKey): Snapshot
    requires r.NameRead? ==> Projection.ReadName(c, r.name, now).Success?
  {
    match r
    case NameRead(n) => snap.(names := snap.names[n := Projection.ReadName(c, n, now).value])
    case DocumentRead(k) => snap.(documents := snap.documents[k := Projection.ReadDocument(c, k)])
    case SetRead(n) => snap.(sets := snap.sets[n := AuthoritySetOf(c, n)])
    case AliasRead(n) => snap.(aliases := snap.aliases[n := Projection.ReadAlias(c, n)])
    case CheckpointRead => snap.(checkpoint := Some(Projection.ReadCheckpoint(c)))
  }

  lemma InsertName(c: Tables, now: nat, done: set<ReadKey>, r: ReadKey)
    requires Projection.Readable(c, now, done) && r.NameRead? && Projection.ReadName(c, r.name, now).Success?
    ensures Projection.Readable(c, now, done + {r})
    ensures Projection.NamesIn(c, now, done + {r}) ==
            Projection.NamesIn(c, now, done)[r.name := Projection.ReadName(c, r.name, now).value]
  {
    hide Projection.ReadName;
  }

  lemma InsertOther(c: Tables, now: nat, done: set<ReadKey>, r: ReadKey)
    ensures r.DocumentRead? ==>
      Projection.DocumentsIn(c, done + {r}) == Projection.DocumentsIn(c, done)[r.key := Projection.ReadDocument(c, r.key)]
    ensures r.SetRead? ==>
      Projection.SetsIn(c, done + {r}) == Projection.SetsIn(c, done)[r.name := AuthoritySetOf(c, r.name)]
    ensures r.AliasRead? ==>
      Projection.AliasesIn(c, done + {r}) == Projection.AliasesIn(c, done)[r.name := Projection.ReadAlias(c, r.name)]
  {
  }

  lemma InsertElsewhere(c: Tables, now: nat, done: set<ReadKey>, r: ReadKey)
    requires Projection.Readable(c, now, done)
    ensures !r.NameRead? ==>
      Projection.Readable(c, now, done + {r}) && Projection.NamesIn(c, now, done + {r}) == Projection.NamesIn(c, now, done)
    ensures !r.DocumentRead? ==> Projection.DocumentsIn(c, done + {r}) == Projection.DocumentsIn(c, done)
    ensures !r.SetRead? ==> Projection.SetsIn(c, done + {r}) == Projection.SetsIn(c, done)
    ensures !r.AliasRead? ==> Projection.AliasesIn(c, done + {r}) == Projection.AliasesIn(c, done)
  {
    hide Projection.ReadName;
  }

  lemma InsertLoads(c: Tables, now: nat, done: set<ReadKey>, r: ReadKey)
    requires Projection.LoadSnapshot(c, now, done).Success?
    requires r.NameRead? ==> Projection.ReadName(c, r.name, now).Success?
    ensures Projection.LoadSnapshot(c, now, done + {r}) ==
            Success(Insert(Projection.LoadSnapshot(c, now, done).value, c, now, r))
  {
    hide Projection.ReadName, Projection.NamesIn, Projection.DocumentsIn, Projection.SetsIn, Projection.AliasesIn;
    if r.NameRead? {
      InsertName(c, now, done, r);
    }
    InsertOther(c, now, done, r);
    InsertElsewhere(c, now, done, r);
  }

  method PlanReads(inputs: seq<Input>) returns (plan: set<ReadKey>)
    ensures plan == Projection.PlannedReads(inputs)
  {
    plan := {};
    for i := 0 to |inputs|
      invariant forall r :: r in plan <==> exists j | 0 <= j < i :: r in Projection.ReadsFor(inputs[j])
    {
      plan := plan + Projection.ReadsFor(inputs[i]);
    }
  }

  method LoadSnapshot(c: Tables, now: nat, plan: set<ReadKey>) returns (r: Result<Snapshot, Error>)
    ensures r == Projection.LoadSnapshot(c, now, plan)
  {
    var snap := Projection.Snapshot(map[], map[], map[], map[], None);
    var todo := plan;
    assert Projection.LoadSnapshot(c, now, {}) == Success(snap);
    while todo != {}
      invariant todo <= plan
      invariant Projection.LoadSnapshot(c, now, plan - todo) == Success(snap)
      decreases |todo|
    {
      var read :| read in todo;
      if read.NameRead? && Projection.ReadName(c, read.name, now).Failure? {
        return Failure(NoConcreteSigner);
      }
      InsertLoads(c, now, plan - todo, read);
      assert plan - (todo - {read}) == (plan - todo) + {read};
      snap := Insert(snap, c, now, read);
      todo := todo - {read};
    }
    assert plan - todo == plan;
    return Success(snap);
  }

  class BnsIndexer {
    const config: Config
    const store: Store
    var cursor: Option<Cursor>
    var cachedHead: Option<Head>

    function State(): Index
      reads this, store
    {
      Index(store.Contents(), cursor, cachedHead)
    }

    constructor (config: Config)
      ensures this.config == config && fresh(store) && State() == EMPTY_INDEX
    {
      this.config := config;
      store := new Store();
      cursor, cachedHead := None, None;
    }

    /** A new process finds tables and cursor in the store; the head cache starts empty. */
    constructor Reopen(config: Config, store: Store, cursor: Option<Cursor>)
      ensures this.config == config && this.store == store
      ensures State() == Index(store.Contents(), cursor, None)
    {
      this.config := config;
      this.store := store;
      this.cursor, cachedHead := cursor, None;
    }

    method LatestBlock(fork: Fork, refresh: bool) returns (head: Head, changed: bool)
      requires fork != []
      modifies this
      ensures head == HeadFor(old(State()), fork, refresh)
      ensures changed <==> old(cachedHead) != Some(head)
      ensures State() == old(State()).(cachedHead := Some(head))
    {
      if !refresh && cachedHead.Some? {
        return cachedHead.value, false;
      }
      head := LatestHead(fork);
      changed := cachedHead != Some(head);
      cachedHead := Some(head);
    }

    method ResetProjectionIfReorged(fork: Fork, head: Head) returns (ok: bool)
      modifies this, store
      ensures var r := ResetIfReorged(old(State()), fork, head);
        ok == r.Success? && State() == if ok then r.value else old(State())
    {
      if cursor.None? {
        return true;
      }
      var at := cursor.value;
      var shouldReset := at.block > head.number;
      if !shouldReset {
        var actual := BlockHashAt(fork, head, at.block);
        if actual.None? {
          return false;
        }
        if at.hash.Some? {
          shouldReset := actual != at.hash;
        } else {
          cursor := Some(Cursor(at.block, actual));
        }
      }
      if shouldReset {
        store.ResetProjection();
        cursor := None;
      }
      return true;
    }

    /** One transaction: the event record, then what the projection writes. */
    method Apply(record: EventRecord, w: Projection.Write)
      modifies store
      ensures store.Contents() == Projection.ApplyWrite(
        old(store.Contents()).(events := old(store.events)[record.seq_ := record]), w)
    {
      store.PutEventRecord(record);
      if w.reset.Some? {
        store.ResetNameLineage(w.reset.value);
      }
      if w.name.Some? {
        store.PutName(w.name.value.0, w.name.value.1);
      }
      if w.document.Some? {
        store.PutDocument(w.document.value.0, w.document.value.1);
      }
      if w.set_.Some? {
        store.PutAuthoritySet(w.set_.value.0, w.set_.value.1);
      }
      if w.alias.Some? {
        store.PutAlias(w.alias.value.0, w.alias.value.1);
      }
      if w.checkpoint.Some? {
        store.PutCheckpoint(w.checkpoint.value);
      }
    }

    /** Write record after record; stop at the first one that cannot be projected. */
    method WriteAll(snap: Snapshot, inputs: seq<Input>) returns (complete: bool)
      modifies store
      ensures var r := WriteRecords(old(store.Contents()), snap, inputs);
        store.Contents() == r.tables && complete == r.complete
    {
      hide Projection.ApplyWrite, Projection.ProjectionFor;
      for i := 0 to |inputs|
        invariant WriteRecords(old(store.Contents()), snap, inputs[..i]) == Written(store.Contents(), true)
      {
        assert inputs[..i + 1][..i] == inputs[..i];
        var w := Projection.ProjectionFor(snap, inputs[i]);
        if w.Failure? {
          StopsWriting(old(store.Contents()), snap, inputs, i + 1);
          return false;
        }
        Apply(inputs[i].record, w.value);
      }
      assert inputs[..|inputs|] == inputs;
      return true;
    }

    method SyncOnce(call: Call) returns (completed: bool)
      requires call.fork != [] && config.maxBlockSpan > 0
      modifies this, store
      ensures var r := Sync(config, old(State()), call);
        State() == r.index && completed == r.completed
    {
      hide SyncWindow, ResetIfReorged;
      if call.reach.NoHead? {
        return false;
      }
      var head, changed := LatestBlock(call.fork, call.refresh);
      if call.reach.NoCheck? {
        return false;
      }
      if changed {
        var ok := ResetProjectionIfReorged(call.fork, head);
        if !ok {
          return false;
        }
      }
      completed := ProcessWindow(head, call);
    }

    method ProcessWindow(head: Head, call: Call) returns (completed: bool)
      requires call.fork != [] && config.maxBlockSpan > 0
      modifies this, store
      ensures var r := SyncWindow(config, old(State()), head, call);
        State() == r.index && completed == r.completed
    {
      hide WriteRecords, Projection.LoadSnapshot, StateAt, Projection.PlannedReads;
      var from := NextBlock(config, State());
      var target := TargetBlock(config, head);
      if from > target {
        return !call.reach.Records?;
      }
      var to := WindowEnd(config, from, target);
      if to >= |call.fork| {
        return false;
      }
      var projector := new Projector();
      var records := projector.ProjectLogs(call.logs, call.observedAt);
      if records.Failure? {
        return false;
      }
      var inputs := InputsOf(records.value, call.calls);
      var plan := PlanReads(inputs);
      var snap := LoadSnapshot(StateAt(call.fork, to + 1), TimeAt(call.fork, to + 1), plan);
      if snap.Failure? {
        return false;
      }
      var count := if call.reach.Records? && call.reach.count < |inputs| then call.reach.count else |inputs|;
      var complete := WriteAll(snap.value, inputs[..count]);
      var hash := BlockHashAt(call.fork, head, to);
      if !complete || call.reach.Records? || hash.None? {
        return false;
      }
      cursor := Some(Cursor(to, hash));
      return true;
    }

    /**
     * The polling loop over a sequence of answers. A call that leaves a backlog makes the next one reuse the head;
     * any other call makes the next one fetch it.
     */
    method RunPolling(answers: seq<Call>) returns (made: seq<Call>)
      requires config.maxBlockSpan > 0 && forall i | 0 <= i < |answers| :: answers[i].fork != []
      modifies this, store
      ensures |made| == |answers|
      ensures forall i | 0 <= i < |made| :: made[i] == answers[i].(refresh := made[i].refresh)
      ensures State() == SyncAll(config, old(State()), made)
      ensures RefreshesWhenIdle(config, old(State()), made)
    {
      hide Sync, NewWindow, RefreshesWhenIdle, SyncAll, HasBacklog;
      made := [];
      var refresh := true;
      ghost var start := State();
      assert State() == SyncAll(config, start, made) && RefreshesWhenIdle(config, start, made) by {
        NothingMade(config, start);
      }
      for i := 0 to |answers|
        invariant |made| == i
        invariant forall j | 0 <= j < i :: made[j] == answers[j].(refresh := made[j].refresh)
        invariant State() == SyncAll(config, start, made)
        invariant RefreshesWhenIdle(config, start, made)
        invariant refresh == NextRefresh(config, start, made)
      {
        var call := answers[i].(refresh := refresh);
        var before := State();
        SyncAllLast(config, start, made, call);
        OneMore(config, start, made, call);
        var completed := SyncOnce(call);
        made := made + [call];
        refresh := !HasBacklog(config, before, call);
      }
    }
  }

  /** A record that cannot be projected stops every longer batch at the same point. */
  lemma {:induction false} StopsWriting(t: Tables, snap: Snapshot, inputs: seq<Input>, i: nat)
    requires i <= |inputs| && !WriteRecords(t, snap, inputs[..i]).complete
    ensures WriteRecords(t, snap, inputs) == WriteRecords(t, snap, inputs[..i])
    decreases |inputs|
  {
    if i == |inputs| {
      assert inputs[..i] == inputs;
    } else {
      assert inputs[..|inputs| - 1][..i] == inputs[..i];
      StopsWriting(t, snap, inputs[..|inputs| - 1], i);
    }
  }
}
