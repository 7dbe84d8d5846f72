/** The protocol on the in-memory store and on SQLite: both give runs, so every theorem about runs holds on both. */
module StoreRuns {
  import opened Wrappers
  import opened WriteRequests
  import opened SqliteRequests
  import opened WriteProtocol
  import opened WriteRuns
  import opened WriteAttempts
  import opened WriteSafety
  import opened WriteReplay

  // ----- in memory -----

  function MemoryNext(s: Sys, c: Choice): Sys {
    Sys(if CallFor(s.proc, c).None? then s.store else MemoryStep(s.store, CallFor(s.proc, c).value).records,
        Advance(s.proc, c, MemoryReply(s, c)))
  }

  /** Without a store call the reply is not looked at. */
  function MemoryReply(s: Sys, c: Choice): Reply {
    if CallFor(s.proc, c).None? then Refused else MemoryStep(s.store, CallFor(s.proc, c).value).reply
  }

  function MemoryAfter(store: Records, choices: seq<Choice>): Sys {
    if choices == [] then Sys(store, IDLE)
    else MemoryNext(MemoryAfter(store, choices[..|choices| - 1]), choices[|choices| - 1])
  }

  function MemoryRunOf(store: Records, choices: seq<Choice>): Run {
    Run(seq(|choices| + 1, k requires 0 <= k <= |choices| => MemoryAfter(store, choices[..k])),
        choices,
        seq(|choices|, k requires 0 <= k < |choices| => MemoryReply(MemoryAfter(store, choices[..k]), choices[k])))
  }

  lemma MemoryDecides(m: Records, call: StoreCall)
    ensures Decided(m, call, MemoryStep(m, call).records, MemoryStep(m, call).reply)
  {
  }

  /** The in-memory store, from any contents, gives a run. */
  lemma MemoryRuns(store: Records, choices: seq<Choice>)
    ensures MemoryRunOf(store, choices).Valid()
  {
    hide CallFor, Advance, MemoryStep, Decided;
    var run := MemoryRunOf(store, choices);
    assert choices[..0] == [];
    forall i | 0 <= i < |choices|
      ensures Next(run.states[i], choices[i], run.replies[i], run.states[i + 1])
    {
      assert choices[..i + 1][..i] == choices[..i] && choices[..i + 1][i] == choices[i];
      var s := MemoryAfter(store, choices[..i]);
      if CallFor(s.proc, choices[i]).Some? {
        MemoryDecides(s.store, CallFor(s.proc, choices[i]).value);
      }
    }
  }

  // ----- on SQLite -----

  datatype SqlSys = SqlSys(rows: Rows, proc: Proc)

  function SqlNext(s: SqlSys, c: Choice): SqlSys {
    SqlSys(if CallFor(s.proc, c).None? then s.rows else SqlStep(s.rows, CallFor(s.proc, c).value).rows,
           Advance(s.proc, c, SqlReply(s, c)))
  }

  function SqlReply(s: SqlSys, c: Choice): Reply {
    if CallFor(s.proc, c).None? then Refused else SqlStep(s.rows, CallFor(s.proc, c).value).reply
  }

  function SqlAfter(rows: Rows, choices: seq<Choice>): SqlSys {
    if choices == [] then SqlSys(rows, IDLE)
    else SqlNext(SqlAfter(rows, choices[..|choices| - 1]), choices[|choices| - 1])
  }

  /** The table as it is read. */
  function View(t: Rows): Records {
    map id | id in t :: FromRow(t[id])
  }

  function Viewed(s: SqlSys): Sys {
    Sys(View(s.rows), s.proc)
  }

  function SqlRunOf(rows: Rows, choices: seq<Choice>): Run {
    Run(seq(|choices| + 1, k requires 0 <= k <= |choices| => Viewed(SqlAfter(rows, choices[..k]))),
        choices,
        seq(|choices|, k requires 0 <= k < |choices| => SqlReply(SqlAfter(rows, choices[..k]), choices[k])))
  }

  function ReadEntry(row: Option<Row>): Option<Record> {
    if row.Some? then Some(FromRow(row.value)) else None
  }

  function AfterEffect(cur: Option<Row>, effect: Effect<Row>): Option<Row> {
    match effect case Keep => cur case Put(row) => Some(row) case Drop => None
  }

  /** Each statement decides on the row as it is read; a lease held by somebody else leaves it undone. */
  lemma RowDecides(cur: Option<Row>, call: StoreCall)
    requires !call.ListInflight?
    ensures var d, e := MemoryDecide(ReadEntry(cur), call), SqlDecide(cur, call);
      || (e.reply == d.reply && Wrote(ReadEntry(cur), d.effect, ReadEntry(AfterEffect(cur, e.effect))))
      || (d.reply.Changed? && e.reply == Changed(false) && e.effect.Keep?)
  {
  }

  lemma ListedFromRows(t: Rows)
    ensures InflightOf(View(t)) == map id | id in t && t[id].Inflight() :: FromRow(t[id])
  {
  }

  lemma ReadThrough(t: Rows, id: RequestId)
    ensures Lookup(View(t), id) == ReadEntry(Lookup(t, id))
  {
  }

  lemma SqlDecides(t: Rows, call: StoreCall)
    ensures Decided(View(t), call, View(SqlStep(t, call).rows), SqlStep(t, call).reply)
  {
    hide MemoryDecide, SqlDecide, FromRow, View, Wrote;
    if call.ListInflight? {
      ListedFromRows(t);
    } else {
      RowDecides(Lookup(t, call.id), call);
      var u := SqlStep(t, call).rows;
      forall x
        ensures Lookup(View(t), x) == ReadEntry(Lookup(t, x)) && Lookup(View(u), x) == ReadEntry(Lookup(u, x))
      {
        ReadThrough(t, x);
        ReadThrough(u, x);
      }
    }
  }

  /** SQLite gives a run from any table: leases, negative columns and damaged rows included. */
  lemma SqlRuns(rows: Rows, choices: seq<Choice>)
    ensures SqlRunOf(rows, choices).Valid()
  {
    hide CallFor, Advance, SqlStep, Decided, View;
    var run := SqlRunOf(rows, choices);
    assert choices[..0] == [];
    forall i | 0 <= i < |choices|
      ensures Next(run.states[i], choices[i], run.replies[i], run.states[i + 1])
    {
      assert choices[..i + 1][..i] == choices[..i] && choices[..i + 1][i] == choices[i];
      var s := SqlAfter(rows, choices[..i]);
      if CallFor(s.proc, choices[i]).Some? {
        SqlDecides(s.rows, CallFor(s.proc, choices[i]).value);
      }
    }
  }

  // ----- the theorems on SQLite -----

  predicate RowHolds(t: Rows, id: RequestId, tx: SignedTx) {
    id in t && Bytes(t[id].rawTx) == Some(tx) && t[id].txHash.Some? && t[id].txHash.value.Names(tx)
  }

  lemma HeldInRow(t: Rows, id: RequestId, tx: SignedTx)
    ensures Holds(View(t), id, tx) <==> RowHolds(t, id, tx)
  {
  }

  /** The table holds the transaction and its hash at the moment it is broadcast. */
  lemma SqlBroadcastsAreStored(rows: Rows, choices: seq<Choice>, c: Choice, id: RequestId, tx: SignedTx)
    requires var s := SqlAfter(rows, choices); SqlNext(s, c).proc.trace == s.proc.trace + [Broadcast(id, tx)]
    ensures RowHolds(SqlAfter(rows, choices).rows, id, tx)
  {
    hide SqlNext, View, Holds, RowHolds;
    var longer := choices + [c];
    assert longer[..|choices|] == choices && longer[..|longer|] == longer;
    SqlRuns(rows, longer);
    BroadcastsAreStored(SqlRunOf(rows, longer), |choices|, id, tx);
    HeldInRow(SqlAfter(rows, choices).rows, id, tx);
  }

  lemma SqlSecondTransactionNeedsNotFound(rows: Rows, choices: seq<Choice>, i: nat, j: nat)
    requires var trace := SqlAfter(rows, choices).proc.trace;
      && i < j < |trace| && trace[i].Broadcast? && trace[j].Broadcast?
      && trace[i].id == trace[j].id && trace[i].tx != trace[j].tx
    ensures var trace := SqlAfter(rows, choices).proc.trace;
      exists k | i < k < j :: trace[k].Answered? && trace[k].answer.NotFound? && trace[k].hash.Names(trace[i].tx)
  {
    hide SqlNext;
    SqlRuns(rows, choices);
    assert choices[..|choices|] == choices;
    SecondTransactionNeedsNotFound(SqlRunOf(rows, choices), i, j);
  }

  lemma SqlOneStoredPerCall(rows: Rows, choices: seq<Choice>, i: nat, j: nat)
    requires var trace := SqlAfter(rows, choices).proc.trace; i < j < |trace| && trace[i].Persisted? && trace[j].Persisted?
    ensures var trace := SqlAfter(rows, choices).proc.trace; exists k | i < k < j :: trace[k].Started?
  {
    hide SqlNext;
    SqlRuns(rows, choices);
    assert choices[..|choices|] == choices;
    OneStoredPerCall(SqlRunOf(rows, choices), i, j);
  }

  lemma SqlReplayReturnsFirstResult(rows: Rows, choices: seq<Choice>, i: nat, j: nat)
    requires ResultsOk(View(rows))
    requires var trace := SqlAfter(rows, choices).proc.trace;
      && i < j < |trace| && ReturnsValue(trace[i])
      && (trace[j].SignedFor? || ReturnsValue(trace[j])) && trace[j].id == trace[i].id
      && forall k | i < k < j :: trace[k] != Removed(trace[i].id)
    ensures var trace := SqlAfter(rows, choices).proc.trace;
      trace[j] == Returned(trace[i].id, trace[i].payload, Value(trace[i].outcome.receipt.(reused := true)))
  {
    hide SqlNext;
    SqlRuns(rows, choices);
    assert choices[..|choices|] == choices && choices[..0] == [];
    ReplayReturnsFirstResult(SqlRunOf(rows, choices), i, j);
  }
}
