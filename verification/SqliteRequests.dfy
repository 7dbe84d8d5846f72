/** The SQLite form of the write-request store, and how it compares with the in-memory one. */
module SqliteRequests {
  import opened Wrappers
  import opened WriteRequests

  /** Integer columns are signed 64-bit. */
  datatype Row = Row(
    operation: string, name: string, docType: Option<string>, payloadHash: string, state: RequestState,
    result: Option<Receipt>, errorCode: Option<string>, errorMessage: Option<string>,
    leaseOwner: Option<string>, leaseExpiresAt: Option<int>,
    chainId: Option<int>, nonce: Option<int>, txHash: Option<TxHash>, rawTx: Option<RawTx>,
    createdAt: int, updatedAt: int)
  {
    predicate Inflight() {
      state == Sending || state == Pending
    }

    predicate MatchesTx(payload: string, hash: Option<TxHash>, raw: Option<RawTx>) {
      payloadHash == payload && txHash == hash && rawTx == raw
    }
  }

  type Rows = map<RequestId, Row>

  /** Writing casts the unsigned value; values from 2^63 on become negative. */
  function AsI64(v: U64): int {
    if v < 0x8000_0000_0000_0000 then v else v - 0x1_0000_0000_0000_0000
  }

  /** Reading clamps negative values to zero. */
  function ReadI64(x: int): U64 {
    if x < 0 || x >= 0x8000_0000_0000_0000 then 0 else x
  }

  function MapI64(v: Option<U64>): Option<int> {
    if v.None? then None else Some(AsI64(v.value))
  }

  function ToRow(r: Record): Row {
    Row(r.operation, r.name, r.docType, r.payloadHash, r.state, r.result, r.errorCode, r.errorMessage,
        r.leaseOwner, MapI64(r.leaseExpiresAt), MapI64(r.chainId), MapI64(r.nonce), r.txHash, r.rawTx,
        AsI64(r.createdAt), AsI64(r.updatedAt))
  }

  function ReadOption(x: Option<int>): Option<U64> {
    if x.None? then None else Some(ReadI64(x.value))
  }

  function FromRow(r: Row): Record {
    Record(r.operation, r.name, r.docType, r.payloadHash, r.state, r.result, r.errorCode, r.errorMessage,
           r.leaseOwner, ReadOption(r.leaseExpiresAt), ReadOption(r.chainId), ReadOption(r.nonce),
           r.txHash, r.rawTx, ReadI64(r.createdAt), ReadI64(r.updatedAt))
  }

  datatype SqlStepped = SqlStepped(rows: Rows, reply: Reply)

  predicate IsQuarantined(row: Row) {
    row.state == Failed && row.errorCode == Some(RECOVERY_DATA_INVALID)
  }

  /** The columns set when an in-flight record moves on. */
  function Updated(row: Row, r: Record): Row {
    row.(operation := r.operation, name := r.name, docType := r.docType, state := r.state, result := r.result,
         errorCode := r.errorCode, errorMessage := r.errorMessage, chainId := MapI64(r.chainId),
         nonce := MapI64(r.nonce), txHash := r.txHash, rawTx := r.rawTx, updatedAt := AsI64(r.updatedAt))
  }

  /** The columns set when a quarantined record is resolved. */
  function Resolved(row: Row, r: Record): Row {
    row.(state := r.state, errorCode := r.errorCode, errorMessage := r.errorMessage, updatedAt := AsI64(r.updatedAt))
  }

  function RepairedRow(row: Row, prepared: PreparedTx, updatedAt: U64): Row {
    row.(chainId := Some(AsI64(prepared.tx.chainId)), nonce := Some(AsI64(prepared.tx.nonce)),
         txHash := Some(prepared.Hash()), rawTx := Some(prepared.Raw()), updatedAt := AsI64(updatedAt))
  }

  /** Each statement names one primary key, and its WHERE clause decides. */
  function SqlDecide(cur: Option<Row>, call: StoreCall): Decision<Row>
    requires !call.ListInflight?
  {
    match call
    case TryBegin(_, record) =>
      if !record.FullyPrepared() then Decision(Keep, Refused)
      else if cur.Some? then Decision(Keep, Existing(FromRow(cur.value)))
      else Decision(Put(ToRow(record)), Acquired)
    case UpdateInflight(_, r) =>
      if r.state == Sending then Decision(Keep, Refused)
      else if cur.Some? && cur.value.Inflight() && cur.value.MatchesTx(r.payloadHash, r.txHash, r.rawTx)
              && cur.value.leaseOwner == r.leaseOwner
      then Decision(Put(Updated(cur.value, r)), Changed(true))
      else Decision(Keep, Changed(false))
    case Repair(_, payloadHash, raw, hash, prepared, updatedAt) =>
      if cur.Some? && cur.value.Inflight() && cur.value.MatchesTx(payloadHash, hash, Some(raw))
      then Decision(Put(RepairedRow(cur.value, prepared, updatedAt)), Changed(true))
      else Decision(Keep, Changed(false))
    case ResolveFailed(_, r) =>
      if r.state == Sending || r.state == Failed then Decision(Keep, Refused)
      else if cur.Some? && IsQuarantined(cur.value) && cur.value.MatchesTx(r.payloadHash, r.txHash, r.rawTx)
      then Decision(Put(Resolved(cur.value, r)), Changed(true))
      else Decision(Keep, Changed(false))
    case RemoveFailed(_, payloadHash, hash, raw) =>
      if cur.Some? && IsQuarantined(cur.value) && cur.value.MatchesTx(payloadHash, hash, raw)
      then Decision(Drop, Changed(true))
      else Decision(Keep, Changed(false))
    case RemoveUnprepared(_, payloadHash) =>
      if cur.Some? && cur.value.Inflight() && cur.value.MatchesTx(payloadHash, None, None)
      then Decision(Drop, Changed(true))
      else Decision(Keep, Changed(false))
    case Get(_) => Decision(Keep, Found(if cur.Some? then Some(FromRow(cur.value)) else None))
  }

  function SqlStep(t: Rows, call: StoreCall): SqlStepped {
    if call.ListInflight? then SqlStepped(t, Listed(map id | id in t && t[id].Inflight() :: FromRow(t[id])))
    else
      var d := SqlDecide(Lookup(t, call.id), call);
      SqlStepped(Carried(t, call.id, d.effect), d.reply)
  }

  function SqlRun(t: Rows, calls: seq<StoreCall>): Rows {
    if calls == [] then t else SqlStep(SqlRun(t, calls[..|calls| - 1]), calls[|calls| - 1]).rows
  }

  // ----- the same decisions -----

  predicate LeaseFree(call: StoreCall) {
    (call.TryBegin? || call.UpdateInflight? || call.ResolveFailed?) ==> call.record.LeaseFree()
  }

  /** Decided alike, and nobody holds a lease. */
  predicate SameCase(a: Record, b: Record) {
    Alike(a, b) && a.LeaseFree() && b.LeaseFree()
  }

  predicate SameDecisions(m: Records, t: Rows) {
    m.Keys == t.Keys && forall id | id in m :: SameCase(m[id], FromRow(t[id]))
  }

  predicate SameReply(a: Reply, b: Reply) {
    match a
    case Existing(r) => b.Existing? && SameCase(r, b.record)
    case Found(r) => b.Found? && r.Some? == b.found.Some? && (r.Some? ==> SameCase(r.value, b.found.value))
    case Listed(rs) => b.Listed? && rs.Keys == b.records.Keys && forall id | id in rs :: SameCase(rs[id], b.records[id])
    case _ => a == b
  }

  predicate SameEntry(a: Option<Record>, b: Option<Row>) {
    a.Some? == b.Some? && (a.Some? ==> SameCase(a.value, FromRow(b.value)))
  }

  predicate SameEffect(a: Effect<Record>, b: Effect<Row>) {
    match a
    case Keep => b.Keep?
    case Drop => b.Drop?
    case Put(r) => b.Put? && SameCase(r, FromRow(b.entry))
  }

  lemma DecidesAlike(a: Option<Record>, b: Option<Row>, call: StoreCall)
    requires !call.ListInflight? && SameEntry(a, b) && LeaseFree(call)
    ensures SameEffect(MemoryDecide(a, call).effect, SqlDecide(b, call).effect)
    ensures SameReply(MemoryDecide(a, call).reply, SqlDecide(b, call).reply)
  {
  }

  lemma StepDecidesAlike(m: Records, t: Rows, call: StoreCall)
    requires SameDecisions(m, t) && LeaseFree(call)
    ensures SameDecisions(MemoryStep(m, call).records, SqlStep(t, call).rows)
    ensures SameReply(MemoryStep(m, call).reply, SqlStep(t, call).reply)
  {
    hide MemoryDecide, SqlDecide, FromRow, LeaseFree;
    if call.ListInflight? {
      forall id | id in m
        ensures t[id].state == m[id].state
      {
        StateOfRow(t[id]);
      }
    } else {
      DecidesAlike(Lookup(m, call.id), Lookup(t, call.id), call);
    }
  }

  lemma StateOfRow(r: Row)
    ensures FromRow(r).state == r.state
  {
  }

  /** On every sequence of lease-free calls the two stores take the same decisions. */
  lemma {:induction false} StoresDecideAlike(calls: seq<StoreCall>, i: nat)
    requires forall k | 0 <= k < |calls| :: LeaseFree(calls[k])
    requires i < |calls|
    ensures var m := MemoryRun(map[], calls[..i]); var t := SqlRun(map[], calls[..i]);
      && SameDecisions(m, t)
      && SameReply(MemoryStep(m, calls[i]).reply, SqlStep(t, calls[i]).reply)
    decreases i
  {
    hide MemoryStep, SqlStep, SameReply, SameDecisions;
    if i == 0 {
      EmptyAlike();
    } else {
      StoresDecideAlike(calls, i - 1);
      StepDecidesAlike(MemoryRun(map[], calls[..i - 1]), SqlRun(map[], calls[..i - 1]), calls[i - 1]);
      assert calls[..i][..i - 1] == calls[..i - 1];
    }
    StepDecidesAlike(MemoryRun(map[], calls[..i]), SqlRun(map[], calls[..i]), calls[i]);
  }

  lemma EmptyAlike()
    ensures SameDecisions(map[], map[])
  {
  }

  // ----- the same contents -----

  predicate Small(v: Option<U64>) {
    v.Some? ==> v.value < 0x8000_0000_0000_0000
  }

  predicate Representable(r: Record) {
    Small(r.chainId) && Small(r.nonce) && Small(Some(r.createdAt)) && Small(Some(r.updatedAt))
  }

  predicate RepresentableCall(call: StoreCall) {
    && ((call.TryBegin? || call.UpdateInflight? || call.ResolveFailed?) ==> Representable(call.record))
    && (call.Repair? ==>
          Small(Some(call.prepared.tx.chainId)) && Small(Some(call.prepared.tx.nonce)) && Small(Some(call.updatedAt)))
  }

  /** The columns that resolving a quarantined record leaves alone in SQLite. */
  predicate KeepsColumns(a: Record, b: Record) {
    && a.operation == b.operation && a.name == b.name && a.docType == b.docType && a.result == b.result
    && a.chainId == b.chainId && a.nonce == b.nonce
  }

  predicate SameContents(m: Records, t: Rows) {
    m.Keys == t.Keys && forall id | id in m ::
      t[id] == ToRow(m[id]) && Representable(m[id]) && m[id].LeaseFree()
  }

  /** Numbers below 2^63 are read as they were written; larger ones are read as 0. */
  function ReadBack(v: Option<U64>): Option<U64> {
    match v case None => None case Some(x) => Some(if x < 0x8000_0000_0000_0000 then x else 0)
  }

  lemma RowReadsBack(r: Record)
    ensures FromRow(ToRow(r)) == r.(
      leaseExpiresAt := ReadBack(r.leaseExpiresAt), chainId := ReadBack(r.chainId), nonce := ReadBack(r.nonce),
      createdAt := ReadBack(Some(r.createdAt)).value, updatedAt := ReadBack(Some(r.updatedAt)).value)
    ensures Representable(r) && r.LeaseFree() ==> FromRow(ToRow(r)) == r
  {
  }

  /** Equal entries, both small enough to be written and read back. */
  predicate EqualEntry(a: Option<Record>, b: Option<Row>) {
    a.Some? == b.Some? && (a.Some? ==> b.value == ToRow(a.value) && Representable(a.value) && a.value.LeaseFree())
  }

  predicate EqualEffect(a: Effect<Record>, b: Effect<Row>) {
    match a
    case Keep => b.Keep?
    case Drop => b.Drop?
    case Put(r) => b.Put? && EqualEntry(Some(r), Some(b.entry))
  }

  /** Resolving a quarantined record keeps the columns it does not announce. */
  predicate ResolvesInPlace(cur: Option<Record>, call: StoreCall)
    requires !call.ListInflight?
  {
    call.ResolveFailed? && MemoryDecide(cur, call).effect.Put? ==> KeepsColumns(cur.value, call.record)
  }

  lemma EqualDecisions(a: Option<Record>, b: Option<Row>, call: StoreCall)
    requires !call.ListInflight? && EqualEntry(a, b) && LeaseFree(call) && RepresentableCall(call)
    ensures EqualEffect(MemoryDecide(a, call).effect, SqlDecide(b, call).effect) <==> ResolvesInPlace(a, call)
    ensures MemoryDecide(a, call).effect.Keep? == SqlDecide(b, call).effect.Keep?
    ensures MemoryDecide(a, call).effect.Drop? == SqlDecide(b, call).effect.Drop?
    ensures MemoryDecide(a, call).reply == SqlDecide(b, call).reply
  {
    if a.Some? {
      RowReadsBack(a.value);
    }
  }

  /**
   * From equal contents, a representable lease-free call keeps the contents equal exactly when it does not resolve
   * a quarantined record with different columns: the in-memory store replaces the whole record, SQLite only its state.
   */
  lemma ContentsStayEqualExactlyWhen(m: Records, t: Rows, call: StoreCall)
    requires SameContents(m, t) && LeaseFree(call) && RepresentableCall(call)
    ensures SameContents(MemoryStep(m, call).records, SqlStep(t, call).rows) <==>
            (call.ListInflight? || ResolvesInPlace(Lookup(m, call.id), call))
    ensures MemoryStep(m, call).reply == SqlStep(t, call).reply
  {
    hide MemoryDecide, SqlDecide, ToRow, FromRow, Representable, RepresentableCall, LeaseFree, ResolvesInPlace;
    if call.ListInflight? {
      forall id | id in m
        ensures FromRow(t[id]) == m[id] && t[id].state == m[id].state
      {
        RowReadsBack(m[id]);
        StateOfRow(t[id]);
      }
    } else {
      EqualDecisions(Lookup(m, call.id), Lookup(t, call.id), call);
      CarriedEqually(m, t, call.id, MemoryDecide(Lookup(m, call.id), call).effect,
                     SqlDecide(Lookup(t, call.id), call).effect);
    }
  }

  lemma CarriedEqually(m: Records, t: Rows, id: RequestId, a: Effect<Record>, b: Effect<Row>)
    requires SameContents(m, t) && a.Keep? == b.Keep? && a.Drop? == b.Drop?
    ensures SameContents(Carried(m, id, a), Carried(t, id, b)) <==> EqualEffect(a, b)
  {
    hide ToRow, Representable;
    var m1, t1 := Carried(m, id, a), Carried(t, id, b);
    if a.Put? && SameContents(m1, t1) {
      assert id in m1 && t1[id] == ToRow(m1[id]);
    }
  }

  predicate InPlaceThroughout(calls: seq<StoreCall>) {
    forall i | 0 <= i < |calls| ::
      && LeaseFree(calls[i]) && RepresentableCall(calls[i])
      && (calls[i].ListInflight? || ResolvesInPlace(Lookup(MemoryRun(map[], calls[..i]), calls[i].id), calls[i]))
  }

  /** Call sequences that resolve in place keep both stores equal in every column, and every reply equal. */
  lemma {:induction false} StoresHoldTheSame(calls: seq<StoreCall>, i: nat)
    requires InPlaceThroughout(calls) && i < |calls|
    ensures var m := MemoryRun(map[], calls[..i]); var t := SqlRun(map[], calls[..i]);
      && SameContents(m, t)
      && MemoryStep(m, calls[i]).reply == SqlStep(t, calls[i]).reply
    decreases i
  {
    hide MemoryStep, SqlStep, SameContents, ResolvesInPlace, LeaseFree, RepresentableCall;
    if i == 0 {
      EmptyContents();
    } else {
      StoresHoldTheSame(calls, i - 1);
      ContentsStayEqualExactlyWhen(MemoryRun(map[], calls[..i - 1]), SqlRun(map[], calls[..i - 1]), calls[i - 1]);
      assert calls[..i][..i - 1] == calls[..i - 1];
    }
    ContentsStayEqualExactlyWhen(MemoryRun(map[], calls[..i]), SqlRun(map[], calls[..i]), calls[i]);
  }

  lemma EmptyContents()
    ensures SameContents(map[], map[])
  {
  }

  // ----- the run-once migration -----

  datatype Migrating = Migrating(rows: Rows, migrated: bool)

  /** The three statements of the migration, in order. */
  function Migrate(s: Migrating): Migrating {
    if s.migrated then s
    else
      var t1 := map id | id in s.rows ::
        if s.rows[id].state == Succeeded && s.rows[id].txHash.Some? && s.rows[id].rawTx.Some?
        then s.rows[id].(state := Pending) else s.rows[id];
      var t2 := map id | id in t1 ::
        if t1[id].state == Failed && t1[id].errorCode == Some(TX_REVERTED)
        then t1[id].(state := Reverted) else t1[id];
      var t3 := map id | id in t2 && !(t2[id].state == Pending && t2[id].txHash.None? && t2[id].rawTx.None?) :: t2[id];
      Migrating(t3, true)
  }

  /**
   * Opening the store again changes nothing. The first time, exactly the unsigned pending rows go; signed rows that were
   * called succeeded are pending again, failures with the revert code are reverted, and nothing else changes.
   */
  lemma MigrationRunsOnce(s: Migrating, id: RequestId)
    ensures Migrate(Migrate(s)) == Migrate(s) && Migrate(s).migrated
    ensures s.migrated ==> Migrate(s) == s
    ensures !s.migrated ==>
      (id in Migrate(s).rows <==>
       id in s.rows && !(s.rows[id].state == Pending && s.rows[id].txHash.None? && s.rows[id].rawTx.None?))
    ensures !s.migrated && id in Migrate(s).rows ==>
      var row := s.rows[id];
      Migrate(s).rows[id] == row.(
        state := if row.state == Succeeded && row.txHash.Some? && row.rawTx.Some? then Pending
                 else if row.state == Failed && row.errorCode == Some(TX_REVERTED) then Reverted
                 else row.state)
  {
  }
}
