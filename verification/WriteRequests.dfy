/** Write-request records and the two stores that keep them. */
module WriteRequests {
  import opened Wrappers

  type RequestId = string
  type U64 = v: nat | v < 0x1_0000_0000_0000_0000

  /** A signed transaction. */
  datatype SignedTx = SignedTx(chainId: U64, nonce: U64, body: string)

  /** Stored transaction text: a spelling of a signed transaction, or something that does not decode. */
  datatype RawTx = Signed(tx: SignedTx, spelling: nat) | Garbage(text: string)

  /** A stored transaction hash: a spelling of the hash of a transaction, or text that is no hash at all. */
  datatype TxHash = HashOf(tx: SignedTx, letters: nat) | BadHash(text: string)
  {
    /** Hashing is collision-free, and comparison ignores the case of the letters. */
    predicate Names(t: SignedTx) {
      HashOf? && tx == t
    }
  }

  /** The result of a write, fixed by its request and its transaction but for the reuse flag. */
  datatype Receipt = Receipt(request: RequestId, tx: SignedTx, reused: bool)

  /** What decoding a raw transaction yields, in canonical spelling. */
  datatype PreparedTx = PreparedTx(tx: SignedTx)
  {
    function Raw(): RawTx { Signed(tx, 0) }
    function Hash(): TxHash { HashOf(tx, 0) }
  }

  datatype RequestState = Sending | Pending | Succeeded | Reverted | Failed

  const RECOVERY_DATA_INVALID: string := "EVM_TX_RECOVERY_DATA_INVALID"
  const TX_REVERTED: string := "EVM_TX_REVERTED"

  datatype Record = Record(
    operation: string, name: string, docType: Option<string>, payloadHash: string, state: RequestState,
    result: Option<Receipt>, errorCode: Option<string>, errorMessage: Option<string>,
    leaseOwner: Option<string>, leaseExpiresAt: Option<U64>,
    chainId: Option<U64>, nonce: Option<U64>, txHash: Option<TxHash>, rawTx: Option<RawTx>,
    createdAt: U64, updatedAt: U64)
  {
    predicate Inflight() {
      state == Sending || state == Pending
    }

    predicate Final() {
      state == Succeeded || state == Reverted
    }

    predicate Quarantined() {
      state == Failed && errorCode == Some(RECOVERY_DATA_INVALID)
    }

    predicate FullyPrepared() {
      state == Sending && result.Some? && chainId.Some? && nonce.Some? && txHash.Some? && rawTx.Some?
    }

    predicate LeaseFree() {
      leaseOwner.None? && leaseExpiresAt.None?
    }
  }

  /** One call on a store. */
  datatype StoreCall =
    | TryBegin(id: RequestId, record: Record)
    | UpdateInflight(id: RequestId, record: Record)
    | Repair(id: RequestId, payloadHash: string, expectedRaw: RawTx, expectedHash: Option<TxHash>,
             prepared: PreparedTx, updatedAt: U64)
    | ResolveFailed(id: RequestId, record: Record)
    | RemoveFailed(id: RequestId, payloadHash: string, txHash: Option<TxHash>, rawTx: Option<RawTx>)
    | RemoveUnprepared(id: RequestId, payloadHash: string)
    | Get(id: RequestId)
    | ListInflight

  datatype Reply =
    | Refused
    | Acquired
    | Existing(record: Record)
    | Changed(changed: bool)
    | Found(found: Option<Record>)
    | Listed(records: map<RequestId, Record>)

  /** What a call does to the entry under its request id. */
  datatype Effect<+T> = Keep | Put(entry: T) | Drop
  datatype Decision<+T> = Decision(effect: Effect<T>, reply: Reply)

  function Lookup<T>(m: map<RequestId, T>, id: RequestId): Option<T> {
    if id in m then Some(m[id]) else None
  }

  function Carried<T>(m: map<RequestId, T>, id: RequestId, effect: Effect<T>): map<RequestId, T> {
    match effect case Keep => m case Put(v) => m[id := v] case Drop => m - {id}
  }

  // ----- the in-memory store -----

  type Records = map<RequestId, Record>

  datatype Stepped = Stepped(records: Records, reply: Reply)

  predicate SameTx(a: Record, payloadHash: string, txHash: Option<TxHash>, rawTx: Option<RawTx>) {
    a.payloadHash == payloadHash && a.txHash == txHash && a.rawTx == rawTx
  }

  /** Equal in every field that decides what happens to a record. */
  predicate Alike(a: Record, b: Record) {
    && a.payloadHash == b.payloadHash && a.state == b.state && a.errorCode == b.errorCode
    && a.txHash == b.txHash && a.rawTx == b.rawTx
  }

  function Repaired(r: Record, prepared: PreparedTx, updatedAt: U64): Record {
    r.(txHash := Some(prepared.Hash()), rawTx := Some(prepared.Raw()),
       chainId := Some(prepared.tx.chainId), nonce := Some(prepared.tx.nonce), updatedAt := updatedAt)
  }

  function MemoryDecide(cur: Option<Record>, call: StoreCall): Decision<Record>
    requires !call.ListInflight?
  {
    match call
    case TryBegin(_, record) =>
      if !record.FullyPrepared() then Decision(Keep, Refused)
      else if cur.Some? then Decision(Keep, Existing(cur.value))
      else Decision(Put(record), Acquired)
    case UpdateInflight(_, record) =>
      if record.state == Sending then Decision(Keep, Refused)
      else if cur.Some? && cur.value.Inflight() && SameTx(cur.value, record.payloadHash, record.txHash, record.rawTx)
      then Decision(Put(record.(createdAt := cur.value.createdAt)), Changed(true))
      else Decision(Keep, Changed(false))
    case Repair(_, payloadHash, raw, hash, prepared, updatedAt) =>
      if cur.Some? && cur.value.Inflight() && SameTx(cur.value, payloadHash, hash, Some(raw))
      then Decision(Put(Repaired(cur.value, prepared, updatedAt)), Changed(true))
      else Decision(Keep, Changed(false))
    case ResolveFailed(_, record) =>
      if record.state == Sending || record.state == Failed then Decision(Keep, Refused)
      else if cur.Some? && cur.value.Quarantined() && SameTx(cur.value, record.payloadHash, record.txHash, record.rawTx)
      then Decision(Put(record.(createdAt := cur.value.createdAt)), Changed(true))
      else Decision(Keep, Changed(false))
    case RemoveFailed(_, payloadHash, hash, raw) =>
      if cur.Some? && cur.value.Quarantined() && SameTx(cur.value, payloadHash, hash, raw)
      then Decision(Drop, Changed(true))
      else Decision(Keep, Changed(false))
    case RemoveUnprepared(_, payloadHash) =>
      if cur.Some? && cur.value.Inflight() && SameTx(cur.value, payloadHash, None, None)
      then Decision(Drop, Changed(true))
      else Decision(Keep, Changed(false))
    case Get(_) => Decision(Keep, Found(cur))
  }

  function InflightOf(m: Records): Records {
    map id | id in m && m[id].Inflight() :: m[id]
  }

  function MemoryStep(m: Records, call: StoreCall): Stepped {
    if call.ListInflight? then Stepped(m, Listed(InflightOf(m)))
    else
      var d := MemoryDecide(Lookup(m, call.id), call);
      Stepped(Carried(m, call.id, d.effect), d.reply)
  }

  function MemoryRun(m: Records, calls: seq<StoreCall>): Records {
    if calls == [] then m
    else MemoryStep(MemoryRun(m, calls[..|calls| - 1]), calls[|calls| - 1]).records
  }

  // ----- which calls are accepted -----

  /** What a call asks of the record under its id before it changes anything, field by field. */
  predicate Accepts(m: Records, call: StoreCall) {
    match call
    case TryBegin(id, r) =>
      && id !in m && r.state == Sending && r.result.Some?
      && r.chainId.Some? && r.nonce.Some? && r.txHash.Some? && r.rawTx.Some?
    case UpdateInflight(id, r) =>
      && id in m && m[id].state in {Sending, Pending} && r.state in {Pending, Succeeded, Reverted, Failed}
      && m[id].payloadHash == r.payloadHash && m[id].txHash == r.txHash && m[id].rawTx == r.rawTx
    case Repair(id, payloadHash, raw, hash, _, _) =>
      && id in m && m[id].state in {Sending, Pending}
      && m[id].payloadHash == payloadHash && m[id].txHash == hash && m[id].rawTx == Some(raw)
    case ResolveFailed(id, r) =>
      && id in m && SetAside(m[id]) && r.state in {Pending, Succeeded, Reverted}
      && m[id].payloadHash == r.payloadHash && m[id].txHash == r.txHash && m[id].rawTx == r.rawTx
    case RemoveFailed(id, payloadHash, hash, raw) =>
      && id in m && SetAside(m[id])
      && m[id].payloadHash == payloadHash && m[id].txHash == hash && m[id].rawTx == raw
    case RemoveUnprepared(id, payloadHash) =>
      && id in m && m[id].state in {Sending, Pending}
      && m[id].payloadHash == payloadHash && m[id].txHash.None? && m[id].rawTx.None?
    case _ => false
  }

  /** Failed because its transaction data could not be trusted. */
  predicate SetAside(r: Record) {
    r.state == Failed && r.errorCode == Some("EVM_TX_RECOVERY_DATA_INVALID")
  }

  function AfterAccepted(m: Records, call: StoreCall): Records
    requires Accepts(m, call)
  {
    match call
    case TryBegin(id, r) => m[id := r]
    case UpdateInflight(id, r) => m[id := r.(createdAt := m[id].createdAt)]
    case Repair(id, _, _, _, prepared, updatedAt) =>
      m[id := m[id].(txHash := Some(HashOf(prepared.tx, 0)), rawTx := Some(Signed(prepared.tx, 0)),
                     chainId := Some(prepared.tx.chainId), nonce := Some(prepared.tx.nonce), updatedAt := updatedAt)]
    case ResolveFailed(id, r) => m[id := r.(createdAt := m[id].createdAt)]
    case RemoveFailed(id, _, _, _) => m - {id}
    case RemoveUnprepared(id, _) => m - {id}
  }

  /** A call changes the store exactly when it is accepted, and says so; what it changes is one record. */
  lemma ChangesExactlyWhenAccepted(m: Records, call: StoreCall)
    ensures var after := MemoryStep(m, call);
      && (after.reply in {Acquired, Changed(true)} <==> Accepts(m, call))
      && after.records == if Accepts(m, call) then AfterAccepted(m, call) else m
  {
  }

  // ----- records move only forward -----

  /** The transaction bytes behind a stored text, whatever its spelling. */
  function Bytes(raw: Option<RawTx>): Option<SignedTx> {
    if raw.Some? && raw.value.Signed? then Some(raw.value.tx) else None
  }

  /** Metadata repair is offered only what decoding the expected raw transaction yields. */
  predicate FaithfulRepair(call: StoreCall) {
    call.Repair? ==> call.expectedRaw.Signed? && call.prepared.tx == call.expectedRaw.tx
  }

  /** What a record keeps while it survives. */
  predicate MovesForward(a: Record, b: Record) {
    && b.payloadHash == a.payloadHash
    && Bytes(b.rawTx) == Bytes(a.rawTx)
    && b.createdAt == a.createdAt
    && (b.state == Sending ==> a.state == Sending)
    && (a.Final() ==> b == a)
  }

  lemma StepMovesForward(m: Records, call: StoreCall, id: RequestId)
    requires FaithfulRepair(call) && id in m
    ensures var after := MemoryStep(m, call).records;
      && (id in after ==> MovesForward(m[id], after[id]))
      && (m[id].Final() ==> id in after)
  {
  }

  /** A finished request is never changed or removed again. */
  lemma {:induction false} FinalRecordsStay(m: Records, calls: seq<StoreCall>, i: nat, id: RequestId)
    requires i <= |calls| && forall k | 0 <= k < |calls| :: FaithfulRepair(calls[k])
    requires var before := MemoryRun(m, calls[..i]); id in before && before[id].Final()
    ensures id in MemoryRun(m, calls) && MemoryRun(m, calls)[id] == MemoryRun(m, calls[..i])[id]
    decreases |calls|
  {
    hide MemoryStep;
    if i == |calls| {
      assert calls[..i] == calls;
    } else {
      var k := |calls| - 1;
      assert calls[..k][..i] == calls[..i];
      FinalRecordsStay(m, calls[..k], i, id);
      StepMovesForward(MemoryRun(m, calls[..k]), calls[k], id);
    }
  }

  /** The record is there after every one of the calls i, .., j. */
  predicate Survives(m: Records, calls: seq<StoreCall>, i: nat, id: RequestId)
    requires i <= |calls|
  {
    forall k | i <= k <= |calls| :: id in MemoryRun(m, calls[..k])
  }

  /** While a record survives, its payload hash and transaction bytes are fixed and it never returns to sending. */
  lemma {:induction false} SurvivorsMoveForward(m: Records, calls: seq<StoreCall>, i: nat, id: RequestId)
    requires i <= |calls| && forall k | 0 <= k < |calls| :: FaithfulRepair(calls[k])
    requires Survives(m, calls, i, id)
    ensures id in MemoryRun(m, calls[..i]) && id in MemoryRun(m, calls)
    ensures MovesForward(MemoryRun(m, calls[..i])[id], MemoryRun(m, calls)[id])
    decreases |calls|
  {
    hide MemoryStep;
    assert calls[..|calls|] == calls;
    assert id in MemoryRun(m, calls[..i]) && id in MemoryRun(m, calls[..|calls|]);
    if i < |calls| {
      var k := |calls| - 1;
      assert calls[..k][..i] == calls[..i];
      forall j | i <= j <= k
        ensures id in MemoryRun(m, calls[..k][..j])
      {
        assert calls[..k][..j] == calls[..j];
        assert id in MemoryRun(m, calls[..j]);
      }
      SurvivorsMoveForward(m, calls[..k], i, id);
      StepMovesForward(MemoryRun(m, calls[..k]), calls[k], id);
    }
  }
}
