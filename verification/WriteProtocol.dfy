/**
 * The idempotent write protocol as a step machine: one call at a time under the execution lock, receipt waiters
 * beside it, a crash possible between any two steps, and a chain that answers as it likes. A step makes at most one
 * call on the store and goes on with the reply, so the machine runs on any store.
 */
module WriteProtocol {
  import opened Wrappers
  import opened WriteRequests

  datatype ChainAnswer = NotFound | IsPending | IsSucceeded | IsReverted | LookupFailed

  datatype CallOutcome = Value(receipt: Receipt) | PreviousFailure | Fails

  datatype Event =
    | Started(id: RequestId)
    | Answered(hash: TxHash, answer: ChainAnswer)
    | Replied(hash: TxHash, next: RequestState)
    | SignedFor(id: RequestId, tx: SignedTx)
    | Persisted(id: RequestId, tx: SignedTx)
    | Broadcast(id: RequestId, tx: SignedTx)
    | Removed(id: RequestId)
    | Returned(id: RequestId, payload: string, outcome: CallOutcome)

  type Trace = seq<Event>

  /** Startup recovery walks the in-flight records; a request call works on one id. */
  datatype Mode = Startup | RequestCall

  /** How a chain-derived state is written back. */
  datatype Path = Fresh | FromInflight | FromFailure

  datatype Pc =
    | Choosing
    | Looking
    | Retrying(copy: Record)
    | Dropping(copy: Record)
    | Reconciling(copy: Record)
    | Checking(copy: Record, decoded: SignedTx)
    | Repairing(copy: Record, decoded: SignedTx)
    | Recovering(copy: Record)
    | Submitting(copy: Record, path: Path)
    | Sent(copy: Record, path: Path)
    | Rejected(copy: Record, path: Path)
    | Suspecting(copy: Record)
    | Quarantining(copy: Record)
    | QuarantineLost(copy: Record)
    | Moving(copy: Record, next: RequestState, path: Path)
    | MoveLost(copy: Record, next: RequestState, path: Path)
    | Executing
    | Beginning(record: Record)
    | Finishing(outcome: CallOutcome)

  /** A call; `prepared` is set once it has stored its signed transaction. */
  datatype Worker = Worker(
    id: RequestId, payload: string, mode: Mode, queue: Records, attempt: nat, limit: nat, prepared: bool, pc: Pc)

  /** The process: the call under the lock, and waiters with copies they will write back by compare-and-set. */
  datatype Proc = Proc(worker: Option<Worker>, waiters: set<(RequestId, Record)>, trace: Trace)

  const IDLE := Proc(None, {}, [])

  /** What the environment decides at one step of the call. */
  datatype Answer =
    | Proceed
    | StoreError
    | Pick(id: RequestId)
    | Chain(answer: ChainAnswer)
    | Sign(tx: SignedTx, about: Record)
    | PrepareFails(stale: bool)
    | SentOk(next: RequestState)
    | SentError(serialization: bool, stale: bool)

  datatype Choice =
    | Crash
    | NewCall(id: RequestId, payload: string, limit: nat)
    | NewRecovery
    | WaiterRead(id: RequestId, hash: TxHash, receipt: ChainAnswer)
    | WaiterWrite(id: RequestId, record: Record)
    | Work(answer: Answer)

  // ----- records on their way -----

  /** The record with a chain-derived state. */
  function Moved(r: Record, next: RequestState): Record {
    r.(state := next,
       errorCode := if next == Reverted then Some(TX_REVERTED) else None,
       errorMessage := if next == Reverted then Some("reverted") else None)
  }

  function Quarantine(r: Record): Record {
    r.(state := Failed, errorCode := Some(RECOVERY_DATA_INVALID), errorMessage := Some("invalid"))
  }

  /** The first record of a request: fully signed, before anything is broadcast. */
  function FreshRecord(id: RequestId, payload: string, tx: SignedTx, about: Record): Record {
    about.(payloadHash := payload, state := Sending, result := Some(Receipt(id, tx, false)),
           errorCode := None, errorMessage := None, leaseOwner := None, leaseExpiresAt := None,
           chainId := Some(tx.chainId), nonce := Some(tx.nonce),
           txHash := Some(HashOf(tx, 0)), rawTx := Some(Signed(tx, 0)))
  }

  /** The stored raw transaction decodes, and hash, chain id and nonce are its own. */
  predicate Validated(r: Record) {
    && r.rawTx.Some? && r.rawTx.value.Signed?
    && r.txHash.Some? && r.txHash.value.Names(r.rawTx.value.tx)
    && r.chainId == Some(r.rawTx.value.tx.chainId)
    && r.nonce == Some(r.rawTx.value.tx.nonce)
  }

  function ChainState(answer: ChainAnswer): RequestState
    requires answer.IsPending? || answer.IsSucceeded? || answer.IsReverted?
  {
    match answer case IsPending => Pending case IsSucceeded => Succeeded case IsReverted => Reverted
  }

  // ----- the call under the lock -----

  function With(p: Proc, w: Worker, pc: Pc): Proc {
    p.(worker := Some(w.(pc := pc)))
  }

  /** Recovery reports a failed record and goes on; a request call ends. */
  function Ended(p: Proc, w: Worker, outcome: CallOutcome): Proc {
    With(p, w, EndPc(w, outcome))
  }

  function EndPc(w: Worker, outcome: CallOutcome): Pc {
    if w.mode.Startup? then Choosing else Finishing(outcome)
  }

  function Log(p: Proc, e: Event): Proc {
    p.(trace := p.trace + [e])
  }

  /** What a settled record answers a repeated request. */
  function Settled(r: Record): CallOutcome {
    match r.state
    case Pending => if r.result.Some? then Value(r.result.value.(reused := true)) else Fails
    case Succeeded => if r.result.Some? then Value(r.result.value.(reused := true)) else Fails
    case Reverted => PreviousFailure
    case Failed => PreviousFailure
    case Sending => Fails
  }

  function LookStep(p: Proc, w: Worker, reply: Reply): Proc {
    if !reply.Found? then p
    else if reply.found.None? then With(p, w, Executing)
    else
      var r := reply.found.value;
      if r.payloadHash != w.payload then Ended(p, w, Fails)
      else if r.Quarantined() then With(p, w, if r.txHash.None? then Dropping(r) else Retrying(r))
      else if r.Inflight() then With(p, w, Reconciling(r))
      else Ended(p, w, Settled(r))
  }

  function RetryStep(p: Proc, w: Worker, copy: Record, a: Answer): Proc {
    if !a.Chain? || copy.txHash.None? then p
    else
      var q := Log(p, Answered(copy.txHash.value, a.answer));
      match a.answer
      case NotFound => With(q, w, Dropping(copy))
      case LookupFailed => Ended(q, w, Fails)
      case known => With(q, w, Moving(copy, ChainState(known), FromFailure))
  }

  /** The quarantined record was removed by compare-and-set; the request may then be executed anew. */
  function DropStep(p: Proc, w: Worker, reply: Reply): Proc {
    if reply == Changed(true) then With(Log(p, Removed(w.id)), w, Executing) else Ended(p, w, Fails)
  }

  predicate Unprepared(r: Record) {
    r.txHash.None? && r.rawTx.None?
  }

  function ReconcileStep(p: Proc, w: Worker, copy: Record, reply: Reply): Proc {
    if Unprepared(copy) then
      if reply != Changed(true) then Ended(p, w, Fails)
      else With(Log(p, Removed(w.id)), w, if w.mode.Startup? then Choosing else Executing)
    else if copy.rawTx.None? then With(p, w, Suspecting(copy))
    else if copy.txHash.Some? && copy.nonce.Some? && copy.chainId.Some? then With(p, w, Recovering(copy))
    else if copy.rawTx.value.Garbage? then With(p, w, Suspecting(copy))
    else
      var tx := copy.rawTx.value.tx;
      With(p, w, if copy.txHash.Some? && !copy.txHash.value.Names(tx) then Checking(copy, tx) else Repairing(copy, tx))
  }

  /** A stored hash that is not the hash of the raw transaction is looked up before it is replaced. */
  function CheckStep(p: Proc, w: Worker, copy: Record, tx: SignedTx, a: Answer): Proc {
    if !a.Chain? || copy.txHash.None? then p
    else
      var q := Log(p, Answered(copy.txHash.value, a.answer));
      match a.answer
      case NotFound => With(q, w, Repairing(copy, tx))
      case LookupFailed => Ended(q, w, Fails)
      case known => With(q, w, Moving(copy, ChainState(known), FromInflight))
  }

  function RepairStep(p: Proc, w: Worker, copy: Record, tx: SignedTx, reply: Reply): Proc {
    if reply == Changed(true) then With(p, w, Recovering(Repaired(copy, PreparedTx(tx), copy.updatedAt)))
    else Ended(p, w, Fails)
  }

  /** A transaction the chain does not know, or cannot be asked about, is broadcast again as it is stored. */
  function RecoverStep(p: Proc, w: Worker, copy: Record, a: Answer): Proc {
    if !a.Chain? || copy.txHash.None? then p
    else
      var q := Log(p, Answered(copy.txHash.value, a.answer));
      match a.answer
      case NotFound => With(q, w, Submitting(copy, FromInflight))
      case LookupFailed => With(q, w, Submitting(copy, FromInflight))
      case known => With(q, w, Moving(copy, ChainState(known), FromInflight))
  }

  /** An attempt that failed: only a stale guard, met before anything was stored, is tried again. */
  function AttemptFails(p: Proc, w: Worker, stale: bool): Proc {
    if stale && !w.prepared && w.attempt < w.limit then With(p, w.(attempt := w.attempt + 1), Executing)
    else Ended(p, w, Fails)
  }

  function SubmitStep(p: Proc, w: Worker, copy: Record, path: Path): Proc {
    if Validated(copy) then With(Log(p, Broadcast(w.id, copy.rawTx.value.tx)), w, Sent(copy, path))
    else if path.Fresh? then AttemptFails(p, w, false)
    else With(p, w, Suspecting(copy))
  }

  /** After the broadcast: a result, or an error followed by a lookup of the hash. */
  function SentStep(p: Proc, w: Worker, copy: Record, path: Path, a: Answer): Proc {
    match a
    case SentOk(next) =>
      if next == Sending || next == Failed || copy.txHash.None? then p
      else With(Log(p, Replied(copy.txHash.value, next)), w, Moving(copy, next, path))
    case Chain(answer) =>
      if copy.txHash.None? then p
      else
        var q := Log(p, Answered(copy.txHash.value, answer));
        if answer.NotFound? || answer.LookupFailed? then With(q, w, Rejected(copy, path))
        else With(q, w, Moving(copy, ChainState(answer), path))
    case _ => RejectStep(p, w, copy, path, a)
  }

  /** A broadcast that ended in an error; in recovery, data that cannot be serialized makes the record suspect. */
  function RejectStep(p: Proc, w: Worker, copy: Record, path: Path, a: Answer): Proc {
    if !a.SentError? then p
    else if path.Fresh? then AttemptFails(p, w, a.stale)
    else if a.serialization then With(p, w, Suspecting(copy))
    else Ended(p, w, Fails)
  }

  function SuspectStep(p: Proc, w: Worker, copy: Record, a: Answer): Proc {
    if copy.txHash.None? then With(p, w, Quarantining(copy))
    else if !a.Chain? then p
    else
      var q := Log(p, Answered(copy.txHash.value, a.answer));
      match a.answer
      case NotFound => With(q, w, Quarantining(copy))
      case LookupFailed => Ended(q, w, Fails)
      case known => With(q, w, Moving(copy, ChainState(known), FromInflight))
  }

  function QuarantineStep(p: Proc, w: Worker, copy: Record, reply: Reply): Proc {
    if reply == Changed(true) then AfterQuarantine(p, w, copy) else With(p, w, QuarantineLost(copy))
  }

  /** A request call drops the quarantined record at once, if its hash was looked up. */
  function AfterQuarantine(p: Proc, w: Worker, copy: Record): Proc {
    if copy.txHash.Some? && w.mode.RequestCall? then With(p, w, Dropping(Quarantine(copy))) else Ended(p, w, Fails)
  }

  /** The compare-and-set lost: losing to an equal write is as good. */
  function QuarantineLostStep(p: Proc, w: Worker, copy: Record, reply: Reply): Proc {
    if reply.Found? && reply.found.Some? && reply.found.value.Quarantined()
       && SameTx(reply.found.value, copy.payloadHash, copy.txHash, copy.rawTx)
    then AfterQuarantine(p, w, copy)
    else Ended(p, w, Fails)
  }

  /** The chain-derived state is written by compare-and-set. */
  function MoveStep(p: Proc, w: Worker, copy: Record, next: RequestState, path: Path, reply: Reply): Proc {
    if reply == Changed(true) then With(p, w, AfterMove(w, Moved(copy, next), path))
    else if path.Fresh? then AttemptFails(p, w, false)
    else With(p, w, MoveLost(copy, next, path))
  }

  function MoveLostStep(p: Proc, w: Worker, copy: Record, next: RequestState, path: Path, reply: Reply): Proc {
    if reply.Found? && reply.found.Some? && reply.found.value.state == next
       && SameTx(reply.found.value, copy.payloadHash, copy.txHash, copy.rawTx)
    then With(p, w, AfterMove(w, reply.found.value, path))
    else Ended(p, w, Fails)
  }

  /** Where the call goes once record r holds its chain-derived state. */
  function AfterMove(w: Worker, r: Record, path: Path): Pc {
    if path.Fresh? then EndPc(w, if r.state == Reverted || r.result.None? then Fails else Value(r.result.value))
    else if path.FromFailure? && r.Inflight() then Reconciling(r)
    else EndPc(w, Settled(r))
  }

  /** Prepare and sign. */
  function ExecuteStep(p: Proc, w: Worker, a: Answer): Proc {
    match a
    case Sign(tx, about) => With(Log(p, SignedFor(w.id, tx)), w, Beginning(FreshRecord(w.id, w.payload, tx, about)))
    case PrepareFails(stale) => AttemptFails(p, w, stale)
    case _ => p
  }

  /** Nothing is broadcast before the signed record is stored. */
  function BeginStep(p: Proc, w: Worker, record: Record, reply: Reply): Proc {
    if reply.Acquired? && record.rawTx.Some? && record.rawTx.value.Signed?
    then With(Log(p, Persisted(w.id, record.rawTx.value.tx)), w.(prepared := true), Submitting(record, Fresh))
    else AttemptFails(p, w, false)
  }

  function ChooseStep(p: Proc, w: Worker, a: Answer): Proc {
    if a.Pick? && a.id in w.queue then
      var copy := w.queue[a.id];
      p.(worker := Some(w.(id := a.id, payload := copy.payloadHash, queue := w.queue - {a.id}, pc := Reconciling(copy))))
    else if w.queue == map[] then p.(worker := None)
    else p
  }

  function WorkStep(p: Proc, w: Worker, a: Answer, reply: Reply): Proc {
    if a.StoreError? && !w.pc.Finishing? then Ended(p, w, Fails)
    else match w.pc
      case Choosing => ChooseStep(p, w, a)
      case Looking => LookStep(p, w, reply)
      case Retrying(copy) => RetryStep(p, w, copy, a)
      case Dropping(copy) => DropStep(p, w, reply)
      case Reconciling(copy) => ReconcileStep(p, w, copy, reply)
      case Checking(copy, tx) => CheckStep(p, w, copy, tx, a)
      case Repairing(copy, tx) => RepairStep(p, w, copy, tx, reply)
      case Recovering(copy) => RecoverStep(p, w, copy, a)
      case Submitting(copy, path) => SubmitStep(p, w, copy, path)
      case Sent(copy, path) => SentStep(p, w, copy, path, a)
      case Rejected(copy, path) => RejectStep(p, w, copy, path, a)
      case Suspecting(copy) => SuspectStep(p, w, copy, a)
      case Quarantining(copy) => QuarantineStep(p, w, copy, reply)
      case QuarantineLost(copy) => QuarantineLostStep(p, w, copy, reply)
      case Moving(copy, next, path) => MoveStep(p, w, copy, next, path, reply)
      case MoveLost(copy, next, path) => MoveLostStep(p, w, copy, next, path, reply)
      case Executing => ExecuteStep(p, w, a)
      case Beginning(record) => BeginStep(p, w, record, reply)
      case Finishing(outcome) => Log(p.(worker := None), Returned(w.id, w.payload, outcome))
  }

  /** The call that the next step makes on the store, if any. */
  function WorkCall(w: Worker): Option<StoreCall> {
    match w.pc
    case Looking => Some(Get(w.id))
    case Dropping(copy) => Some(RemoveFailed(w.id, copy.payloadHash, copy.txHash, copy.rawTx))
    case Reconciling(copy) => if Unprepared(copy) then Some(RemoveUnprepared(w.id, copy.payloadHash)) else None
    case Repairing(copy, tx) =>
      if copy.rawTx.None? then None
      else Some(Repair(w.id, copy.payloadHash, copy.rawTx.value, copy.txHash, PreparedTx(tx), copy.updatedAt))
    case Quarantining(copy) => Some(UpdateInflight(w.id, Quarantine(copy)))
    case QuarantineLost(_) => Some(Get(w.id))
    case Moving(copy, next, path) =>
      Some(if path.FromFailure? then ResolveFailed(w.id, Moved(copy, next)) else UpdateInflight(w.id, Moved(copy, next)))
    case MoveLost(_, _, _) => Some(Get(w.id))
    case Beginning(record) => Some(TryBegin(w.id, record))
    case _ => None
  }

  // ----- everything that can happen -----

  function CallFor(p: Proc, c: Choice): Option<StoreCall> {
    match c
    case Crash => None
    case NewCall(_, _, _) => None
    case NewRecovery => if p.worker.Some? then None else Some(ListInflight)
    case WaiterRead(_, _, _) => Some(ListInflight)
    case WaiterWrite(id, record) => if (id, record) in p.waiters then Some(UpdateInflight(id, record)) else None
    case Work(a) => if p.worker.None? || a.StoreError? then None else WorkCall(p.worker.value)
  }

  /** What the process makes of a choice and the reply to its store call; without a call the reply is not looked at. */
  function Advance(p: Proc, c: Choice, reply: Reply): Proc {
    match c
    case Crash => p.(worker := None)
    case NewCall(id, payload, limit) =>
      if p.worker.Some? then p
      else Log(p.(worker := Some(Worker(id, payload, RequestCall, map[], 0, limit, false, Looking))), Started(id))
    case NewRecovery =>
      if p.worker.Some? || !reply.Listed? then p
      else Log(p.(worker := Some(Worker("", "", Startup, reply.records, 0, 0, false, Choosing))), Started(""))
    case WaiterRead(id, hash, answer) =>
      if reply.Listed? && id in reply.records && reply.records[id].txHash == Some(hash)
         && (answer.IsSucceeded? || answer.IsReverted?)
      then
        var q := Log(p, Answered(hash, answer));
        q.(waiters := q.waiters + {(id, Moved(reply.records[id], ChainState(answer)))})
      else p
    case WaiterWrite(id, record) => p.(waiters := p.waiters - {(id, record)})
    case Work(a) => if p.worker.Some? then WorkStep(p, p.worker.value, a, reply) else p
  }
}
