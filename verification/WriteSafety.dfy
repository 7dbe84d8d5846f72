/** What every run of the write protocol keeps: stored before broadcast, one transaction unless the chain lost it. */
module WriteSafety {
  import opened Wrappers
  import opened WriteRequests
  import opened WriteProtocol
  import opened WriteRuns
  import opened WriteAttempts

  /** The store holds the transaction under the request id, with its hash. */
  predicate Holds(store: Records, id: RequestId, tx: SignedTx) {
    && id in store
    && Bytes(store[id].rawTx) == Some(tx)
    && store[id].txHash.Some? && store[id].txHash.value.Names(tx)
  }

  /** After position i the chain was asked for the transaction and did not know it. */
  ghost predicate LostAfter(trace: Trace, i: int, tx: SignedTx) {
    exists k | i < k < |trace| ::
      0 <= k && trace[k].Answered? && trace[k].answer.NotFound? && trace[k].hash.Names(tx)
  }

  /** Every broadcast is still held by the store, or was looked up since and not found. */
  ghost predicate BroadcastsKept(store: Records, trace: Trace) {
    forall i | 0 <= i < |trace| && trace[i].Broadcast? ::
      LostAfter(trace, i, trace[i].tx) || Holds(store, trace[i].id, trace[i].tx)
  }

  /** Whatever was broadcast under this hash was looked up since and not found. */
  ghost predicate Cleared(trace: Trace, hash: Option<TxHash>) {
    hash.Some? ==>
      forall i | 0 <= i < |trace| && trace[i].Broadcast? && hash.value.Names(trace[i].tx) ::
        LostAfter(trace, i, trace[i].tx)
  }

  /** Two different transactions of one request have a NotFound answer about the first in between. */
  ghost predicate OneTransaction(trace: Trace) {
    forall i, j | 0 <= i < j < |trace| && trace[i].Broadcast? && trace[j].Broadcast?
                  && trace[i].id == trace[j].id && trace[i].tx != trace[j].tx ::
      LostAfter(trace[..j], i, trace[i].tx)
  }

  /** The copy a call works on agrees with the store in everything but the state. */
  predicate CopyOk(store: Records, id: RequestId, copy: Record) {
    id in store && SameTx(store[id], copy.payloadHash, copy.txHash, copy.rawTx)
  }

  predicate QueueOk(store: Records, queue: Records) {
    forall id | id in queue :: CopyOk(store, id, queue[id])
  }

  ghost predicate PcOk(store: Records, trace: Trace, id: RequestId, pc: Pc) {
    match pc
    case Choosing => true
    case Looking => true
    case Retrying(copy) => CopyOk(store, id, copy)
    case Dropping(copy) => CopyOk(store, id, copy) && Cleared(trace, copy.txHash)
    case Reconciling(copy) => CopyOk(store, id, copy)
    case Checking(copy, tx) => CopyOk(store, id, copy) && Bytes(copy.rawTx) == Some(tx)
    case Repairing(copy, tx) => CopyOk(store, id, copy) && Bytes(copy.rawTx) == Some(tx)
    case Recovering(copy) => CopyOk(store, id, copy)
    case Submitting(copy, _) => CopyOk(store, id, copy)
    case Sent(copy, _) => CopyOk(store, id, copy)
    case Rejected(copy, _) => CopyOk(store, id, copy)
    case Suspecting(copy) => CopyOk(store, id, copy)
    case Quarantining(copy) => CopyOk(store, id, copy) && Cleared(trace, copy.txHash)
    case QuarantineLost(copy) => CopyOk(store, id, copy) && Cleared(trace, copy.txHash)
    case Moving(copy, _, _) => CopyOk(store, id, copy)
    case MoveLost(copy, _, _) => CopyOk(store, id, copy)
    case Executing => id !in store
    case Beginning(_) => id !in store
    case Finishing(_) => true
  }

  ghost predicate WorkerOk(store: Records, trace: Trace, w: Worker) {
    && PcOk(store, trace, w.id, w.pc)
    && QueueOk(store, w.queue)
    && (w.id !in w.queue || (w.pc.Choosing? && w.mode.Startup?))
  }

  ghost predicate Safe(store: Records, p: Proc) {
    && BroadcastsKept(store, p.trace)
    && OneTransaction(p.trace)
    && (p.worker.Some? ==> WorkerOk(store, p.trace, p.worker.value))
  }

  // ----- growing the trace -----

  lemma LostStays(trace: Trace, e: Event, i: int, tx: SignedTx)
    requires LostAfter(trace, i, tx)
    ensures LostAfter(trace + [e], i, tx)
  {
    var k :| i < k < |trace| && 0 <= k && trace[k].Answered? && trace[k].answer.NotFound? && trace[k].hash.Names(tx);
    assert (trace + [e])[k] == trace[k];
  }

  /** Any event that is no broadcast leaves the bookkeeping as it is. */
  lemma QuietEvent(store: Records, trace: Trace, e: Event)
    requires BroadcastsKept(store, trace) && OneTransaction(trace) && !e.Broadcast?
    ensures BroadcastsKept(store, trace + [e]) && OneTransaction(trace + [e])
  {
    var longer := trace + [e];
    forall i | 0 <= i < |longer| && longer[i].Broadcast?
      ensures LostAfter(longer, i, longer[i].tx) || Holds(store, longer[i].id, longer[i].tx)
    {
      if LostAfter(trace, i, trace[i].tx) {
        LostStays(trace, e, i, trace[i].tx);
      }
    }
    SamePairs(trace, e);
  }

  lemma SamePairs(trace: Trace, e: Event)
    requires OneTransaction(trace)
    requires forall i | 0 <= i < |trace| && trace[i].Broadcast? && e.Broadcast? && trace[i].id == e.id
               && trace[i].tx != e.tx :: LostAfter(trace, i, trace[i].tx)
    ensures OneTransaction(trace + [e])
  {
    var longer := trace + [e];
    forall i, j | 0 <= i < j < |longer| && longer[i].Broadcast? && longer[j].Broadcast?
                  && longer[i].id == longer[j].id && longer[i].tx != longer[j].tx
      ensures LostAfter(longer[..j], i, longer[i].tx)
    {
      assert longer[..j] == trace[..j];
      assert j == |trace| ==> trace[..j] == trace;
    }
  }

  /** A NotFound answer clears its hash. */
  lemma NotFoundClears(trace: Trace, hash: TxHash)
    ensures Cleared(trace + [Answered(hash, NotFound)], Some(hash))
  {
    var longer := trace + [Answered(hash, NotFound)];
    assert longer[|trace|] == Answered(hash, NotFound);
  }

  lemma BroadcastEvent(store: Records, trace: Trace, id: RequestId, tx: SignedTx)
    requires BroadcastsKept(store, trace) && OneTransaction(trace) && Holds(store, id, tx)
    ensures BroadcastsKept(store, trace + [Broadcast(id, tx)]) && OneTransaction(trace + [Broadcast(id, tx)])
  {
    var e := Broadcast(id, tx);
    var longer := trace + [e];
    forall i | 0 <= i < |longer| && longer[i].Broadcast?
      ensures LostAfter(longer, i, longer[i].tx) || Holds(store, longer[i].id, longer[i].tx)
    {
      if i < |trace| && LostAfter(trace, i, trace[i].tx) {
        LostStays(trace, e, i, trace[i].tx);
      }
    }
    SamePairs(trace, e);
  }

  // ----- changing the store -----

  predicate Removes(call: StoreCall) {
    call.RemoveFailed? || call.RemoveUnprepared?
  }

  /** A call that does not remove the record keeps every held transaction. */
  lemma CallKeepsHeld(m: Records, call: StoreCall, u: Records, reply: Reply, id: RequestId, tx: SignedTx)
    requires Decided(m, call, u, reply) && FaithfulRepair(call) && !Removes(call) && Holds(m, id, tx)
    ensures Holds(u, id, tx)
  {
    assert !call.ListInflight? && id != call.id ==> Lookup(u, id) == Lookup(m, id);
  }

  /** Only a metadata repair makes copies of a record outdated, and only a new request adds an entry. */
  lemma CallKeepsCopies(m: Records, call: StoreCall, u: Records, reply: Reply, id: RequestId, copy: Record)
    requires Decided(m, call, u, reply) && !Removes(call) && !call.TryBegin? && !call.Repair?
    ensures CopyOk(m, id, copy) ==> CopyOk(u, id, copy)
    ensures id !in m ==> id !in u
  {
    assert !call.ListInflight? && id != call.id ==> Lookup(u, id) == Lookup(m, id);
  }

  lemma StoreKeepsBroadcasts(m: Records, call: StoreCall, u: Records, reply: Reply, trace: Trace)
    requires BroadcastsKept(m, trace)
    requires Decided(m, call, u, reply) && FaithfulRepair(call) && !Removes(call)
    ensures BroadcastsKept(u, trace)
  {
    hide Decided, Holds, LostAfter;
    forall i | 0 <= i < |trace| && trace[i].Broadcast? && Holds(m, trace[i].id, trace[i].tx)
      ensures Holds(u, trace[i].id, trace[i].tx)
    {
      CallKeepsHeld(m, call, u, reply, trace[i].id, trace[i].tx);
    }
  }

  lemma StoreKeepsQueue(m: Records, call: StoreCall, u: Records, reply: Reply, queue: Records)
    requires QueueOk(m, queue) && Decided(m, call, u, reply) && !call.ListInflight? && call.id !in queue
    ensures QueueOk(u, queue)
  {
    hide MemoryDecide, Wrote;
    forall id | id in queue
      ensures CopyOk(u, id, queue[id])
    {
      assert CopyOk(m, id, queue[id]) && Lookup(u, id) == Lookup(m, id);
    }
  }

  /** Removing a record whose hash was cleared loses no broadcast that was not looked up. */
  lemma RemovalKeepsBroadcasts(m: Records, u: Records, trace: Trace, id: RequestId, hash: Option<TxHash>)
    requires BroadcastsKept(m, trace) && Cleared(trace, hash)
    requires id in m && m[id].txHash == hash && forall x | x != id :: Lookup(u, x) == Lookup(m, x)
    ensures BroadcastsKept(u, trace)
  {
    hide LostAfter;
    forall i | 0 <= i < |trace| && trace[i].Broadcast?
      ensures LostAfter(trace, i, trace[i].tx) || Holds(u, trace[i].id, trace[i].tx)
    {
      assert trace[i].id != id ==> Lookup(u, trace[i].id) == Lookup(m, trace[i].id);
    }
  }

  /** Reading changes nothing, and returns what is stored. */
  lemma ReadsOnly(m: Records, call: StoreCall, u: Records, reply: Reply)
    requires Decided(m, call, u, reply) && (call.Get? || call.ListInflight?)
    ensures u == m
    ensures call.Get? ==> reply == Found(Lookup(m, call.id))
  {
    if call.Get? {
      forall x
        ensures (x in u <==> x in m) && (x in m ==> u[x] == m[x])
      {
        assert Lookup(u, x) == Lookup(m, x);
      }
    }
  }

  // ----- one step of the call -----

  /** Moving on without an event or a write. */
  lemma MoveOn(store: Records, p: Proc, w: Worker, v: Worker)
    requires Safe(store, p) && p.worker == Some(w) && !w.pc.Choosing?
    requires v.id == w.id && v.queue == w.queue && PcOk(store, p.trace, w.id, v.pc)
    ensures Safe(store, p.(worker := Some(v)))
  {
    hide BroadcastsKept, OneTransaction, PcOk, QueueOk;
  }

  /** Moving on after an event that is no broadcast. */
  lemma LogAndMove(store: Records, p: Proc, w: Worker, e: Event, v: Worker)
    requires Safe(store, p) && p.worker == Some(w) && !w.pc.Choosing? && !e.Broadcast?
    requires v.id == w.id && v.queue == w.queue && PcOk(store, p.trace + [e], w.id, v.pc)
    ensures Safe(store, Log(p.(worker := Some(v)), e))
  {
    hide BroadcastsKept, OneTransaction, PcOk, QueueOk;
    QuietEvent(store, p.trace, e);
  }

  /** A write to the record of the call. */
  lemma WriteAndMove(m: Records, call: StoreCall, u: Records, reply: Reply, p: Proc, w: Worker, v: Worker)
    requires Safe(m, p) && p.worker == Some(w) && !w.pc.Choosing?
    requires Decided(m, call, u, reply) && !call.ListInflight? && call.id == w.id
    requires FaithfulRepair(call) && !Removes(call)
    requires v.id == w.id && v.queue == w.queue && PcOk(u, p.trace, w.id, v.pc)
    ensures Safe(u, p.(worker := Some(v)))
  {
    hide BroadcastsKept, OneTransaction, PcOk, QueueOk, Decided, FaithfulRepair;
    StoreKeepsBroadcasts(m, call, u, reply, p.trace);
    StoreKeepsQueue(m, call, u, reply, w.queue);
  }

  /** The record of the call was removed. */
  lemma RemoveAndMove(m: Records, call: StoreCall, u: Records, p: Proc, w: Worker, hash: Option<TxHash>, pc: Pc)
    requires Safe(m, p) && p.worker == Some(w) && !w.pc.Choosing?
    requires (call.RemoveFailed? && call.txHash == hash) || (call.RemoveUnprepared? && hash == None)
    requires Decided(m, call, u, Changed(true)) && call.id == w.id && Cleared(p.trace, hash)
    requires pc.Choosing? || pc.Executing?
    ensures Safe(u, With(Log(p, Removed(w.id)), w, pc))
  {
    hide BroadcastsKept, OneTransaction, Cleared;
    RemovalKeepsBroadcasts(m, u, p.trace, w.id, hash);
    StoreKeepsQueue(m, call, u, Changed(true), w.queue);
    QuietEvent(u, p.trace, Removed(w.id));
    assert Lookup(u, w.id).None?;
  }

  lemma WorkerOf(store: Records, p: Proc, w: Worker)
    requires Safe(store, p) && p.worker == Some(w)
    ensures WorkerOk(store, p.trace, w)
  {
  }

  lemma EndSafe(store: Records, p: Proc, w: Worker, outcome: CallOutcome)
    requires Safe(store, p) && p.worker == Some(w)
    ensures Safe(store, Ended(p, w, outcome))
  {
    hide BroadcastsKept, OneTransaction, QueueOk;
  }

  /** The store under a call that did not change anything. */
  lemma Unchanged(m: Records, call: StoreCall, u: Records, reply: Reply)
    requires Decided(m, call, u, reply) && !call.ListInflight?
    requires reply == Changed(false) || reply.Refused? || reply.Existing?
    ensures u == m
  {
    forall x
      ensures (x in u <==> x in m) && (x in m ==> u[x] == m[x])
    {
      assert Lookup(u, x) == Lookup(m, x);
    }
  }

  lemma LookSafe(store: Records, p: Proc, w: Worker, reply: Reply)
    requires Safe(store, p) && p.worker == Some(w) && w.pc == Looking && reply == Found(Lookup(store, w.id))
    ensures Safe(store, LookStep(p, w, reply))
  {
    hide Safe, Settled;
    WorkerOf(store, p, w);
    MoveOn(store, p, w, LookStep(p, w, reply).worker.value);
  }

  lemma RetrySafe(store: Records, p: Proc, w: Worker, copy: Record, a: Answer)
    requires Safe(store, p) && p.worker == Some(w) && w.pc == Retrying(copy)
    ensures Safe(store, RetryStep(p, w, copy, a))
  {
    hide Safe;
    WorkerOf(store, p, w);
    if a.Chain? && copy.txHash.Some? {
      NotFoundClears(p.trace, copy.txHash.value);
      LogAndMove(store, p, w, Answered(copy.txHash.value, a.answer), RetryStep(p, w, copy, a).worker.value);
    }
  }

  lemma DropSafe(m: Records, u: Records, p: Proc, w: Worker, copy: Record, reply: Reply)
    requires Safe(m, p) && p.worker == Some(w) && w.pc == Dropping(copy)
    requires Decided(m, WorkCall(w).value, u, reply)
    ensures Safe(u, DropStep(p, w, reply))
  {
    hide Safe, Decided, Cleared;
    WorkerOf(m, p, w);
    if reply == Changed(true) {
      RemoveAndMove(m, WorkCall(w).value, u, p, w, copy.txHash, Executing);
    } else {
      RemovalReply(m, WorkCall(w).value, u, reply);
      Unchanged(m, WorkCall(w).value, u, reply);
      EndSafe(m, p, w, Fails);
    }
  }

  lemma RemovalReply(m: Records, call: StoreCall, u: Records, reply: Reply)
    requires Decided(m, call, u, reply) && (Removes(call) || call.Repair?)
    ensures reply.Changed?
  {
  }

  lemma ReconcileSafe(m: Records, u: Records, p: Proc, w: Worker, copy: Record, reply: Reply)
    requires Safe(m, p) && p.worker == Some(w) && w.pc == Reconciling(copy)
    requires if Unprepared(copy) then Decided(m, WorkCall(w).value, u, reply) else u == m
    ensures Safe(u, ReconcileStep(p, w, copy, reply))
  {
    hide Safe, Decided;
    WorkerOf(m, p, w);
    if !Unprepared(copy) {
      MoveOn(m, p, w, ReconcileStep(p, w, copy, reply).worker.value);
    } else if reply == Changed(true) {
      RemoveAndMove(m, WorkCall(w).value, u, p, w, None, if w.mode.Startup? then Choosing else Executing);
    } else {
      RemovalReply(m, WorkCall(w).value, u, reply);
      Unchanged(m, WorkCall(w).value, u, reply);
      EndSafe(m, p, w, Fails);
    }
  }

  lemma CheckSafe(store: Records, p: Proc, w: Worker, copy: Record, tx: SignedTx, a: Answer)
    requires Safe(store, p) && p.worker == Some(w) && w.pc == Checking(copy, tx)
    ensures Safe(store, CheckStep(p, w, copy, tx, a))
  {
    hide Safe;
    WorkerOf(store, p, w);
    if a.Chain? && copy.txHash.Some? {
      LogAndMove(store, p, w, Answered(copy.txHash.value, a.answer), CheckStep(p, w, copy, tx, a).worker.value);
    }
  }

  lemma RepairSafe(m: Records, u: Records, p: Proc, w: Worker, copy: Record, tx: SignedTx, reply: Reply)
    requires Safe(m, p) && p.worker == Some(w) && w.pc == Repairing(copy, tx) && copy.rawTx.Some?
    requires Decided(m, WorkCall(w).value, u, reply)
    ensures Safe(u, RepairStep(p, w, copy, tx, reply))
  {
    hide Safe;
    WorkerOf(m, p, w);
    var call := WorkCall(w).value;
    if reply == Changed(true) {
      WriteAndMove(m, call, u, reply, p, w, w.(pc := Recovering(Repaired(copy, PreparedTx(tx), copy.updatedAt))));
    } else {
      RemovalReply(m, call, u, reply);
      Unchanged(m, call, u, reply);
      EndSafe(m, p, w, Fails);
    }
  }

  lemma RecoverSafe(store: Records, p: Proc, w: Worker, copy: Record, a: Answer)
    requires Safe(store, p) && p.worker == Some(w) && w.pc == Recovering(copy)
    ensures Safe(store, RecoverStep(p, w, copy, a))
  {
    hide Safe;
    WorkerOf(store, p, w);
    if a.Chain? && copy.txHash.Some? {
      LogAndMove(store, p, w, Answered(copy.txHash.value, a.answer), RecoverStep(p, w, copy, a).worker.value);
    }
  }

  /** A failed attempt goes on only from where nothing is stored. */
  lemma AttemptSafe(store: Records, p: Proc, w: Worker, stale: bool)
    requires Safe(store, p) && p.worker == Some(w) && !w.pc.Choosing? && (w.prepared || w.id !in store)
    ensures Safe(store, AttemptFails(p, w, stale))
  {
    hide Safe;
    if stale && !w.prepared && w.attempt < w.limit {
      MoveOn(store, p, w, w.(attempt := w.attempt + 1, pc := Executing));
    } else {
      EndSafe(store, p, w, Fails);
    }
  }

  /** What is broadcast is what the store holds under the request id at that moment. */
  lemma SubmitSafe(store: Records, p: Proc, w: Worker, copy: Record, path: Path)
    requires Safe(store, p) && p.worker == Some(w) && w.pc == Submitting(copy, path) && AttemptOk(w)
    ensures Safe(store, SubmitStep(p, w, copy, path))
    ensures Validated(copy) ==> Holds(store, w.id, copy.rawTx.value.tx)
  {
    hide BroadcastsKept, OneTransaction, QueueOk;
    if Validated(copy) {
      BroadcastEvent(store, p.trace, w.id, copy.rawTx.value.tx);
    } else if path.Fresh? {
      AttemptSafe(store, p, w, false);
    }
  }

  lemma SentSafe(store: Records, p: Proc, w: Worker, copy: Record, path: Path, a: Answer)
    requires Safe(store, p) && p.worker == Some(w) && w.pc == Sent(copy, path) && AttemptOk(w)
    ensures Safe(store, SentStep(p, w, copy, path, a))
  {
    hide Safe, RejectStep, AttemptOk;
    WorkerOf(store, p, w);
    if a.Chain? && copy.txHash.Some? {
      LogAndMove(store, p, w, Answered(copy.txHash.value, a.answer), SentStep(p, w, copy, path, a).worker.value);
    } else if a.SentOk? && a.next != Sending && a.next != Failed && copy.txHash.Some? {
      LogAndMove(store, p, w, Replied(copy.txHash.value, a.next), SentStep(p, w, copy, path, a).worker.value);
    } else if !a.Chain? && !a.SentOk? {
      RejectSafe(store, p, w, copy, path, a);
    }
  }

  lemma RejectSafe(store: Records, p: Proc, w: Worker, copy: Record, path: Path, a: Answer)
    requires Safe(store, p) && p.worker == Some(w) && AttemptOk(w)
    requires w.pc == Sent(copy, path) || w.pc == Rejected(copy, path)
    ensures Safe(store, RejectStep(p, w, copy, path, a))
  {
    hide Safe;
    WorkerOf(store, p, w);
    if a.SentError? && path.Fresh? {
      AttemptSafe(store, p, w, a.stale);
    } else {
      MoveOn(store, p, w, RejectStep(p, w, copy, path, a).worker.value);
    }
  }

  lemma SuspectSafe(store: Records, p: Proc, w: Worker, copy: Record, a: Answer)
    requires Safe(store, p) && p.worker == Some(w) && w.pc == Suspecting(copy)
    ensures Safe(store, SuspectStep(p, w, copy, a))
  {
    hide Safe;
    WorkerOf(store, p, w);
    if copy.txHash.None? {
      MoveOn(store, p, w, w.(pc := Quarantining(copy)));
    } else if a.Chain? {
      NotFoundClears(p.trace, copy.txHash.value);
      LogAndMove(store, p, w, Answered(copy.txHash.value, a.answer), SuspectStep(p, w, copy, a).worker.value);
    }
  }

  lemma QuarantineSafe(m: Records, u: Records, p: Proc, w: Worker, copy: Record, reply: Reply)
    requires Safe(m, p) && p.worker == Some(w) && w.pc == Quarantining(copy)
    requires Decided(m, WorkCall(w).value, u, reply)
    ensures Safe(u, QuarantineStep(p, w, copy, reply))
  {
    hide Safe, Cleared, Decided;
    WorkerOf(m, p, w);
    CallKeepsCopies(m, WorkCall(w).value, u, reply, w.id, copy);
    WriteAndMove(m, WorkCall(w).value, u, reply, p, w, QuarantineStep(p, w, copy, reply).worker.value);
  }

  lemma QuarantineLostSafe(store: Records, p: Proc, w: Worker, copy: Record, reply: Reply)
    requires Safe(store, p) && p.worker == Some(w) && w.pc == QuarantineLost(copy)
    ensures Safe(store, QuarantineLostStep(p, w, copy, reply))
  {
    hide Safe, Cleared;
    WorkerOf(store, p, w);
    MoveOn(store, p, w, QuarantineLostStep(p, w, copy, reply).worker.value);
  }

  lemma MoveSafe(m: Records, u: Records, p: Proc, w: Worker, copy: Record, next: RequestState, path: Path, reply: Reply)
    requires Safe(m, p) && p.worker == Some(w) && w.pc == Moving(copy, next, path) && AttemptOk(w)
    requires Decided(m, WorkCall(w).value, u, reply)
    ensures Safe(u, MoveStep(p, w, copy, next, path, reply))
  {
    hide Safe, Decided, Settled;
    WorkerOf(m, p, w);
    CallKeepsCopies(m, WorkCall(w).value, u, reply, w.id, copy);
    WriteAndMove(m, WorkCall(w).value, u, reply, p, w, MoveStep(p, w, copy, next, path, reply).worker.value);
  }

  lemma MoveLostSafe(store: Records, p: Proc, w: Worker, copy: Record, next: RequestState, path: Path, reply: Reply)
    requires Safe(store, p) && p.worker == Some(w) && w.pc == MoveLost(copy, next, path)
    requires reply == Found(Lookup(store, w.id))
    ensures Safe(store, MoveLostStep(p, w, copy, next, path, reply))
  {
    hide Safe, Settled;
    WorkerOf(store, p, w);
    MoveOn(store, p, w, MoveLostStep(p, w, copy, next, path, reply).worker.value);
  }

  lemma ExecuteSafe(store: Records, p: Proc, w: Worker, a: Answer)
    requires Safe(store, p) && p.worker == Some(w) && w.pc == Executing
    ensures Safe(store, ExecuteStep(p, w, a))
  {
    hide Safe;
    WorkerOf(store, p, w);
    if a.Sign? {
      LogAndMove(store, p, w, SignedFor(w.id, a.tx), ExecuteStep(p, w, a).worker.value);
    } else if a.PrepareFails? {
      AttemptSafe(store, p, w, a.stale);
    }
  }

  lemma BeginSafe(m: Records, u: Records, p: Proc, w: Worker, record: Record, reply: Reply)
    requires Safe(m, p) && p.worker == Some(w) && w.pc == Beginning(record)
    requires Decided(m, WorkCall(w).value, u, reply)
    ensures Safe(u, BeginStep(p, w, record, reply))
  {
    hide Safe;
    WorkerOf(m, p, w);
    var call := WorkCall(w).value;
    var v := w.(prepared := true, pc := Submitting(record, Fresh));
    if !reply.Acquired? {
      Unchanged(m, call, u, reply);
      AttemptSafe(m, p, w, false);
    } else if record.rawTx.Some? && record.rawTx.value.Signed? {
      WriteAndMove(m, call, u, reply, p, w, v);
      LogAndMove(u, p.(worker := Some(v)), v, Persisted(w.id, record.rawTx.value.tx), v);
    } else {
      WriteAndMove(m, call, u, reply, p, w, w.(pc := EndPc(w, Fails)));
    }
  }

  lemma ChooseSafe(store: Records, p: Proc, w: Worker, a: Answer)
    requires Safe(store, p) && p.worker == Some(w) && w.pc == Choosing
    ensures Safe(store, ChooseStep(p, w, a))
  {
    hide BroadcastsKept, OneTransaction;
  }

  lemma FinishSafe(store: Records, p: Proc, w: Worker, outcome: CallOutcome)
    requires Safe(store, p) && p.worker == Some(w)
    ensures Safe(store, Log(p.(worker := None), Returned(w.id, w.payload, outcome)))
  {
    hide BroadcastsKept, OneTransaction;
    QuietEvent(store, p.trace, Returned(w.id, w.payload, outcome));
  }

  /** The store may have changed in the step of a call as its store call allows. */
  ghost predicate Served(m: Records, w: Worker, a: Answer, u: Records, reply: Reply) {
    if a.StoreError? || WorkCall(w).None? then u == m else Decided(m, WorkCall(w).value, u, reply)
  }

  lemma WorkSafe(m: Records, u: Records, p: Proc, w: Worker, a: Answer, reply: Reply)
    requires Safe(m, p) && p.worker == Some(w) && AttemptOk(w) && Served(m, w, a, u, reply)
    ensures Safe(u, WorkStep(p, w, a, reply))
  {
    hide Safe, LookStep, RetryStep, DropStep, ReconcileStep, CheckStep, RepairStep, RecoverStep, SubmitStep, SentStep;
    hide SuspectStep, QuarantineStep, MoveStep, ExecuteStep, BeginStep, RejectStep, ChooseStep, QuarantineLostStep;
    hide MoveLostStep, Decided, AttemptOk, Moved, Quarantine, Cleared;
    if a.StoreError? && !w.pc.Finishing? {
      EndSafe(m, p, w, Fails);
    } else {
      match w.pc
      case Choosing => ChooseSafe(m, p, w, a);
      case Looking =>
        ReadsOnly(m, Get(w.id), u, reply);
        LookSafe(m, p, w, reply);
      case Retrying(copy) => RetrySafe(m, p, w, copy, a);
      case Dropping(copy) => DropSafe(m, u, p, w, copy, reply);
      case Reconciling(copy) => ReconcileSafe(m, u, p, w, copy, reply);
      case Checking(copy, tx) => CheckSafe(m, p, w, copy, tx, a);
      case Repairing(copy, tx) =>
        WorkerOf(m, p, w);
        RepairSafe(m, u, p, w, copy, tx, reply);
      case Recovering(copy) => RecoverSafe(m, p, w, copy, a);
      case Submitting(copy, path) => SubmitSafe(m, p, w, copy, path);
      case Sent(copy, path) => SentSafe(m, p, w, copy, path, a);
      case Rejected(copy, path) => RejectSafe(m, p, w, copy, path, a);
      case Suspecting(copy) => SuspectSafe(m, p, w, copy, a);
      case Quarantining(copy) => QuarantineSafe(m, u, p, w, copy, reply);
      case QuarantineLost(copy) =>
        ReadsOnly(m, Get(w.id), u, reply);
        QuarantineLostSafe(m, p, w, copy, reply);
      case Moving(copy, next, path) => MoveSafe(m, u, p, w, copy, next, path, reply);
      case MoveLost(copy, next, path) =>
        ReadsOnly(m, Get(w.id), u, reply);
        MoveLostSafe(m, p, w, copy, next, path, reply);
      case Executing => ExecuteSafe(m, p, w, a);
      case Beginning(record) => BeginSafe(m, u, p, w, record, reply);
      case Finishing(outcome) => FinishSafe(m, p, w, outcome);
    }
  }

  // ----- everything else that can happen -----

  /** A waiter's write changes only the state of a record. */
  lemma WaiterSafe(m: Records, u: Records, p: Proc, id: RequestId, record: Record, reply: Reply)
    requires Safe(m, p) && Decided(m, UpdateInflight(id, record), u, reply)
    ensures Safe(u, p.(waiters := p.waiters - {(id, record)}))
  {
    hide BroadcastsKept, OneTransaction, Decided, CopyOk, PcOk;
    var call := UpdateInflight(id, record);
    StoreKeepsBroadcasts(m, call, u, reply, p.trace);
    if p.worker.Some? {
      var w := p.worker.value;
      forall x | x in w.queue
        ensures CopyOk(u, x, w.queue[x])
      {
        CallKeepsCopies(m, call, u, reply, x, w.queue[x]);
      }
      WaiterKeepsPc(m, u, p.trace, id, record, reply, w.id, w.pc);
    }
  }

  predicate HasCopy(pc: Pc) {
    !pc.Choosing? && !pc.Looking? && !pc.Executing? && !pc.Beginning? && !pc.Finishing?
  }

  lemma WaiterKeepsPc(m: Records, u: Records, trace: Trace, id: RequestId, record: Record, reply: Reply,
                      x: RequestId, pc: Pc)
    requires PcOk(m, trace, x, pc) && Decided(m, UpdateInflight(id, record), u, reply)
    ensures PcOk(u, trace, x, pc)
  {
    hide Decided, Cleared, CopyOk;
    CallKeepsCopies(m, UpdateInflight(id, record), u, reply, x, if HasCopy(pc) then pc.copy else record);
  }

  /** An answer to a waiter changes nothing for the call. */
  lemma AnsweredSafe(store: Records, p: Proc, hash: TxHash, answer: ChainAnswer)
    requires Safe(store, p)
    ensures Safe(store, Log(p, Answered(hash, answer)))
  {
    hide BroadcastsKept, OneTransaction, QueueOk, CopyOk, LostAfter;
    QuietEvent(store, p.trace, Answered(hash, answer));
    if p.worker.Some? && HasCopy(p.worker.value.pc) {
      ClearedStays(p.trace, Answered(hash, answer), p.worker.value.pc.copy.txHash);
    }
  }

  /** Cleared hashes stay cleared until the next broadcast. */
  lemma ClearedStays(trace: Trace, e: Event, hash: Option<TxHash>)
    requires !e.Broadcast?
    ensures Cleared(trace, hash) ==> Cleared(trace + [e], hash)
  {
    hide LostAfter;
    var longer := trace + [e];
    if hash.Some? && Cleared(trace, hash) {
      forall i | 0 <= i < |longer| && longer[i].Broadcast? && hash.value.Names(longer[i].tx)
        ensures LostAfter(longer, i, longer[i].tx)
      {
        LostStays(trace, e, i, trace[i].tx);
      }
    }
  }

  lemma StartedSafe(store: Records, p: Proc, w: Worker, id: RequestId)
    requires Safe(store, p) && p.worker.None? && (w.pc.Looking? || w.pc.Choosing?)
    requires QueueOk(store, w.queue) && (w.id !in w.queue || (w.pc.Choosing? && w.mode.Startup?))
    ensures Safe(store, Log(p.(worker := Some(w)), Started(id)))
  {
    hide BroadcastsKept, OneTransaction;
    QuietEvent(store, p.trace, Started(id));
  }

  lemma StepSafe(s: Sys, c: Choice, reply: Reply, t: Sys)
    requires Safe(s.store, s.proc) && Counted(s.proc) && Next(s, c, reply, t)
    ensures Safe(t.store, t.proc)
  {
    hide BroadcastsKept, OneTransaction, WorkStep, WorkCall, AttemptOk, PcOk, NothingStored, SignedSince, StoredOnce;
    match c
    case Crash =>
    case WaiterRead(_, hash, answer) => AnsweredSafe(s.store, s.proc, hash, answer);
    case NewCall(id, payload, limit) =>
      if s.proc.worker.None? {
        StartedSafe(s.store, s.proc, Worker(id, payload, RequestCall, map[], 0, limit, false, Looking), id);
      }
    case NewRecovery =>
      if s.proc.worker.None? {
        StartedSafe(s.store, s.proc, Worker("", "", Startup, InflightOf(s.store), 0, 0, false, Choosing), "");
      }
    case WaiterWrite(id, record) =>
      if (id, record) in s.proc.waiters {
        WaiterSafe(s.store, t.store, s.proc, id, record, reply);
      }
    case Work(a) =>
      if s.proc.worker.Some? {
        WorkSafe(s.store, t.store, s.proc, s.proc.worker.value, a, reply);
      }
  }

  // ----- all runs -----

  lemma {:induction false} RunSafe(run: Run, k: nat)
    requires run.Valid() && k < |run.states|
    ensures Safe(run.states[k].store, run.states[k].proc)
  {
    hide Next, Counted;
    if k > 0 {
      RunSafe(run, k - 1);
      RunCounts(run, k - 1);
      StepSafe(run.states[k - 1], run.choices[k - 1], run.replies[k - 1], run.states[k]);
    }
  }

  /**
   * Stored before broadcast: at the moment a transaction is broadcast for a request, first time or in recovery,
   * the store holds exactly that transaction under the request id. This starts from any store, however damaged.
   */
  lemma BroadcastsAreStored(run: Run, k: nat, id: RequestId, tx: SignedTx)
    requires run.Valid() && k < |run.choices|
    requires run.states[k + 1].proc.trace == run.states[k].proc.trace + [Broadcast(id, tx)]
    ensures Holds(run.states[k].store, id, tx)
  {
    hide Safe, Next, Counted;
    RunSafe(run, k);
    RunCounts(run, k);
    BroadcastStepHolds(run.states[k], run.choices[k], run.replies[k], run.states[k + 1], id, tx);
  }

  lemma BroadcastStepHolds(s: Sys, c: Choice, reply: Reply, t: Sys, id: RequestId, tx: SignedTx)
    requires Safe(s.store, s.proc) && Counted(s.proc) && Next(s, c, reply, t)
    requires t.proc.trace == s.proc.trace + [Broadcast(id, tx)]
    ensures Holds(s.store, id, tx)
  {
    hide Safe, Decided, WorkCall, NothingStored, SignedSince, StoredOnce, Settled, Moved;
    assert t.proc.trace[|s.proc.trace|] == Broadcast(id, tx);
    if s.proc.worker.Some? && s.proc.worker.value.pc.Submitting? {
      SubmitSafe(s.store, s.proc, s.proc.worker.value, s.proc.worker.value.pc.copy, s.proc.worker.value.pc.path);
    }
  }

  /**
   * Two different signed transactions are broadcast for one request id only if, in between, the chain was asked
   * for the first one's hash and answered NotFound.
   */
  lemma SecondTransactionNeedsNotFound(run: Run, i: nat, j: nat)
    requires run.Valid()
    requires var trace := run.Trace();
      && i < j < |trace| && trace[i].Broadcast? && trace[j].Broadcast?
      && trace[i].id == trace[j].id && trace[i].tx != trace[j].tx
    ensures var trace := run.Trace();
      exists k | i < k < j :: trace[k].Answered? && trace[k].answer.NotFound? && trace[k].hash.Names(trace[i].tx)
  {
    RunSafe(run, |run.states| - 1);
    var trace := run.Trace();
    assert LostAfter(trace[..j], i, trace[i].tx);
    var k :| i < k < j && trace[..j][k].Answered? && trace[..j][k].answer.NotFound?
             && trace[..j][k].hash.Names(trace[i].tx);
    assert trace[k] == trace[..j][k];
  }

  // ----- records under the protocol -----

  lemma DecidedMovesForward(m: Records, call: StoreCall, u: Records, reply: Reply, id: RequestId)
    requires Decided(m, call, u, reply) && FaithfulRepair(call) && id in m
    ensures id in u ==> MovesForward(m[id], u[id])
    ensures m[id].Final() ==> id in u
  {
    assert !call.ListInflight? && id != call.id ==> Lookup(u, id) == Lookup(m, id);
  }

  /** Metadata repair only rewrites what it decoded. */
  lemma CallsFaithful(store: Records, p: Proc, c: Choice)
    requires Safe(store, p)
    ensures CallFor(p, c).Some? ==> FaithfulRepair(CallFor(p, c).value)
  {
    hide BroadcastsKept, OneTransaction, Cleared;
  }

  /**
   * Under the protocol, with all its crashes and waiters, records move only forward: a surviving record keeps its
   * payload hash and transaction bytes and never returns to sending, and a finished one stays as it is.
   */
  lemma ProtocolMovesForward(run: Run, k: nat, id: RequestId)
    requires run.Valid() && k < |run.choices| && id in run.states[k].store
    ensures var before, after := run.states[k].store, run.states[k + 1].store;
      && (id in after ==> MovesForward(before[id], after[id]))
      && (before[id].Final() ==> id in after)
  {
    hide Safe, CallFor, Advance, Decided, FaithfulRepair;
    RunSafe(run, k);
    var s, c := run.states[k], run.choices[k];
    assert Next(s, c, run.replies[k], run.states[k + 1]);
    CallsFaithful(s.store, s.proc, c);
    if CallFor(s.proc, c).Some? {
      DecidedMovesForward(s.store, CallFor(s.proc, c).value, run.states[k + 1].store, run.replies[k], id);
    }
  }
}
