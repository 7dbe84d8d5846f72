/** Repeating a request: the first result comes back, or the call fails, and nothing new is signed. */
module WriteReplay {
  import opened Wrappers
  import opened WriteRequests
  import opened WriteProtocol
  import opened WriteRuns
  import opened WriteAttempts
  import opened WriteSafety

  /** A stored result is the receipt of the stored transaction. */
  predicate ResultOk(id: RequestId, r: Record) {
    r.result.Some? ==> Bytes(r.rawTx).Some? && r.result.value == Receipt(id, Bytes(r.rawTx).value, false)
  }

  predicate ResultsOk(records: Records) {
    forall id | id in records :: ResultOk(id, records[id])
  }

  predicate WaitersOk(waiters: set<(RequestId, Record)>) {
    forall p | p in waiters :: ResultOk(p.0, p.1)
  }

  ghost predicate RemovedAfter(trace: Trace, i: int, id: RequestId) {
    exists k | i < k < |trace| :: 0 <= k && trace[k] == Removed(id)
  }

  predicate ReturnsValue(e: Event) {
    e.Returned? && e.outcome.Value?
  }

  /** The record of the request has this payload and the transaction of the receipt. */
  predicate Behind(store: Records, id: RequestId, payload: string, receipt: Receipt) {
    id in store && store[id].payloadHash == payload && Bytes(store[id].rawTx) == Some(receipt.tx)
  }

  /** The record behind a returned result is still there, with its transaction, unless it was removed since. */
  ghost predicate ReturnKept(store: Records, trace: Trace, i: nat)
    requires i < |trace| && ReturnsValue(trace[i])
  {
    var id, receipt := trace[i].id, trace[i].outcome.receipt;
    && receipt.request == id
    && (RemovedAfter(trace, i, id) || Behind(store, id, trace[i].payload, receipt))
  }

  ghost predicate ReturnsKept(store: Records, trace: Trace) {
    forall i: nat | i < |trace| && ReturnsValue(trace[i]) :: ReturnKept(store, trace, i)
  }

  /** Every result returned for the request so far belongs to a record that was removed since. */
  ghost predicate AllRemoved(trace: Trace, id: RequestId) {
    forall i | 0 <= i < |trace| && ReturnsValue(trace[i]) && trace[i].id == id :: RemovedAfter(trace, i, id)
  }

  /** What event e may follow, given the trace before it. */
  ghost predicate MayFollow(trace: Trace, e: Event) {
    && (ReturnsValue(e) ==>
          forall i | 0 <= i < |trace| && ReturnsValue(trace[i]) && trace[i].id == e.id ::
            RemovedAfter(trace, i, e.id)
            || (e.payload == trace[i].payload && e.outcome.receipt == trace[i].outcome.receipt.(reused := true)))
    && (e.SignedFor? ==> AllRemoved(trace, e.id))
  }

  ghost predicate Orderly(trace: Trace) {
    forall j | 0 <= j < |trace| :: MayFollow(trace[..j], trace[j])
  }

  ghost predicate CallOk(store: Records, trace: Trace, w: Worker) {
    && (HasCopy(w.pc) ==> ResultOk(w.id, w.pc.copy) && w.pc.copy.payloadHash == w.payload)
    && (w.pc.Beginning? ==> ResultOk(w.id, w.pc.record) && w.pc.record.payloadHash == w.payload)
    && ResultsOk(w.queue)
    && (w.pc.Beginning? || IsFresh(w.pc) ==> AllRemoved(trace, w.id))
    && (w.pc.Finishing? && w.pc.outcome.Value? ==> ValueOk(store, trace, w.id, w.payload, w.pc.outcome.receipt))
  }

  ghost predicate ValueOk(store: Records, trace: Trace, id: RequestId, payload: string, receipt: Receipt) {
    && receipt.request == id
    && Behind(store, id, payload, receipt)
    && (receipt.reused || AllRemoved(trace, id))
  }

  ghost predicate Faithful(store: Records, p: Proc) {
    && ResultsOk(store) && WaitersOk(p.waiters)
    && ReturnsKept(store, p.trace) && Orderly(p.trace)
    && (p.worker.Some? ==> CallOk(store, p.trace, p.worker.value))
  }

  // ----- growing the trace -----

  lemma AfterStays(trace: Trace, e: Event)
    ensures forall i, id | RemovedAfter(trace, i, id) :: RemovedAfter(trace + [e], i, id)
  {
    var longer := trace + [e];
    forall i, id | RemovedAfter(trace, i, id)
      ensures RemovedAfter(longer, i, id)
    {
      var k :| i < k < |trace| && 0 <= k && trace[k] == Removed(id);
      assert longer[k] == Removed(id);
    }
  }

  lemma OrderlyGrows(trace: Trace, e: Event)
    requires Orderly(trace) && MayFollow(trace, e)
    ensures Orderly(trace + [e])
  {
    hide MayFollow;
    var longer := trace + [e];
    forall j | 0 <= j < |longer|
      ensures MayFollow(longer[..j], longer[j])
    {
      if j < |trace| {
        assert longer[..j] == trace[..j] && MayFollow(trace[..j], trace[j]);
      } else {
        assert longer[..j] == trace;
      }
    }
  }

  /** An event that returns no value keeps every returned result accounted for. */
  lemma ReturnsStay(store: Records, trace: Trace, e: Event)
    requires ReturnsKept(store, trace)
    requires ReturnsValue(e) ==>
      e.outcome.receipt.request == e.id && Behind(store, e.id, e.payload, e.outcome.receipt)
    ensures ReturnsKept(store, trace + [e])
  {
    var longer := trace + [e];
    AfterStays(trace, e);
    forall i: nat | i < |longer| && ReturnsValue(longer[i])
      ensures ReturnKept(store, longer, i)
    {
      if i < |trace| {
        assert longer[i] == trace[i] && ReturnKept(store, trace, i);
      }
    }
  }

  lemma RemovedStays(trace: Trace, e: Event, id: RequestId)
    requires AllRemoved(trace, id) && !ReturnsValue(e)
    ensures AllRemoved(trace + [e], id)
  {
    var longer := trace + [e];
    AfterStays(trace, e);
    forall i | 0 <= i < |longer| && ReturnsValue(longer[i]) && longer[i].id == id
      ensures RemovedAfter(longer, i, id)
    {
      assert longer[i] == trace[i];
    }
  }

  /** A request without a record has no result left that could be repeated. */
  lemma AbsentIsRemoved(store: Records, trace: Trace, id: RequestId)
    requires ReturnsKept(store, trace) && id !in store
    ensures AllRemoved(trace, id)
  {
    forall i | 0 <= i < |trace| && ReturnsValue(trace[i]) && trace[i].id == id
      ensures RemovedAfter(trace, i, id)
    {
      assert ReturnKept(store, trace, i);
    }
  }

  // ----- changing the store -----

  predicate WritesResult(call: StoreCall) {
    call.TryBegin? || call.UpdateInflight? || call.ResolveFailed?
  }

  lemma CallKeepsResult(m: Records, call: StoreCall, u: Records, reply: Reply, id: RequestId)
    requires ResultsOk(m) && Decided(m, call, u, reply) && FaithfulRepair(call) && id in u
    requires WritesResult(call) ==> ResultOk(call.id, call.record)
    ensures ResultOk(id, u[id])
  {
    assert !call.ListInflight? && id != call.id ==> Lookup(u, id) == Lookup(m, id);
    assert id in m ==> ResultOk(id, m[id]);
  }

  lemma CallKeepsResults(m: Records, call: StoreCall, u: Records, reply: Reply)
    requires ResultsOk(m) && Decided(m, call, u, reply) && FaithfulRepair(call)
    requires WritesResult(call) ==> ResultOk(call.id, call.record)
    ensures ResultsOk(u)
  {
    hide Decided, ResultOk, FaithfulRepair;
    forall id | id in u
      ensures ResultOk(id, u[id])
    {
      CallKeepsResult(m, call, u, reply, id);
    }
  }

  lemma CallKeepsBytes(m: Records, call: StoreCall, u: Records, reply: Reply, id: RequestId)
    requires id in m && Decided(m, call, u, reply) && FaithfulRepair(call) && (Removes(call) ==> id != call.id)
    ensures id in u && Bytes(u[id].rawTx) == Bytes(m[id].rawTx) && u[id].payloadHash == m[id].payloadHash
  {
    assert !call.ListInflight? && id != call.id ==> Lookup(u, id) == Lookup(m, id);
  }

  lemma CallKeepsReturns(m: Records, call: StoreCall, u: Records, reply: Reply, trace: Trace)
    requires ReturnsKept(m, trace) && Decided(m, call, u, reply) && FaithfulRepair(call) && !Removes(call)
    ensures ReturnsKept(u, trace)
  {
    hide Decided, RemovedAfter;
    forall i: nat | i < |trace| && ReturnsValue(trace[i])
      ensures ReturnKept(u, trace, i)
    {
      assert ReturnKept(m, trace, i);
      if trace[i].id in m {
        CallKeepsBytes(m, call, u, reply, trace[i].id);
      }
    }
  }

  lemma RemovalKeepsReturns(m: Records, u: Records, trace: Trace, id: RequestId)
    requires ReturnsKept(m, trace) && forall x | x != id :: Lookup(u, x) == Lookup(m, x)
    ensures ReturnsKept(u, trace + [Removed(id)])
  {
    var longer := trace + [Removed(id)];
    AfterStays(trace, Removed(id));
    assert longer[|trace|] == Removed(id);
    forall i: nat | i < |longer| && ReturnsValue(longer[i])
      ensures ReturnKept(u, longer, i)
    {
      assert longer[i] == trace[i] && ReturnKept(m, trace, i);
      assert trace[i].id != id ==> Lookup(u, trace[i].id) == Lookup(m, trace[i].id);
    }
  }

  // ----- one step of the call -----

  lemma MoveOn(store: Records, p: Proc, w: Worker, v: Worker)
    requires Faithful(store, p) && p.worker == Some(w) && CallOk(store, p.trace, v)
    ensures Faithful(store, p.(worker := Some(v)))
  {
    hide ReturnsKept, Orderly, CallOk;
  }

  /** The pc promises nothing about the trace. */
  predicate Plain(pc: Pc) {
    !pc.Beginning? && !IsFresh(pc) && !(pc.Finishing? && pc.outcome.Value?)
  }

  /** An event that neither signs nor returns. */
  lemma LogAndMove(store: Records, p: Proc, w: Worker, e: Event, v: Worker)
    requires Faithful(store, p) && p.worker == Some(w) && !ReturnsValue(e) && !e.SignedFor?
    requires CallOk(store, p.trace, v) && (Plain(v.pc) || IsFresh(v.pc))
    ensures Faithful(store, Log(p.(worker := Some(v)), e))
  {
    hide ReturnsKept, Orderly, AllRemoved;
    ReturnsStay(store, p.trace, e);
    OrderlyGrows(p.trace, e);
    if IsFresh(v.pc) {
      RemovedStays(p.trace, e, v.id);
    }
  }

  lemma WriteAndMove(m: Records, call: StoreCall, u: Records, reply: Reply, p: Proc, w: Worker, v: Worker)
    requires Faithful(m, p) && p.worker == Some(w)
    requires Decided(m, call, u, reply) && FaithfulRepair(call) && !Removes(call)
    requires WritesResult(call) ==> ResultOk(call.id, call.record)
    requires CallOk(u, p.trace, v)
    ensures Faithful(u, p.(worker := Some(v)))
  {
    hide ReturnsKept, Orderly, CallOk, Decided, FaithfulRepair;
    CallKeepsResults(m, call, u, reply);
    CallKeepsReturns(m, call, u, reply, p.trace);
  }

  lemma RemoveAndMove(m: Records, call: StoreCall, u: Records, p: Proc, w: Worker, pc: Pc)
    requires Faithful(m, p) && p.worker == Some(w) && Removes(call)
    requires Decided(m, call, u, Changed(true)) && call.id == w.id && (pc.Choosing? || pc.Executing?)
    ensures Faithful(u, With(Log(p, Removed(w.id)), w, pc))
  {
    hide ReturnsKept, Orderly;
    CallKeepsResults(m, call, u, Changed(true));
    RemovalKeepsReturns(m, u, p.trace, w.id);
    OrderlyGrows(p.trace, Removed(w.id));
  }

  lemma CallOf(store: Records, p: Proc, w: Worker)
    requires Faithful(store, p) && p.worker == Some(w)
    ensures CallOk(store, p.trace, w) && ResultsOk(store)
  {
  }

  lemma FailFaithful(store: Records, p: Proc, w: Worker)
    requires Faithful(store, p) && p.worker == Some(w)
    ensures Faithful(store, Ended(p, w, Fails))
  {
    hide ReturnsKept, Orderly, AllRemoved;
  }

  lemma AttemptFaithful(store: Records, p: Proc, w: Worker, stale: bool)
    requires Faithful(store, p) && p.worker == Some(w)
    ensures Faithful(store, AttemptFails(p, w, stale))
  {
    hide ReturnsKept, Orderly, AllRemoved;
  }

  /** A settled record answers with the receipt of its own transaction, marked as reused. */
  lemma SettledValue(store: Records, trace: Trace, id: RequestId, r: Record)
    requires id in store && Bytes(store[id].rawTx) == Bytes(r.rawTx) && ResultOk(id, r)
    ensures Settled(r).Value? ==> ValueOk(store, trace, id, store[id].payloadHash, Settled(r).receipt)
  {
  }

  lemma LookFaithful(store: Records, p: Proc, w: Worker, reply: Reply)
    requires Faithful(store, p) && p.worker == Some(w) && w.pc == Looking && reply == Found(Lookup(store, w.id))
    ensures Faithful(store, LookStep(p, w, reply))
  {
    hide ReturnsKept, Orderly, AllRemoved;
    if w.id in store {
      SettledValue(store, p.trace, w.id, store[w.id]);
    }
  }

  lemma RetryFaithful(store: Records, p: Proc, w: Worker, copy: Record, a: Answer)
    requires Faithful(store, p) && p.worker == Some(w) && w.pc == Retrying(copy)
    ensures Faithful(store, RetryStep(p, w, copy, a))
  {
    hide Faithful, AllRemoved;
    CallOf(store, p, w);
    if a.Chain? && copy.txHash.Some? {
      LogAndMove(store, p, w, Answered(copy.txHash.value, a.answer), RetryStep(p, w, copy, a).worker.value);
    }
  }

  lemma DropFaithful(m: Records, u: Records, p: Proc, w: Worker, copy: Record, reply: Reply)
    requires Faithful(m, p) && p.worker == Some(w) && w.pc == Dropping(copy)
    requires Decided(m, WorkCall(w).value, u, reply)
    ensures Faithful(u, DropStep(p, w, reply))
  {
    hide Faithful, AllRemoved, Decided;
    CallOf(m, p, w);
    if reply == Changed(true) {
      RemoveAndMove(m, WorkCall(w).value, u, p, w, Executing);
    } else {
      RemovalReply(m, WorkCall(w).value, u, reply);
      Unchanged(m, WorkCall(w).value, u, reply);
      FailFaithful(m, p, w);
    }
  }

  lemma ReconcileFaithful(m: Records, u: Records, p: Proc, w: Worker, copy: Record, reply: Reply)
    requires Faithful(m, p) && p.worker == Some(w) && w.pc == Reconciling(copy)
    requires if Unprepared(copy) then Decided(m, WorkCall(w).value, u, reply) else u == m
    ensures Faithful(u, ReconcileStep(p, w, copy, reply))
  {
    hide Faithful, AllRemoved, Decided;
    CallOf(m, p, w);
    if !Unprepared(copy) {
      MoveOn(m, p, w, ReconcileStep(p, w, copy, reply).worker.value);
    } else if reply == Changed(true) {
      RemoveAndMove(m, WorkCall(w).value, u, p, w, if w.mode.Startup? then Choosing else Executing);
    } else {
      RemovalReply(m, WorkCall(w).value, u, reply);
      Unchanged(m, WorkCall(w).value, u, reply);
      FailFaithful(m, p, w);
    }
  }

  lemma CheckFaithful(store: Records, p: Proc, w: Worker, copy: Record, tx: SignedTx, a: Answer)
    requires Faithful(store, p) && p.worker == Some(w) && w.pc == Checking(copy, tx)
    ensures Faithful(store, CheckStep(p, w, copy, tx, a))
  {
    hide Faithful, AllRemoved;
    CallOf(store, p, w);
    if a.Chain? && copy.txHash.Some? {
      LogAndMove(store, p, w, Answered(copy.txHash.value, a.answer), CheckStep(p, w, copy, tx, a).worker.value);
    }
  }

  lemma RepairFaithful(m: Records, u: Records, p: Proc, w: Worker, copy: Record, tx: SignedTx, reply: Reply)
    requires Faithful(m, p) && p.worker == Some(w) && w.pc == Repairing(copy, tx) && Bytes(copy.rawTx) == Some(tx)
    requires Decided(m, WorkCall(w).value, u, reply)
    ensures Faithful(u, RepairStep(p, w, copy, tx, reply))
  {
    hide Faithful, AllRemoved, Decided;
    CallOf(m, p, w);
    if reply == Changed(true) {
      WriteAndMove(m, WorkCall(w).value, u, reply, p, w,
                   w.(pc := Recovering(Repaired(copy, PreparedTx(tx), copy.updatedAt))));
    } else {
      RemovalReply(m, WorkCall(w).value, u, reply);
      Unchanged(m, WorkCall(w).value, u, reply);
      FailFaithful(m, p, w);
    }
  }

  lemma RecoverFaithful(store: Records, p: Proc, w: Worker, copy: Record, a: Answer)
    requires Faithful(store, p) && p.worker == Some(w) && w.pc == Recovering(copy)
    ensures Faithful(store, RecoverStep(p, w, copy, a))
  {
    hide Faithful, AllRemoved;
    CallOf(store, p, w);
    if a.Chain? && copy.txHash.Some? {
      LogAndMove(store, p, w, Answered(copy.txHash.value, a.answer), RecoverStep(p, w, copy, a).worker.value);
    }
  }

  lemma SubmitFaithful(store: Records, p: Proc, w: Worker, copy: Record, path: Path)
    requires Faithful(store, p) && p.worker == Some(w) && w.pc == Submitting(copy, path)
    ensures Faithful(store, SubmitStep(p, w, copy, path))
  {
    hide Faithful, AllRemoved;
    CallOf(store, p, w);
    if Validated(copy) {
      LogAndMove(store, p, w, Broadcast(w.id, copy.rawTx.value.tx), w.(pc := Sent(copy, path)));
    } else if path.Fresh? {
      AttemptFaithful(store, p, w, false);
    } else {
      MoveOn(store, p, w, w.(pc := Suspecting(copy)));
    }
  }

  lemma SentFaithful(store: Records, p: Proc, w: Worker, copy: Record, path: Path, a: Answer)
    requires Faithful(store, p) && p.worker == Some(w) && w.pc == Sent(copy, path)
    ensures Faithful(store, SentStep(p, w, copy, path, a))
  {
    hide Faithful, AllRemoved, RejectStep;
    CallOf(store, p, w);
    if a.SentOk? && a.next != Sending && a.next != Failed && copy.txHash.Some? {
      LogAndMove(store, p, w, Replied(copy.txHash.value, a.next), SentStep(p, w, copy, path, a).worker.value);
    } else if a.Chain? && copy.txHash.Some? {
      LogAndMove(store, p, w, Answered(copy.txHash.value, a.answer), SentStep(p, w, copy, path, a).worker.value);
    } else if !a.Chain? && !a.SentOk? {
      RejectFaithful(store, p, w, copy, path, a);
    }
  }

  lemma RejectFaithful(store: Records, p: Proc, w: Worker, copy: Record, path: Path, a: Answer)
    requires Faithful(store, p) && p.worker == Some(w) && (w.pc == Sent(copy, path) || w.pc == Rejected(copy, path))
    ensures Faithful(store, RejectStep(p, w, copy, path, a))
  {
    hide Faithful, AllRemoved;
    CallOf(store, p, w);
    if a.SentError? && path.Fresh? {
      AttemptFaithful(store, p, w, a.stale);
    } else {
      MoveOn(store, p, w, RejectStep(p, w, copy, path, a).worker.value);
    }
  }

  lemma SuspectFaithful(store: Records, p: Proc, w: Worker, copy: Record, a: Answer)
    requires Faithful(store, p) && p.worker == Some(w) && w.pc == Suspecting(copy)
    ensures Faithful(store, SuspectStep(p, w, copy, a))
  {
    hide Faithful, AllRemoved;
    CallOf(store, p, w);
    if copy.txHash.None? {
      MoveOn(store, p, w, w.(pc := Quarantining(copy)));
    } else if a.Chain? {
      LogAndMove(store, p, w, Answered(copy.txHash.value, a.answer), SuspectStep(p, w, copy, a).worker.value);
    }
  }

  lemma QuarantineFaithful(m: Records, u: Records, p: Proc, w: Worker, copy: Record, reply: Reply)
    requires Faithful(m, p) && p.worker == Some(w) && w.pc == Quarantining(copy)
    requires Decided(m, WorkCall(w).value, u, reply)
    ensures Faithful(u, QuarantineStep(p, w, copy, reply))
  {
    hide Faithful, AllRemoved, Decided;
    CallOf(m, p, w);
    WriteAndMove(m, WorkCall(w).value, u, reply, p, w, QuarantineStep(p, w, copy, reply).worker.value);
  }

  lemma QuarantineLostFaithful(store: Records, p: Proc, w: Worker, copy: Record, reply: Reply)
    requires Faithful(store, p) && p.worker == Some(w) && w.pc == QuarantineLost(copy)
    ensures Faithful(store, QuarantineLostStep(p, w, copy, reply))
  {
    hide Faithful, AllRemoved;
    CallOf(store, p, w);
    MoveOn(store, p, w, QuarantineLostStep(p, w, copy, reply).worker.value);
  }

  lemma MoveFaithful(m: Records, u: Records, p: Proc, w: Worker, copy: Record, next: RequestState, path: Path, reply: Reply)
    requires Faithful(m, p) && p.worker == Some(w) && w.pc == Moving(copy, next, path)
    requires Decided(m, WorkCall(w).value, u, reply)
    ensures Faithful(u, MoveStep(p, w, copy, next, path, reply))
  {
    hide Faithful, AllRemoved, Decided, AfterMove, CallOk;
    var call := WorkCall(w).value;
    var r := Moved(copy, next);
    CallOf(m, p, w);
    CopyResult(m, p.trace, w);
    MovedIsStored(m, call, u, reply);
    if reply == Changed(true) {
      AfterMoveOk(m, u, p.trace, w, r, path);
      WriteAndMove(m, call, u, reply, p, w, w.(pc := AfterMove(w, r, path)));
    } else if path.Fresh? {
      AttemptFaithful(m, p, w, false);
    } else {
      LostOk(m, p.trace, w);
      MoveOn(m, p, w, w.(pc := MoveLost(copy, next, path)));
    }
  }

  lemma LostOk(store: Records, trace: Trace, w: Worker)
    requires CallOk(store, trace, w) && w.pc.Moving? && !w.pc.path.Fresh?
    ensures CallOk(store, trace, w.(pc := MoveLost(w.pc.copy, w.pc.next, w.pc.path)))
  {
    hide AllRemoved;
  }

  lemma MoveLostFaithful(store: Records, p: Proc, w: Worker, copy: Record, next: RequestState, path: Path, reply: Reply)
    requires Faithful(store, p) && p.worker == Some(w) && w.pc == MoveLost(copy, next, path)
    requires reply == Found(Lookup(store, w.id))
    ensures Faithful(store, MoveLostStep(p, w, copy, next, path, reply))
  {
    hide Faithful, AllRemoved, AfterMove, CallOk;
    CallOf(store, p, w);
    CopyResult(store, p.trace, w);
    if MoveLostStep(p, w, copy, next, path, reply) == Ended(p, w, Fails) {
      FailFaithful(store, p, w);
    } else {
      AfterMoveOk(store, store, p.trace, w, store[w.id], path);
      MoveOn(store, p, w, w.(pc := AfterMove(w, store[w.id], path)));
    }
  }

  lemma CopyResult(store: Records, trace: Trace, w: Worker)
    requires CallOk(store, trace, w) && HasCopy(w.pc)
    ensures ResultOk(w.id, w.pc.copy) && w.pc.copy.payloadHash == w.payload
  {
    hide AllRemoved;
  }

  /** Where the call goes once the chain-derived state is stored. */
  lemma AfterMoveOk(before: Records, store: Records, trace: Trace, w: Worker, r: Record, path: Path)
    requires CallOk(before, trace, w) && (w.pc.Moving? || w.pc.MoveLost?) && w.pc.path == path && ResultOk(w.id, r)
    requires w.id in store && Bytes(store[w.id].rawTx) == Bytes(r.rawTx)
    requires store[w.id].payloadHash == r.payloadHash == w.payload
    ensures CallOk(store, trace, w.(pc := AfterMove(w, r, path)))
  {
    hide AllRemoved;
    SettledValue(store, trace, w.id, r);
  }

  lemma MovedIsStored(m: Records, call: StoreCall, u: Records, reply: Reply)
    requires (call.UpdateInflight? || call.ResolveFailed?) && Decided(m, call, u, reply)
    ensures if reply == Changed(true) then call.id in u && Alike(u[call.id], call.record) else u == m
  {
    if reply != Changed(true) {
      Unchanged(m, call, u, reply);
    }
  }

  lemma ExecuteFaithful(store: Records, p: Proc, w: Worker, a: Answer)
    requires Faithful(store, p) && p.worker == Some(w) && w.pc == Executing && w.id !in store
    ensures Faithful(store, ExecuteStep(p, w, a))
  {
    hide ReturnsKept, Orderly, AllRemoved;
    if a.Sign? {
      var e := SignedFor(w.id, a.tx);
      AbsentIsRemoved(store, p.trace, w.id);
      ReturnsStay(store, p.trace, e);
      OrderlyGrows(p.trace, e);
      RemovedStays(p.trace, e, w.id);
    }
  }

  lemma BeginFaithful(m: Records, u: Records, p: Proc, w: Worker, record: Record, reply: Reply)
    requires Faithful(m, p) && p.worker == Some(w) && w.pc == Beginning(record)
    requires Decided(m, WorkCall(w).value, u, reply)
    ensures Faithful(u, BeginStep(p, w, record, reply))
  {
    hide Faithful, AllRemoved, Decided;
    CallOf(m, p, w);
    var call := WorkCall(w).value;
    var v := w.(prepared := true, pc := Submitting(record, Fresh));
    if !reply.Acquired? {
      BeginReply(m, call, u, reply);
      Unchanged(m, call, u, reply);
      AttemptFaithful(m, p, w, false);
    } else if record.rawTx.Some? && record.rawTx.value.Signed? {
      WriteAndMove(m, call, u, reply, p, w, v);
      LogAndMove(u, p.(worker := Some(v)), v, Persisted(w.id, record.rawTx.value.tx), v);
    } else {
      WriteAndMove(m, call, u, reply, p, w, w.(pc := EndPc(w, Fails)));
    }
  }

  lemma BeginReply(m: Records, call: StoreCall, u: Records, reply: Reply)
    requires call.TryBegin? && Decided(m, call, u, reply)
    ensures reply.Acquired? || reply.Refused? || reply.Existing?
  {
  }

  lemma ChooseFaithful(store: Records, p: Proc, w: Worker, a: Answer)
    requires Faithful(store, p) && p.worker == Some(w) && w.pc == Choosing
    ensures Faithful(store, ChooseStep(p, w, a))
  {
    hide ReturnsKept, Orderly, AllRemoved;
  }

  /** A value goes back to the caller: it repeats every earlier value whose record was not removed. */
  lemma FinishFaithful(store: Records, p: Proc, w: Worker, outcome: CallOutcome)
    requires Faithful(store, p) && p.worker == Some(w) && w.pc == Finishing(outcome)
    ensures Faithful(store, Log(p.(worker := None), Returned(w.id, w.payload, outcome)))
  {
    hide Orderly, RemovedAfter;
    var e := Returned(w.id, w.payload, outcome);
    ReturnsStay(store, p.trace, e);
    if outcome.Value? {
      forall i | 0 <= i < |p.trace| && ReturnsValue(p.trace[i]) && p.trace[i].id == w.id
        ensures RemovedAfter(p.trace, i, w.id)
          || (w.payload == p.trace[i].payload && outcome.receipt == p.trace[i].outcome.receipt.(reused := true))
      {
        assert ReturnKept(store, p.trace, i);
      }
    }
    OrderlyGrows(p.trace, e);
  }

  lemma WorkFaithful(m: Records, u: Records, p: Proc, w: Worker, a: Answer, reply: Reply)
    requires Safe(m, p) && Faithful(m, p) && p.worker == Some(w) && Served(m, w, a, u, reply)
    ensures Faithful(u, WorkStep(p, w, a, reply))
  {
    hide Safe, Faithful, LookStep, RetryStep, DropStep, ReconcileStep, CheckStep, RepairStep, RecoverStep, SubmitStep;
    hide SentStep, SuspectStep, QuarantineStep, MoveStep, ExecuteStep, BeginStep, RejectStep, ChooseStep;
    hide QuarantineLostStep, MoveLostStep, Decided, Moved, Quarantine, Cleared;
    WorkerOf(m, p, w);
    if a.StoreError? && !w.pc.Finishing? {
      FailFaithful(m, p, w);
    } else {
      match w.pc
      case Choosing => ChooseFaithful(m, p, w, a);
      case Looking =>
        ReadsOnly(m, Get(w.id), u, reply);
        LookFaithful(m, p, w, reply);
      case Retrying(copy) => RetryFaithful(m, p, w, copy, a);
      case Dropping(copy) => DropFaithful(m, u, p, w, copy, reply);
      case Reconciling(copy) => ReconcileFaithful(m, u, p, w, copy, reply);
      case Checking(copy, tx) => CheckFaithful(m, p, w, copy, tx, a);
      case Repairing(copy, tx) => RepairFaithful(m, u, p, w, copy, tx, reply);
      case Recovering(copy) => RecoverFaithful(m, p, w, copy, a);
      case Submitting(copy, path) => SubmitFaithful(m, p, w, copy, path);
      case Sent(copy, path) => SentFaithful(m, p, w, copy, path, a);
      case Rejected(copy, path) => RejectFaithful(m, p, w, copy, path, a);
      case Suspecting(copy) => SuspectFaithful(m, p, w, copy, a);
      case Quarantining(copy) => QuarantineFaithful(m, u, p, w, copy, reply);
      case QuarantineLost(copy) =>
        ReadsOnly(m, Get(w.id), u, reply);
        QuarantineLostFaithful(m, p, w, copy, reply);
      case Moving(copy, next, path) => MoveFaithful(m, u, p, w, copy, next, path, reply);
      case MoveLost(copy, next, path) =>
        ReadsOnly(m, Get(w.id), u, reply);
        MoveLostFaithful(m, p, w, copy, next, path, reply);
      case Executing => ExecuteFaithful(m, p, w, a);
      case Beginning(record) => BeginFaithful(m, u, p, w, record, reply);
      case Finishing(outcome) => FinishFaithful(m, p, w, outcome);
    }
  }

  // ----- everything else that can happen -----

  lemma WaiterFaithful(m: Records, u: Records, p: Proc, id: RequestId, record: Record, reply: Reply)
    requires Faithful(m, p) && (id, record) in p.waiters && Decided(m, UpdateInflight(id, record), u, reply)
    ensures Faithful(u, p.(waiters := p.waiters - {(id, record)}))
  {
    hide ReturnsKept, Orderly, AllRemoved, Decided;
    var call := UpdateInflight(id, record);
    assert ResultOk((id, record).0, (id, record).1);
    CallKeepsResults(m, call, u, reply);
    CallKeepsReturns(m, call, u, reply, p.trace);
    if p.worker.Some? && p.worker.value.id in m {
      CallKeepsBytes(m, call, u, reply, p.worker.value.id);
    }
  }

  lemma AnsweredFaithful(store: Records, p: Proc, id: RequestId, hash: TxHash, answer: ChainAnswer)
    requires Faithful(store, p) && id in store && (answer.IsSucceeded? || answer.IsReverted?)
    ensures var q := Log(p, Answered(hash, answer));
      Faithful(store, q.(waiters := q.waiters + {(id, Moved(store[id], ChainState(answer)))}))
  {
    hide ReturnsKept, Orderly, AllRemoved;
    var e := Answered(hash, answer);
    ReturnsStay(store, p.trace, e);
    OrderlyGrows(p.trace, e);
    if p.worker.Some? && (p.worker.value.pc.Beginning? || IsFresh(p.worker.value.pc)) {
      RemovedStays(p.trace, e, p.worker.value.id);
    }
    if p.worker.Some? && p.worker.value.pc.Finishing? && p.worker.value.pc.outcome.Value?
       && !p.worker.value.pc.outcome.receipt.reused {
      RemovedStays(p.trace, e, p.worker.value.id);
    }
  }

  lemma StartedFaithful(store: Records, p: Proc, w: Worker, id: RequestId)
    requires Faithful(store, p) && ResultsOk(w.queue) && (w.pc.Looking? || w.pc.Choosing?)
    ensures Faithful(store, Log(p.(worker := Some(w)), Started(id)))
  {
    hide ReturnsKept, Orderly;
    ReturnsStay(store, p.trace, Started(id));
    OrderlyGrows(p.trace, Started(id));
  }

  lemma StepFaithful(s: Sys, c: Choice, reply: Reply, t: Sys)
    requires Safe(s.store, s.proc) && Faithful(s.store, s.proc) && Next(s, c, reply, t)
    ensures Faithful(t.store, t.proc)
  {
    hide Safe, ReturnsKept, Orderly, CallOk, WorkStep, WorkCall;
    match c
    case Crash =>
    case WaiterRead(id, hash, answer) =>
      if t.proc.trace != s.proc.trace {
        AnsweredFaithful(s.store, s.proc, id, hash, answer);
      }
    case NewCall(id, payload, limit) =>
      if s.proc.worker.None? {
        StartedFaithful(s.store, s.proc, Worker(id, payload, RequestCall, map[], 0, limit, false, Looking), id);
      }
    case NewRecovery =>
      if s.proc.worker.None? {
        StartedFaithful(s.store, s.proc, Worker("", "", Startup, InflightOf(s.store), 0, 0, false, Choosing), "");
      }
    case WaiterWrite(id, record) =>
      if (id, record) in s.proc.waiters {
        WaiterFaithful(s.store, t.store, s.proc, id, record, reply);
      }
    case Work(a) =>
      if s.proc.worker.Some? {
        WorkFaithful(s.store, t.store, s.proc, s.proc.worker.value, a, reply);
      }
  }

  lemma {:induction false} RunFaithful(run: Run, k: nat)
    requires run.Valid() && ResultsOk(run.states[0].store) && k < |run.states|
    ensures Faithful(run.states[k].store, run.states[k].proc)
  {
    hide Next, Safe;
    if k > 0 {
      RunFaithful(run, k - 1);
      RunSafe(run, k - 1);
      StepFaithful(run.states[k - 1], run.choices[k - 1], run.replies[k - 1], run.states[k]);
    }
  }

  /**
   * When every stored result is the receipt of the stored transaction at the start: after a call returned a value, and
   * while its record is not removed, no transaction is signed for that request, and every later call with the same
   * payload returns the same value with the reuse flag set, or fails; a call with another payload fails.
   */
  lemma ReplayReturnsFirstResult(run: Run, i: nat, j: nat)
    requires run.Valid() && ResultsOk(run.states[0].store)
    requires var trace := run.Trace();
      && i < j < |trace| && ReturnsValue(trace[i])
      && (trace[j].SignedFor? || ReturnsValue(trace[j])) && trace[j].id == trace[i].id
      && forall k | i < k < j :: trace[k] != Removed(trace[i].id)
    ensures var trace := run.Trace();
      trace[j] == Returned(trace[i].id, trace[i].payload, Value(trace[i].outcome.receipt.(reused := true)))
  {
    RunFaithful(run, |run.states| - 1);
    var trace := run.Trace();
    var before := trace[..j];
    assert MayFollow(before, trace[j]);
    assert before[i] == trace[i];
    assert !RemovedAfter(before, i, trace[i].id);
  }
}
