/** A finished request is what the chain said: every final state that a run writes has its answer in the trace. */
module WriteEvidence {
  import opened Wrappers
  import opened WriteRequests
  import opened WriteProtocol
  import opened WriteRuns
  import opened WriteSafety

  /** The chain said of this hash that its transaction is in this state, when asked or in reply to a broadcast. */
  predicate Says(e: Event, hash: TxHash, state: RequestState) {
    || (e == Replied(hash, state) && state in {Pending, Succeeded, Reverted})
    || (e == Answered(hash, IsSucceeded) && state == Succeeded)
    || (e == Answered(hash, IsReverted) && state == Reverted)
    || (e == Answered(hash, IsPending) && state == Pending)
  }

  ghost predicate Told(trace: Trace, hash: Option<TxHash>, state: RequestState) {
    hash.Some? && exists k | 0 <= k < |trace| :: Says(trace[k], hash.value, state)
  }

  /** A reverted record says so in its error code; a succeeded one has none. */
  predicate CodeFits(r: Record) {
    r.errorCode == if r.state == Reverted then Some(TX_REVERTED) else None
  }

  /** The record holds what the chain said, or has been final from the start. */
  ghost predicate RecordTold(first: Records, trace: Trace, id: RequestId, r: Record) {
    r.Final() ==> (id in first && first[id] == r) || (Told(trace, r.txHash, r.state) && CodeFits(r))
  }

  ghost predicate StoreTold(first: Records, store: Records, trace: Trace) {
    forall id | id in store :: RecordTold(first, trace, id, store[id])
  }

  ghost predicate WaitersTold(waiters: set<(RequestId, Record)>, trace: Trace) {
    forall p | p in waiters :: p.1.Final() && Told(trace, p.1.txHash, p.1.state) && CodeFits(p.1)
  }

  /** A state on its way into the store. */
  ghost predicate MoveTold(trace: Trace, pc: Pc) {
    pc.Moving? || pc.MoveLost? ==> Told(trace, pc.copy.txHash, pc.next)
  }

  ghost predicate AllTold(first: Records, store: Records, p: Proc) {
    && StoreTold(first, store, p.trace) && WaitersTold(p.waiters, p.trace)
    && (p.worker.Some? ==> MoveTold(p.trace, p.worker.value.pc))
  }

  lemma ToldProper(trace: Trace, hash: Option<TxHash>, state: RequestState)
    requires Told(trace, hash, state)
    ensures state in {Pending, Succeeded, Reverted}
  {
  }

  // ----- growing the trace -----

  lemma ToldStays(trace: Trace, more: Trace, hash: Option<TxHash>, state: RequestState)
    requires trace <= more
    ensures Told(trace, hash, state) ==> Told(more, hash, state)
  {
    if Told(trace, hash, state) {
      var k :| 0 <= k < |trace| && Says(trace[k], hash.value, state);
      assert more[k] == trace[k];
    }
  }

  lemma TraceToldStays(first: Records, store: Records, p: Proc, more: Trace)
    requires StoreTold(first, store, p.trace) && WaitersTold(p.waiters, p.trace) && p.trace <= more
    ensures StoreTold(first, store, more) && WaitersTold(p.waiters, more)
  {
    hide Told;
    forall id | id in store
      ensures RecordTold(first, more, id, store[id])
    {
      assert RecordTold(first, p.trace, id, store[id]);
      ToldStays(p.trace, more, store[id].txHash, store[id].state);
    }
    forall w | w in p.waiters
      ensures w.1.Final() && Told(more, w.1.txHash, w.1.state) && CodeFits(w.1)
    {
      ToldStays(p.trace, more, w.1.txHash, w.1.state);
    }
  }

  /** A step of the call takes the chain's word, as its last event, or has it already. */
  ghost predicate WorkTold(p: Proc, w: Worker, q: Proc) {
    && p.trace <= q.trace && q.waiters == p.waiters
    && (q.worker.Some? && (q.worker.value.pc.Moving? || q.worker.value.pc.MoveLost?) ==>
          var pc := q.worker.value.pc;
          || ((w.pc.Moving? || w.pc.MoveLost?) && w.pc.copy == pc.copy && w.pc.next == pc.next)
          || (pc.copy.txHash.Some? && q.trace != [] && Says(q.trace[|q.trace| - 1], pc.copy.txHash.value, pc.next)))
  }

  // ----- one step of the call -----

  lemma LookTold(p: Proc, w: Worker, reply: Reply)
    requires p.worker == Some(w)
    ensures w.pc.Looking? ==> WorkTold(p, w, LookStep(p, w, reply))
    ensures w.pc.Dropping? ==> WorkTold(p, w, DropStep(p, w, reply))
    ensures w.pc.Repairing? ==> WorkTold(p, w, RepairStep(p, w, w.pc.copy, w.pc.decoded, reply))
  {
    hide Settled, Repaired;
  }

  lemma ReconcileTold(p: Proc, w: Worker, reply: Reply)
    requires p.worker == Some(w)
    ensures w.pc.Reconciling? ==> WorkTold(p, w, ReconcileStep(p, w, w.pc.copy, reply))
    ensures w.pc.Quarantining? ==> WorkTold(p, w, QuarantineStep(p, w, w.pc.copy, reply))
    ensures w.pc.QuarantineLost? ==> WorkTold(p, w, QuarantineLostStep(p, w, w.pc.copy, reply))
  {
    hide Quarantine, SameTx;
  }

  lemma MoveStepTold(p: Proc, w: Worker, reply: Reply)
    requires p.worker == Some(w)
    ensures w.pc.Moving? ==> WorkTold(p, w, MoveStep(p, w, w.pc.copy, w.pc.next, w.pc.path, reply))
    ensures w.pc.MoveLost? ==> WorkTold(p, w, MoveLostStep(p, w, w.pc.copy, w.pc.next, w.pc.path, reply))
  {
    hide Moved, Settled, SameTx;
  }

  lemma RetryTold(p: Proc, w: Worker, a: Answer)
    requires p.worker == Some(w)
    ensures w.pc.Retrying? ==> WorkTold(p, w, RetryStep(p, w, w.pc.copy, a))
    ensures w.pc.Checking? ==> WorkTold(p, w, CheckStep(p, w, w.pc.copy, w.pc.decoded, a))
  {
  }

  lemma RecoverTold(p: Proc, w: Worker, a: Answer)
    requires p.worker == Some(w)
    ensures w.pc.Recovering? ==> WorkTold(p, w, RecoverStep(p, w, w.pc.copy, a))
    ensures w.pc.Suspecting? ==> WorkTold(p, w, SuspectStep(p, w, w.pc.copy, a))
  {
  }

  lemma SendTold(p: Proc, w: Worker, a: Answer)
    requires p.worker == Some(w)
    ensures w.pc.Submitting? ==> WorkTold(p, w, SubmitStep(p, w, w.pc.copy, w.pc.path))
    ensures w.pc.Sent? ==> WorkTold(p, w, SentStep(p, w, w.pc.copy, w.pc.path, a))
    ensures w.pc.Rejected? ==> WorkTold(p, w, RejectStep(p, w, w.pc.copy, w.pc.path, a))
  {
    hide Validated;
  }

  lemma OtherTold(p: Proc, w: Worker, a: Answer, reply: Reply)
    requires p.worker == Some(w)
    ensures w.pc.Executing? ==> WorkTold(p, w, ExecuteStep(p, w, a))
    ensures w.pc.Choosing? ==> WorkTold(p, w, ChooseStep(p, w, a))
    ensures w.pc.Beginning? ==> WorkTold(p, w, BeginStep(p, w, w.pc.record, reply))
    ensures WorkTold(p, w, Ended(p, w, Fails))
    ensures w.pc.Finishing? ==> WorkTold(p, w, Log(p.(worker := None), Returned(w.id, w.payload, w.pc.outcome)))
  {
    hide FreshRecord;
  }

  lemma WorkStepTold(p: Proc, w: Worker, a: Answer, reply: Reply)
    requires p.worker == Some(w)
    ensures WorkTold(p, w, WorkStep(p, w, a, reply))
  {
    hide WorkTold, LookStep, DropStep, ReconcileStep, RepairStep, QuarantineStep, QuarantineLostStep, MoveStep;
    hide MoveLostStep, BeginStep, RetryStep, CheckStep, RecoverStep, SuspectStep, SubmitStep, SentStep, RejectStep;
    hide ExecuteStep, ChooseStep, Ended;
    LookTold(p, w, reply);
    ReconcileTold(p, w, reply);
    MoveStepTold(p, w, reply);
    RetryTold(p, w, a);
    RecoverTold(p, w, a);
    SendTold(p, w, a);
    OtherTold(p, w, a, reply);
  }

  lemma LastSays(trace: Trace, hash: Option<TxHash>, state: RequestState)
    requires hash.Some? && trace != [] && Says(trace[|trace| - 1], hash.value, state)
    ensures Told(trace, hash, state)
  {
  }

  // ----- changing the store -----

  /** A final state is written only on the chain's word. */
  ghost predicate WriteTold(trace: Trace, call: StoreCall) {
    (call.UpdateInflight? || call.ResolveFailed?) && call.record.Final() ==>
      Told(trace, call.record.txHash, call.record.state) && CodeFits(call.record)
  }

  lemma CallTold(first: Records, m: Records, call: StoreCall, u: Records, reply: Reply, trace: Trace, id: RequestId)
    requires StoreTold(first, m, trace) && Decided(m, call, u, reply) && WriteTold(trace, call) && id in u
    ensures RecordTold(first, trace, id, u[id])
  {
    hide Told;
    assert !call.ListInflight? && id != call.id ==> Lookup(u, id) == Lookup(m, id);
    assert id in m ==> RecordTold(first, trace, id, m[id]);
  }

  lemma CallsTold(first: Records, m: Records, call: StoreCall, u: Records, reply: Reply, trace: Trace)
    requires StoreTold(first, m, trace) && Decided(m, call, u, reply) && WriteTold(trace, call)
    ensures StoreTold(first, u, trace)
  {
    hide Told, Decided, RecordTold, WriteTold;
    forall id | id in u
      ensures RecordTold(first, trace, id, u[id])
    {
      CallTold(first, m, call, u, reply, trace, id);
    }
  }

  lemma WorkWriteTold(p: Proc, w: Worker)
    requires p.worker == Some(w) && MoveTold(p.trace, w.pc) && WorkCall(w).Some?
    ensures WriteTold(p.trace, WorkCall(w).value)
  {
    hide Told;
  }

  lemma StepTold(first: Records, s: Sys, c: Choice, reply: Reply, t: Sys)
    requires AllTold(first, s.store, s.proc) && Next(s, c, reply, t)
    ensures AllTold(first, t.store, t.proc)
  {
    hide Told, RecordTold, WorkStep, WorkCall, Decided, WriteTold;
    if CallFor(s.proc, c).Some? && !CallFor(s.proc, c).value.ListInflight? {
      if c.Work? {
        WorkWriteTold(s.proc, s.proc.worker.value);
      } else {
        WaiterWriteTold(s.proc, c.id, c.record);
      }
      CallsTold(first, s.store, CallFor(s.proc, c).value, t.store, reply, s.proc.trace);
    } else if CallFor(s.proc, c).Some? {
      ReadsOnly(s.store, CallFor(s.proc, c).value, t.store, reply);
    }
    ProcTold(first, t.store, s.proc, c, reply);
  }

  lemma WaiterWriteTold(p: Proc, id: RequestId, record: Record)
    requires WaitersTold(p.waiters, p.trace) && (id, record) in p.waiters
    ensures WriteTold(p.trace, UpdateInflight(id, record))
  {
    assert (id, record).1.Final();
  }

  /** The process side of a step, over a store that is told already. */
  lemma ProcTold(first: Records, store: Records, p: Proc, c: Choice, reply: Reply)
    requires AllTold(first, store, p)
    ensures AllTold(first, store, Advance(p, c, reply))
  {
    hide Told, StoreTold, WorkStep, Moved;
    var q := Advance(p, c, reply);
    match c
    case Work(a) =>
      if p.worker.Some? {
        WorkStepTold(p, p.worker.value, a, reply);
        TraceToldStays(first, store, p, q.trace);
        WorkerTold(p, p.worker.value, q);
      }
    case WaiterRead(id, hash, receipt) =>
      TraceToldStays(first, store, p, q.trace);
      if q.trace != p.trace {
        LastSays(q.trace, Some(hash), ChainState(receipt));
        MovedKeeps(reply.records[id], ChainState(receipt));
      }
      if p.worker.Some? && (p.worker.value.pc.Moving? || p.worker.value.pc.MoveLost?) {
        ToldStays(p.trace, q.trace, p.worker.value.pc.copy.txHash, p.worker.value.pc.next);
      }
    case _ => TraceToldStays(first, store, p, q.trace);
  }

  lemma MovedKeeps(r: Record, next: RequestState)
    ensures Moved(r, next).txHash == r.txHash && Moved(r, next).state == next && CodeFits(Moved(r, next))
  {
  }

  lemma WorkerTold(p: Proc, w: Worker, q: Proc)
    requires WorkTold(p, w, q) && MoveTold(p.trace, w.pc)
    ensures q.worker.Some? ==> MoveTold(q.trace, q.worker.value.pc)
  {
    hide Told;
    if q.worker.Some? && (q.worker.value.pc.Moving? || q.worker.value.pc.MoveLost?) {
      var pc := q.worker.value.pc;
      ToldStays(p.trace, q.trace, pc.copy.txHash, pc.next);
      if pc.copy.txHash.Some? && q.trace != [] && Says(q.trace[|q.trace| - 1], pc.copy.txHash.value, pc.next) {
        LastSays(q.trace, pc.copy.txHash, pc.next);
      }
    }
  }

  // ----- all runs -----

  lemma {:induction false} RunTold(run: Run, k: nat)
    requires run.Valid() && k < |run.states|
    ensures AllTold(run.states[0].store, run.states[k].store, run.states[k].proc)
  {
    hide Next, Told;
    if k > 0 {
      RunTold(run, k - 1);
      StepTold(run.states[0].store, run.states[k - 1], run.choices[k - 1], run.replies[k - 1], run.states[k]);
    }
  }

  /**
   * In every run, a request that is stored as succeeded or reverted either was so from the start, or the chain has said
   * exactly that of its transaction hash: asked by the call or by a waiter, or in reply to a broadcast.
   */
  lemma FinalStatesAreTold(run: Run, k: nat, id: RequestId)
    requires run.Valid() && k < |run.states| && id in run.states[k].store && run.states[k].store[id].Final()
    ensures var first, r, trace := run.states[0].store, run.states[k].store[id], run.states[k].proc.trace;
      || (id in first && first[id] == r)
      || (&& r.txHash.Some? && r.errorCode == (if r.state == Reverted then Some(TX_REVERTED) else None)
          && exists j | 0 <= j < |trace| ::
            || trace[j] == Replied(r.txHash.value, r.state)
            || trace[j] == Answered(r.txHash.value, if r.state == Succeeded then IsSucceeded else IsReverted))
  {
    RunTold(run, k);
    var first, r, trace := run.states[0].store, run.states[k].store[id], run.states[k].proc.trace;
    assert RecordTold(first, trace, id, r);
    if !(id in first && first[id] == r) {
      var j :| 0 <= j < |trace| && Says(trace[j], r.txHash.value, r.state);
    }
  }
}
