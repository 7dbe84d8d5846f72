/** Stored transaction data that does not fit together: what every run asks the chain before it is replaced or dropped. */
module WriteDamage {
  import opened Wrappers
  import opened WriteRequests
  import opened WriteProtocol
  import opened WriteRuns
  import opened WriteEvidence

  /** The chain has said of this hash, if there is one, that it does not know it. */
  predicate Unknown(trace: Trace, hash: Option<TxHash>) {
    hash.Some? ==> Answered(hash.value, NotFound) in trace
  }

  predicate PcAsked(trace: Trace, pc: Pc) {
    match pc
    case Checking(copy, tx) => Bytes(copy.rawTx) == Some(tx)
    case Repairing(copy, tx) =>
      && Bytes(copy.rawTx) == Some(tx)
      && (Unknown(trace, copy.txHash) || copy.txHash.value.Names(tx))
    case Dropping(copy) => Unknown(trace, copy.txHash)
    case Quarantining(copy) => Unknown(trace, copy.txHash)
    case QuarantineLost(copy) => Unknown(trace, copy.txHash)
    case _ => true
  }

  predicate AskedFirst(p: Proc) {
    p.worker.Some? ==> PcAsked(p.trace, p.worker.value.pc)
  }

  lemma LookAsked(p: Proc, w: Worker, a: Answer, reply: Reply)
    requires p.worker == Some(w) && AskedFirst(p) && (w.pc.Looking? || w.pc.Retrying? || w.pc.Reconciling?)
    ensures AskedFirst(WorkStep(p, w, a, reply))
  {
    hide Settled, SameTx, ChainState;
  }

  lemma RepairAsked(p: Proc, w: Worker, a: Answer, reply: Reply)
    requires p.worker == Some(w) && AskedFirst(p)
    requires w.pc.Checking? || w.pc.Repairing? || w.pc.Recovering? || w.pc.Suspecting? || w.pc.Dropping?
    ensures AskedFirst(WorkStep(p, w, a, reply))
  {
    hide Settled, SameTx, ChainState, Repaired;
  }

  lemma QuarantineAsked(p: Proc, w: Worker, a: Answer, reply: Reply)
    requires p.worker == Some(w) && AskedFirst(p) && (w.pc.Quarantining? || w.pc.QuarantineLost?)
    ensures AskedFirst(WorkStep(p, w, a, reply))
  {
    hide SameTx;
  }

  lemma OtherAsked(p: Proc, w: Worker, a: Answer, reply: Reply)
    requires p.worker == Some(w) && AskedFirst(p)
    requires w.pc.Choosing? || w.pc.Submitting? || w.pc.Sent? || w.pc.Rejected? || w.pc.Moving? || w.pc.MoveLost?
             || w.pc.Executing? || w.pc.Beginning? || w.pc.Finishing?
    ensures AskedFirst(WorkStep(p, w, a, reply))
  {
    hide Settled, SameTx, ChainState, Moved, Validated, FreshRecord, Unknown;
  }

  lemma StepAsked(p: Proc, c: Choice, reply: Reply)
    requires AskedFirst(p)
    ensures AskedFirst(Advance(p, c, reply))
  {
    hide WorkStep, Moved, ChainState;
    if c.Work? && p.worker.Some? {
      var w := p.worker.value;
      match w.pc
      case Looking => LookAsked(p, w, c.answer, reply);
      case Retrying(_) => LookAsked(p, w, c.answer, reply);
      case Reconciling(_) => LookAsked(p, w, c.answer, reply);
      case Checking(_, _) => RepairAsked(p, w, c.answer, reply);
      case Repairing(_, _) => RepairAsked(p, w, c.answer, reply);
      case Recovering(_) => RepairAsked(p, w, c.answer, reply);
      case Suspecting(_) => RepairAsked(p, w, c.answer, reply);
      case Dropping(_) => RepairAsked(p, w, c.answer, reply);
      case Quarantining(_) => QuarantineAsked(p, w, c.answer, reply);
      case QuarantineLost(_) => QuarantineAsked(p, w, c.answer, reply);
      case _ => OtherAsked(p, w, c.answer, reply);
    }
  }

  lemma {:induction false} RunAsked(run: Run, k: nat)
    requires run.Valid() && k < |run.states|
    ensures AskedFirst(run.states[k].proc)
  {
    hide AskedFirst, Decided, Advance, CallFor;
    if k > 0 {
      RunAsked(run, k - 1);
      assert Next(run.states[k - 1], run.choices[k - 1], run.replies[k - 1], run.states[k]);
      StepAsked(run.states[k - 1].proc, run.choices[k - 1], run.replies[k - 1]);
    } else {
      IdleAsked();
    }
  }

  lemma IdleAsked()
    ensures AskedFirst(IDLE)
  {
  }

  // ----- what one step may do to a stored record -----

  /** A hash is replaced only by the hash of the transaction stored with it. */
  predicate HashRepaired(r: Record, s: Record) {
    Bytes(r.rawTx).Some? && s.txHash == Some(HashOf(Bytes(r.rawTx).value, 0))
  }

  /** The stored hash is that of the transaction stored with it. */
  predicate OwnHash(r: Record) {
    Bytes(r.rawTx).Some? && r.txHash.Some? && r.txHash.value.Names(Bytes(r.rawTx).value)
  }

  predicate CallAsked(trace: Trace, call: StoreCall) {
    match call
    case Repair(_, _, raw, hash, prepared, _) =>
      Bytes(Some(raw)) == Some(prepared.tx) && (Unknown(trace, hash) || hash.value.Names(prepared.tx))
    case RemoveFailed(_, _, hash, _) => Unknown(trace, hash)
    case UpdateInflight(_, record) => record.state == Failed ==> record.Quarantined() && Unknown(trace, record.txHash)
    case _ => true
  }

  /** Hash, quarantine and removal, one record at a time. */
  predicate Damaged(trace: Trace, r: Record, after: Option<Record>) {
    match after
    case None => Unknown(trace, r.txHash) && (r.Quarantined() || (r.Inflight() && Unprepared(r)))
    case Some(s) =>
      && (s.txHash != r.txHash ==> HashRepaired(r, s) && (Unknown(trace, r.txHash) || OwnHash(r)))
      && (s.state == Failed && r.state != Failed ==> s.Quarantined() && Unknown(trace, r.txHash))
  }

  lemma CallDamages(m: Records, call: StoreCall, u: Records, reply: Reply, trace: Trace, id: RequestId)
    requires Decided(m, call, u, reply) && CallAsked(trace, call) && id in m
    ensures Damaged(trace, m[id], Lookup(u, id))
  {
  }

  lemma ChoiceAsked(first: Records, store: Records, p: Proc, c: Choice)
    requires AskedFirst(p) && AllTold(first, store, p) && CallFor(p, c).Some?
    ensures CallAsked(p.trace, CallFor(p, c).value)
  {
    hide StoreTold, Told, Unknown;
    if c.Work? && p.worker.value.pc.Moving? {
      var pc := p.worker.value.pc;
      ToldProper(p.trace, pc.copy.txHash, pc.next);
    } else if c.WaiterWrite? {
      ToldProper(p.trace, c.record.txHash, c.record.state);
    }
  }

  /**
   * In every step of every run: a stored transaction hash is replaced only by the hash of the transaction stored with it,
   * a record is set aside only as damaged, and it is removed only when it is set aside or was never signed; and unless the
   * hash is the transaction's own or missing, the chain has said before that it does not know it.
   */
  lemma DamageOnlyWhenUnknown(run: Run, k: nat, id: RequestId)
    requires run.Valid() && k < |run.choices| && id in run.states[k].store
    ensures Damaged(run.states[k].proc.trace, run.states[k].store[id], Lookup(run.states[k + 1].store, id))
  {
    hide AllTold, AskedFirst, CallFor, Advance, Decided, CallAsked, Unknown;
    var s, c, t := run.states[k], run.choices[k], run.states[k + 1];
    assert Next(s, c, run.replies[k], t);
    RunAsked(run, k);
    RunTold(run, k);
    if CallFor(s.proc, c).Some? {
      ChoiceAsked(run.states[0].store, s.store, s.proc, c);
      CallDamages(s.store, CallFor(s.proc, c).value, t.store, run.replies[k], s.proc.trace, id);
    }
  }
}
