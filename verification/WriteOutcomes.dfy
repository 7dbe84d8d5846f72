/** What a call returns: never a value for a reverted request, and the stored result of a settled one. */
module WriteOutcomes {
  import opened Wrappers
  import opened WriteRequests
  import opened WriteProtocol
  import opened WriteRuns
  import opened WriteAttempts
  import opened WriteSafety
  import opened WriteEvidence

  // ----- values -----

  predicate HasValue(p: Proc) {
    p.worker.Some? && p.worker.value.pc.Finishing? && p.worker.value.pc.outcome.Value?
  }

  /** The record under the call's id is on the chain, or on its way, and not reverted. */
  predicate Settles(store: Records, id: RequestId) {
    id in store && store[id].state in {Pending, Succeeded}
  }

  /** The value is for this request, and the store agrees. */
  predicate SettledFor(q: Proc, store: Records, id: RequestId) {
    HasValue(q) ==> q.worker.value.id == id && Settles(store, id)
  }

  lemma MoveSettles(m: Records, u: Records, p: Proc, w: Worker, reply: Reply)
    requires p.worker == Some(w) && w.pc.Moving? && Decided(m, WorkCall(w).value, u, reply)
    requires w.pc.next in {Pending, Succeeded, Reverted}
    ensures SettledFor(MoveStep(p, w, w.pc.copy, w.pc.next, w.pc.path, reply), u, w.id)
  {
    hide Decided;
    if reply == Changed(true) {
      MovedIn(m, WorkCall(w).value, u);
    }
  }

  lemma MovedIn(m: Records, call: StoreCall, u: Records)
    requires (call.UpdateInflight? || call.ResolveFailed?) && Decided(m, call, u, Changed(true))
    ensures call.id in u && Alike(u[call.id], call.record)
  {
  }

  lemma ReadSettles(store: Records, p: Proc, w: Worker, reply: Reply)
    requires p.worker == Some(w) && reply == Found(Lookup(store, w.id))
    requires w.pc.MoveLost? ==> w.pc.next in {Pending, Succeeded, Reverted}
    ensures w.pc.Looking? ==> SettledFor(LookStep(p, w, reply), store, w.id)
    ensures w.pc.MoveLost? ==> SettledFor(MoveLostStep(p, w, w.pc.copy, w.pc.next, w.pc.path, reply), store, w.id)
  {
  }

  lemma NoOtherValues(p: Proc, w: Worker, a: Answer, reply: Reply)
    requires p.worker == Some(w) && !w.pc.Looking? && !w.pc.Moving? && !w.pc.MoveLost? && !w.pc.Finishing?
    ensures !HasValue(WorkStep(p, w, a, reply))
  {
    hide Moved, Quarantine, Repaired, FreshRecord, Validated, Settled, SameTx, LookStep, MoveStep, MoveLostStep;
  }

  lemma StepSettles(s: Sys, c: Choice, reply: Reply, t: Sys)
    requires Next(s, c, reply, t) && HasValue(t.proc) && !HasValue(s.proc)
    requires s.proc.worker.Some? ==> MoveTold(s.proc.trace, s.proc.worker.value.pc)
    ensures s.proc.worker.Some? && Settles(t.store, s.proc.worker.value.id)
    ensures t.proc.worker.value.id == s.proc.worker.value.id
  {
    hide MoveStep, LookStep, MoveLostStep, Settles, Decided, Told;
    assert c.Work? && s.proc.worker.Some? && !s.proc.worker.value.pc.Finishing?;
    var w := s.proc.worker.value;
    if c.answer.StoreError? {
    } else if w.pc.Looking? {
      ReadsOnly(s.store, Get(w.id), t.store, reply);
      ReadSettles(s.store, s.proc, w, reply);
    } else if w.pc.MoveLost? {
      ToldProper(s.proc.trace, w.pc.copy.txHash, w.pc.next);
      ReadsOnly(s.store, Get(w.id), t.store, reply);
      ReadSettles(s.store, s.proc, w, reply);
    } else if w.pc.Moving? {
      ToldProper(s.proc.trace, w.pc.copy.txHash, w.pc.next);
      MoveSettles(s.store, t.store, s.proc, w, reply);
    } else {
      NoOtherValues(s.proc, w, c.answer, reply);
    }
  }

  /** At the step where a call gets its value, the store holds its request as pending or succeeded, never as reverted. */
  lemma ValuesAreSettled(run: Run, k: nat)
    requires run.Valid() && k < |run.choices|
    requires HasValue(run.states[k + 1].proc) && !HasValue(run.states[k].proc)
    ensures var t := run.states[k + 1]; Settles(t.store, t.proc.worker.value.id)
  {
    hide Told, Next;
    RunTold(run, k);
    StepSettles(run.states[k], run.choices[k], run.replies[k], run.states[k + 1]);
  }

  // ----- reverted requests -----

  /** The request is reverted, and no call of its own is past looking it up with anything but a failure. */
  predicate Quiet(s: Sys, id: RequestId) {
    && id in s.store && s.store[id].state == Reverted
    && (s.proc.worker.Some? && s.proc.worker.value.id == id && s.proc.worker.value.mode.RequestCall? ==>
          var pc := s.proc.worker.value.pc;
          pc.Looking? || (pc.Finishing? && !pc.outcome.Value?))
  }

  /** A call that finds its request reverted fails. */
  lemma LookFails(store: Records, p: Proc, w: Worker, a: Answer, reply: Reply)
    requires p.worker == Some(w) && w.mode.RequestCall? && w.pc.Looking?
    requires w.id in store && store[w.id].state == Reverted && (a.StoreError? || reply == Found(Some(store[w.id])))
    ensures var q := WorkStep(p, w, a, reply);
      q.worker.Some? && q.worker.value.pc.Finishing? && !q.worker.value.pc.outcome.Value?
  {
  }

  lemma QuietStays(s: Sys, c: Choice, reply: Reply, t: Sys, id: RequestId)
    requires Next(s, c, reply, t) && Counted(s.proc) && Quiet(s, id)
    requires id in t.store && t.store[id] == s.store[id]
    ensures Quiet(t, id)
  {
    hide WorkStep, Decided, NothingStored, SignedSince, StoredOnce, Moved, Quarantine;
    if c.Work? && s.proc.worker.Some? {
      var w, a := s.proc.worker.value, c.answer;
      WorkStepsOn(s.proc, w, a, reply);
      if w.id == id && w.mode.RequestCall? && w.pc.Looking? {
        if !a.StoreError? {
          LookReads(s.store, w, t.store, reply);
        }
        LookFails(s.store, s.proc, w, a, reply);
      } else if w.pc.Finishing? {
        Finishes(s.proc, w, a, reply);
      }
    }
  }

  lemma LookReads(store: Records, w: Worker, u: Records, reply: Reply)
    requires w.pc.Looking? && Decided(store, WorkCall(w).value, u, reply)
    ensures reply == Found(Lookup(store, w.id))
  {
    ReadsOnly(store, Get(w.id), u, reply);
  }

  lemma Finishes(p: Proc, w: Worker, a: Answer, reply: Reply)
    requires p.worker == Some(w) && w.pc.Finishing?
    ensures WorkStep(p, w, a, reply) == Log(p.(worker := None), Returned(w.id, w.payload, w.pc.outcome))
  {
  }

  lemma {:induction false} RunQuiet(run: Run, k: nat, j: nat, id: RequestId)
    requires run.Valid() && k <= j < |run.states| && Quiet(run.states[k], id)
    ensures Quiet(run.states[j], id)
    decreases j
  {
    hide Quiet, Next, Counted, MovesForward;
    if k < j {
      RunQuiet(run, k, j - 1, id);
      RunCounts(run, j - 1);
      RevertedStays(run, j - 1, id);
      QuietStays(run.states[j - 1], run.choices[j - 1], run.replies[j - 1], run.states[j], id);
    }
  }

  lemma RevertedStays(run: Run, k: nat, id: RequestId)
    requires run.Valid() && k < |run.choices| && Quiet(run.states[k], id)
    ensures id in run.states[k + 1].store && run.states[k + 1].store[id] == run.states[k].store[id]
  {
    hide Next;
    ProtocolMovesForward(run, k, id);
  }

  /** Once a request is stored as reverted, no call that starts after that returns a value for it. */
  lemma RevertedNeverReturns(run: Run, k: nat, j: nat, id: RequestId, payload: string, receipt: Receipt)
    requires run.Valid() && k <= j < |run.choices|
    requires id in run.states[k].store && run.states[k].store[id].state == Reverted
    requires run.states[k].proc.worker.Some? ==> run.states[k].proc.worker.value.id != id
    ensures run.states[j + 1].proc.trace != run.states[j].proc.trace + [Returned(id, payload, Value(receipt))]
  {
    hide Next, Counted;
    RunQuiet(run, k, j, id);
    RunCounts(run, j);
    QuietReturns(run.states[j], run.choices[j], run.replies[j], run.states[j + 1], id, payload, receipt);
  }

  lemma QuietReturns(s: Sys, c: Choice, reply: Reply, t: Sys, id: RequestId, payload: string, receipt: Receipt)
    requires Next(s, c, reply, t) && Quiet(s, id) && Counted(s.proc)
    ensures t.proc.trace != s.proc.trace + [Returned(id, payload, Value(receipt))]
  {
    hide Decided, Advance, CallFor, NothingStored, SignedSince, StoredOnce;
    if t.proc.trace == s.proc.trace + [Returned(id, payload, Value(receipt))] {
      OnlyFinishingReturns(s.proc, c, reply, id, payload, Value(receipt));
    }
  }

  lemma OnlyFinishingReturns(p: Proc, c: Choice, reply: Reply, id: RequestId, payload: string, outcome: CallOutcome)
    requires Advance(p, c, reply).trace == p.trace + [Returned(id, payload, outcome)]
    ensures p.worker.Some? && p.worker.value.pc == Finishing(outcome) && p.worker.value.id == id
  {
    hide Settled, Moved, Quarantine, Repaired, Validated, SameTx, FreshRecord, AfterMove;
    assert Advance(p, c, reply).trace[|p.trace|] == Returned(id, payload, outcome);
  }
}
