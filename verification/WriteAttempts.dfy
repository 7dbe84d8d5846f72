/** Attempts of one call, whatever the store replies: at most one is ever stored, and only stale ones are repeated. */
module WriteAttempts {
  import opened Wrappers
  import opened WriteRequests
  import opened WriteProtocol
  import opened WriteRuns

  ghost predicate StartedAfter(trace: Trace, i: int) {
    exists k | i < k < |trace| :: 0 <= k && trace[k].Started?
  }

  /** Nothing was stored since the last call started. */
  ghost predicate NothingStored(trace: Trace) {
    forall i | 0 <= i < |trace| && trace[i].Persisted? :: StartedAfter(trace, i)
  }

  /** Every transaction that was stored was the first one of its call. */
  ghost predicate StoredOnce(trace: Trace) {
    forall j | 0 <= j < |trace| && trace[j].Persisted? :: NothingStored(trace[..j])
  }

  /** How many transactions were signed since the last call started. */
  function SignedSince(trace: Trace): nat {
    if trace == [] || trace[|trace| - 1].Started? then 0
    else SignedSince(trace[..|trace| - 1]) + if trace[|trace| - 1].SignedFor? then 1 else 0
  }

  /** The call is past signing and storing its transaction. */
  predicate IsFresh(pc: Pc) {
    (pc.Submitting? || pc.Sent? || pc.Rejected? || pc.Moving? || pc.MoveLost?) && pc.path.Fresh?
  }

  /** Only a request call gets here. */
  predicate Requesting(pc: Pc) {
    pc.Looking? || pc.Retrying? || pc.Dropping? || pc.Executing? || pc.Beginning? || pc.Finishing? || IsFresh(pc)
  }

  predicate AttemptOk(w: Worker) {
    && (IsFresh(w.pc) ==> w.prepared)
    && (w.prepared ==> IsFresh(w.pc) || w.pc.Finishing?)
    && (Requesting(w.pc) ==> w.mode.RequestCall?)
    && (w.pc.Choosing? ==> w.mode.Startup?)
    && w.attempt <= w.limit
  }

  function SignedSoFar(w: Worker): nat {
    if w.pc.Beginning? || IsFresh(w.pc) || w.pc.Finishing? then w.attempt + 1 else w.attempt
  }

  ghost predicate Counted(p: Proc) {
    && StoredOnce(p.trace)
    && (p.worker.Some? ==>
          && AttemptOk(p.worker.value)
          && (p.worker.value.prepared <==> !NothingStored(p.trace))
          && SignedSince(p.trace) <= SignedSoFar(p.worker.value))
  }

  lemma StartsStay(trace: Trace, e: Event)
    ensures forall i | 0 <= i < |trace| :: StartedAfter(trace + [e], i) <==> StartedAfter(trace, i) || e.Started?
  {
    var longer := trace + [e];
    forall i | 0 <= i < |trace|
      ensures StartedAfter(longer, i) <==> StartedAfter(trace, i) || e.Started?
    {
      assert longer[|trace|] == e;
      if StartedAfter(trace, i) {
        var k :| i < k < |trace| && 0 <= k && trace[k].Started?;
        assert longer[k].Started?;
      }
    }
  }

  /** What one more event does to the bookkeeping. */
  lemma EventCounts(trace: Trace, e: Event)
    requires StoredOnce(trace) && (e.Persisted? ==> NothingStored(trace))
    ensures StoredOnce(trace + [e])
    ensures NothingStored(trace + [e]) <==> e.Started? || (NothingStored(trace) && !e.Persisted?)
    ensures SignedSince(trace + [e]) == if e.Started? then 0 else SignedSince(trace) + if e.SignedFor? then 1 else 0
  {
    var longer := trace + [e];
    StartsStay(trace, e);
    assert longer[..|trace|] == trace;
    forall j | 0 <= j < |longer| && longer[j].Persisted?
      ensures NothingStored(longer[..j])
    {
      assert longer[..j] == trace[..j];
      assert j == |trace| ==> trace[..j] == trace;
    }
    if !e.Started? && NothingStored(longer) {
      forall i | 0 <= i < |trace| && trace[i].Persisted?
        ensures StartedAfter(trace, i)
      {
        assert longer[i] == trace[i];
      }
      assert longer[|trace|] == e;
    }
    forall i | 0 <= i < |trace| && longer[i].Persisted? && (e.Started? || NothingStored(trace))
      ensures StartedAfter(longer, i)
    {
      assert longer[i] == trace[i];
    }
  }

  /** The worker may go on as v after event e. */
  predicate GoesOn(w: Worker, e: Option<Event>, v: Worker) {
    && AttemptOk(v) && v.mode == w.mode && (v.id == w.id || w.pc.Choosing?)
    && v.prepared == (w.prepared || (e.Some? && e.value.Persisted?))
    && SignedSoFar(w) + (if e.Some? && e.value.SignedFor? then 1 else 0) <= SignedSoFar(v)
  }

  /** The step of a call adds at most one event; a stored one only while nothing is prepared. */
  predicate StepsOn(p: Proc, w: Worker, q: Proc) {
    || (q.trace == p.trace && (q.worker.Some? ==> GoesOn(w, None, q.worker.value)))
    || (q.trace != [] && LogsOn(p, w, q, q.trace[|q.trace| - 1]))
  }

  predicate LogsOn(p: Proc, w: Worker, q: Proc, e: Event) {
    && q.trace == p.trace + [e]
    && !e.Started? && (e.Persisted? ==> !w.prepared)
    && (q.worker.Some? ==> GoesOn(w, Some(e), q.worker.value))
  }

  lemma LookSteps(p: Proc, w: Worker, reply: Reply)
    requires p.worker == Some(w) && AttemptOk(w)
    ensures w.pc.Looking? ==> StepsOn(p, w, LookStep(p, w, reply))
    ensures w.pc.Dropping? ==> StepsOn(p, w, DropStep(p, w, reply))
  {
    hide Settled;
  }

  lemma ReconcileSteps(p: Proc, w: Worker, reply: Reply)
    requires p.worker == Some(w) && AttemptOk(w)
    ensures w.pc.Reconciling? ==> StepsOn(p, w, ReconcileStep(p, w, w.pc.copy, reply))
    ensures w.pc.Repairing? ==> StepsOn(p, w, RepairStep(p, w, w.pc.copy, w.pc.decoded, reply))
  {
    hide Repaired;
  }

  lemma QuarantineSteps(p: Proc, w: Worker, reply: Reply)
    requires p.worker == Some(w) && AttemptOk(w)
    ensures w.pc.Quarantining? ==> StepsOn(p, w, QuarantineStep(p, w, w.pc.copy, reply))
    ensures w.pc.QuarantineLost? ==> StepsOn(p, w, QuarantineLostStep(p, w, w.pc.copy, reply))
    ensures w.pc.Beginning? ==> StepsOn(p, w, BeginStep(p, w, w.pc.record, reply))
  {
    hide Quarantine, SameTx;
  }

  lemma MoveSteps(p: Proc, w: Worker, reply: Reply)
    requires p.worker == Some(w) && AttemptOk(w)
    ensures w.pc.Moving? ==> StepsOn(p, w, MoveStep(p, w, w.pc.copy, w.pc.next, w.pc.path, reply))
    ensures w.pc.MoveLost? ==> StepsOn(p, w, MoveLostStep(p, w, w.pc.copy, w.pc.next, w.pc.path, reply))
  {
    hide Moved, Settled, SameTx;
  }

  lemma RetrySteps(p: Proc, w: Worker, a: Answer)
    requires p.worker == Some(w) && AttemptOk(w)
    ensures w.pc.Retrying? ==> StepsOn(p, w, RetryStep(p, w, w.pc.copy, a))
    ensures w.pc.Checking? ==> StepsOn(p, w, CheckStep(p, w, w.pc.copy, w.pc.decoded, a))
  {
  }

  lemma RecoverSteps(p: Proc, w: Worker, a: Answer)
    requires p.worker == Some(w) && AttemptOk(w)
    ensures w.pc.Recovering? ==> StepsOn(p, w, RecoverStep(p, w, w.pc.copy, a))
    ensures w.pc.Suspecting? ==> StepsOn(p, w, SuspectStep(p, w, w.pc.copy, a))
  {
  }

  lemma SendSteps(p: Proc, w: Worker, a: Answer)
    requires p.worker == Some(w) && AttemptOk(w)
    ensures w.pc.Submitting? ==> StepsOn(p, w, SubmitStep(p, w, w.pc.copy, w.pc.path))
    ensures w.pc.Sent? ==> StepsOn(p, w, SentStep(p, w, w.pc.copy, w.pc.path, a))
    ensures w.pc.Rejected? ==> StepsOn(p, w, RejectStep(p, w, w.pc.copy, w.pc.path, a))
  {
    hide Validated;
  }

  lemma ExecuteSteps(p: Proc, w: Worker, a: Answer)
    requires p.worker == Some(w) && AttemptOk(w)
    ensures w.pc.Executing? ==> StepsOn(p, w, ExecuteStep(p, w, a))
    ensures w.pc.Choosing? ==> StepsOn(p, w, ChooseStep(p, w, a))
  {
    hide FreshRecord;
  }

  lemma EndSteps(p: Proc, w: Worker, outcome: CallOutcome)
    requires p.worker == Some(w) && AttemptOk(w)
    ensures w.pc.Finishing? ==> StepsOn(p, w, Log(p.(worker := None), Returned(w.id, w.payload, outcome)))
    ensures !w.pc.Finishing? ==> StepsOn(p, w, Ended(p, w, Fails))
  {
  }

  lemma WorkStepsOn(p: Proc, w: Worker, a: Answer, reply: Reply)
    requires p.worker == Some(w) && AttemptOk(w)
    ensures StepsOn(p, w, WorkStep(p, w, a, reply))
  {
    hide StepsOn, AttemptOk, LookStep, DropStep, ReconcileStep, RepairStep, QuarantineStep, QuarantineLostStep, MoveStep;
    hide MoveLostStep, BeginStep, RetryStep, CheckStep, RecoverStep, SuspectStep, SubmitStep, SentStep, RejectStep;
    hide ExecuteStep, ChooseStep, Ended;
    LookSteps(p, w, reply);
    ReconcileSteps(p, w, reply);
    QuarantineSteps(p, w, reply);
    MoveSteps(p, w, reply);
    RetrySteps(p, w, a);
    RecoverSteps(p, w, a);
    SendSteps(p, w, a);
    ExecuteSteps(p, w, a);
    EndSteps(p, w, if w.pc.Finishing? then w.pc.outcome else Fails);
  }

  /** Whatever the store replies, one step of the process keeps the count. */
  lemma AdvanceCounts(p: Proc, c: Choice, reply: Reply)
    requires Counted(p)
    ensures Counted(Advance(p, c, reply))
  {
    hide WorkStep, StoredOnce, NothingStored, SignedSince, Moved;
    var q := Advance(p, c, reply);
    match c
    case Work(a) =>
      if p.worker.Some? {
        var w := p.worker.value;
        WorkStepsOn(p, w, a, reply);
        if q.trace != p.trace {
          EventCounts(p.trace, q.trace[|q.trace| - 1]);
        }
      }
    case NewCall(id, _, _) => EventCounts(p.trace, Started(id));
    case NewRecovery => EventCounts(p.trace, Started(""));
    case WaiterRead(_, hash, answer) => EventCounts(p.trace, Answered(hash, answer));
    case _ =>
  }

  lemma {:induction false} RunCounts(run: Run, k: nat)
    requires run.Valid() && k < |run.states|
    ensures Counted(run.states[k].proc)
  {
    hide Advance, CallFor, Decided, NothingStored, SignedSince, AttemptOk;
    if k > 0 {
      RunCounts(run, k - 1);
      AdvanceCounts(run.states[k - 1].proc, run.choices[k - 1], run.replies[k - 1]);
      assert Next(run.states[k - 1], run.choices[k - 1], run.replies[k - 1], run.states[k]);
    }
  }

  /** A call is marked as prepared exactly when it has stored a signed transaction since it started. */
  lemma PreparedExactlyWhenStored(run: Run, k: nat)
    requires run.Valid() && k < |run.states| && run.states[k].proc.worker.Some?
    ensures var p := run.states[k].proc;
      p.worker.value.prepared <==>
      exists i | 0 <= i < |p.trace| :: p.trace[i].Persisted? && forall j | i < j < |p.trace| :: !p.trace[j].Started?
  {
    hide AttemptOk, SignedSince, StoredOnce;
    RunCounts(run, k);
  }

  /** One call, with all its retries, stores at most one signed transaction, whatever the store held or replied. */
  lemma OneStoredPerCall(run: Run, i: nat, j: nat)
    requires run.Valid() && i < j < |run.Trace()| && run.Trace()[i].Persisted? && run.Trace()[j].Persisted?
    ensures exists k | i < k < j :: run.Trace()[k].Started?
  {
    RunCounts(run, |run.states| - 1);
    var trace := run.Trace();
    var before := trace[..j];
    assert NothingStored(before) && before[i] == trace[i];
    var k :| i < k < |before| && 0 <= k && before[k].Started?;
    assert trace[k] == before[k];
  }

  /** A call signs at most one transaction more than its retry limit. */
  lemma SigningsBounded(run: Run, k: nat)
    requires run.Valid() && k < |run.states| && run.states[k].proc.worker.Some?
    ensures SignedSince(run.states[k].proc.trace) <= run.states[k].proc.worker.value.limit + 1
  {
    hide StoredOnce, NothingStored, SignedSince;
    RunCounts(run, k);
  }
}
