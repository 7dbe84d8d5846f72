/** What the protocol does when the environment lets it: a new request, a repeated one, and one that was interrupted. */
module WritePaths {
  import opened Wrappers
  import opened WriteRequests
  import opened WriteProtocol
  import opened WriteRuns
  import opened StoreRuns

  /** The state after these steps on the in-memory store. */
  function After(s: Sys, choices: seq<Choice>): Sys
    decreases |choices|
  {
    if choices == [] then s else After(MemoryNext(s, choices[0]), choices[1..])
  }

  const GO := Work(Proceed)

  /** The call is over: the store is this, and these events were added. */
  predicate Done(s: Sys, t: Sys, store: Records, events: Trace) {
    t.store == store && t.proc == s.proc.(worker := None, trace := s.proc.trace + events)
  }

  function Working(s: Sys, w: Worker, pc: Pc, store: Records, events: Trace): Sys {
    Sys(store, s.proc.(worker := Some(w.(pc := pc)), trace := s.proc.trace + events))
  }

  function Asking(id: RequestId, payload: string, limit: nat): Worker {
    Worker(id, payload, RequestCall, map[], 0, limit, false, Looking)
  }

  lemma Starts(s: Sys, id: RequestId, payload: string, limit: nat)
    requires s.proc.worker.None?
    ensures MemoryNext(s, NewCall(id, payload, limit)) ==
            Working(s, Asking(id, payload, limit), Looking, s.store, [Started(id)])
  {
  }

  /** The last step of a call: it returns. */
  lemma Returns(s: Sys, w: Worker, outcome: CallOutcome, store: Records, events: Trace)
    ensures Done(s, MemoryNext(Working(s, w, Finishing(outcome), store, events), GO), store,
                 events + [Returned(w.id, w.payload, outcome)])
  {
    assert s.proc.trace + events + [Returned(w.id, w.payload, outcome)] ==
           s.proc.trace + (events + [Returned(w.id, w.payload, outcome)]);
  }

  lemma AfterOne(s: Sys, c: Choice)
    ensures After(s, [c]) == MemoryNext(s, c)
  {
    assert [c][1..] == [];
  }

  lemma AfterMore(s: Sys, c: Choice, rest: seq<Choice>)
    ensures After(s, [c] + rest) == After(MemoryNext(s, c), rest)
  {
    assert ([c] + rest)[0] == c && ([c] + rest)[1..] == rest;
  }

  // ----- a request that is settled already -----

  /** A repeated request is answered from the store: the stored result, a failure, or a conflict. */
  lemma SettledCall(s: Sys, id: RequestId, payload: string, limit: nat)
    requires s.proc.worker.None? && id in s.store && s.store[id].state in {Succeeded, Reverted}
    ensures var r := s.store[id];
      var outcome := if r.payloadHash != payload then Fails
                     else if r.state == Reverted then PreviousFailure
                     else if r.result.Some? then Value(r.result.value.(reused := true)) else Fails;
      Done(s, After(s, [NewCall(id, payload, limit), GO, GO]), s.store, [Started(id), Returned(id, payload, outcome)])
  {
    hide MemoryNext;
    var r, w := s.store[id], Asking(id, payload, limit);
    var outcome := if r.payloadHash != payload then Fails
                   else if r.state == Reverted then PreviousFailure
                   else if r.result.Some? then Value(r.result.value.(reused := true)) else Fails;
    Starts(s, id, payload, limit);
    var s1 := Working(s, w, Looking, s.store, [Started(id)]);
    LooksAtSettled(s, w, [Started(id)], outcome);
    var s2 := Working(s, w, Finishing(outcome), s.store, [Started(id)]);
    Returns(s, w, outcome, s.store, [Started(id)]);
    AfterMore(s, NewCall(id, payload, limit), [GO, GO]);
    AfterMore(s1, GO, [GO]);
    AfterOne(s2, GO);
    assert [NewCall(id, payload, limit)] + [GO, GO] == [NewCall(id, payload, limit), GO, GO] && [GO] + [GO] == [GO, GO];
    assert [Started(id)] + [Returned(w.id, w.payload, outcome)] == [Started(id), Returned(id, payload, outcome)];
  }

  lemma LooksAtSettled(s: Sys, w: Worker, events: Trace, outcome: CallOutcome)
    requires w.pc.Looking? && w.mode.RequestCall? && w.id in s.store && s.store[w.id].state in {Succeeded, Reverted}
    requires var r := s.store[w.id];
      outcome == if r.payloadHash != w.payload then Fails
                 else if r.state == Reverted then PreviousFailure
                 else if r.result.Some? then Value(r.result.value.(reused := true)) else Fails
    ensures MemoryNext(Working(s, w, Looking, s.store, events), GO) == Working(s, w, Finishing(outcome), s.store, events)
  {
  }

  // ----- a new request -----

  /** The record of a new request, signed and not yet sent. */
  function SignedRecord(id: RequestId, payload: string, tx: SignedTx, about: Record): Record {
    about.(payloadHash := payload, state := Sending, result := Some(Receipt(id, tx, false)),
           errorCode := None, errorMessage := None, leaseOwner := None, leaseExpiresAt := None,
           chainId := Some(tx.chainId), nonce := Some(tx.nonce), txHash := Some(HashOf(tx, 0)), rawTx := Some(Signed(tx, 0)))
  }

  /** The same record once the chain has said how it went. */
  function WithState(r: Record, next: RequestState): Record {
    r.(state := next, errorCode := if next == Reverted then Some(TX_REVERTED) else None,
       errorMessage := if next == Reverted then Some("reverted") else None)
  }

  lemma LooksUpNothing(s: Sys, w: Worker, events: Trace)
    requires w.pc.Looking? && w.id !in s.store
    ensures MemoryNext(Working(s, w, Looking, s.store, events), GO) == Working(s, w, Executing, s.store, events)
  {
  }

  lemma Signs(s: Sys, w: Worker, events: Trace, tx: SignedTx, about: Record)
    ensures MemoryNext(Working(s, w, Executing, s.store, events), Work(Sign(tx, about))) ==
            Working(s, w, Beginning(SignedRecord(w.id, w.payload, tx, about)), s.store, events + [SignedFor(w.id, tx)])
  {
    assert s.proc.trace + events + [SignedFor(w.id, tx)] == s.proc.trace + (events + [SignedFor(w.id, tx)]);
  }

  lemma Begins(s: Sys, w: Worker, events: Trace, tx: SignedTx, about: Record)
    requires w.id !in s.store
    ensures var r := SignedRecord(w.id, w.payload, tx, about);
      MemoryNext(Working(s, w, Beginning(r), s.store, events), GO) ==
      Working(s, w.(prepared := true), Submitting(r, Fresh), s.store[w.id := r], events + [Persisted(w.id, tx)])
  {
    assert s.proc.trace + events + [Persisted(w.id, tx)] == s.proc.trace + (events + [Persisted(w.id, tx)]);
  }

  /** A record whose hash, chain id and nonce are those of its transaction. */
  predicate Fitting(r: Record, tx: SignedTx) {
    && r.rawTx.Some? && r.rawTx.value.Signed? && r.rawTx.value.tx == tx
    && r.txHash.Some? && r.txHash.value.HashOf? && r.txHash.value.tx == tx
    && r.chainId == Some(tx.chainId) && r.nonce == Some(tx.nonce)
  }

  lemma Submits(s: Sys, w: Worker, store: Records, events: Trace, r: Record, path: Path, tx: SignedTx)
    requires Fitting(r, tx)
    ensures MemoryNext(Working(s, w, Submitting(r, path), store, events), GO) ==
            Working(s, w, Sent(r, path), store, events + [Broadcast(w.id, tx)])
  {
    assert s.proc.trace + events + [Broadcast(w.id, tx)] == s.proc.trace + (events + [Broadcast(w.id, tx)]);
  }

  lemma GetsReply(s: Sys, w: Worker, store: Records, events: Trace, r: Record, path: Path, next: RequestState)
    requires r.txHash.Some? && next in {Pending, Succeeded, Reverted}
    ensures MemoryNext(Working(s, w, Sent(r, path), store, events), Work(SentOk(next))) ==
            Working(s, w, Moving(r, next, path), store, events + [Replied(r.txHash.value, next)])
  {
    assert s.proc.trace + events + [Replied(r.txHash.value, next)] ==
           s.proc.trace + (events + [Replied(r.txHash.value, next)]);
  }

  lemma Moves(s: Sys, w: Worker, store: Records, events: Trace, r: Record, path: Path, next: RequestState)
    requires next in {Pending, Succeeded, Reverted} && w.mode.RequestCall? && !path.FromFailure?
    requires w.id in store && store[w.id] == r && r.Inflight() && r.result.Some?
    ensures var outcome := if next == Reverted then (if path.Fresh? then Fails else PreviousFailure)
                           else Value(if path.Fresh? then r.result.value else r.result.value.(reused := true));
      MemoryNext(Working(s, w, Moving(r, next, path), store, events), GO) ==
      Working(s, w, Finishing(outcome), store[w.id := WithState(r, next)], events)
  {
  }

  lemma Then(s: Sys, c: Choice, t: Sys, rest: seq<Choice>, u: Sys)
    requires MemoryNext(s, c) == t && After(t, rest) == u
    ensures After(s, [c] + rest) == u
  {
    AfterMore(s, c, rest);
  }

  /** A broadcast whose reply tells how it went: the state is stored and the call returns. */
  lemma SubmitPath(s: Sys, w: Worker, store: Records, events: Trace, r: Record, path: Path, tx: SignedTx, next: RequestState)
    requires Fitting(r, tx) && next in {Pending, Succeeded, Reverted} && w.mode.RequestCall? && !path.FromFailure?
    requires w.id in store && store[w.id] == r && r.Inflight() && r.result.Some?
    ensures var outcome := if next == Reverted then (if path.Fresh? then Fails else PreviousFailure)
                           else Value(if path.Fresh? then r.result.value else r.result.value.(reused := true));
      Done(s, After(Working(s, w, Submitting(r, path), store, events), [GO] + ([Work(SentOk(next))] + ([GO] + [GO]))),
           store[w.id := WithState(r, next)],
           events + [Broadcast(w.id, tx), Replied(r.txHash.value, next), Returned(w.id, w.payload, outcome)])
  {
    hide MemoryNext, After, Working;
    var outcome := if next == Reverted then (if path.Fresh? then Fails else PreviousFailure)
                   else Value(if path.Fresh? then r.result.value else r.result.value.(reused := true));
    var e1 := events + [Broadcast(w.id, tx)];
    var e2 := e1 + [Replied(r.txHash.value, next)];
    var after := store[w.id := WithState(r, next)];
    var s1, s2 := Working(s, w, Sent(r, path), store, e1), Working(s, w, Moving(r, next, path), store, e2);
    var s3 := Working(s, w, Finishing(outcome), after, e2);
    Submits(s, w, store, events, r, path, tx);
    GetsReply(s, w, store, e1, r, path, next);
    Moves(s, w, store, e2, r, path, next);
    Returns(s, w, outcome, after, e2);
    AfterOne(s3, GO);
    Then(s2, GO, s3, [GO], MemoryNext(s3, GO));
    Then(s1, Work(SentOk(next)), s2, [GO] + [GO], MemoryNext(s3, GO));
    Then(Working(s, w, Submitting(r, path), store, events), GO, s1, [Work(SentOk(next))] + ([GO] + [GO]), MemoryNext(s3, GO));
    assert e2 + [Returned(w.id, w.payload, outcome)] ==
           events + [Broadcast(w.id, tx), Replied(r.txHash.value, next), Returned(w.id, w.payload, outcome)];
  }

  /**
   * A new request, when nothing fails: it is signed, stored, sent and settled in this order, and the call returns the
   * receipt of its own transaction, or fails if that was reverted.
   */
  lemma FreshCall(s: Sys, id: RequestId, payload: string, limit: nat, tx: SignedTx, about: Record, next: RequestState)
    requires s.proc.worker.None? && id !in s.store && next in {Pending, Succeeded, Reverted}
    ensures var r := SignedRecord(id, payload, tx, about);
      var outcome := if next == Reverted then Fails else Value(Receipt(id, tx, false));
      Done(s, After(s, [NewCall(id, payload, limit), GO, Work(Sign(tx, about)), GO, GO, Work(SentOk(next)), GO, GO]),
           s.store[id := WithState(r, next)],
           [Started(id), SignedFor(id, tx), Persisted(id, tx), Broadcast(id, tx), Replied(HashOf(tx, 0), next),
            Returned(id, payload, outcome)])
  {
    hide MemoryNext, After, Working, WithState, Asking;
    var r, w := SignedRecord(id, payload, tx, about), Asking(id, payload, limit);
    AskingFields(id, payload, limit);
    var e1, e2, e3 := [Started(id)], [Started(id)] + [SignedFor(id, tx)], [Started(id)] + [SignedFor(id, tx)] + [Persisted(id, tx)];
    var s1, s2 := Working(s, w, Looking, s.store, e1), Working(s, w, Executing, s.store, e1);
    var s3 := Working(s, w, Beginning(r), s.store, e2);
    var s4 := Working(s, w.(prepared := true), Submitting(r, Fresh), s.store[id := r], e3);
    Starts(s, id, payload, limit);
    LooksUpNothing(s, w, e1);
    Signs(s, w, e1, tx, about);
    Begins(s, w, e2, tx, about);
    SubmitPath(s, w.(prepared := true), s.store[id := r], e3, r, Fresh, tx, next);
    var rest := [GO] + ([Work(SentOk(next))] + ([GO] + [GO]));
    var last := After(s4, rest);
    Then(s3, GO, s4, rest, last);
    Then(s2, Work(Sign(tx, about)), s3, [GO] + rest, last);
    Then(s1, GO, s2, [Work(Sign(tx, about))] + ([GO] + rest), last);
    Then(s, NewCall(id, payload, limit), s1, [GO] + ([Work(Sign(tx, about))] + ([GO] + rest)), last);
    assert [NewCall(id, payload, limit)] + ([GO] + ([Work(Sign(tx, about))] + ([GO] + rest))) ==
           [NewCall(id, payload, limit), GO, Work(Sign(tx, about)), GO, GO, Work(SentOk(next)), GO, GO];
    assert s.store[id := r][id := WithState(r, next)] == s.store[id := WithState(r, next)];
    var outcome := if next == Reverted then Fails else Value(Receipt(id, tx, false));
    assert e3 + [Broadcast(id, tx), Replied(r.txHash.value, next), Returned(id, payload, outcome)] ==
           [Started(id), SignedFor(id, tx), Persisted(id, tx), Broadcast(id, tx), Replied(HashOf(tx, 0), next),
            Returned(id, payload, outcome)];
  }

  lemma AskingFields(id: RequestId, payload: string, limit: nat)
    ensures var w := Asking(id, payload, limit); w.id == id && w.payload == payload && w.mode.RequestCall? && w.pc.Looking?
  {
  }

  // ----- a request that was interrupted -----

  lemma LooksAtInflight(s: Sys, w: Worker, events: Trace, tx: SignedTx)
    requires w.pc.Looking? && w.id in s.store && s.store[w.id].Inflight() && s.store[w.id].payloadHash == w.payload
    requires Fitting(s.store[w.id], tx)
    ensures var r := s.store[w.id];
      && MemoryNext(Working(s, w, Looking, s.store, events), GO) == Working(s, w, Reconciling(r), s.store, events)
      && MemoryNext(Working(s, w, Reconciling(r), s.store, events), GO) == Working(s, w, Recovering(r), s.store, events)
  {
  }

  /** What the chain's answer means. */
  function StateOf(answer: ChainAnswer): RequestState
    requires answer.IsPending? || answer.IsSucceeded? || answer.IsReverted?
  {
    if answer.IsPending? then Pending else if answer.IsSucceeded? then Succeeded else Reverted
  }

  lemma Asks(s: Sys, w: Worker, events: Trace, r: Record, answer: ChainAnswer)
    requires r.txHash.Some?
    ensures var e := events + [Answered(r.txHash.value, answer)];
      MemoryNext(Working(s, w, Recovering(r), s.store, events), Work(Chain(answer))) ==
      Working(s, w, if answer.NotFound? || answer.LookupFailed? then Submitting(r, FromInflight)
                    else Moving(r, StateOf(answer), FromInflight), s.store, e)
  {
    assert s.proc.trace + events + [Answered(r.txHash.value, answer)] ==
           s.proc.trace + (events + [Answered(r.txHash.value, answer)]);
  }

  /** An interrupted request that the chain knows is settled as the chain says, and nothing is sent again. */
  lemma KnownCall(s: Sys, id: RequestId, payload: string, limit: nat, tx: SignedTx, answer: ChainAnswer)
    requires s.proc.worker.None? && id in s.store && (answer.IsPending? || answer.IsSucceeded? || answer.IsReverted?)
    requires var r := s.store[id]; r.Inflight() && r.payloadHash == payload && r.result.Some? && Fitting(r, tx)
    ensures var r := s.store[id]; var next := StateOf(answer);
      var outcome := if answer.IsReverted? then PreviousFailure else Value(r.result.value.(reused := true));
      Done(s, After(s, [NewCall(id, payload, limit), GO, GO, Work(Chain(answer)), GO, GO]),
           s.store[id := WithState(r, next)],
           [Started(id), Answered(r.txHash.value, answer), Returned(id, payload, outcome)])
  {
    hide MemoryNext, After, Working, WithState, Asking;
    var r, w, next := s.store[id], Asking(id, payload, limit), StateOf(answer);
    AskingFields(id, payload, limit);
    var outcome := if answer.IsReverted? then PreviousFailure else Value(r.result.value.(reused := true));
    var e1, e2 := [Started(id)], [Started(id)] + [Answered(r.txHash.value, answer)];
    var after := s.store[id := WithState(r, next)];
    var s1, s2 := Working(s, w, Looking, s.store, e1), Working(s, w, Reconciling(r), s.store, e1);
    var s3, s4 := Working(s, w, Recovering(r), s.store, e1), Working(s, w, Moving(r, next, FromInflight), s.store, e2);
    var s5 := Working(s, w, Finishing(outcome), after, e2);
    Starts(s, id, payload, limit);
    LooksAtInflight(s, w, e1, tx);
    Asks(s, w, e1, r, answer);
    Moves(s, w, s.store, e2, r, FromInflight, next);
    Returns(s, w, outcome, after, e2);
    var last := MemoryNext(s5, GO);
    AfterOne(s5, GO);
    Then(s4, GO, s5, [GO], last);
    Then(s3, Work(Chain(answer)), s4, [GO] + [GO], last);
    Then(s2, GO, s3, [Work(Chain(answer))] + ([GO] + [GO]), last);
    Then(s1, GO, s2, [GO] + ([Work(Chain(answer))] + ([GO] + [GO])), last);
    Then(s, NewCall(id, payload, limit), s1, [GO] + ([GO] + ([Work(Chain(answer))] + ([GO] + [GO]))), last);
    assert [NewCall(id, payload, limit)] + ([GO] + ([GO] + ([Work(Chain(answer))] + ([GO] + [GO])))) ==
           [NewCall(id, payload, limit), GO, GO, Work(Chain(answer)), GO, GO];
    assert e2 + [Returned(id, payload, outcome)] ==
           [Started(id), Answered(r.txHash.value, answer), Returned(id, payload, outcome)];
  }

  /** One that the chain does not know is sent again, byte for byte, and then settled as the reply says. */
  lemma LostCall(s: Sys, id: RequestId, payload: string, limit: nat, tx: SignedTx, next: RequestState)
    requires s.proc.worker.None? && id in s.store && next in {Pending, Succeeded, Reverted}
    requires var r := s.store[id]; r.Inflight() && r.payloadHash == payload && r.result.Some? && Fitting(r, tx)
    ensures var r := s.store[id];
      var outcome := if next == Reverted then PreviousFailure else Value(r.result.value.(reused := true));
      Done(s, After(s, [NewCall(id, payload, limit), GO, GO, Work(Chain(NotFound)), GO, Work(SentOk(next)), GO, GO]),
           s.store[id := WithState(r, next)],
           [Started(id), Answered(r.txHash.value, NotFound), Broadcast(id, tx), Replied(r.txHash.value, next),
            Returned(id, payload, outcome)])
  {
    hide MemoryNext, After, Working, WithState, Asking;
    var r, w := s.store[id], Asking(id, payload, limit);
    AskingFields(id, payload, limit);
    var e1, e2 := [Started(id)], [Started(id)] + [Answered(r.txHash.value, NotFound)];
    var s1, s2 := Working(s, w, Looking, s.store, e1), Working(s, w, Reconciling(r), s.store, e1);
    var s3, s4 := Working(s, w, Recovering(r), s.store, e1), Working(s, w, Submitting(r, FromInflight), s.store, e2);
    Starts(s, id, payload, limit);
    LooksAtInflight(s, w, e1, tx);
    Asks(s, w, e1, r, NotFound);
    SubmitPath(s, w, s.store, e2, r, FromInflight, tx, next);
    var rest := [GO] + ([Work(SentOk(next))] + ([GO] + [GO]));
    var last := After(s4, rest);
    Then(s3, Work(Chain(NotFound)), s4, rest, last);
    Then(s2, GO, s3, [Work(Chain(NotFound))] + rest, last);
    Then(s1, GO, s2, [GO] + ([Work(Chain(NotFound))] + rest), last);
    Then(s, NewCall(id, payload, limit), s1, [GO] + ([GO] + ([Work(Chain(NotFound))] + rest)), last);
    assert [NewCall(id, payload, limit)] + ([GO] + ([GO] + ([Work(Chain(NotFound))] + rest))) ==
           [NewCall(id, payload, limit), GO, GO, Work(Chain(NotFound)), GO, Work(SentOk(next)), GO, GO];
    var outcome := if next == Reverted then PreviousFailure else Value(r.result.value.(reused := true));
    assert e2 + [Broadcast(id, tx), Replied(r.txHash.value, next), Returned(id, payload, outcome)] ==
           [Started(id), Answered(r.txHash.value, NotFound), Broadcast(id, tx), Replied(r.txHash.value, next),
            Returned(id, payload, outcome)];
  }

  /** One whose transaction the chain does not know and does not take ends in a failure and is stored as before. */
  lemma RejectedCall(s: Sys, id: RequestId, payload: string, limit: nat, tx: SignedTx, stale: bool)
    requires s.proc.worker.None? && id in s.store
    requires var r := s.store[id]; r.Inflight() && r.payloadHash == payload && Fitting(r, tx)
    ensures var r := s.store[id];
      Done(s, After(s, [NewCall(id, payload, limit), GO, GO, Work(Chain(NotFound)), GO, Work(SentError(false, stale)), GO]),
           s.store,
           [Started(id), Answered(r.txHash.value, NotFound), Broadcast(id, tx), Returned(id, payload, Fails)])
  {
    hide MemoryNext, After, Working, Asking;
    var r, w := s.store[id], Asking(id, payload, limit);
    AskingFields(id, payload, limit);
    var e1, e2 := [Started(id)], [Started(id)] + [Answered(r.txHash.value, NotFound)];
    var e3 := e2 + [Broadcast(id, tx)];
    var s1, s2 := Working(s, w, Looking, s.store, e1), Working(s, w, Reconciling(r), s.store, e1);
    var s3, s4 := Working(s, w, Recovering(r), s.store, e1), Working(s, w, Submitting(r, FromInflight), s.store, e2);
    var s5, s6 := Working(s, w, Sent(r, FromInflight), s.store, e3), Working(s, w, Finishing(Fails), s.store, e3);
    Starts(s, id, payload, limit);
    LooksAtInflight(s, w, e1, tx);
    Asks(s, w, e1, r, NotFound);
    Submits(s, w, s.store, e2, r, FromInflight, tx);
    IsRejected(s, w, s.store, e3, r, stale);
    Returns(s, w, Fails, s.store, e3);
    AfterOne(s6, GO);
    var last := MemoryNext(s6, GO);
    Then(s5, Work(SentError(false, stale)), s6, [GO], last);
    Then(s4, GO, s5, [Work(SentError(false, stale))] + [GO], last);
    var rest := [GO] + ([Work(SentError(false, stale))] + [GO]);
    Then(s3, Work(Chain(NotFound)), s4, rest, last);
    Then(s2, GO, s3, [Work(Chain(NotFound))] + rest, last);
    Then(s1, GO, s2, [GO] + ([Work(Chain(NotFound))] + rest), last);
    Then(s, NewCall(id, payload, limit), s1, [GO] + ([GO] + ([Work(Chain(NotFound))] + rest)), last);
    assert [NewCall(id, payload, limit)] + ([GO] + ([GO] + ([Work(Chain(NotFound))] + rest))) ==
           [NewCall(id, payload, limit), GO, GO, Work(Chain(NotFound)), GO, Work(SentError(false, stale)), GO];
    assert e3 + [Returned(id, payload, Fails)] ==
           [Started(id), Answered(r.txHash.value, NotFound), Broadcast(id, tx), Returned(id, payload, Fails)];
  }

  lemma IsRejected(s: Sys, w: Worker, store: Records, events: Trace, r: Record, stale: bool)
    requires w.mode.RequestCall?
    ensures MemoryNext(Working(s, w, Sent(r, FromInflight), store, events), Work(SentError(false, stale))) ==
            Working(s, w, Finishing(Fails), store, events)
  {
  }

  // ----- a request whose stored transaction is damaged -----

  /** The record set aside. */
  function AsideRecord(r: Record): Record {
    r.(state := Failed, errorCode := Some(RECOVERY_DATA_INVALID), errorMessage := Some("invalid"))
  }

  /** An in-flight record whose transaction does not decode and that has no hash. */
  predicate Undecodable(r: Record) {
    r.Inflight() && r.txHash.None? && r.rawTx.Some? && r.rawTx.value.Garbage?
  }

  lemma FindsDamage(s: Sys, w: Worker, events: Trace)
    requires w.id in s.store && s.store[w.id].payloadHash == w.payload && Undecodable(s.store[w.id])
    ensures var r := s.store[w.id];
      && MemoryNext(Working(s, w, Looking, s.store, events), GO) == Working(s, w, Reconciling(r), s.store, events)
      && MemoryNext(Working(s, w, Reconciling(r), s.store, events), GO) == Working(s, w, Suspecting(r), s.store, events)
  {
  }

  lemma PutsAside(s: Sys, w: Worker, events: Trace)
    requires w.mode.RequestCall? && w.id in s.store && Undecodable(s.store[w.id])
    ensures var r := s.store[w.id];
      && MemoryNext(Working(s, w, Suspecting(r), s.store, events), GO) == Working(s, w, Quarantining(r), s.store, events)
      && MemoryNext(Working(s, w, Quarantining(r), s.store, events), GO) ==
         Working(s, w, Finishing(Fails), s.store[w.id := AsideRecord(r)], events)
  {
  }

  /** A transaction that does not decode, stored without a hash, is set aside; nothing is removed or signed in this call. */
  lemma DamagedCall(s: Sys, id: RequestId, payload: string, limit: nat)
    requires s.proc.worker.None? && id in s.store && s.store[id].payloadHash == payload && Undecodable(s.store[id])
    ensures Done(s, After(s, [NewCall(id, payload, limit), GO, GO, GO, GO, GO]), s.store[id := AsideRecord(s.store[id])],
                 [Started(id), Returned(id, payload, Fails)])
  {
    hide MemoryNext, After, Working, Asking, AsideRecord;
    var r, w, e := s.store[id], Asking(id, payload, limit), [Started(id)];
    AskingFields(id, payload, limit);
    var after := s.store[id := AsideRecord(r)];
    var s1, s2 := Working(s, w, Looking, s.store, e), Working(s, w, Reconciling(r), s.store, e);
    var s3, s4 := Working(s, w, Suspecting(r), s.store, e), Working(s, w, Quarantining(r), s.store, e);
    var s5 := Working(s, w, Finishing(Fails), after, e);
    Starts(s, id, payload, limit);
    FindsDamage(s, w, e);
    PutsAside(s, w, e);
    Returns(s, w, Fails, after, e);
    AfterOne(s5, GO);
    var last := MemoryNext(s5, GO);
    Then(s4, GO, s5, [GO], last);
    Then(s3, GO, s4, [GO] + [GO], last);
    Then(s2, GO, s3, [GO] + ([GO] + [GO]), last);
    Then(s1, GO, s2, [GO] + ([GO] + ([GO] + [GO])), last);
    Then(s, NewCall(id, payload, limit), s1, [GO] + ([GO] + ([GO] + ([GO] + [GO]))), last);
    assert [NewCall(id, payload, limit)] + ([GO] + ([GO] + ([GO] + ([GO] + [GO])))) ==
           [NewCall(id, payload, limit), GO, GO, GO, GO, GO];
    assert e + [Returned(id, payload, Fails)] == [Started(id), Returned(id, payload, Fails)];
  }

  lemma FindsAside(s: Sys, w: Worker, e1: Trace, e2: Trace)
    requires w.id in s.store && s.store[w.id].payloadHash == w.payload
    requires var r := s.store[w.id];
      && r.state == Failed && r.errorCode == Some(RECOVERY_DATA_INVALID) && r.txHash.Some?
      && e2 == e1 + [Answered(r.txHash.value, NotFound)]
    ensures var r := s.store[w.id];
      && MemoryNext(Working(s, w, Looking, s.store, e1), GO) == Working(s, w, Retrying(r), s.store, e1)
      && MemoryNext(Working(s, w, Retrying(r), s.store, e1), Work(Chain(NotFound))) == Working(s, w, Dropping(r), s.store, e2)
  {
    assert s.proc.trace + e1 + [Answered(s.store[w.id].txHash.value, NotFound)] == s.proc.trace + e2;
  }

  lemma DropsAside(s: Sys, w: Worker, e2: Trace, e3: Trace)
    requires w.id in s.store && e3 == e2 + [Removed(w.id)]
    requires var r := s.store[w.id]; r.state == Failed && r.errorCode == Some(RECOVERY_DATA_INVALID)
    ensures MemoryNext(Working(s, w, Dropping(s.store[w.id]), s.store, e2), GO) ==
            Working(s, w, Executing, s.store - {w.id}, e3)
  {
    assert s.proc.trace + e2 + [Removed(w.id)] == s.proc.trace + e3;
  }

  lemma PreparationFails(s: Sys, w: Worker, store: Records, events: Trace)
    requires w.mode.RequestCall?
    ensures MemoryNext(Working(s, w, Executing, store, events), Work(PrepareFails(false))) ==
            Working(s, w, Finishing(Fails), store, events)
  {
  }

  /** A request set aside before, whose hash the chain does not know, is removed and executed anew. */
  lemma RetriedCall(s: Sys, id: RequestId, payload: string, limit: nat)
    requires s.proc.worker.None? && id in s.store && s.store[id].payloadHash == payload
    requires var r := s.store[id]; r.state == Failed && r.errorCode == Some(RECOVERY_DATA_INVALID) && r.txHash.Some?
    ensures Done(s, After(s, [NewCall(id, payload, limit), GO, Work(Chain(NotFound)), GO, Work(PrepareFails(false)), GO]),
                 s.store - {id},
                 [Started(id), Answered(s.store[id].txHash.value, NotFound), Removed(id), Returned(id, payload, Fails)])
  {
    hide MemoryNext, After, Working, Asking;
    var r, w, after := s.store[id], Asking(id, payload, limit), s.store - {id};
    var e1, e2 := [Started(id)], [Started(id)] + [Answered(r.txHash.value, NotFound)];
    var e3 := e2 + [Removed(id)];
    AskingFields(id, payload, limit);
    var s1, s2 := Working(s, w, Looking, s.store, e1), Working(s, w, Retrying(r), s.store, e1);
    var s3, s4 := Working(s, w, Dropping(r), s.store, e2), Working(s, w, Executing, after, e3);
    var s5 := Working(s, w, Finishing(Fails), after, e3);
    Starts(s, id, payload, limit);
    FindsAside(s, w, e1, e2);
    DropsAside(s, w, e2, e3);
    PreparationFails(s, w, after, e3);
    Returns(s, w, Fails, after, e3);
    AfterOne(s5, GO);
    var last := MemoryNext(s5, GO);
    Then(s4, Work(PrepareFails(false)), s5, [GO], last);
    Then(s3, GO, s4, [Work(PrepareFails(false))] + [GO], last);
    Then(s2, Work(Chain(NotFound)), s3, [GO] + ([Work(PrepareFails(false))] + [GO]), last);
    Then(s1, GO, s2, [Work(Chain(NotFound))] + ([GO] + ([Work(PrepareFails(false))] + [GO])), last);
    var rest := [GO] + ([Work(Chain(NotFound))] + ([GO] + ([Work(PrepareFails(false))] + [GO])));
    Then(s, NewCall(id, payload, limit), s1, rest, last);
    assert [NewCall(id, payload, limit)] + rest ==
           [NewCall(id, payload, limit), GO, Work(Chain(NotFound)), GO, Work(PrepareFails(false)), GO];
    assert e3 + [Returned(id, payload, Fails)] ==
           [Started(id), Answered(r.txHash.value, NotFound), Removed(id), Returned(id, payload, Fails)];
  }
}
