/** Nonce reservation: concurrent next_nonce calls split at the chain read, mixed with reserve_nonce. */
module Nonces {
  import opened Wrappers

  type Signer = string
  type TaskId = nat

  /** A nonce given out: by next_nonce, at once or after a chain read, or by reserve_nonce for a suggestion. */
  datatype Source = ByNext(read: Option<nat>) | ByReserve(suggested: nat)

  datatype Event = Handed(signer: Signer, nonce: nat, source: Source) | Forgotten(signer: Signer)

  /** One atomic step: a critical section of one of the three functions. */
  datatype Choice =
    | NextFirst(task: TaskId, signer: Signer)   // before the chain read
    | NextSecond(task: TaskId, chainNonce: nat) // after it
    | Reserve(signer: Signer, suggested: nat)
    | Reset(signer: Signer)

  /** The cache, the tasks waiting for the chain, and what was given out so far. */
  datatype State = State(next: map<Signer, nat>, waiting: map<TaskId, Signer>, trace: seq<Event>)

  const START := State(map[], map[], [])

  function Hand(s: State, signer: Signer, nonce: nat, source: Source): State {
    s.(next := s.next[signer := nonce + 1], trace := s.trace + [Handed(signer, nonce, source)])
  }

  function Max(a: nat, b: nat): nat {
    if a < b then b else a
  }

  function Cached(s: State, signer: Signer, default: nat): nat {
    if signer in s.next then s.next[signer] else default
  }

  function Step(s: State, c: Choice): State {
    match c
    case NextFirst(task, signer) =>
      if task in s.waiting then s
      else if signer in s.next then Hand(s, signer, s.next[signer], ByNext(None))
      else s.(waiting := s.waiting[task := signer])
    case NextSecond(task, chainNonce) =>
      if task !in s.waiting then s
      else
        var signer := s.waiting[task];
        Hand(s.(waiting := s.waiting - {task}), signer, Cached(s, signer, chainNonce), ByNext(Some(chainNonce)))
    case Reserve(signer, suggested) =>
      Hand(s, signer, Max(Cached(s, signer, suggested), suggested), ByReserve(suggested))
    case Reset(signer) => s.(next := s.next - {signer}, trace := s.trace + [Forgotten(signer)])
  }

  function Run(choices: seq<Choice>): State {
    if choices == [] then START else Step(Run(choices[..|choices| - 1]), choices[|choices| - 1])
  }

  // ----- the cache is one above the last nonce given out -----

  predicate IsHanded(e: Event, signer: Signer) {
    e.Handed? && e.signer == signer
  }

  /** The last nonce given out to the signer since its last reset. */
  function LastNonce(trace: seq<Event>, signer: Signer): Option<nat> {
    if trace == [] then None
    else
      var e := trace[|trace| - 1];
      if e == Forgotten(signer) then None
      else if IsHanded(e, signer) then Some(e.nonce)
      else LastNonce(trace[..|trace| - 1], signer)
  }

  /** What the next nonce must be: the successor of the last one, or else what the chain or the suggestion says. */
  predicate Follows(trace: seq<Event>, e: Event) {
    e.Handed? ==>
      match LastNonce(trace, e.signer)
      case None =>
        if e.source.ByReserve? then e.nonce == e.source.suggested else e.source.read == Some(e.nonce)
      case Some(last) =>
        e.nonce == if e.source.ByReserve? then Max(last + 1, e.source.suggested) else last + 1
  }

  ghost predicate Good(s: State) {
    && (forall signer :: LastNonce(s.trace, signer).Some? <==> signer in s.next)
    && (forall signer | signer in s.next :: s.next[signer] == LastNonce(s.trace, signer).value + 1)
    && (forall j | 0 <= j < |s.trace| :: Follows(s.trace[..j], s.trace[j]))
  }

  lemma TraceGrows(trace: seq<Event>, e: Event)
    requires forall j | 0 <= j < |trace| :: Follows(trace[..j], trace[j])
    requires Follows(trace, e)
    ensures forall j | 0 <= j < |trace + [e]| :: Follows((trace + [e])[..j], (trace + [e])[j])
    ensures (trace + [e])[..|trace|] == trace
  {
    hide Follows;
    var longer := trace + [e];
    forall j | 0 <= j < |longer|
      ensures Follows(longer[..j], longer[j])
    {
      if j < |trace| {
        assert longer[..j] == trace[..j];
      } else {
        assert longer[..j] == trace;
      }
    }
  }

  /** Giving out a nonce that may follow keeps the cache one above it. */
  lemma HandGood(s: State, signer: Signer, nonce: nat, source: Source)
    requires Good(s) && Follows(s.trace, Handed(signer, nonce, source))
    ensures Good(Hand(s, signer, nonce, source))
  {
    hide Follows;
    TraceGrows(s.trace, Handed(signer, nonce, source));
  }

  lemma ResetGood(s: State, signer: Signer)
    requires Good(s)
    ensures Good(Step(s, Reset(signer)))
  {
    assert Follows(s.trace, Forgotten(signer));
    hide Follows;
    TraceGrows(s.trace, Forgotten(signer));
  }

  lemma StepGood(s: State, c: Choice)
    requires Good(s)
    ensures Good(Step(s, c))
  {
    match c
    case NextFirst(task, signer) =>
      if task !in s.waiting && signer in s.next {
        HandGood(s, signer, s.next[signer], ByNext(None));
      }
    case NextSecond(task, chainNonce) =>
      if task in s.waiting {
        var signer := s.waiting[task];
        HandGood(s.(waiting := s.waiting - {task}), signer, Cached(s, signer, chainNonce), ByNext(Some(chainNonce)));
      }
    case Reserve(signer, suggested) =>
      HandGood(s, signer, Max(Cached(s, signer, suggested), suggested), ByReserve(suggested));
    case Reset(signer) => ResetGood(s, signer);
  }

  lemma {:induction false} RunGood(choices: seq<Choice>)
    ensures Good(Run(choices))
    decreases |choices|
  {
    hide Step, Good;
    if choices == [] {
      StartGood();
    } else {
      RunGood(choices[..|choices| - 1]);
      StepGood(Run(choices[..|choices| - 1]), choices[|choices| - 1]);
    }
  }

  lemma StartGood()
    ensures Good(START)
  {
  }

  /** The trace between two positions holds no reset of the signer. */
  predicate NoReset(trace: seq<Event>, i: nat, j: nat, signer: Signer)
    requires i <= j <= |trace|
  {
    forall k | i <= k < j :: trace[k] != Forgotten(signer)
  }

  /** Without a reset, what was given out stays below what comes later. */
  lemma {:induction false} LastAtLeast(trace: seq<Event>, i: nat, j: nat, signer: Signer)
    requires forall k | 0 <= k < |trace| :: Follows(trace[..k], trace[k])
    requires i < j <= |trace| && IsHanded(trace[i], signer) && NoReset(trace, i, j, signer)
    ensures LastNonce(trace[..j], signer).Some? && LastNonce(trace[..j], signer).value >= trace[i].nonce
    decreases j
  {
    var k := j - 1;
    assert trace[..j][..k] == trace[..k] && trace[..j][k] == trace[k];
    if i < k {
      LastAtLeast(trace, i, k, signer);
      assert Follows(trace[..k], trace[k]);
    }
  }

  /**
   * In every interleaving without a reset for the signer, the nonces it is given are strictly increasing, hence
   * distinct; reserve_nonce never goes below its suggestion.
   */
  lemma NoncesIncrease(choices: seq<Choice>, i: nat, j: nat, signer: Signer)
    requires var trace := Run(choices).trace;
      i < j < |trace| && IsHanded(trace[i], signer) && IsHanded(trace[j], signer) && NoReset(trace, i, j, signer)
    ensures var trace := Run(choices).trace;
      && trace[i].nonce < trace[j].nonce
      && (trace[j].source.ByReserve? ==> trace[j].source.suggested <= trace[j].nonce)
  {
    RunGood(choices);
    var trace := Run(choices).trace;
    LastAtLeast(trace, i, j, signer);
    assert Follows(trace[..j], trace[j]);
  }

  /**
   * The first nonce of a signer, or the first one after a reset, is the chain's or the suggested one: nothing else was
   * given out before it.
   */
  lemma FirstNonceIsGiven(choices: seq<Choice>, j: nat, signer: Signer)
    requires var trace := Run(choices).trace; j < |trace| && IsHanded(trace[j], signer)
    requires forall i: nat | i < j && IsHanded(Run(choices).trace[i], signer) ::
      exists k | i < k < j :: Run(choices).trace[k] == Forgotten(signer)
    ensures var e := Run(choices).trace[j];
      if e.source.ByReserve? then e.nonce == e.source.suggested else e.source.read == Some(e.nonce)
  {
    RunGood(choices);
    var trace := Run(choices).trace;
    NoLast(trace, j, signer);
    assert Follows(trace[..j], trace[j]);
  }

  lemma {:induction false} NoLast(trace: seq<Event>, j: nat, signer: Signer)
    requires j <= |trace|
    requires forall i: nat | i < j && IsHanded(trace[i], signer) :: exists k | i < k < j :: trace[k] == Forgotten(signer)
    ensures LastNonce(trace[..j], signer).None?
    decreases j
  {
    if j > 0 {
      var k := j - 1;
      assert trace[..j][..k] == trace[..k] && trace[..j][k] == trace[k];
      if trace[k] != Forgotten(signer) {
        forall i: nat | i < k && IsHanded(trace[i], signer)
          ensures exists x | i < x < k :: trace[x] == Forgotten(signer)
        {
          var x :| i < x < j && trace[x] == Forgotten(signer);
          assert x != k;
        }
        NoLast(trace, k, signer);
      }
    }
  }

  /** next_nonce leaves no gap: it gives out the successor of the signer's previous nonce. */
  lemma NextLeavesNoGap(choices: seq<Choice>, i: nat, j: nat, signer: Signer)
    requires var trace := Run(choices).trace;
      && i < j < |trace| && IsHanded(trace[i], signer) && IsHanded(trace[j], signer)
      && NoReset(trace, i, j, signer) && trace[j].source.ByNext?
      && forall k | i < k < j :: !IsHanded(trace[k], signer)
    ensures Run(choices).trace[j].nonce == Run(choices).trace[i].nonce + 1
  {
    RunGood(choices);
    var trace := Run(choices).trace;
    LastIs(trace, i, j, signer);
    assert Follows(trace[..j], trace[j]);
  }

  lemma {:induction false} LastIs(trace: seq<Event>, i: nat, j: nat, signer: Signer)
    requires i < j <= |trace| && IsHanded(trace[i], signer) && NoReset(trace, i, j, signer)
    requires forall k | i < k < j :: !IsHanded(trace[k], signer)
    ensures LastNonce(trace[..j], signer) == Some(trace[i].nonce)
    decreases j
  {
    var k := j - 1;
    assert trace[..j][..k] == trace[..k] && trace[..j][k] == trace[k];
    if i < k {
      LastIs(trace, i, k, signer);
    }
  }

  // ----- signers do not affect each other -----

  function About(e: Event): Signer {
    e.signer
  }

  /** What one signer sees. */
  function Seen(trace: seq<Event>, signer: Signer): seq<Event> {
    if trace == [] then []
    else Seen(trace[..|trace| - 1], signer) + if About(trace[|trace| - 1]) == signer then [trace[|trace| - 1]] else []
  }

  /** Whether a step concerns the signer. */
  predicate Concerns(s: State, c: Choice, signer: Signer) {
    match c
    case NextFirst(_, x) => x == signer
    case NextSecond(task, _) => task in s.waiting && s.waiting[task] == signer
    case Reserve(x, _) => x == signer
    case Reset(x) => x == signer
  }

  /** The steps of a run that concern the signer. */
  function Own(choices: seq<Choice>, signer: Signer): seq<Choice> {
    if choices == [] then []
    else
      var k := |choices| - 1;
      Own(choices[..k], signer) + if Concerns(Run(choices[..k]), choices[k], signer) then [choices[k]] else []
  }

  /** A signer's part of the state. */
  ghost predicate SameFor(s: State, u: State, signer: Signer) {
    && (signer in s.next <==> signer in u.next)
    && (signer in s.next ==> s.next[signer] == u.next[signer])
    && Seen(s.trace, signer) == Seen(u.trace, signer)
    && (forall task ::
          (task in s.waiting && s.waiting[task] == signer) <==> (task in u.waiting && u.waiting[task] == signer))
    && (forall task | task in u.waiting :: u.waiting[task] == signer)
  }

  /** No two tasks of different signers share an id. */
  predicate TasksDistinct(choices: seq<Choice>) {
    forall i, j | 0 <= i < j < |choices| && choices[i].NextFirst? && choices[j].NextFirst? ::
      choices[i].task == choices[j].task ==> choices[i].signer == choices[j].signer
  }

  /** A waiting task is one that asked for this signer. */
  lemma {:induction false} WaitingAsked(choices: seq<Choice>, task: TaskId)
    requires task in Run(choices).waiting
    ensures exists i | 0 <= i < |choices| :: choices[i] == NextFirst(task, Run(choices).waiting[task])
    decreases |choices|
  {
    var k := |choices| - 1;
    if task in Run(choices[..k]).waiting {
      WaitingAsked(choices[..k], task);
      var i :| 0 <= i < k && choices[..k][i] == NextFirst(task, Run(choices[..k]).waiting[task]);
      assert choices[i] == choices[..k][i];
    } else {
      assert choices[k] == NextFirst(task, Run(choices).waiting[task]);
    }
  }

  /** What a signer is given in any run is what it is given when only its own steps are made. */
  lemma {:induction false} SignersIndependent(choices: seq<Choice>, signer: Signer)
    requires TasksDistinct(choices)
    ensures SameFor(Run(choices), Run(Own(choices, signer)), signer)
    decreases |choices|
  {
    hide Step, SameFor, Concerns;
    if choices == [] {
      assert SameFor(START, START, signer) by {
        NothingSame(signer);
      }
    } else {
      var k := |choices| - 1;
      var before, own, c := choices[..k], Own(choices[..k], signer), choices[k];
      SignersIndependent(before, signer);
      if Concerns(Run(before), c, signer) {
        assert Own(choices, signer) == own + [c] && (own + [c])[..|own|] == own;
        TaskAskedForSigner(choices, signer);
        OwnStep(Run(before), Run(own), c, signer);
      } else {
        assert Own(choices, signer) == own + [] == own;
        OtherStep(Run(before), Run(own), c, signer);
      }
    }
  }

  lemma NothingSame(signer: Signer)
    ensures SameFor(START, START, signer)
  {
  }

  /** A task that asks again asks for the same signer. */
  lemma TaskAskedForSigner(choices: seq<Choice>, signer: Signer)
    requires TasksDistinct(choices) && choices != []
    requires Concerns(Run(choices[..|choices| - 1]), choices[|choices| - 1], signer)
    ensures var k := |choices| - 1;
      choices[k].NextFirst? && choices[k].task in Run(choices[..k]).waiting ==>
        Run(choices[..k]).waiting[choices[k].task] == signer
  {
    hide Step;
    var k := |choices| - 1;
    var before, c := choices[..k], choices[k];
    if c.NextFirst? && c.task in Run(before).waiting {
      WaitingAsked(before, c.task);
      var i :| 0 <= i < k && before[i] == NextFirst(c.task, Run(before).waiting[c.task]);
      assert choices[i] == before[i];
    }
  }

  lemma SeenGrows(trace: seq<Event>, e: Event, signer: Signer)
    ensures Seen(trace + [e], signer) == Seen(trace, signer) + if About(e) == signer then [e] else []
  {
    assert (trace + [e])[..|trace|] == trace;
  }

  /** Giving both the same nonce keeps a signer's part of the states equal. */
  lemma HandSame(s: State, u: State, signer: Signer, nonce: nat, source: Source)
    requires SameFor(s, u, signer)
    ensures SameFor(Hand(s, signer, nonce, source), Hand(u, signer, nonce, source), signer)
  {
    hide Seen;
    SeenGrows(s.trace, Handed(signer, nonce, source), signer);
    SeenGrows(u.trace, Handed(signer, nonce, source), signer);
  }

  lemma OwnStep(s: State, u: State, c: Choice, signer: Signer)
    requires SameFor(s, u, signer) && Concerns(s, c, signer)
    requires c.NextFirst? && c.task in s.waiting ==> s.waiting[c.task] == signer
    ensures SameFor(Step(s, c), Step(u, c), signer)
  {
    hide Seen, Hand;
    match c
    case NextFirst(task, _) =>
      if task !in s.waiting && signer in s.next {
        HandSame(s, u, signer, s.next[signer], ByNext(None));
      }
    case NextSecond(task, chainNonce) =>
      var s1, u1 := s.(waiting := s.waiting - {task}), u.(waiting := u.waiting - {task});
      HandSame(s1, u1, signer, Cached(s, signer, chainNonce), ByNext(Some(chainNonce)));
    case Reserve(_, suggested) =>
      HandSame(s, u, signer, Max(Cached(s, signer, suggested), suggested), ByReserve(suggested));
    case Reset(_) =>
      SeenGrows(s.trace, Forgotten(signer), signer);
      SeenGrows(u.trace, Forgotten(signer), signer);
  }

  lemma OtherStep(s: State, u: State, c: Choice, signer: Signer)
    requires SameFor(s, u, signer) && !Concerns(s, c, signer)
    ensures SameFor(Step(s, c), u, signer)
  {
    hide Seen;
    var s1 := Step(s, c);
    if s1.trace != s.trace {
      SeenGrows(s.trace, s1.trace[|s.trace|], signer);
    }
  }

  // ----- the cache as an object -----

  /** The mutex-guarded nonce cache; each method is one critical section, run by some call of next_nonce or a caller. */
  class NonceCache {
    var next: map<Signer, nat>
    ghost var waiting: map<TaskId, Signer>
    ghost var handed: seq<Event>

    ghost function Abstract(): State
      reads this
    {
      State(next, waiting, handed)
    }

    constructor ()
      ensures Abstract() == START
    {
      next := map[];
      waiting := map[];
      handed := [];
    }

    /** The part of next_nonce before the chain read; without a cached nonce its call goes on to read the chain. */
    method TakeCached(ghost task: TaskId, signer: Signer) returns (nonce: Option<nat>)
      requires task !in waiting
      modifies this
      ensures Abstract() == Step(old(Abstract()), NextFirst(task, signer))
      ensures nonce.Some? <==> signer in old(next)
      ensures nonce.Some? ==> handed == old(handed) + [Handed(signer, nonce.value, ByNext(None))] && waiting == old(waiting)
      ensures nonce.None? ==> task in waiting && waiting[task] == signer && handed == old(handed)
    {
      if signer !in next {
        waiting := waiting[task := signer];
        return None;
      }
      var current := next[signer];
      next := next[signer := current + 1];
      handed := handed + [Handed(signer, current, ByNext(None))];
      return Some(current);
    }

    /** The part of next_nonce after the chain read: another task may have filled the cache meanwhile. */
    method TakeAfterRead(ghost task: TaskId, signer: Signer, chainNonce: nat) returns (nonce: nat)
      requires task in waiting && waiting[task] == signer
      modifies this
      ensures Abstract() == Step(old(Abstract()), NextSecond(task, chainNonce))
      ensures handed == old(handed) + [Handed(signer, nonce, ByNext(Some(chainNonce)))] && task !in waiting
    {
      nonce := if signer in next then next[signer] else chainNonce;
      next := next[signer := nonce + 1];
      waiting := waiting - {task};
      handed := handed + [Handed(signer, nonce, ByNext(Some(chainNonce)))];
    }

    method ReserveNonce(signer: Signer, suggested: nat) returns (nonce: nat)
      modifies this
      ensures Abstract() == Step(old(Abstract()), Reserve(signer, suggested))
      ensures handed == old(handed) + [Handed(signer, nonce, ByReserve(suggested))]
    {
      nonce := if signer in next then next[signer] else suggested;
      if nonce < suggested {
        nonce := suggested;
      }
      next := next[signer := nonce + 1];
      handed := handed + [Handed(signer, nonce, ByReserve(suggested))];
    }

    method ResetNonce(signer: Signer)
      modifies this
      ensures Abstract() == Step(old(Abstract()), Reset(signer))
    {
      next := next - {signer};
      handed := handed + [Forgotten(signer)];
    }
  }
}
