/** Per-hash single flight: a lock table whose idle locks are removed by reference count. */
module LookupLocks {

  type TxHash = string
  type TaskId = nat
  type LockId = nat

  /**
   * A task holds a clone of its lock from the table access until it returns.
   * Waiting for the lock, working under it, guard dropped, and about to return.
   */
  datatype Stage = Waiting | Working | Releasing | Leaving

  datatype Task = Task(hash: TxHash, lock: LockId, stage: Stage)

  /** The lock table, who holds which mutex, and the tasks under way; unused is the next lock to make. */
  datatype State = State(
    table: map<TxHash, LockId>, holder: map<LockId, TaskId>, tasks: map<TaskId, Task>, unused: LockId)

  const START := State(map[], map[], map[], 0)

  /** One atomic step of one task. */
  datatype Choice =
    | Arrive(task: TaskId, hash: TxHash)     // cache miss: clone the lock of the hash, or make one
    | Acquire(task: TaskId, cached: bool)    // got the mutex; another task may have filled the cache
    | Finish(task: TaskId)                   // both RPC reads done, result cached, guard dropped
    | Abort(task: TaskId)                    // an RPC failed, or the future was dropped
    | Sweep(task: TaskId)                    // remove the lock from the table when nobody else holds it
    | Leave(task: TaskId)

  /** The strong count of a lock: the table's own reference and one per task. */
  function StrongCount(s: State, lock: LockId): nat {
    |Entries(s, lock)| + |Holders(s, lock)|
  }

  function Entries(s: State, lock: LockId): set<TxHash> {
    set h | h in s.table && s.table[h] == lock
  }

  function Holders(s: State, lock: LockId): set<TaskId> {
    set t | t in s.tasks && s.tasks[t].lock == lock
  }

  function At(s: State, t: TaskId, stage: Stage): State
    requires t in s.tasks
  {
    s.(tasks := s.tasks[t := s.tasks[t].(stage := stage)])
  }

  function ArriveStep(s: State, t: TaskId, hash: TxHash): State {
    if hash in s.table then s.(tasks := s.tasks[t := Task(hash, s.table[hash], Waiting)])
    else s.(table := s.table[hash := s.unused], tasks := s.tasks[t := Task(hash, s.unused, Waiting)],
            unused := s.unused + 1)
  }

  function Step(s: State, c: Choice): State {
    match c
    case Arrive(t, hash) => if t in s.tasks then s else ArriveStep(s, t, hash)
    case Acquire(t, cached) =>
      if t !in s.tasks || !s.tasks[t].stage.Waiting? || s.tasks[t].lock in s.holder then s
      else if cached then At(s, t, Releasing)
      else At(s.(holder := s.holder[s.tasks[t].lock := t]), t, Working)
    case Finish(t) =>
      if t !in s.tasks || !s.tasks[t].stage.Working? then s
      else At(s.(holder := s.holder - {s.tasks[t].lock}), t, Releasing)
    case Abort(t) =>
      if t !in s.tasks || !(s.tasks[t].stage.Working? || s.tasks[t].stage.Waiting?) then s
      else if s.tasks[t].stage.Working?
      then s.(holder := s.holder - {s.tasks[t].lock}, tasks := s.tasks - {t})
      else s.(tasks := s.tasks - {t})
    case Sweep(t) =>
      if t !in s.tasks || !s.tasks[t].stage.Releasing? then s
      else if StrongCount(s, s.tasks[t].lock) == 2 then At(s.(table := s.table - {s.tasks[t].hash}), t, Leaving)
      else At(s, t, Leaving)
    case Leave(t) =>
      if t !in s.tasks || !s.tasks[t].stage.Leaving? then s else s.(tasks := s.tasks - {t})
  }

  function Run(choices: seq<Choice>): State {
    if choices == [] then START else Step(Run(choices[..|choices| - 1]), choices[|choices| - 1])
  }

  /** Until it has swept, a task's lock is the one the table hands to newcomers. */
  predicate Listed(s: State, t: TaskId)
    requires t in s.tasks
  {
    s.tasks[t].stage.Leaving? || (s.tasks[t].hash in s.table && s.table[s.tasks[t].hash] == s.tasks[t].lock)
  }

  /** A task works exactly while it holds the mutex of its lock. */
  predicate HoldsMutex(s: State, t: TaskId)
    requires t in s.tasks
  {
    s.tasks[t].stage.Working? <==> (s.tasks[t].lock in s.holder && s.holder[s.tasks[t].lock] == t)
  }

  ghost predicate Good(s: State) {
    && (forall t | t in s.tasks :: Listed(s, t) && HoldsMutex(s, t) && s.tasks[t].lock < s.unused)
    && (forall h | h in s.table :: s.table[h] < s.unused)
    && (forall lock | lock in s.holder :: s.holder[lock] in s.tasks && s.tasks[s.holder[lock]].lock == lock)
  }

  /** With a strong count of two the sweeping task is the only holder beside the table. */
  lemma SweeperIsAlone(s: State, t: TaskId, u: TaskId)
    requires t in s.tasks && u in s.tasks && s.tasks[t].lock == s.tasks[u].lock
    requires s.tasks[t].hash in s.table && s.table[s.tasks[t].hash] == s.tasks[t].lock
    requires StrongCount(s, s.tasks[t].lock) == 2
    ensures u == t
  {
    var lock := s.tasks[t].lock;
    Nonempty(Entries(s, lock), s.tasks[t].hash);
    if u != t {
      TwoElements(Holders(s, lock), t, u);
    }
  }

  lemma Nonempty<T>(s: set<T>, x: T)
    requires x in s
    ensures |s| >= 1
  {
    assert |s - {x}| == |s| - 1;
  }

  lemma TwoElements<T>(s: set<T>, x: T, y: T)
    requires x in s && y in s && x != y
    ensures |s| >= 2
  {
    Nonempty(s - {x}, y);
  }

  /** Removing an idle lock takes it from nobody who still relies on it. */
  lemma SweepGood(s: State, t: TaskId)
    requires Good(s) && t in s.tasks && s.tasks[t].stage.Releasing?
    requires StrongCount(s, s.tasks[t].lock) == 2
    ensures Good(At(s.(table := s.table - {s.tasks[t].hash}), t, Leaving))
  {
    hide StrongCount;
    var u := At(s.(table := s.table - {s.tasks[t].hash}), t, Leaving);
    forall x | x in u.tasks
      ensures Listed(u, x) && HoldsMutex(u, x) && u.tasks[x].lock < u.unused
    {
      assert Listed(s, x) && HoldsMutex(s, x) && Listed(s, t);
      if x != t && !s.tasks[x].stage.Leaving? && s.tasks[x].hash == s.tasks[t].hash {
        SweeperIsAlone(s, t, x);
      }
    }
  }

  lemma ArriveGood(s: State, t: TaskId, hash: TxHash)
    requires Good(s) && t !in s.tasks
    ensures Good(ArriveStep(s, t, hash))
  {
    var u := ArriveStep(s, t, hash);
    forall x | x in u.tasks
      ensures Listed(u, x) && HoldsMutex(u, x) && u.tasks[x].lock < u.unused
    {
      if x != t {
        assert Listed(s, x) && HoldsMutex(s, x);
      }
    }
  }

  lemma StepGood(s: State, c: Choice)
    requires Good(s)
    ensures Good(Step(s, c))
  {
    hide StrongCount;
    var u := Step(s, c);
    if c.Arrive? && c.task !in s.tasks {
      ArriveGood(s, c.task, c.hash);
    } else if c.Sweep? && c.task in s.tasks && s.tasks[c.task].stage.Releasing?
              && StrongCount(s, s.tasks[c.task].lock) == 2 {
      SweepGood(s, c.task);
    } else {
      forall x | x in u.tasks
        ensures Listed(u, x) && HoldsMutex(u, x) && u.tasks[x].lock < u.unused
      {
        assert Listed(s, x) && HoldsMutex(s, x);
      }
    }
  }

  lemma {:induction false} RunGood(choices: seq<Choice>)
    ensures Good(Run(choices))
    decreases |choices|
  {
    hide Step;
    if choices != [] {
      RunGood(choices[..|choices| - 1]);
      StepGood(Run(choices[..|choices| - 1]), choices[|choices| - 1]);
    }
  }

  /** In every interleaving, failing tasks included, at most one task per hash is doing RPC work. */
  lemma SingleFlight(choices: seq<Choice>, t: TaskId, u: TaskId)
    requires var s := Run(choices);
      && t in s.tasks && u in s.tasks
      && s.tasks[t].stage.Working? && s.tasks[u].stage.Working? && s.tasks[t].hash == s.tasks[u].hash
    ensures t == u
  {
    RunGood(choices);
    var s := Run(choices);
    assert Listed(s, t) && Listed(s, u) && HoldsMutex(s, t) && HoldsMutex(s, u);
  }

  /** A swept lock is gone for good: nobody but the sweeping task still holds it. */
  lemma SweptLockUnused(choices: seq<Choice>, t: TaskId, u: TaskId)
    requires var s := Run(choices);
      && t in s.tasks && s.tasks[t].stage.Releasing? && StrongCount(s, s.tasks[t].lock) == 2
      && u in s.tasks && u != t
    ensures Run(choices).tasks[u].lock != Run(choices).tasks[t].lock
  {
    RunGood(choices);
    var s := Run(choices);
    assert Listed(s, t);
    if s.tasks[u].lock == s.tasks[t].lock {
      SweeperIsAlone(s, t, u);
    }
  }

  // ----- which locks are removed -----

  predicate Distinct(table: map<TxHash, LockId>) {
    forall g, h | g in table && h in table && table[g] == table[h] :: g == h
  }

  lemma {:induction false} RunDistinct(choices: seq<Choice>)
    ensures Distinct(Run(choices).table)
    decreases |choices|
  {
    if choices != [] {
      var before := choices[..|choices| - 1];
      RunDistinct(before);
      RunGood(before);
    }
  }

  lemma OnlyOne<T>(s: set<T>, x: T)
    requires x in s && forall y | y in s :: y == x
    ensures |s| == 1
  {
    assert s == {x};
  }

  /** Sweeping removes the lock of the hash exactly when no other task holds it, and touches no other hash. */
  lemma SweepsExactlyWhenUnused(choices: seq<Choice>, t: TaskId)
    requires t in Run(choices).tasks && Run(choices).tasks[t].stage.Releasing?
    ensures var s := Run(choices);
      Step(s, Sweep(t)).table ==
      if exists u | u in s.tasks && u != t :: s.tasks[u].lock == s.tasks[t].lock then s.table
      else s.table - {s.tasks[t].hash}
  {
    RunGood(choices);
    RunDistinct(choices);
    var s := Run(choices);
    assert Listed(s, t);
    var lock, hash := s.tasks[t].lock, s.tasks[t].hash;
    OnlyOne(Entries(s, lock), hash);
    if u :| u in s.tasks && u != t && s.tasks[u].lock == lock {
      TwoElements(Holders(s, lock), t, u);
    } else {
      OnlyOne(Holders(s, lock), t);
    }
  }

  /** A task begins RPC work only under a free lock, and only if the cache had nothing for it by then. */
  lemma WorkBeginsUncached(s: State, c: Choice, t: TaskId)
    requires t in Step(s, c).tasks && Step(s, c).tasks[t].stage.Working?
    requires !(t in s.tasks && s.tasks[t].stage.Working?)
    ensures c == Acquire(t, false) && t in s.tasks && s.tasks[t].stage.Waiting? && s.tasks[t].lock !in s.holder
  {
  }
}
