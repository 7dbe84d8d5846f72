/** Runs of the write protocol on any store that decides as the in-memory one does. */
module WriteRuns {
  import opened Wrappers
  import opened WriteRequests
  import opened WriteProtocol

  // ----- what the protocol relies on -----

  /** What a store may hold for an entry after a decision: it may keep columns that no decision looks at. */
  predicate Wrote(cur: Option<Record>, effect: Effect<Record>, after: Option<Record>) {
    match effect
    case Keep => after == cur
    case Drop => after.None?
    case Put(r) =>
      && after.Some? && Alike(after.value, r)
      && (after.value.result == r.result || (cur.Some? && after.value.result == cur.value.result))
      && (cur.Some? ==> after.value.createdAt == cur.value.createdAt)
  }

  /** The call was decided on the entry of its id as in memory, or a compare-and-set was left undone. */
  ghost predicate Decided(m: Records, call: StoreCall, u: Records, reply: Reply) {
    if call.ListInflight? then u == m && reply == Listed(InflightOf(m))
    else
      var d := MemoryDecide(Lookup(m, call.id), call);
      && (forall x | x != call.id :: Lookup(u, x) == Lookup(m, x))
      && ((reply == d.reply && Wrote(Lookup(m, call.id), d.effect, Lookup(u, call.id)))
          || (d.reply.Changed? && reply == Changed(false) && u == m))
  }

  /** The store outlives crashes of the process. */
  datatype Sys = Sys(store: Records, proc: Proc)

  ghost predicate Next(s: Sys, c: Choice, reply: Reply, t: Sys) {
    && t.proc == Advance(s.proc, c, reply)
    && match CallFor(s.proc, c)
       case None => t.store == s.store
       case Some(call) => Decided(s.store, call, t.store, reply)
  }

  /** The states of a run, with what was chosen and replied in between. */
  datatype Run = Run(states: seq<Sys>, choices: seq<Choice>, replies: seq<Reply>)
  {
    /** A run starts idle, on any store at all. */
    ghost predicate Valid() {
      && |states| == |choices| + 1 == |replies| + 1
      && states[0].proc == IDLE
      && forall i | 0 <= i < |choices| :: Next(states[i], choices[i], replies[i], states[i + 1])
    }

    function Trace(): Trace
      requires states != []
    {
      states[|states| - 1].proc.trace
    }
  }
}
