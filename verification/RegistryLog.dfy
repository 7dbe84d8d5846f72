/** The hash-chained event log. */
module RegistryLog {
  import opened BnsModel
  import opened RegistryTables

  /** Rows 1..n, each sealing its predecessor's root. */
  ghost predicate LogOk(events: EventTable) {
    && (forall k: nat :: k in events <==> 1 <= k <= LatestSeq(events))
    && forall k: nat {:trigger RecordOk(events, k)} | k in events :: RecordOk(events, k)
  }

  predicate RecordOk(events: EventTable, k: nat)
    requires k in events && k >= 1
  {
    var r := events[k];
    var previous := RootAt(events, k - 1);
    && r.seq_ == k
    && r.previousLogRoot == previous
    && r.eventHash == EventHash(k, previous, r.event)
    && r.logRoot == LogRoot(previous, r.eventHash)
  }

  /** b continues a without rewriting any row. */
  predicate Extends(a: EventTable, b: EventTable) {
    && LatestSeq(a) <= LatestSeq(b)
    && forall k | k in a :: k in b && b[k] == a[k]
  }

  lemma {:induction false} PrefixUnchanged(a: EventTable, b: EventTable, k: nat)
    requires forall i: nat | i <= k :: (i in a <==> i in b) && (i in a ==> a[i] == b[i])
    ensures EventsUpTo(a, k) == EventsUpTo(b, k)
  {
    if k > 0 {
      PrefixUnchanged(a, b, k - 1);
    }
  }

  lemma {:induction false} LogLength(events: EventTable, k: nat)
    requires LogOk(events) && k <= LatestSeq(events)
    ensures |EventsUpTo(events, k)| == k
    ensures forall i | 0 <= i < k :: EventsUpTo(events, k)[i] == events[i + 1]
  {
    if k > 0 {
      LogLength(events, k - 1);
    }
  }

  lemma AppendLatest(events: EventTable, r: EventRecord)
    requires LogOk(events) && r.seq_ == LatestSeq(events) + 1
    ensures LatestSeq(events[r.seq_ := r]) == r.seq_
    ensures events[r.seq_ := r].Keys == events.Keys + {r.seq_}
  {
    assert r.seq_ in events[r.seq_ := r];
  }

  lemma AppendKeepsChain(events: EventTable, event: RegistryEvent, now: nat)
    requires LogOk(events)
    ensures var r := NextRecord(events, event, now);
      LogOk(events[r.seq_ := r]) && Extends(events, events[r.seq_ := r])
  {
    var r := NextRecord(events, event, now);
    var after := events[r.seq_ := r];
    AppendLatest(events, r);
    assert forall k: nat :: k in after <==> k in events || k == r.seq_;
    forall k: nat | k in after
      ensures RecordOk(after, k)
    {
      assert k != r.seq_ ==> RecordOk(events, k);
    }
  }

  /** Appending keeps the chain and adds exactly one row at the end. */
  lemma AppendKeepsLog(t: Tables, event: RegistryEvent, now: nat)
    requires LogOk(t.events)
    ensures LogOk(AppendEvent(t, event, now).events)
    ensures Extends(t.events, AppendEvent(t, event, now).events)
    ensures Log(AppendEvent(t, event, now)) == Log(t) + [NextRecord(t.events, event, now)]
  {
    var r := NextRecord(t.events, event, now);
    AppendKeepsChain(t.events, event, now);
    AppendLatest(t.events, r);
    PrefixUnchanged(t.events, t.events[r.seq_ := r], LatestSeq(t.events));
  }

  lemma {:induction false} SameRootSameEvents(a: EventTable, b: EventTable, i: nat, j: nat)
    requires LogOk(a) && LogOk(b)
    requires i <= LatestSeq(a) && j <= LatestSeq(b)
    requires RootAt(a, i) == RootAt(b, j)
    ensures i == j
    ensures forall k | 1 <= k <= i :: a[k] == b[k].(observedAt := a[k].observedAt)
  {
    if i == 0 || j == 0 {
      assert i in a ==> RecordOk(a, i);
      assert j in b ==> RecordOk(b, j);
    } else {
      assert RecordOk(a, i) && RecordOk(b, j);
      SameRootSameEvents(a, b, i - 1, j - 1);
    }
  }

  /**
   * The last root commits to the whole log: logs with equal last roots hold the same events
   * in the same order. Only the observation times, which are not hashed, may differ.
   */
  lemma LastRootCommitsToLog(a: Tables, b: Tables)
    requires LogOk(a.events) && LogOk(b.events)
    requires RootAt(a.events, LatestSeq(a.events)) == RootAt(b.events, LatestSeq(b.events))
    ensures |Log(a)| == |Log(b)|
    ensures forall i | 0 <= i < |Log(a)| ::
      Log(a)[i] == Log(b)[i].(observedAt := Log(a)[i].observedAt)
  {
    var n := LatestSeq(a.events);
    SameRootSameEvents(a.events, b.events, n, LatestSeq(b.events));
    LogLength(a.events, n);
    LogLength(b.events, n);
  }

  /** Every stored checkpoint names the root of the row it was taken at. */
  predicate CheckpointsOk(t: Tables) {
    forall k | k in t.checkpoints ::
      && k <= LatestSeq(t.events)
      && t.checkpoints[k].lastSeq == k
      && t.checkpoints[k].logRoot == RootAt(t.events, k)
  }

  lemma ExtensionKeepsRoots(a: EventTable, b: EventTable, k: nat)
    requires LogOk(a) && LogOk(b) && Extends(a, b) && k <= LatestSeq(a)
    ensures RootAt(b, k) == RootAt(a, k)
  {
    assert k >= 1 ==> k in a;
  }
}
