/** A fork that only grows: the index agrees with the contract whatever calls stopped part way. */
module IndexerGrowth {
  import opened Wrappers
  import opened BnsModel
  import opened Projection
  import opened EventProjector
  import opened IndexerSync
  import opened IndexerAgreement
  import opened IndexerRuns
  import opened IndexerReorg

  predicate Growing(rounds: seq<Round>) {
    forall i, j | 0 <= i < j < |rounds| :: rounds[i].call.fork <= rounds[j].call.fork
  }

  /** No round completes before a block that was read for the tables. */
  predicate NeverBelow(start: nat, rounds: seq<Round>)
    requires forall i | 0 <= i < |rounds| :: rounds[i].Proper()
  {
    forall i | 0 <= i < |rounds| ::
      NotBelow(start, IndexAfter(rounds[..i]), WitnessOf(start, rounds[..i]), rounds[i])
  }

  /** On a longer fork the head is no lower, and the check finds the cursor block in place. */
  lemma GrowthFindsNoReorg(start: nat, s: Index, f: Fork, r: Round)
    requires r.Proper() && CursorOn(start, s, f) && f <= r.call.fork
    ensures OnFork(RoundHead(s, r), r.call.fork) && !DetectsReorg(s, r)
    ensures Entered(s, r).cachedHead.Some? ==> Entered(s, r).cachedHead.value.number <= RoundHead(s, r).number
    ensures Checked(Entered(s, r), r.call) == Success(s.(cachedHead := Some(RoundHead(s, r))))
    ensures CursorOn(start, s.(cachedHead := Some(RoundHead(s, r))), r.call.fork)
  {
  }

  lemma PrefixHashes(f: Fork, g: Fork)
    requires f <= g || g <= f
    ensures HashFixes(f, g)
  {
  }

  /** On a growing fork a round does harm only by completing below what was written. */
  lemma GrowthHarmless(start: nat, s: Index, w: Witness, r: Round)
    requires r.Proper() && Tracked(start, s, w) && w.fork <= r.call.fork && NotBelow(start, s, w, r)
    ensures Harmless(start, s, w, r) && OnFork(RoundHead(s, r), r.call.fork)
  {
    hide WrittenUpTo, NotBelow, DetectsReorg, Checked, RoundHead;
    GrowthFindsNoReorg(start, s, w.fork, r);
    if w.hi > NextFrom(start, s) {
      assert w.fork[..w.hi] == r.call.fork[..w.hi];
    }
  }

  /** The witness fork is a prefix of the fork of the next round. */
  lemma WitnessGrows(start: nat, rounds: seq<Round>, k: nat)
    requires (forall i | 0 <= i < |rounds| :: rounds[i].Proper()) && Growing(rounds) && k < |rounds|
    ensures WitnessOf(start, rounds[..k]).fork <= rounds[k].call.fork
  {
    hide WitnessOf;
    WitnessFork(start, rounds[..k]);
    var f := WitnessOf(start, rounds[..k]).fork;
    if f != [] {
      var i :| 0 <= i < k && f == rounds[..k][i].call.fork;
      assert rounds[i] == rounds[..k][i];
    }
  }

  lemma GrowingPrefix(rounds: seq<Round>, k: nat)
    requires Growing(rounds) && k <= |rounds|
    ensures Growing(rounds[..k])
  {
  }

  lemma GrowingHashes(rounds: seq<Round>)
    requires Growing(rounds)
    ensures HashesFixHistory(rounds)
  {
    hide HashFixes;
    forall i, j | 0 <= i < |rounds| && 0 <= j < |rounds|
      ensures HashFixes(rounds[i].call.fork, rounds[j].call.fork)
    {
      assert i == j || i < j || j < i;
      PrefixHashes(rounds[i].call.fork, rounds[j].call.fork);
    }
  }

  /** A run on a growing fork that never completes below what was written is sane. */
  lemma {:induction false} GrowingSane(start: nat, rounds: seq<Round>)
    requires Served(start, rounds) && Growing(rounds) && NeverBelow(start, rounds)
    ensures Sane(start, rounds)
    decreases |rounds|
  {
    hide Sane, Served, Growing, NotBelow, Harmless, OnFork, RoundHead, Tracked, HashesFixHistory, IndexAfter, WitnessOf;
    ProperRounds(start, rounds);
    if rounds == [] {
      NoRoundsSane(start);
    } else {
      var k := |rounds| - 1;
      ServedPrefix(start, rounds, k);
      GrowingPrefix(rounds, k);
      assert forall i | 0 <= i < k :: rounds[..k][..i] == rounds[..i] && rounds[..k][i] == rounds[i];
      GrowingSane(start, rounds[..k]);
      RunTracked(start, rounds[..k]);
      WitnessGrows(start, rounds, k);
      GrowthHarmless(start, IndexAfter(rounds[..k]), WitnessOf(start, rounds[..k]), rounds[k]);
      GrowingHashes(rounds);
      SaneExtends(start, rounds);
    }
  }

  /**
   * On a fork that only grows, with restarts and changing configurations, whatever earlier calls stopped part way:
   * after every call that completes at or after all that was written, the index agrees with the contract at the cursor.
   */
  lemma IndexAgrees(start: nat, rounds: seq<Round>, n: Name, now: nat)
    requires Served(start, rounds) && Growing(rounds) && NeverBelow(start, rounds) && rounds != []
    requires RoundSync(IndexAfter(rounds[..|rounds| - 1]), rounds[|rounds| - 1]).completed
    ensures ReflectsFor(IndexAfter(rounds), rounds[|rounds| - 1].call.fork, n, now)
  {
    hide Sane, Served, Growing, NeverBelow, ReflectsFor, RoundSync, IndexAfter;
    ProperRounds(start, rounds);
    GrowingSane(start, rounds);
    ReorgSafe(start, rounds, n, now);
  }

  // ----- configurations that do not shrink the window -----

  /** Neither a smaller span nor more confirmations. */
  predicate NoNarrower(a: Config, b: Config) {
    a.maxBlockSpan <= b.maxBlockSpan && b.confirmations <= a.confirmations
  }

  predicate Widening(rounds: seq<Round>) {
    forall i, j | 0 <= i < j < |rounds| :: NoNarrower(rounds[i].config, rounds[j].config)
  }

  lemma StopGrows(a: Config, b: Config, next: nat, h: Head, k: Head)
    requires 0 < a.maxBlockSpan && NoNarrower(a, b) && h.number <= k.number
    ensures WindowStop(a, next, h) <= WindowStop(b, next, k)
  {
  }

  /** The lowest head the next round can work with. */
  function HeadBound(s: Index, f: Fork): Head
    requires f != []
  {
    if s.cachedHead.Some? then s.cachedHead.value else LatestHead(f)
  }

  /** What was written lies inside the window that the configuration and the known head allow. */
  predicate Bounded(start: nat, s: Index, w: Witness, config: Config) {
    w.hi == NextFrom(start, s) ||
    (config.maxBlockSpan > 0 && w.fork != [] && w.hi <= WindowStop(config, NextFrom(start, s), HeadBound(s, w.fork)))
  }

  lemma BoundedNotBelow(start: nat, s: Index, w: Witness, config: Config, r: Round)
    requires r.Proper() && CursorOn(start, s, w.fork) && w.fork <= r.call.fork
    requires Bounded(start, s, w, config) && NoNarrower(config, r.config)
    ensures w.hi <= WindowStop(r.config, NextFrom(start, s), RoundHead(s, r)) && NotBelow(start, s, w, r)
  {
    hide WindowStop, RoundSync, Checked, DetectsReorg;
    if w.hi == NextFrom(start, s) {
      StopStarts(r.config, NextFrom(start, s), RoundHead(s, r));
    } else {
      HeadNotBelow(start, s, w.fork, r);
      StopGrows(config, r.config, NextFrom(start, s), HeadBound(s, w.fork), RoundHead(s, r));
    }
  }

  lemma StopStarts(config: Config, next: nat, head: Head)
    requires config.maxBlockSpan > 0
    ensures next <= WindowStop(config, next, head)
  {
  }

  lemma HeadNotBelow(start: nat, s: Index, f: Fork, r: Round)
    requires r.Proper() && CursorOn(start, s, f) && f <= r.call.fork && f != []
    ensures HeadBound(s, f).number <= RoundHead(s, r).number
  {
  }

  lemma RoundBounded(start: nat, s: Index, w: Witness, config: Config, r: Round)
    requires r.Proper() && r.config.startBlock == start && CursorOn(start, s, w.fork) && w.fork <= r.call.fork
    requires Bounded(start, s, w, config) && NoNarrower(config, r.config) && NextFrom(start, s) <= w.hi
    ensures Bounded(start, RoundSync(s, r).index, WitnessAfter(start, s, w, r), r.config)
  {
    hide WindowStop, DetectsReorg, SyncWindow, Checked;
    GrowthFindsNoReorg(start, s, w.fork, r);
    BoundedNotBelow(start, s, w, config, r);
    if r.call.reach.NoHead? {
      if w.hi != NextFrom(start, s) {
        StopGrows(config, r.config, NextFrom(start, s), HeadBound(s, w.fork), HeadBound(Entered(s, r), w.fork));
      }
    } else if !r.call.reach.NoCheck? {
      WindowKeeps(r.config, s.(cachedHead := Some(RoundHead(s, r))), RoundHead(s, r), r.call);
    }
  }

  /** A window that does not complete leaves cursor and head as they are. */
  lemma WindowKeeps(config: Config, s: Index, head: Head, call: Call)
    requires call.fork != [] && config.maxBlockSpan > 0
    ensures var r := SyncWindow(config, s, head, call);
      r.index.cachedHead == s.cachedHead && (!r.completed ==> r.index.cursor == s.cursor)
  {
    hide LoadSnapshot, Pairs, InputsOf, PlannedReads, StateAt, WriteRecords, Covered;
  }

  lemma {:induction false} WideningBounded(start: nat, rounds: seq<Round>, config: Config)
    requires Served(start, rounds) && Growing(rounds) && Widening(rounds)
    requires forall i | 0 <= i < |rounds| :: NoNarrower(rounds[i].config, config)
    ensures NeverBelow(start, rounds)
    ensures Bounded(start, IndexAfter(rounds), WitnessOf(start, rounds), config)
    decreases |rounds|
  {
    hide Served, Growing, NotBelow, Bounded, Tracked, WitnessAfter, RoundSync, Sane, IndexAfter, WitnessOf;
    ProperRounds(start, rounds);
    if rounds == [] {
      NothingBounded(start, config);
    } else {
      var k := |rounds| - 1;
      ServedPrefix(start, rounds, k);
      GrowingPrefix(rounds, k);
      assert forall i | 0 <= i < k :: rounds[..k][..i] == rounds[..i] && rounds[..k][i] == rounds[i];
      WideningBounded(start, rounds[..k], rounds[k].config);
      GrowingSane(start, rounds[..k]);
      RunTracked(start, rounds[..k]);
      WitnessGrows(start, rounds, k);
      var s, w := IndexAfter(rounds[..k]), WitnessOf(start, rounds[..k]);
      TrackedCursor(start, s, w);
      LastStart(start, rounds);
      LastRound(start, rounds);
      BoundedNotBelow(start, s, w, rounds[k].config, rounds[k]);
      RoundBounded(start, s, w, rounds[k].config, rounds[k]);
      BoundWidens(start, IndexAfter(rounds), WitnessOf(start, rounds), rounds[k].config, config);
    }
  }

  lemma NothingBounded(start: nat, config: Config)
    ensures Bounded(start, IndexAfter([]), WitnessOf(start, []), config)
  {
  }

  /** A run is its last round after the others. */
  lemma LastRound(start: nat, rounds: seq<Round>)
    requires rounds != [] && forall i | 0 <= i < |rounds| :: rounds[i].Proper()
    ensures var k := |rounds| - 1; var s, w := IndexAfter(rounds[..k]), WitnessOf(start, rounds[..k]);
      IndexAfter(rounds) == RoundSync(s, rounds[k]).index && WitnessOf(start, rounds) == WitnessAfter(start, s, w, rounds[k])
  {
    hide RoundSync, WitnessAfter;
  }

  lemma TrackedCursor(start: nat, s: Index, w: Witness)
    requires Tracked(start, s, w)
    ensures CursorOn(start, s, w.fork) && NextFrom(start, s) <= w.hi
  {
  }

  lemma LastStart(start: nat, rounds: seq<Round>)
    requires Served(start, rounds) && rounds != []
    ensures rounds[|rounds| - 1].config.startBlock == start
  {
  }

  lemma BoundWidens(start: nat, s: Index, w: Witness, a: Config, b: Config)
    requires Bounded(start, s, w, a) && NoNarrower(a, b)
    ensures Bounded(start, s, w, b)
  {
    hide WindowStop;
    if w.hi != NextFrom(start, s) {
      StopGrows(a, b, NextFrom(start, s), HeadBound(s, w.fork), HeadBound(s, w.fork));
    }
  }

  /**
   * A fixed configuration, or one that only widens the window, never completes below what was written: the index
   * agrees with the contract after every completed call, for any span, across stops and restarts.
   */
  lemma WideningAgrees(start: nat, rounds: seq<Round>, n: Name, now: nat)
    requires Served(start, rounds) && Growing(rounds) && Widening(rounds) && rounds != []
    requires RoundSync(IndexAfter(rounds[..|rounds| - 1]), rounds[|rounds| - 1]).completed
    ensures ReflectsFor(IndexAfter(rounds), rounds[|rounds| - 1].call.fork, n, now)
  {
    hide Served, Growing, NeverBelow, ReflectsFor, RoundSync, IndexAfter, Bounded, WitnessOf;
    ProperRounds(start, rounds);
    var last := rounds[|rounds| - 1].config;
    assert forall i | 0 <= i < |rounds| :: NoNarrower(rounds[i].config, last);
    WideningBounded(start, rounds, last);
    IndexAgrees(start, rounds, n, now);
  }
}
