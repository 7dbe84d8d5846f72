/** Reorgs: what a completed call leaves over changing forks, and exactly when a round keeps it so. */
module IndexerReorg {
  import opened Wrappers
  import opened BnsModel
  import opened EventProjector
  import opened IndexerSync
  import opened IndexerAgreement
  import opened IndexerRuns

  /**
   * Over any forks whose hashes fix their history, any configurations, restarts and stops, as long as every round is
   * harmless: after every completed call the store reflects only the fork that call saw.
   */
  lemma ReorgSafe(start: nat, rounds: seq<Round>, n: Name, now: nat)
    requires Sane(start, rounds) && rounds != []
    requires RoundSync(IndexAfter(rounds[..|rounds| - 1]), rounds[|rounds| - 1]).completed
    ensures ReflectsFor(IndexAfter(rounds), rounds[|rounds| - 1].call.fork, n, now)
  {
    hide Sane, Reflecting, ReflectsFor, RoundSync, IndexAfter, Tracked;
    assert forall i | 0 <= i < |rounds| :: rounds[i].Proper() by {
      SaneProper(start, rounds);
    }
    RunTracked(start, rounds);
    ReflectingMeans(start, IndexAfter(rounds), rounds[|rounds| - 1].call.fork, n, now);
  }

  // ----- the check -----

  /**
   * The projection is dropped exactly when the head differs from the cached one and the cursor block was replaced;
   * with an unchanged head nothing is compared at all. The check fails exactly when the fork cannot name the cursor
   * block, and otherwise keeps tables and cursor, with the hash filled in if there was none.
   */
  lemma ResetsExactlyWhen(s: Index, call: Call)
    requires call.fork != [] && s.cursor.Some?
    ensures var head := HeadFor(s, call.fork, call.refresh);
      Checked(s, call) == Success(Reset(s.(cachedHead := Some(head)))) <==>
      s.cachedHead != Some(head) && CursorReplaced(s, call.fork, head)
    ensures var head, at := HeadFor(s, call.fork, call.refresh), s.cursor.value.block;
      Checked(s, call).Failure? <==> s.cachedHead != Some(head) && |call.fork| <= at < head.number
    ensures var head, cursor := HeadFor(s, call.fork, call.refresh), s.cursor.value;
      Checked(s, call).Success? && (s.cachedHead == Some(head) || !CursorReplaced(s, call.fork, head)) ==>
        var hash := if cursor.block == head.number then head.hash
                    else if cursor.block < |call.fork| then call.fork[cursor.block].hash else "";
        var fills := s.cachedHead != Some(head) && cursor.hash.None?;
        Checked(s, call).value ==
        Index(s.tables, Some(if fills then Cursor(cursor.block, Some(hash)) else cursor), Some(head))
  {
    var head := HeadFor(s, call.fork, call.refresh);
    assert Reset(s.(cachedHead := Some(head))).cursor == None;
  }

  // ----- exactly when a round does no harm -----

  /**
   * A call that stops between caching a new head and the check leaves an index that reflects its fork exactly when
   * the cursor block was not replaced: the cached head will hide a replaced one from the next call.
   */
  lemma StopBeforeCheckExactlyWhen(start: nat, s: Index, f: Fork, r: Round)
    requires ProperRound(start, r) && Reflecting(start, s, f) && ForkOk(f) && HashFixes(f, r.call.fork)
    requires r.call.reach.NoCheck? && OnFork(RoundHead(s, r), r.call.fork)
    requires Entered(s, r).cachedHead != Some(RoundHead(s, r))
    ensures Reflecting(start, RoundSync(s, r).index, r.call.fork) <==>
            !CursorReplaced(Entered(s, r), r.call.fork, RoundHead(s, r))
  {
    hide InSync, WrittenUpTo, HashFixes, TablesOn, DeployedFrom;
    var e, g, head := Entered(s, r), r.call.fork, RoundHead(s, r);
    var w := Witness(f, NextFrom(start, s));
    InSyncTracked(start, s, f);
    RestartTracked(start, s, w, r);
    if !CursorReplaced(e, g, head) {
      CheckPasses(start, e, w, r.call);
      CleanInSync(start, e.(cachedHead := Some(head)), Witness(g, w.hi));
    }
  }

  /**
   * A completed window leaves an index that reflects its fork exactly when the tables it started from were on their
   * way to the window's end on that fork. Rows that an earlier, stopped call read at a later block, or on another
   * fork, are the ones that can fail this.
   */
  lemma CompletedWindowExactlyWhen(start: nat, s: Index, r: Round)
    requires ProperRound(start, r) && HonestRound(s, r) && OnFork(RoundHead(s, r), r.call.fork)
    requires RoundSync(s, r).completed && Checked(Entered(s, r), r.call).Success?
    requires NextFrom(start, Checked(Entered(s, r), r.call).value) <= TargetBlock(r.config, RoundHead(s, r))
    ensures var t := Checked(Entered(s, r), r.call).value; var next := NextFrom(start, t);
      var stop := WindowStop(r.config, next, RoundHead(s, r));
      && next <= stop <= |r.call.fork|
      && (Reflecting(start, RoundSync(s, r).index, r.call.fork) <==> WrittenUpTo(t.tables, r.call.fork, next, stop))
  {
    hide InSync, WrittenUpTo, Emits, RecordsIn, Covered, WriteWindow, DeployedFrom, ResetIfReorged;
    var t, f, head := Checked(Entered(s, r), r.call).value, r.call.fork, RoundHead(s, r);
    CheckedHead(Entered(s, r), r.call);
    var from := NextFrom(start, t);
    var to := WindowEnd(r.config, from, TargetBlock(r.config, head));
    CoveredByEmits(r.call.logs, RecordsIn(f, from, to + 1));
    WindowShape(t, head, to, r.call);
    WindowInSyncExactlyWhen(t, head, from, to, r.call);
  }

  /** The check leaves the head in the cache. */
  lemma CheckedHead(s: Index, call: Call)
    requires call.fork != [] && Checked(s, call).Success?
    ensures Checked(s, call).value.cachedHead == Some(HeadFor(s, call.fork, call.refresh))
  {
  }

  /** A run without stops is harmless, whatever its forks, restarts and configurations. */
  lemma {:induction false} CompleteRunsHarmless(start: nat, rounds: seq<Round>)
    requires Served(start, rounds) && HashesFixHistory(rounds) && OneForkPerCall(rounds)
    requires forall i | 0 <= i < |rounds| :: RoundSync(IndexAfter(rounds[..i]), rounds[i]).completed
    ensures Sane(start, rounds)
    ensures WitnessOf(start, rounds).hi == NextFrom(start, IndexAfter(rounds))
    decreases |rounds|
  {
    hide HonestRound, ProperRound, HashFixes, RoundHead, OnFork, RoundSync, Harmless, WitnessAfter, Sane;
    ProperRounds(start, rounds);
    if rounds == [] {
      NoRoundsSane(start);
    } else {
      var k := |rounds| - 1;
      assert forall i | 0 <= i < k :: rounds[..k][..i] == rounds[..i] && rounds[..k][i] == rounds[i];
      ServedPrefix(start, rounds, k);
      CompleteRunsHarmless(start, rounds[..k]);
      CompletedHarmless(start, IndexAfter(rounds[..k]), WitnessOf(start, rounds[..k]), rounds[k]);
      SaneExtends(start, rounds);
    }
  }

  lemma NoRoundsSane(start: nat)
    ensures Sane(start, [])
  {
  }

  /** From tables that hold no more than the cursor says, a round that completes is harmless. */
  lemma CompletedHarmless(start: nat, s: Index, w: Witness, r: Round)
    requires r.Proper() && w.hi == NextFrom(start, s) && RoundSync(s, r).completed
    ensures Harmless(start, s, w, r)
    ensures WitnessAfter(start, s, w, r).hi == NextFrom(start, RoundSync(s, r).index)
  {
    hide RoundSync, DetectsReorg, Shares, Checked;
    CompletedReaches(r, s);
  }

  lemma ProperRounds(start: nat, rounds: seq<Round>)
    requires Served(start, rounds)
    ensures forall i | 0 <= i < |rounds| :: rounds[i].Proper()
  {
  }

  lemma CompletedReaches(r: Round, s: Index)
    requires r.Proper() && RoundSync(s, r).completed
    ensures !r.call.reach.NoHead? && !r.call.reach.NoCheck? && Checked(Entered(s, r), r.call).Success?
  {
    hide SyncWindow, Checked;
  }
}
