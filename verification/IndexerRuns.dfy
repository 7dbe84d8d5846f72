/** Runs of the indexer over any forks, stops, restarts and configurations: what a completed call leaves. */
module IndexerRuns {
  import opened Wrappers
  import opened BnsModel
  import opened RegistryTables
  import opened Projection
  import opened Mirror
  import opened EventProjector
  import opened IndexerSync
  import opened IndexerAgreement

  predicate OnFork(head: Head, f: Fork) {
    head.number < |f| && f[head.number].hash == head.hash
  }

  // ----- what the chain serves -----

  /** Every round starts from the same block, is served a proper fork on which the contract starts empty, and gets the logs of its window. */
  predicate Served(start: nat, rounds: seq<Round>) {
    && (forall i | 0 <= i < |rounds| :: ProperRound(start, rounds[i]))
    && (forall i | 0 <= i < |rounds| :: HonestRound(IndexAfter(rounds[..i]), rounds[i]))
  }

  predicate ProperRound(start: nat, r: Round) {
    && r.Proper() && r.config.startBlock == start
    && ForkOk(r.call.fork) && DeployedFrom(r.call.fork, start)
  }

  predicate HonestRound(s: Index, r: Round)
    requires r.Proper()
  {
    Honest(r.config, Entered(s, r), r.call)
  }

  lemma ServedPrefix(start: nat, rounds: seq<Round>, k: nat)
    requires Served(start, rounds) && k <= |rounds|
    ensures Served(start, rounds[..k])
  {
    hide HonestRound, IndexAfter;
    assert forall i | 0 <= i < k :: rounds[..k][..i] == rounds[..i];
  }

  /** A block hash fixes all earlier blocks. */
  predicate HashFixes(f: Fork, g: Fork) {
    forall k | 0 <= k < |f| && k < |g| && f[k].hash == g[k].hash :: f[..k + 1] == g[..k + 1]
  }

  // ----- what a run has written -----

  /** The fork the tables were last written from, and the first block after all that was read for them. */
  datatype Witness = Witness(fork: Fork, hi: nat)

  /** The fork still has every block that was read for the tables. */
  predicate Shares(w: Witness, g: Fork) {
    w.hi <= |w.fork| && w.hi <= |g| && w.fork[..w.hi] == g[..w.hi]
  }

  function WitnessAfter(start: nat, s: Index, w: Witness, r: Round): Witness
    requires r.Proper()
  {
    var o := RoundSync(s, r);
    var entered := Entered(s, r);
    if r.call.reach.NoHead? then w
    else if r.call.reach.NoCheck? || Checked(entered, r.call).Failure? then Witness(r.call.fork, w.hi)
    else
      var checked := Checked(entered, r.call).value;
      var hi := if s.cursor.Some? && checked.cursor.None? then start else w.hi;
      if o.completed then Witness(r.call.fork, NextFrom(start, o.index))
      else if o.index.tables == checked.tables then Witness(r.call.fork, hi)
      else Witness(r.call.fork, Max(hi, WindowStop(r.config, NextFrom(start, checked), RoundHead(s, r))))
  }

  function WitnessOf(start: nat, rounds: seq<Round>): Witness
    requires forall i | 0 <= i < |rounds| :: rounds[i].Proper()
  {
    if rounds == [] then Witness([], start)
    else
      var k := |rounds| - 1;
      WitnessAfter(start, IndexAfter(rounds[..k]), WitnessOf(start, rounds[..k]), rounds[k])
  }

  // ----- the invariant -----

  /** Cursor and cached head lie on the fork, the cursor not above the head. */
  predicate CursorOn(start: nat, s: Index, f: Fork) {
    && (s.cachedHead.Some? ==> OnFork(s.cachedHead.value, f))
    && (s.cursor.Some? ==>
          && start <= s.cursor.value.block < |f|
          && s.cursor.value.hash == Some(f[s.cursor.value.block].hash)
          && (s.cachedHead.Some? ==> s.cursor.value.block <= s.cachedHead.value.number))
  }

  ghost predicate TablesOn(start: nat, s: Index, w: Witness) {
    var next := NextFrom(start, s);
    && next <= w.hi
    && (w.hi == next && s.cursor.None? ==> s.tables == EMPTY_TABLES)
    && (w.hi > next || s.cursor.Some? ==>
          ForkOk(w.fork) && w.hi <= |w.fork| && WrittenUpTo(s.tables, w.fork, next, w.hi))
    && (w.hi > next && s.cachedHead.Some? ==> w.hi <= s.cachedHead.value.number + 1)
  }

  ghost predicate Tracked(start: nat, s: Index, w: Witness) {
    CursorOn(start, s, w.fork) && TablesOn(start, s, w)
  }

  /** The index reflects the fork: empty, or in sync with the contract at a cursor that is on the fork. */
  ghost predicate Reflecting(start: nat, s: Index, f: Fork) {
    && CursorOn(start, s, f)
    && (s.cursor.None? ==> s.tables == EMPTY_TABLES)
    && (s.cursor.Some? ==> InSync(s.tables, f, s.cursor.value.block + 1))
  }

  /** The cursor block is above the head, or carries another hash than it had. */
  predicate CursorReplaced(s: Index, f: Fork, head: Head) {
    && s.cursor.Some?
    && (s.cursor.value.block > head.number
        || (s.cursor.value.hash.Some? && BlockHashAt(f, head, s.cursor.value.block).Some?
            && BlockHashAt(f, head, s.cursor.value.block) != s.cursor.value.hash))
  }

  /** The reorg check of the round finds the cursor block replaced. */
  predicate DetectsReorg(s: Index, r: Round)
    requires r.Proper()
  {
    var entered := Entered(s, r);
    entered.cachedHead != Some(RoundHead(s, r)) && CursorReplaced(entered, r.call.fork, RoundHead(s, r))
  }

  /**
   * A round that does no harm. When the check finds a reorg, the round must not stop before it. Otherwise the fork must
   * still have every block that was read for the tables, if they hold more than the cursor says; and a round that
   * completes must do so at a block that is not before them.
   */
  predicate Harmless(start: nat, s: Index, w: Witness, r: Round)
    requires r.Proper()
  {
    r.call.reach.NoHead? ||
    if DetectsReorg(s, r) then !r.call.reach.NoCheck?
    else
      && (w.hi == NextFrom(start, s) || Shares(w, r.call.fork))
      && NotBelow(start, s, w, r)
  }

  predicate NotBelow(start: nat, s: Index, w: Witness, r: Round)
    requires r.Proper()
  {
    RoundSync(s, r).completed ==> w.hi <= WindowStop(r.config, NextFrom(start, s), RoundHead(s, r))
  }

  // ----- one round -----

  lemma RestartTracked(start: nat, s: Index, w: Witness, r: Round)
    requires Tracked(start, s, w)
    ensures Tracked(start, Entered(s, r), w)
  {
    hide WrittenUpTo;
  }

  lemma SameWritten(t: Tables, f: Fork, g: Fork, next: nat, hi: nat)
    requires next <= hi <= |f| && hi <= |g| && f[..hi] == g[..hi] && WrittenUpTo(t, f, next, hi)
    ensures WrittenUpTo(t, g, next, hi)
  {
    hide Between, StateAt;
    assert f[..next] == f[..hi][..next] && g[..next] == g[..hi][..next];
    SharedPrefix(f, g, next);
    SharedPrefix(f, g, hi);
  }

  /** Without a reorg in sight, the cursor block is the same on the fork of the round. */
  lemma CursorKept(start: nat, s: Index, f: Fork, g: Fork, head: Head)
    requires CursorOn(start, s, f) && HashFixes(f, g) && OnFork(head, g)
    requires s.cachedHead == Some(head) || !CursorReplaced(s, g, head)
    ensures CursorOn(start, s.(cachedHead := Some(head)), g)
    ensures s.cursor.Some? ==> f[..s.cursor.value.block + 1] == g[..s.cursor.value.block + 1]
  {
    if s.cursor.Some? {
      var b := s.cursor.value.block;
      if s.cachedHead == Some(head) {
        assert f[..head.number + 1] == g[..head.number + 1];
        assert f[..b + 1] == f[..head.number + 1][..b + 1] && g[..b + 1] == g[..head.number + 1][..b + 1];
        assert f[b] == f[..b + 1][b] && g[b] == g[..b + 1][b];
      } else {
        assert f[b].hash == g[b].hash;
      }
    }
  }

  /** What the check lets through is tracked on the fork of the round. */
  lemma CheckPasses(start: nat, s: Index, w: Witness, call: Call)
    requires Tracked(start, s, w) && ForkOk(call.fork) && HashFixes(w.fork, call.fork)
    requires OnFork(HeadFor(s, call.fork, call.refresh), call.fork)
    requires var head := HeadFor(s, call.fork, call.refresh);
      s.cachedHead == Some(head) || !CursorReplaced(s, call.fork, head)
    requires w.hi == NextFrom(start, s) || Shares(w, call.fork)
    ensures var s1 := s.(cachedHead := Some(HeadFor(s, call.fork, call.refresh)));
      Checked(s, call) == Success(s1) && Tracked(start, s1, Witness(call.fork, w.hi))
  {
    hide WrittenUpTo;
    var g := call.fork;
    var head := HeadFor(s, g, call.refresh);
    var next := NextFrom(start, s);
    CursorKept(start, s, w.fork, g, head);
    if w.hi > next || s.cursor.Some? {
      SameWritten(s.tables, w.fork, g, next, w.hi);
    }
  }

  lemma CheckResets(start: nat, s: Index, call: Call)
    requires call.fork != [] && s.cachedHead != Some(HeadFor(s, call.fork, call.refresh))
    requires OnFork(HeadFor(s, call.fork, call.refresh), call.fork)
    requires CursorReplaced(s, call.fork, HeadFor(s, call.fork, call.refresh))
    ensures var s1 := Reset(s.(cachedHead := Some(HeadFor(s, call.fork, call.refresh))));
      Checked(s, call) == Success(s1) && Tracked(start, s1, Witness(call.fork, start)) && s.cursor.Some?
  {
    hide WrittenUpTo;
  }

  lemma CleanInSync(start: nat, s: Index, w: Witness)
    requires Tracked(start, s, w) && w.hi == NextFrom(start, s)
    ensures Reflecting(start, s, w.fork)
  {
    hide WrittenUpTo, InSync;
    if s.cursor.Some? {
      InSyncExactlyWhen(s.tables, w.fork, w.hi);
    }
  }

  lemma InSyncTracked(start: nat, s: Index, f: Fork)
    requires Reflecting(start, s, f) && ForkOk(f)
    ensures Tracked(start, s, Witness(f, NextFrom(start, s)))
  {
    hide WrittenUpTo, InSync;
    if s.cursor.Some? {
      InSyncExactlyWhen(s.tables, f, s.cursor.value.block + 1);
    }
  }

  lemma EmptyWritten(f: Fork, start: nat)
    requires ForkOk(f) && start <= |f| && DeployedFrom(f, start)
    ensures WrittenUpTo(EMPTY_TABLES, f, start, start)
  {
    assert InSync(EMPTY_TABLES, f, start);
    hide InSync, WrittenUpTo;
    InSyncExactlyWhen(EMPTY_TABLES, f, start);
  }

  /** The tables of a tracked index are on their way on its fork, from a start where the contract is empty too. */
  lemma TrackedWritten(start: nat, s: Index, w: Witness)
    requires Tracked(start, s, w) && ForkOk(w.fork) && DeployedFrom(w.fork, start) && NextFrom(start, s) <= |w.fork|
    ensures w.hi <= |w.fork| && WrittenUpTo(s.tables, w.fork, NextFrom(start, s), w.hi)
  {
    hide WrittenUpTo, DeployedFrom;
    if w.hi == NextFrom(start, s) && s.cursor.None? {
      EmptyWritten(w.fork, start);
    }
  }

  /** The window of a tracked index, stopped or completed. */
  lemma WindowTracked(start: nat, config: Config, s: Index, hi: nat, head: Head, call: Call)
    requires config.maxBlockSpan > 0 && config.startBlock == start
    requires ForkOk(call.fork) && DeployedFrom(call.fork, start)
    requires Tracked(start, s, Witness(call.fork, hi)) && s.cachedHead == Some(head)
    requires var from := NextFrom(start, s); var to := WindowEnd(config, from, TargetBlock(config, head));
      from <= TargetBlock(config, head) && to < |call.fork| ==> Emits(call.logs, RecordsIn(call.fork, from, to + 1))
    requires SyncWindow(config, s, head, call).completed ==> hi <= WindowStop(config, NextFrom(start, s), head)
    ensures var r := SyncWindow(config, s, head, call); var stop := WindowStop(config, NextFrom(start, s), head);
      if r.completed then Reflecting(start, r.index, call.fork) && NextFrom(start, r.index) == stop
      else if r.index.tables == s.tables then Tracked(start, r.index, Witness(call.fork, hi))
      else Tracked(start, r.index, Witness(call.fork, Max(hi, stop)))
  {
    hide WrittenUpTo, InSync, Emits, Covered, RecordsIn, WriteWindow, DeployedFrom;
    var f := call.fork;
    var from := NextFrom(start, s);
    var target := TargetBlock(config, head);
    if from > target {
      if hi == from {
        CleanInSync(start, s, Witness(f, hi));
      }
    } else {
      var to := WindowEnd(config, from, target);
      TrackedWritten(start, s, Witness(f, hi));
      CoveredByEmits(call.logs, RecordsIn(f, from, to + 1));
      WindowWrites(s, head, from, hi, to, call);
      WindowShape(s, head, to, call);
      if WriteWindow(s, head, to, call).completed {
        WrittenWidens(s.tables, f, from, hi, to + 1);
        WindowInSyncExactlyWhen(s, head, from, to, call);
      }
    }
  }

  lemma CoveredByEmits(logs: seq<ContractEvent>, w: RegistryHistory.Records)
    requires Emits(logs, w)
    ensures Covered(logs)
  {
  }

  /** A window changes the tables, and the cursor when it completes. */
  lemma WindowShape(s: Index, head: Head, to: nat, call: Call)
    requires to < |call.fork| && Covered(call.logs)
    ensures var r := WriteWindow(s, head, to, call);
      r.index == if r.completed
                 then s.(tables := r.index.tables, cursor := Some(Cursor(to, BlockHashAt(call.fork, head, to))))
                 else s.(tables := r.index.tables)
    ensures WriteWindow(s, head, to, call).completed ==> BlockHashAt(call.fork, head, to).Some?
  {
    hide LoadSnapshot, Pairs, InputsOf, PlannedReads, StateAt, WriteRecords;
  }

  /** A harmless round keeps the index tracked, and a completed one makes it reflect its fork. */
  lemma RoundTracked(start: nat, s: Index, w: Witness, r: Round)
    requires ProperRound(start, r) && HonestRound(s, r)
    requires Tracked(start, s, w) && HashFixes(w.fork, r.call.fork)
    requires r.call.reach.NoHead? || OnFork(RoundHead(s, r), r.call.fork)
    requires Harmless(start, s, w, r)
    ensures Tracked(start, RoundSync(s, r).index, WitnessAfter(start, s, w, r))
    ensures RoundSync(s, r).completed ==> Reflecting(start, RoundSync(s, r).index, r.call.fork)
  {
    hide Tracked, Reflecting, Emits, RecordsIn, SyncWindow, HashFixes, Checked, Shares, DeployedFrom, CursorReplaced;
    RestartTracked(start, s, w, r);
    var e := Entered(s, r);
    var head := RoundHead(s, r);
    if r.call.reach.NoHead? {
    } else if DetectsReorg(s, r) {
      CheckResets(start, e, r.call);
      var s1 := Reset(e.(cachedHead := Some(head)));
      WindowTracked(start, r.config, s1, start, head, r.call);
      ReflectingTracked(start, s, w, r);
    } else {
      CheckPasses(start, e, w, r.call);
      if !r.call.reach.NoCheck? {
        WindowTracked(start, r.config, e.(cachedHead := Some(head)), w.hi, head, r.call);
        ReflectingTracked(start, s, w, r);
      }
    }
  }

  lemma ReflectingTracked(start: nat, s: Index, w: Witness, r: Round)
    requires ProperRound(start, r)
    ensures RoundSync(s, r).completed && Reflecting(start, RoundSync(s, r).index, r.call.fork) ==>
      Tracked(start, RoundSync(s, r).index, Witness(r.call.fork, NextFrom(start, RoundSync(s, r).index)))
  {
    hide Reflecting, Tracked, RoundSync;
    if RoundSync(s, r).completed && Reflecting(start, RoundSync(s, r).index, r.call.fork) {
      InSyncTracked(start, RoundSync(s, r).index, r.call.fork);
    }
  }

  // ----- all runs -----

  /** The forks of the rounds are related: equal hashes mean equal histories. */
  predicate HashesFixHistory(rounds: seq<Round>) {
    forall i, j | 0 <= i < |rounds| && 0 <= j < |rounds| :: HashFixes(rounds[i].call.fork, rounds[j].call.fork)
  }

  /** Each call reads one fork, and the head it works with is on it. */
  predicate OneForkPerCall(rounds: seq<Round>)
    requires forall i | 0 <= i < |rounds| :: rounds[i].Proper()
  {
    forall i | 0 <= i < |rounds| ::
      rounds[i].call.reach.NoHead? || OnFork(RoundHead(IndexAfter(rounds[..i]), rounds[i]), rounds[i].call.fork)
  }

  predicate AllHarmless(start: nat, rounds: seq<Round>)
    requires forall i | 0 <= i < |rounds| :: rounds[i].Proper()
  {
    forall i | 0 <= i < |rounds| ::
      Harmless(start, IndexAfter(rounds[..i]), WitnessOf(start, rounds[..i]), rounds[i])
  }

  /** What a run must meet for its completed calls to leave the contract's rows. */
  predicate Sane(start: nat, rounds: seq<Round>) {
    && Served(start, rounds) && HashesFixHistory(rounds)
    && OneForkPerCall(rounds) && AllHarmless(start, rounds)
  }

  lemma SanePrefix(start: nat, rounds: seq<Round>, k: nat)
    requires Sane(start, rounds) && k <= |rounds|
    ensures Sane(start, rounds[..k])
  {
    hide HonestRound, IndexAfter, WitnessOf, Harmless, HashFixes, RoundHead, OnFork;
    ServedPrefix(start, rounds, k);
    assert forall i | 0 <= i < k :: rounds[..k][..i] == rounds[..i];
  }

  /** The witness fork is the fork of one of the rounds, or there is none yet. */
  lemma {:induction false} WitnessFork(start: nat, rounds: seq<Round>)
    requires forall i | 0 <= i < |rounds| :: rounds[i].Proper()
    ensures WitnessOf(start, rounds).fork == []
         || exists i | 0 <= i < |rounds| :: WitnessOf(start, rounds).fork == rounds[i].call.fork
    decreases |rounds|
  {
    hide RoundSync, Checked, WindowStop;
    if rounds != [] {
      var k := |rounds| - 1;
      WitnessFork(start, rounds[..k]);
      if WitnessOf(start, rounds).fork != rounds[k].call.fork && WitnessOf(start, rounds).fork != [] {
        var i :| 0 <= i < k && WitnessOf(start, rounds[..k]).fork == rounds[..k][i].call.fork;
        assert rounds[i] == rounds[..k][i];
      }
    }
  }

  lemma NothingTracked(start: nat)
    ensures Tracked(start, EMPTY_INDEX, Witness([], start))
  {
  }

  lemma {:induction false} RunTracked(start: nat, rounds: seq<Round>)
    requires Sane(start, rounds)
    ensures Tracked(start, IndexAfter(rounds), WitnessOf(start, rounds))
    ensures rounds != [] && RoundSync(IndexAfter(rounds[..|rounds| - 1]), rounds[|rounds| - 1]).completed ==>
      Reflecting(start, IndexAfter(rounds), rounds[|rounds| - 1].call.fork)
    decreases |rounds|
  {
    hide Sane, Tracked, Reflecting, HonestRound, ProperRound, Harmless, WitnessAfter, RoundSync, HashFixes, OnFork, RoundHead;
    SaneProper(start, rounds);
    if rounds == [] {
      NothingTracked(start);
    } else {
      var k := |rounds| - 1;
      SanePrefix(start, rounds, k);
      RunTracked(start, rounds[..k]);
      SaneRound(start, rounds, k);
      RoundTracked(start, IndexAfter(rounds[..k]), WitnessOf(start, rounds[..k]), rounds[k]);
    }
  }

  /** What a sane run says about one of its rounds. */
  lemma SaneRound(start: nat, rounds: seq<Round>, k: nat)
    requires Sane(start, rounds) && k < |rounds|
    ensures ProperRound(start, rounds[k]) && HonestRound(IndexAfter(rounds[..k]), rounds[k])
    ensures HashFixes(WitnessOf(start, rounds[..k]).fork, rounds[k].call.fork)
    ensures rounds[k].call.reach.NoHead? || OnFork(RoundHead(IndexAfter(rounds[..k]), rounds[k]), rounds[k].call.fork)
    ensures Harmless(start, IndexAfter(rounds[..k]), WitnessOf(start, rounds[..k]), rounds[k])
  {
    hide HonestRound, IndexAfter, WitnessOf, HashFixes, Harmless, OnFork, RoundHead, ForkOk, DeployedFrom;
    WitnessFork(start, rounds[..k]);
    var f := WitnessOf(start, rounds[..k]).fork;
    if f == [] {
      NoHashes(rounds[k].call.fork);
    } else {
      var i :| 0 <= i < k && f == rounds[..k][i].call.fork;
      assert rounds[i] == rounds[..k][i];
      assert HashFixes(rounds[i].call.fork, rounds[k].call.fork);
    }
  }

  lemma NoHashes(g: Fork)
    ensures HashFixes([], g)
  {
  }

  // ----- what a reader sees -----

  /** The contract's rows and log, and from then on its answers about name n. */
  ghost predicate Agrees(t: Tables, c: Tables, since: nat, n: Name, now: nat) {
    && t.documents == c.documents
    && t.sets == c.sets
    && t.events.Keys == c.events.Keys
    && (forall k | k in c.events :: SameRecord(t.events[k], c.events[k]))
    && SameNameAt(t, c, n, since)
    && (since <= now ==> ReadName(t, n, now) == ReadName(c, n, now))
  }

  lemma InSyncAgrees(t: Tables, f: Fork, at: nat, n: Name, now: nat)
    requires at <= |f| && InSync(t, f, at)
    ensures Agrees(t, StateAt(f, at), TimeAt(f, at), n, now)
  {
    hide SameRow, ReadName, StateAt;
    if TimeAt(f, at) <= now {
      MirrorsAnswerAlike(t, StateAt(f, at), TimeAt(f, at), n, now);
    }
  }

  /** The store reflects the fork as far as name n and time now can tell: nothing yet, or the contract at the cursor. */
  ghost predicate ReflectsFor(s: Index, f: Fork, n: Name, now: nat) {
    match s.cursor
    case None => s.tables == EMPTY_TABLES
    case Some(cursor) =>
      && cursor.block < |f|
      && cursor.hash == Some(f[cursor.block].hash)
      && Agrees(s.tables, StateAt(f, cursor.block + 1), TimeAt(f, cursor.block + 1), n, now)
  }

  lemma ReflectingMeans(start: nat, s: Index, f: Fork, n: Name, now: nat)
    requires Reflecting(start, s, f)
    ensures ReflectsFor(s, f, n, now)
  {
    hide InSync, Agrees, StateAt;
    if s.cursor.Some? {
      InSyncAgrees(s.tables, f, s.cursor.value.block + 1, n, now);
    }
  }

  /** A sane run goes on with a round whose head is on its fork and that does no harm. */
  lemma SaneExtends(start: nat, rounds: seq<Round>)
    requires rounds != [] && Served(start, rounds) && HashesFixHistory(rounds) && Sane(start, rounds[..|rounds| - 1])
    requires var k := |rounds| - 1; var s := IndexAfter(rounds[..k]);
      && (rounds[k].call.reach.NoHead? || OnFork(RoundHead(s, rounds[k]), rounds[k].call.fork))
      && Harmless(start, s, WitnessOf(start, rounds[..k]), rounds[k])
    ensures Sane(start, rounds)
  {
    hide HonestRound, IndexAfter, WitnessOf, HashFixes, Harmless, OnFork, RoundHead;
    var k := |rounds| - 1;
    assert forall i | 0 <= i < k :: rounds[..k][..i] == rounds[..i] && rounds[..k][i] == rounds[i];
    forall i | 0 <= i < |rounds|
      ensures rounds[i].call.reach.NoHead? || OnFork(RoundHead(IndexAfter(rounds[..i]), rounds[i]), rounds[i].call.fork)
      ensures Harmless(start, IndexAfter(rounds[..i]), WitnessOf(start, rounds[..i]), rounds[i])
    {
      if i < k {
        SaneRound(start, rounds[..k], i);
      }
    }
  }

  lemma SaneProper(start: nat, rounds: seq<Round>)
    requires Sane(start, rounds)
    ensures forall i | 0 <= i < |rounds| :: rounds[i].Proper()
  {
  }
}
