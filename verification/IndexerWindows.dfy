/** Block windows: they tile the chain from the start block to the cursor, and a backlog is worked off. */
module IndexerWindows {
  import opened Wrappers
  import opened EventProjector
  import opened Projection
  import opened IndexerSync
  import opened IndexerRuns
  import opened IndexerReorg
  import opened IndexerGrowth

  /** A completed window, with the span, the head and the confirmations in force when it was made. */
  datatype Window = Window(from: nat, to: nat, span: nat, head: nat, confirmations: nat)
  {
    /** Not longer than the span; up to the newest confirmed block, unless the span ends first; block 0 needs no more. */
    predicate Fits() {
      && from <= to < from + span
      && (if confirmations <= head
          then to + confirmations <= head && (to + confirmations == head || to + 1 == from + span)
          else to == 0)
    }
  }

  /** The windows completed by a sequence of rounds. */
  function Windows(rounds: seq<Round>): seq<Window>
    requires forall i | 0 <= i < |rounds| :: rounds[i].Proper()
  {
    if rounds == [] then []
    else
      var k := |rounds| - 1;
      Windows(rounds[..k]) + RoundWindow(IndexAfter(rounds[..k]), rounds[k])
  }

  function RoundWindow(s: Index, r: Round): seq<Window>
    requires r.Proper()
  {
    NewWindow(r.config, Entered(s, r), r.call)
  }

  /** A call completes a window when it moves the cursor. */
  function NewWindow(config: Config, s: Index, call: Call): seq<Window>
    requires config.maxBlockSpan > 0 && call.fork != []
  {
    var r := Sync(config, s, call);
    if r.completed && r.index.cursor.Some? && r.index.cursor != s.cursor then
      [Window(NextBlock(config, s), r.index.cursor.value.block, config.maxBlockSpan,
              HeadFor(s, call.fork, call.refresh).number, config.confirmations)]
    else []
  }

  predicate Tiles(start: nat, ws: seq<Window>, cursor: Option<Cursor>) {
    && (ws == [] <==> cursor.None?)
    && (ws != [] ==> ws[0].from == start && ws[|ws| - 1].to == cursor.value.block)
    && (forall i | 0 <= i < |ws| :: ws[i].Fits())
    && (forall i | 0 < i < |ws| :: ws[i].from == ws[i - 1].to + 1)
  }

  /** On a longer fork a round either leaves the cursor alone or moves it to the end of the next window. */
  lemma CursorMoves(start: nat, s: Index, f: Fork, r: Round)
    requires r.Proper() && r.config.startBlock == start && CursorOn(start, s, f) && f <= r.call.fork
    ensures var o := RoundSync(s, r); var from := NextFrom(start, s); var target := TargetBlock(r.config, RoundHead(s, r));
      && (from > target || !o.completed ==> o.index.cursor == s.cursor)
      && (from <= target && o.completed ==>
            o.index.cursor.Some? && o.index.cursor.value.block == WindowEnd(r.config, from, target))
      && CursorOn(start, o.index, if r.call.reach.NoHead? then f else r.call.fork)
  {
    hide WriteRecords, LoadSnapshot, StateAt, Pairs, InputsOf, PlannedReads, Covered, Checked, DetectsReorg;
    GrowthFindsNoReorg(start, s, f, r);
  }

  /** The fork of the last round that got a head. */
  function LastFork(rounds: seq<Round>): Fork {
    if rounds == [] then []
    else
      var k := |rounds| - 1;
      if rounds[k].call.reach.NoHead? then LastFork(rounds[..k]) else rounds[k].call.fork
  }

  lemma {:induction false} LastForkGrows(rounds: seq<Round>, k: nat)
    requires Growing(rounds) && k < |rounds|
    ensures LastFork(rounds[..k]) <= rounds[k].call.fork
    decreases k
  {
    if k > 0 {
      assert rounds[..k][..k - 1] == rounds[..k - 1] && rounds[..k][k - 1] == rounds[k - 1];
      LastForkGrows(rounds, k - 1);
    }
  }

  lemma {:induction false} CursorTracked(start: nat, rounds: seq<Round>)
    requires Served(start, rounds) && Growing(rounds)
    ensures CursorOn(start, IndexAfter(rounds), LastFork(rounds))
    decreases |rounds|
  {
    hide Served, Growing, CursorOn, RoundSync;
    ProperRounds(start, rounds);
    if rounds == [] {
      NothingOn(start);
    } else {
      var k := |rounds| - 1;
      ServedPrefix(start, rounds, k);
      GrowingPrefix(rounds, k);
      CursorTracked(start, rounds[..k]);
      LastForkGrows(rounds, k);
      LastStart(start, rounds);
      CursorMoves(start, IndexAfter(rounds[..k]), LastFork(rounds[..k]), rounds[k]);
    }
  }

  lemma NothingOn(start: nat)
    ensures CursorOn(start, EMPTY_INDEX, [])
  {
  }

  /**
   * On a fork that only grows, the completed windows tile start_block..cursor without gap or overlap; each ends at
   * the head minus the confirmations then configured, or where the span then configured ends before that.
   */
  lemma {:induction false} WindowsTile(start: nat, rounds: seq<Round>)
    requires Served(start, rounds) && Growing(rounds)
    ensures Tiles(start, Windows(rounds), IndexAfter(rounds).cursor)
    decreases |rounds|
  {
    hide Served, Growing, RoundSync, Tiles, RoundWindow, CursorOn;
    ProperRounds(start, rounds);
    if rounds == [] {
      NothingTiles(start);
    } else {
      var k := |rounds| - 1;
      ServedPrefix(start, rounds, k);
      GrowingPrefix(rounds, k);
      WindowsTile(start, rounds[..k]);
      CursorTracked(start, rounds[..k]);
      LastForkGrows(rounds, k);
      LastStart(start, rounds);
      NextTile(start, Windows(rounds[..k]), IndexAfter(rounds[..k]), LastFork(rounds[..k]), rounds[k]);
    }
  }

  lemma NothingTiles(start: nat)
    ensures Tiles(start, [], None)
  {
  }

  lemma NextTile(start: nat, ws: seq<Window>, s: Index, f: Fork, r: Round)
    requires r.Proper() && r.config.startBlock == start && CursorOn(start, s, f) && f <= r.call.fork
    requires Tiles(start, ws, s.cursor)
    ensures Tiles(start, ws + RoundWindow(s, r), RoundSync(s, r).index.cursor)
  {
    hide Sync;
    CursorMoves(start, s, f, r);
    var added := RoundWindow(s, r);
    assert added == [] ==> ws + added == ws;
  }

  // ----- the backlog -----

  function SyncAll(config: Config, s: Index, calls: seq<Call>): Index
    requires config.maxBlockSpan > 0 && forall i | 0 <= i < |calls| :: calls[i].fork != []
    decreases |calls|
  {
    if calls == [] then s else SyncAll(config, Sync(config, s, calls[0]).index, calls[1..])
  }

  /** Backlog calls: they reuse the cached head and run to their end. */
  predicate BacklogCalls(config: Config, s: Index, f: Fork, calls: seq<Call>)
    requires config.maxBlockSpan > 0
    decreases |calls|
  {
    calls != [] ==>
      && calls[0].fork == f && f != [] && !calls[0].refresh
      && Sync(config, s, calls[0]).completed
      && BacklogCalls(config, Sync(config, s, calls[0]).index, f, calls[1..])
  }

  /** The newest block with enough confirmations; a chain that is too short has only block 0. */
  predicate Newest(config: Config, head: Head, goal: nat) {
    if config.confirmations <= head.number then goal + config.confirmations == head.number else goal == 0
  }

  /**
   * With a fixed head, as many completed backlog calls as it takes spans to cover the rest bring the cursor to the
   * head minus the confirmations, and no further.
   */
  lemma {:induction false} BacklogDrains(config: Config, s: Index, f: Fork, calls: seq<Call>, goal: nat)
    requires config.maxBlockSpan > 0 && CursorOn(config.startBlock, s, f) && s.cachedHead.Some?
    requires forall i | 0 <= i < |calls| :: calls[i].fork == f && f != []
    requires BacklogCalls(config, s, f, calls) && Newest(config, s.cachedHead.value, goal)
    requires NextBlock(config, s) <= goal + 1 && NextBlock(config, s) + |calls| * config.maxBlockSpan > goal
    requires s.cursor.Some? || NextBlock(config, s) <= goal
    ensures var r := SyncAll(config, s, calls); r.cursor.Some? && r.cursor.value.block == goal
    decreases |calls|
  {
    hide Sync;
    if calls != [] {
      var r := Round(config, false, calls[0]);
      var s1 := Sync(config, s, calls[0]).index;
      assert RoundSync(s, r).index == s1;
      CursorMoves(config.startBlock, s, f, r);
      HeadKept(config, s, calls[0]);
      CompletedReaches(r, s);
      assert |calls| * config.maxBlockSpan == |calls[1..]| * config.maxBlockSpan + config.maxBlockSpan;
      BacklogDrains(config, s1, f, calls[1..], goal);
    }
  }

  lemma HeadKept(config: Config, s: Index, call: Call)
    requires call.fork != [] && config.maxBlockSpan > 0 && !call.refresh && s.cachedHead.Some?
    ensures Sync(config, s, call).index.cachedHead == s.cachedHead
  {
    hide WriteRecords, LoadSnapshot, StateAt, Pairs, InputsOf, PlannedReads, Covered;
  }
}
