/** Replaying a window of the contract log, in full or part way, from clean or half-written tables. */
module WindowReplay {
  import opened Wrappers
  import opened BnsModel
  import opened RegistryTables
  import opened RegistryLog
  import opened RegistryHistory
  import opened RegistryInvariants
  import opened RegistryEvolution
  import opened Projection
  import opened Mirror

  /** Projected records carry the events, numbers and roots of the log; their own hash and time may differ. */
  predicate Carries(inputs: seq<Input>, w: Records) {
    |inputs| == |w| && forall i | 0 <= i < |w| :: SameRecord(inputs[i].record, w[i])
  }

  /** u is what the first m records make of t, with values read from c. */
  ghost predicate Replays(
    t: Tables, snap: Snapshot, inputs: seq<Input>, w: Records, c: Tables, now: nat, m: nat, u: Tables)
  {
    && Carries(inputs, w)
    && m <= |w|
    && ReadFrom(snap, c, now)
    && Replay(t, snap, inputs[..m]) == Success(u)
  }

  lemma LastStep(t: Tables, snap: Snapshot, inputs: seq<Input>, w: Records, c: Tables, now: nat, m: nat, u: Tables)
    returns (before: Tables, with: Tables, write: Write)
    requires Replays(t, snap, inputs, w, c, now, m, u) && m > 0
    ensures Replays(t, snap, inputs, w, c, now, m - 1, before)
    ensures with == before.(events := with.events)
    ensures exists r :: SameRecord(r, w[m - 1]) && with.events == before.events[r.seq_ := r]
    ensures Reflects(write, w[m - 1].event, c, now) && u == ApplyWrite(with, write)
    ensures w[..m] == w[..m - 1] + [w[m - 1]]
  {
    hide ReadFrom, ProjectionFor, ApplyWrite, Reflects;
    assert inputs[..m][..m - 1] == inputs[..m - 1];
    before := Replay(t, snap, inputs[..m - 1]).value;
    var input := inputs[m - 1];
    with := before.(events := before.events[input.record.seq_ := input.record]);
    write := ProjectionFor(snap, input).value;
    WriteReflects(snap, input, c, now);
  }

  lemma {:induction false} ReplayName(
    t: Tables, snap: Snapshot, inputs: seq<Input>, w: Records, c: Tables, now: nat, m: nat, u: Tables, n: Name)
    requires Replays(t, snap, inputs, w, c, now, m, u)
    ensures if NamePushed(w[..m], n) && n in c.names
      then n in u.names && SameRow(u.names[n], c.names[n], now)
      else SameName(t, u, n)
    decreases m
  {
    hide ReadFrom, Reflects, ApplyWrite, SameRow;
    if m > 0 {
      var before, with, write := LastStep(t, snap, inputs, w, c, now, m, u);
      ReplayName(t, snap, inputs, w, c, now, m - 1, before, n);
      StepName(with, write, w[m - 1].event, c, now, n);
      PushedAcross(w[..m - 1], [w[m - 1]], n, DocumentKey(n, "", 0));
      assert NamePushed([w[m - 1]], n) <==> PushesName(w[m - 1].event, n) by {
        assert [w[m - 1]][0] == w[m - 1];
      }
    }
  }

  lemma {:induction false} ReplayDocument(
    t: Tables, snap: Snapshot, inputs: seq<Input>, w: Records, c: Tables, now: nat, m: nat, u: Tables, k: DocumentKey)
    requires Replays(t, snap, inputs, w, c, now, m, u)
    ensures if DocumentPushed(w[..m], k) && k in c.documents
      then k in u.documents && u.documents[k].state == c.documents[k].state
      else SameDocument(t, u, k)
    decreases m
  {
    hide ReadFrom, Reflects, ApplyWrite;
    if m > 0 {
      var before, with, write := LastStep(t, snap, inputs, w, c, now, m, u);
      ReplayDocument(t, snap, inputs, w, c, now, m - 1, before, k);
      StepDocument(with, write, w[m - 1].event, c, now, k);
      PushedAcross(w[..m - 1], [w[m - 1]], k.name, k);
      assert DocumentPushed([w[m - 1]], k) <==> PushesDocument(w[m - 1].event, k) by {
        assert [w[m - 1]][0] == w[m - 1];
      }
    }
  }

  /** The last event about the authority set decides whether it is stored. */
  lemma {:induction false} ReplaySet(
    t: Tables, snap: Snapshot, inputs: seq<Input>, w: Records, c: Tables, now: nat, m: nat, u: Tables,
    base: Records, n: Name)
    requires Replays(t, snap, inputs, w, c, now, m, u)
    ensures if SetPushed(w[..m], n)
      then (n in u.sets <==> LogHasSet(base + w[..m], n)) && (n in u.sets ==> u.sets[n] == AuthoritySetOf(c, n))
      else SameSet(t, u, n)
    decreases m
  {
    hide ReadFrom, Reflects, ApplyWrite, AuthoritySetOf;
    if m > 0 {
      var before, with, write := LastStep(t, snap, inputs, w, c, now, m, u);
      ReplaySet(t, snap, inputs, w, c, now, m - 1, before, base, n);
      StepSet(with, write, w[m - 1].event, c, now, n);
      PushedAcross(w[..m - 1], [w[m - 1]], n, DocumentKey(n, "", 0));
      assert SetPushed([w[m - 1]], n) <==> PushesSet(w[m - 1].event, n) by {
        assert [w[m - 1]][0] == w[m - 1];
      }
      assert base + w[..m] == base + w[..m - 1] + [w[m - 1]];
      LogPush(base + w[..m - 1], w[m - 1]);
    }
  }

  // ----- event records -----

  predicate Numbered(w: Records, s: nat) {
    exists i | 0 <= i < |w| :: w[i].seq_ == s
  }

  /** Every record of the window is in the log. */
  predicate Logged(w: Records, log: EventTable) {
    forall i | 0 <= i < |w| :: w[i].seq_ in log && log[w[i].seq_] == w[i]
  }

  lemma WriteKeepsEvents(t: Tables, w: Write)
    ensures ApplyWrite(t, w).events == t.events
  {
  }

  lemma NumberedLast(w: Records, r: EventRecord, s: nat)
    ensures Numbered(w + [r], s) <==> Numbered(w, s) || r.seq_ == s
  {
    assert (w + [r])[|w|] == r;
    assert forall i | 0 <= i < |w| :: (w + [r])[i] == w[i];
  }

  lemma {:induction false} ReplayEvent(
    t: Tables, snap: Snapshot, inputs: seq<Input>, w: Records, c: Tables, now: nat, m: nat, u: Tables, s: nat)
    requires Replays(t, snap, inputs, w, c, now, m, u) && Logged(w, c.events)
    ensures if Numbered(w[..m], s)
      then s in u.events && s in c.events && SameRecord(u.events[s], c.events[s])
      else (s in u.events <==> s in t.events) && (s in u.events ==> u.events[s] == t.events[s])
    decreases m
  {
    hide ReadFrom, Reflects, ApplyWrite, Numbered;
    if m > 0 {
      var before, with, write := LastStep(t, snap, inputs, w, c, now, m, u);
      ReplayEvent(t, snap, inputs, w, c, now, m - 1, before, s);
      WriteKeepsEvents(with, write);
      NumberedLast(w[..m - 1], w[m - 1], s);
    } else {
      assert !Numbered(w[..m], s) by { NoneNumbered(s); }
    }
  }

  lemma NoneNumbered(s: nat)
    ensures !Numbered([], s)
  {
  }

  // ----- current flags -----

  /** What the contract guarantees about the document in the state the window ends with. */
  ghost predicate Settled(base: Records, w: Records, c: Tables, n: Name, ty: DocType) {
    && DocumentsMatch(c.documents, base + w, n, ty)
    && VersionsInOrder(base + w)
    && PaymentsInOrder(base + w)
  }

  lemma TailMoves(w: Records, m: nat, n: Name, ty: DocType)
    requires m < |w|
    ensures FlagMoved(w[m..], n, ty) <==> MovesFlag(w[m].event, n, ty) || FlagMoved(w[m + 1..], n, ty)
  {
    var x, y := w[m..], w[m + 1..];
    assert x[0] == w[m];
    assert forall i | 0 <= i < |y| :: y[i] == x[i + 1];
    assert forall i | 0 < i < |x| :: x[i] == y[i - 1];
  }

  lemma {:induction false} QuietTail(base: Records, w: Records, m: nat, n: Name, ty: DocType)
    requires m <= |w| && !FlagMoved(w[m..], n, ty)
    ensures LogCurrent(base + w, n, ty) == LogCurrent(base + w[..m], n, ty)
    ensures LogLatest(base + w, n, ty) == LogLatest(base + w[..m], n, ty)
    decreases |w| - m
  {
    if m == |w| {
      assert w[..m] == w;
    } else {
      TailMoves(w, m, n, ty);
      QuietTail(base, w, m + 1, n, ty);
      assert base + w[..m + 1] == base + w[..m] + [w[m]];
      LogPush(base + w[..m], w[m]);
    }
  }

  /**
   * Once the last event that moves the flag is replayed, the flags are those of the contract's log,
   * whatever higher versions an earlier, interrupted replay left behind.
   */
  lemma {:induction false} ReplayFlags(
    t: Tables, snap: Snapshot, inputs: seq<Input>, w: Records, c: Tables, now: nat, m: nat, u: Tables,
    base: Records, n: Name, ty: DocType)
    requires Replays(t, snap, inputs, w, c, now, m, u)
    requires Settled(base, w, c, n, ty) && t.documents.Keys <= c.documents.Keys
    requires !FlagMoved(w[m..], n, ty)
    requires FlagTouched(w[..m], n, ty) || FlagsAre(t.documents, n, ty, LogCurrent(base, n, ty))
    ensures FlagsAre(u.documents, n, ty, LogCurrent(base + w, n, ty))
    decreases m
  {
    hide ReadFrom, Reflects, ApplyWrite, FlagMoved, DocumentsMatch, PaymentsInOrder, VersionsInOrder;
    if m == 0 {
      assert w[m..] == w;
      QuietTail(base, w, 0, n, ty);
      assert base + w[..0] == base;
    } else {
      var e := w[m - 1].event;
      var before, with, write := LastStep(t, snap, inputs, w, c, now, m, u);
      KeysStayKnown(t, snap, inputs, w, c, now, m - 1, before);
      TailMoves(w, m - 1, n, ty);
      QuietTail(base, w, m, n, ty);
      assert base + w[..m] == base + w[..m - 1] + [w[m - 1]];
      LogPush(base + w[..m - 1], w[m - 1]);
      if Registers(e, n) {
        NoVersionZero(base, w, c, n, ty);
        StepClearsFlags(with, write, e, c, now, n, ty);
      } else if Rewrites(e, n, ty) {
        WrittenIsHighest(base, w, c, m, n, ty);
        StepTakesFlag(with, write, e, c, now, n, ty);
      } else {
        PrefixTouches(w, m, n, ty);
        ReplayFlags(t, snap, inputs, w, c, now, m - 1, before, base, n, ty);
        StepKeepsFlags(with, write, e, c, now, n, ty, LogCurrent(base + w, n, ty));
      }
    }
  }

  lemma PrefixTouches(w: Records, m: nat, n: Name, ty: DocType)
    requires 0 < m <= |w|
    ensures FlagTouched(w[..m], n, ty) <==> FlagTouched(w[..m - 1], n, ty) || TouchesFlag(w[m - 1].event, n, ty)
  {
    var x, y := w[..m], w[..m - 1];
    assert x[m - 1] == w[m - 1];
    assert forall i | 0 <= i < |y| :: y[i] == x[i];
    assert forall i | 0 <= i < m - 1 :: x[i] == y[i];
  }

  /** Flags that no event touches stay as they are. */
  lemma {:induction false} ReplayKeepsFlags(
    t: Tables, snap: Snapshot, inputs: seq<Input>, w: Records, c: Tables, now: nat, m: nat, u: Tables,
    n: Name, ty: DocType, current: nat)
    requires Replays(t, snap, inputs, w, c, now, m, u) && !FlagTouched(w[..m], n, ty)
    ensures FlagsAre(t.documents, n, ty, current) <==> FlagsAre(u.documents, n, ty, current)
    decreases m
  {
    hide ReadFrom, Reflects, ApplyWrite, FlagTouched;
    if m > 0 {
      var before, with, write := LastStep(t, snap, inputs, w, c, now, m, u);
      PrefixTouches(w, m, n, ty);
      ReplayKeepsFlags(t, snap, inputs, w, c, now, m - 1, before, n, ty, current);
      StepKeepsFlags(with, write, w[m - 1].event, c, now, n, ty, current);
    }
  }

  lemma KeysStayKnown(
    t: Tables, snap: Snapshot, inputs: seq<Input>, w: Records, c: Tables, now: nat, m: nat, u: Tables)
    requires Replays(t, snap, inputs, w, c, now, m, u)
    requires t.documents.Keys <= c.documents.Keys
    ensures u.documents.Keys <= c.documents.Keys
  {
    hide Replays;
    forall k | k in u.documents
      ensures k in c.documents
    {
      ReplayDocument(t, snap, inputs, w, c, now, m, u, k);
    }
  }

  lemma NoVersionZero(base: Records, w: Records, c: Tables, n: Name, ty: DocType)
    requires Settled(base, w, c, n, ty)
    ensures DocumentKey(n, ty, 0) !in c.documents
  {
  }

  /** After the last move of the flag, the version an event writes is the current and highest one. */
  lemma WrittenIsHighest(base: Records, w: Records, c: Tables, m: nat, n: Name, ty: DocType)
    requires 0 < m <= |w| && Settled(base, w, c, n, ty) && !FlagMoved(w[m..], n, ty)
    requires Rewrites(w[m - 1].event, n, ty)
    ensures var e := w[m - 1].event;
      && e.version == LogCurrent(base + w, n, ty)
      && EventKey(e) in c.documents
      && forall v: nat | DocumentKey(n, ty, v) in c.documents :: v <= e.version
  {
    var e := w[m - 1].event;
    QuietTail(base, w, m, n, ty);
    assert base + w[..m] == base + w[..m - 1] + [w[m - 1]];
    LogPush(base + w[..m - 1], w[m - 1]);
    var i := |base| + m - 1;
    assert (base + w)[i] == w[m - 1] && (base + w)[..i] == base + w[..m - 1];
    if e.PaymentTargetUpdated? {
      assert PaysCurrent((base + w)[..i], (base + w)[i].event);
    } else {
      assert AddsVersion((base + w)[i].event, n, ty);
      assert LogLatest(base + w, n, ty) == e.version > 0;
    }
  }

  // ----- whole tables -----

  /** c0 and c2 are successive states of one contract, and w is what happened from c0 to c2. */
  ghost predicate Stage(c0: Tables, c2: Tables, w: Records) {
    && Evolves(c0, c2)
    && LogDetermines(c0) && LogDetermines(c2)
    && LogOk(c0.events) && LogOk(c2.events)
    && w == NewRecords(c0, c2)
  }

  /** What happens from c0 to c1 is a prefix of what happens from c0 to c2. */
  lemma RecordsGrow(c0: Tables, c1: Tables, c2: Tables, n: Name, ty: DocType, k: DocumentKey)
    requires Evolves(c0, c1) && Evolves(c1, c2)
    ensures var v, w := NewRecords(c0, c1), NewRecords(c0, c2);
      && (NamePushed(v, n) ==> NamePushed(w, n))
      && (DocumentPushed(v, k) ==> DocumentPushed(w, k))
      && (SetPushed(v, n) ==> SetPushed(w, n))
      && (FlagTouched(v, n, ty) ==> FlagTouched(w, n, ty))
  {
    hide Log;
    EvolvesTrans(c0, c1, c2);
    var a, b := NewRecords(c0, c1), NewRecords(c1, c2);
    PushedAcross(a, b, n, k);
    assert forall i | 0 <= i < |a| :: (a + b)[i] == a[i];
  }

  lemma PrefixPushes(w: Records, m: nat, n: Name, ty: DocType, k: DocumentKey)
    requires m <= |w|
    ensures NamePushed(w[..m], n) ==> NamePushed(w, n)
    ensures DocumentPushed(w[..m], k) ==> DocumentPushed(w, k)
    ensures SetPushed(w[..m], n) ==> SetPushed(w, n)
    ensures FlagTouched(w[..m], n, ty) ==> FlagTouched(w, n, ty)
  {
    assert w == w[..m] + w[m..];
    PushedAcross(w[..m], w[m..], n, k);
    assert forall i | 0 <= i < m :: w[..m][i] == w[i];
  }

  /** Tables between two states are between the first and any later one. */
  lemma BetweenWidens(t: Tables, c0: Tables, c1: Tables, c2: Tables, since: nat, now: nat)
    requires Between(t, c0, c1, since) && Evolves(c0, c1) && Evolves(c1, c2) && since <= now
    ensures Between(t, c0, c2, now)
  {
    hide NewRecords, NamePushed, SetPushed, DocumentPushed, FlagTouched, FlagsAre, SameRow, SameDocument, SameSet, Log;
    forall n
      ensures NamePushed(NewRecords(c0, c2), n) || SameNameAt(t, c0, n, now)
      ensures SetPushed(NewRecords(c0, c2), n) || SameSet(t, c0, n)
    {
      RecordsGrow(c0, c1, c2, n, "", DocumentKey(n, "", 0));
      if SameNameAt(t, c0, n, since) && n in t.names {
        SameRowLater(t.names[n], c0.names[n], since, now);
      }
    }
    forall k
      ensures DocumentPushed(NewRecords(c0, c2), k) || SameDocument(t, c0, k)
    {
      RecordsGrow(c0, c1, c2, k.name, "", k);
    }
    forall n, ty
      ensures FlagTouched(NewRecords(c0, c2), n, ty) || FlagsAre(t.documents, n, ty, LogCurrent(Log(c0), n, ty))
    {
      RecordsGrow(c0, c1, c2, n, ty, DocumentKey(n, ty, 0));
    }
  }

  lemma NamesReplayed(
    t: Tables, c0: Tables, c2: Tables, now: nat,
    snap: Snapshot, inputs: seq<Input>, w: Records, m: nat, u: Tables, n: Name)
    requires Stage(c0, c2, w) && Replays(t, snap, inputs, w, c2, now, m, u)
    ensures (n in t.names ==> n in c2.names) <==> (n in u.names ==> n in c2.names)
    ensures !NamePushed(w, n) ==> (SameNameAt(t, c0, n, now) <==> SameNameAt(u, c0, n, now))
    ensures m == |w| && NamePushed(w, n) && (n in t.names ==> n in c2.names) ==> SameNameAt(u, c2, n, now)
    ensures !NamePushed(w, n) ==> (SameNameAt(u, c0, n, now) <==> SameNameAt(u, c2, n, now))
  {
    hide LogDetermines, ReadFrom, Replay, NamePushed, SetPushed, DocumentPushed, SameRow;
    ReplayName(t, snap, inputs, w, c2, now, m, u, n);
    PrefixPushes(w, m, n, "", DocumentKey(n, "", 0));
    assert m == |w| ==> w[..m] == w;
    assert NamePushed(w, n) || SameName(c0, c2, n);
  }

  lemma DocumentsReplayed(
    t: Tables, c0: Tables, c2: Tables, now: nat,
    snap: Snapshot, inputs: seq<Input>, w: Records, m: nat, u: Tables, k: DocumentKey)
    requires Stage(c0, c2, w) && Replays(t, snap, inputs, w, c2, now, m, u)
    ensures (k in t.documents ==> k in c2.documents) <==> (k in u.documents ==> k in c2.documents)
    ensures !DocumentPushed(w, k) ==> (SameDocument(t, c0, k) <==> SameDocument(u, c0, k))
    ensures m == |w| && DocumentPushed(w, k) && (k in t.documents ==> k in c2.documents) ==> SameDocument(u, c2, k)
    ensures !DocumentPushed(w, k) ==> (SameDocument(u, c0, k) <==> SameDocument(u, c2, k))
  {
    hide LogDetermines, ReadFrom, Replay, NamePushed, SetPushed, DocumentPushed, SameRow;
    ReplayDocument(t, snap, inputs, w, c2, now, m, u, k);
    PrefixPushes(w, m, k.name, "", k);
    assert m == |w| ==> w[..m] == w;
    assert DocumentPushed(w, k) || SameDocument(c0, c2, k);
  }

  lemma SetsReplayed(
    t: Tables, c0: Tables, c2: Tables, now: nat,
    snap: Snapshot, inputs: seq<Input>, w: Records, m: nat, u: Tables, n: Name)
    requires Stage(c0, c2, w) && Replays(t, snap, inputs, w, c2, now, m, u)
    ensures !SetPushed(w, n) ==> (SameSet(t, c0, n) <==> SameSet(u, c0, n))
    ensures m == |w| && SetPushed(w, n) ==> SameSet(u, c2, n)
    ensures !SetPushed(w, n) ==> (SameSet(u, c0, n) <==> SameSet(u, c2, n))
  {
    hide ReadFrom, Replay, NamePushed, SetPushed, DocumentPushed, SameRow, DocumentsMatch, Log;
    ReplaySet(t, snap, inputs, w, c2, now, m, u, Log(c0), n);
    PrefixPushes(w, m, n, "", DocumentKey(n, "", 0));
    assert m == |w| ==> w[..m] == w;
    assert SetPushed(w, n) || SameSet(c0, c2, n);
    assert NameMatches(c2, Log(c2), n);
    StageLog(c0, c2, w);
  }

  lemma StageLog(c0: Tables, c2: Tables, w: Records)
    requires Stage(c0, c2, w)
    ensures Log(c2) == Log(c0) + w
  {
  }

  lemma LogNumber(t: Tables, k: nat)
    requires LogOk(t.events)
    ensures k in t.events <==> 1 <= k <= |Log(t)|
    ensures k in t.events ==> Log(t)[k - 1] == t.events[k] && t.events[k].seq_ == k
  {
    hide LatestSeq, EventsUpTo;
    LogLength(t.events, LatestSeq(t.events));
    if k in t.events {
      assert RecordOk(t.events, k);
    }
  }

  lemma StageLogged(c0: Tables, c2: Tables, w: Records, i: nat)
    requires Stage(c0, c2, w) && i < |w|
    ensures w[i].seq_ in c2.events && c2.events[w[i].seq_] == w[i] && w[i].seq_ !in c0.events
  {
    hide Evolves, LogDetermines, LogOk, Log, NewRecords;
    StageLog(c0, c2, w);
    var k := |Log(c0)| + i + 1;
    LogNumber(c0, k);
    LogNumber(c2, k);
    assert Log(c2)[k - 1] == w[i];
  }

  /** The window holds exactly the records its end has and its start does not. */
  lemma StageNumbered(c0: Tables, c2: Tables, w: Records, s: nat)
    requires Stage(c0, c2, w)
    ensures Logged(w, c2.events)
    ensures Numbered(w, s) <==> s in c2.events && s !in c0.events
  {
    hide Stage;
    forall i | 0 <= i < |w|
      ensures w[i].seq_ in c2.events && c2.events[w[i].seq_] == w[i] && w[i].seq_ !in c0.events
    {
      StageLogged(c0, c2, w, i);
    }
    if s in c2.events && s !in c0.events {
      StageHolds(c0, c2, w, s);
    }
  }

  lemma StageHolds(c0: Tables, c2: Tables, w: Records, s: nat)
    requires Stage(c0, c2, w) && s in c2.events && s !in c0.events
    ensures Numbered(w, s)
  {
    hide Evolves, LogDetermines, LogOk, Log, NewRecords;
    StageLog(c0, c2, w);
    LogNumber(c0, s);
    LogNumber(c2, s);
    assert Log(c2)[s - 1] == w[s - 1 - |Log(c0)|];
  }

  lemma EventsReplayed(
    t: Tables, c0: Tables, c2: Tables, now: nat,
    snap: Snapshot, inputs: seq<Input>, w: Records, m: nat, u: Tables)
    requires Stage(c0, c2, w) && Replays(t, snap, inputs, w, c2, now, m, u)
    ensures t.events.Keys <= u.events.Keys <= t.events.Keys + c2.events.Keys
    ensures HasRecords(t.events, c0.events) <==> HasRecords(u.events, c0.events)
    ensures HasRecords(u.events, c2.events) ==> HasRecords(u.events, c0.events) && c2.events.Keys <= u.events.Keys
    ensures m == |w| && HasRecords(t.events, c0.events) ==> HasRecords(u.events, c2.events)
  {
    hide ReadFrom, Replay, Numbered, LogDetermines, LogOk, Log, NewRecords, NamePushed, SetPushed, DocumentPushed, Carries;
    assert m == |w| ==> w[..m] == w;
    forall s
      ensures s in t.events ==> s in u.events
      ensures s in u.events ==> s in t.events || s in c2.events
      ensures s in c0.events && s in u.events ==> s in t.events && u.events[s] == t.events[s]
      ensures m == |w| && s in c2.events && s !in c0.events ==> s in u.events && SameRecord(u.events[s], c2.events[s])
    {
      StageNumbered(c0, c2, w, s);
      ReplayEvent(t, snap, inputs, w, c2, now, m, u, s);
      PrefixNumbered(w, m, s);
    }
  }

  lemma PrefixNumbered(w: Records, m: nat, s: nat)
    requires m <= |w|
    ensures Numbered(w[..m], s) ==> Numbered(w, s)
  {
  }

  lemma StageSettled(c0: Tables, c2: Tables, w: Records, n: Name, ty: DocType)
    requires Stage(c0, c2, w)
    ensures Settled(Log(c0), w, c2, n, ty)
  {
    hide Log, NameMatches, VersionsInOrder, PaymentsInOrder;
    StageLog(c0, c2, w);
    assert DocumentsMatch(c2.documents, Log(c2), n, ty);
  }

  /** A window that touches no flag of the document moves none. */
  lemma Untouched(w: Records, n: Name, ty: DocType)
    requires !FlagTouched(w, n, ty)
    ensures !FlagMoved(w, n, ty)
  {
    assert forall i | 0 <= i < |w| :: MovesFlag(w[i].event, n, ty) ==> TouchesFlag(w[i].event, n, ty);
  }

  lemma FlagsReplayed(
    t: Tables, c0: Tables, c2: Tables, now: nat,
    snap: Snapshot, inputs: seq<Input>, w: Records, m: nat, u: Tables, n: Name, ty: DocType)
    requires Stage(c0, c2, w) && Replays(t, snap, inputs, w, c2, now, m, u)
    ensures !FlagTouched(w, n, ty) ==>
      (FlagsAre(t.documents, n, ty, LogCurrent(Log(c0), n, ty)) <==>
       FlagsAre(u.documents, n, ty, LogCurrent(Log(c0), n, ty)))
    ensures !FlagTouched(w, n, ty) ==> LogCurrent(Log(c2), n, ty) == LogCurrent(Log(c0), n, ty)
    ensures m == |w| && FlagTouched(w, n, ty) && t.documents.Keys <= c2.documents.Keys ==>
      FlagsAre(u.documents, n, ty, LogCurrent(Log(c2), n, ty))
  {
    hide ReadFrom, Replay, Log, FlagsAre, Evolves, LogDetermines, FlagMoved, FlagTouched;
    var base := Log(c0);
    StageLog(c0, c2, w);
    PrefixPushes(w, m, n, ty, DocumentKey(n, ty, 0));
    if !FlagTouched(w, n, ty) {
      Untouched(w, n, ty);
      assert w[0..] == w && base + w[..0] == base;
      QuietTail(base, w, 0, n, ty);
      ReplayKeepsFlags(t, snap, inputs, w, c2, now, m, u, n, ty, LogCurrent(base, n, ty));
    } else if m == |w| && t.documents.Keys <= c2.documents.Keys {
      StageSettled(c0, c2, w, n, ty);
      assert w[..m] == w;
      NothingMoves(w, n, ty);
      ReplayFlags(t, snap, inputs, w, c2, now, m, u, base, n, ty);
    }
  }

  lemma NothingMoves(w: Records, n: Name, ty: DocType)
    ensures !FlagMoved(w[|w|..], n, ty)
  {
  }

  /** Replaying any part of the window leaves tables that are between its two ends, if they were before. */
  lemma ReplayStaysBetween(
    t: Tables, c0: Tables, c2: Tables, now: nat, snap: Snapshot, inputs: seq<Input>, w: Records, m: nat, u: Tables)
    requires Stage(c0, c2, w) && Between(t, c0, c2, now)
    requires Replays(t, snap, inputs, w, c2, now, m, u)
    ensures Between(u, c0, c2, now)
  {
    hide Replays, NamePushed, SetPushed, DocumentPushed, FlagTouched, FlagsAre, SameNameAt, SameDocument, SameSet;
    hide LogDetermines, Evolves, Log, LogOk, HasRecords;
    EventsReplayed(t, c0, c2, now, snap, inputs, w, m, u);
    forall n
      ensures n in u.names ==> n in c2.names
      ensures NamePushed(w, n) || SameNameAt(u, c0, n, now)
      ensures SetPushed(w, n) || SameSet(u, c0, n)
    {
      NamesReplayed(t, c0, c2, now, snap, inputs, w, m, u, n);
      SetsReplayed(t, c0, c2, now, snap, inputs, w, m, u, n);
    }
    forall k
      ensures k in u.documents ==> k in c2.documents
      ensures DocumentPushed(w, k) || SameDocument(u, c0, k)
    {
      DocumentsReplayed(t, c0, c2, now, snap, inputs, w, m, u, k);
    }
    forall n, ty
      ensures FlagTouched(w, n, ty) || FlagsAre(u.documents, n, ty, LogCurrent(Log(c0), n, ty))
    {
      FlagsReplayed(t, c0, c2, now, snap, inputs, w, m, u, n, ty);
    }
  }

  /** A stopped replay of a shorter window leaves tables that are still between the ends of a longer one. */
  lemma ShorterReplayStaysBetween(
    t: Tables, c0: Tables, c2: Tables, c1: Tables, since: nat, now: nat,
    snap: Snapshot, inputs: seq<Input>, w: Records, m: nat, u: Tables)
    requires Stage(c0, c2, w) && Evolves(c2, c1) && Between(t, c0, c1, since)
    requires Replays(t, snap, inputs, w, c2, now, m, u)
    ensures Between(u, c0, c1, since)
  {
    hide ReadFrom, Replay, NamePushed, SetPushed, DocumentPushed, FlagTouched, FlagsAre, SameRow, LogDetermines, Log;
    hide NewRecords, LogOk, HasRecords;
    EventsReplayed(t, c0, c2, now, snap, inputs, w, m, u);
    forall n
      ensures n in u.names ==> n in c1.names
      ensures NamePushed(NewRecords(c0, c1), n) || SameNameAt(u, c0, n, since)
      ensures SetPushed(NewRecords(c0, c1), n) || SameSet(u, c0, n)
    {
      RecordsGrow(c0, c2, c1, n, "", DocumentKey(n, "", 0));
      PrefixPushes(w, m, n, "", DocumentKey(n, "", 0));
      ReplayName(t, snap, inputs, w, c2, now, m, u, n);
      SetsReplayed(t, c0, c2, now, snap, inputs, w, m, u, n);
    }
    forall k
      ensures k in u.documents ==> k in c1.documents
      ensures DocumentPushed(NewRecords(c0, c1), k) || SameDocument(u, c0, k)
    {
      RecordsGrow(c0, c2, c1, k.name, "", k);
      PrefixPushes(w, m, k.name, "", k);
      ReplayDocument(t, snap, inputs, w, c2, now, m, u, k);
    }
    forall n, ty
      ensures FlagTouched(NewRecords(c0, c1), n, ty) || FlagsAre(u.documents, n, ty, LogCurrent(Log(c0), n, ty))
    {
      RecordsGrow(c0, c2, c1, n, ty, DocumentKey(n, ty, 0));
      FlagsReplayed(t, c0, c2, now, snap, inputs, w, m, u, n, ty);
    }
  }

  lemma DocumentsEqual(u: Tables, c: Tables)
    requires LogDetermines(c) && (forall k :: SameDocument(u, c, k))
    requires forall n, ty :: FlagsAre(u.documents, n, ty, LogCurrent(Log(c), n, ty))
    ensures u.documents == c.documents
  {
    hide NameMatches, VersionsInOrder, PaymentsInOrder, Log;
    forall k
      ensures k in u.documents <==> k in c.documents
      ensures k in u.documents ==> u.documents[k] == c.documents[k]
    {
      assert SameDocument(u, c, k);
      assert FlagsAre(u.documents, k.name, k.docType, LogCurrent(Log(c), k.name, k.docType));
      assert DocumentsMatch(c.documents, Log(c), k.name, k.docType);
      assert k == DocumentKey(k.name, k.docType, k.version);
    }
  }

  lemma FlagsOf(c: Tables, n: Name, ty: DocType)
    requires LogDetermines(c)
    ensures FlagsAre(c.documents, n, ty, LogCurrent(Log(c), n, ty))
  {
    hide NameMatches, VersionsInOrder, PaymentsInOrder, Log;
    assert DocumentsMatch(c.documents, Log(c), n, ty);
  }

  /** From tables between its two ends, replaying the whole window mirrors the contract at the window's end. */
  lemma ReplayMirrors(
    t: Tables, c0: Tables, c2: Tables, now: nat, snap: Snapshot, inputs: seq<Input>, w: Records, u: Tables)
    requires Stage(c0, c2, w) && Replays(t, snap, inputs, w, c2, now, |w|, u)
    requires Between(t, c0, c2, now)
    ensures Mirrors(u, c2, now)
  {
    hide ReadFrom, Replay, NamePushed, SetPushed, DocumentPushed, FlagTouched, FlagsAre, SameNameAt, LogDetermines, Log;
    hide LogOk, HasRecords;
    EventsReplayed(t, c0, c2, now, snap, inputs, w, |w|, u);
    forall n
      ensures SameNameAt(u, c2, n, now)
      ensures n in u.sets <==> n in c2.sets
      ensures n in u.sets ==> u.sets[n] == c2.sets[n]
    {
      NamesReplayed(t, c0, c2, now, snap, inputs, w, |w|, u, n);
      SetsReplayed(t, c0, c2, now, snap, inputs, w, |w|, u, n);
    }
    assert u.sets == c2.sets;
    forall k
      ensures SameDocument(u, c2, k)
    {
      DocumentsReplayed(t, c0, c2, now, snap, inputs, w, |w|, u, k);
    }
    forall n, ty
      ensures FlagsAre(u.documents, n, ty, LogCurrent(Log(c2), n, ty))
    {
      FlagsReplayed(t, c0, c2, now, snap, inputs, w, |w|, u, n, ty);
    }
    DocumentsEqual(u, c2);
  }

  /** If replaying the whole window mirrors the contract, the tables were between its two ends. */
  lemma MirroredWasBetween(
    t: Tables, c0: Tables, c2: Tables, now: nat, snap: Snapshot, inputs: seq<Input>, w: Records, u: Tables)
    requires Stage(c0, c2, w) && Replays(t, snap, inputs, w, c2, now, |w|, u)
    requires Mirrors(u, c2, now)
    ensures Between(t, c0, c2, now)
  {
    hide ReadFrom, Replay, NamePushed, SetPushed, DocumentPushed, FlagTouched, FlagsAre, SameRow, LogDetermines, Log;
    hide LogOk, HasRecords;
    EventsReplayed(t, c0, c2, now, snap, inputs, w, |w|, u);
    forall n
      ensures n in t.names ==> n in c2.names
      ensures NamePushed(w, n) || SameNameAt(t, c0, n, now)
      ensures SetPushed(w, n) || SameSet(t, c0, n)
    {
      assert SameNameAt(u, c2, n, now);
      NamesReplayed(t, c0, c2, now, snap, inputs, w, |w|, u, n);
      SetsReplayed(t, c0, c2, now, snap, inputs, w, |w|, u, n);
    }
    forall k
      ensures k in t.documents ==> k in c2.documents
      ensures DocumentPushed(w, k) || SameDocument(t, c0, k)
    {
      DocumentsReplayed(t, c0, c2, now, snap, inputs, w, |w|, u, k);
    }
    forall n, ty
      ensures FlagTouched(w, n, ty) || FlagsAre(t.documents, n, ty, LogCurrent(Log(c0), n, ty))
    {
      FlagsReplayed(t, c0, c2, now, snap, inputs, w, |w|, u, n, ty);
      FlagsOf(c2, n, ty);
    }
  }

  /**
   * The exact condition for a window: replaying all of it mirrors the contract at its end exactly when every row it
   * does not announce is as at its start and nothing is stored that its end does not have.
   */
  lemma ReplayMirrorsExactlyWhen(
    t: Tables, c0: Tables, c2: Tables, now: nat, snap: Snapshot, inputs: seq<Input>, w: Records, u: Tables)
    requires Stage(c0, c2, w) && Replays(t, snap, inputs, w, c2, now, |w|, u)
    ensures Mirrors(u, c2, now) <==> Between(t, c0, c2, now)
  {
    hide Stage, Replays, Mirrors, Between;
    if Between(t, c0, c2, now) {
      ReplayMirrors(t, c0, c2, now, snap, inputs, w, u);
    }
    if Mirrors(u, c2, now) {
      MirroredWasBetween(t, c0, c2, now, snap, inputs, w, u);
    }
  }
}
