/** When the indexed tables mirror the contract's, and how replaying a window gets them there. */
module Mirror {
  import opened Wrappers
  import opened BnsModel
  import opened RegistryTables
  import opened Ownership
  import opened RegistryHistory
  import opened RegistryInvariants
  import opened Projection

  // ----- rows that answer alike -----

  /** Equal up to derived fields and to an expiry that has already happened. */
  predicate SameRow(a: NameState, b: NameState, now: nat) {
    SameCore(a.MaterializeStatusAt(now), b.MaterializeStatusAt(now))
  }

  predicate SameNameAt(t: Tables, c: Tables, n: Name, now: nat) {
    (n in t.names <==> n in c.names) && (n in t.names ==> SameRow(t.names[n], c.names[n], now))
  }

  lemma SameRowLater(a: NameState, b: NameState, now: nat, later: nat)
    requires SameRow(a, b, now) && now <= later
    ensures SameRow(a, b, later)
  {
  }

  /** The same event at the same place of the log, sealed by the same roots. */
  predicate SameRecord(a: EventRecord, b: EventRecord) {
    a.seq_ == b.seq_ && a.event == b.event && a.previousLogRoot == b.previousLogRoot && a.logRoot == b.logRoot
  }

  /** Every record of the contract's log is stored. */
  predicate HasRecords(events: EventTable, log: EventTable) {
    forall s | s in log :: s in events && SameRecord(events[s], log[s])
  }

  /** The tables agree on names, document versions, current flags, authority sets and event records. */
  ghost predicate Mirrors(t: Tables, c: Tables, now: nat) {
    && (forall n :: SameNameAt(t, c, n, now))
    && t.documents == c.documents
    && t.sets == c.sets
    && t.events.Keys == c.events.Keys
    && HasRecords(t.events, c.events)
  }

  /** Resolution on both sides, for rows that agree on the three fields it reads. */
  lemma {:induction false} ResolveAlike(t: Tables, c: Tables, since: nat, n: Name, a: NameState, b: NameState, now: nat)
    requires Mirrors(t, c, since) && since <= now
    requires a.semanticOwner == b.semanticOwner && a.status == b.status && a.assetOwner == b.assetOwner
    ensures ResolveOwner(t, n, a, now) == ResolveOwner(c, n, b, now)
    decreases n, 0
  {
    hide RequireActiveAuthoritySet;
    if a.semanticOwner.BnsName? {
      RequireAlike(t, c, since, a.semanticOwner.name, now);
    } else if n.Sub? {
      assert SameNameAt(t, c, n.parent, since);
      if n.parent in t.names {
        ParentAlike(t, c, since, n.parent, now);
      }
    }
  }

  lemma {:induction false} ParentAlike(t: Tables, c: Tables, since: nat, p: Name, now: nat)
    requires Mirrors(t, c, since) && since <= now && p in t.names && p in c.names
    ensures var x, y := t.names[p].MaterializeStatusAt(now), c.names[p].MaterializeStatusAt(now);
      ResolveOwner(t, p, x, now) == ResolveOwner(c, p, y, now)
    ensures var m := MaterializeNameState(t, p, t.names[p], now);
      && m == MaterializeNameState(c, p, c.names[p], now)
      && (m.Success? ==> ResolveOwner(t, p, m.value, now) == ResolveOwner(c, p, m.value, now))
    decreases p, 1
  {
    hide ResolveOwner;
    assert SameNameAt(t, c, p, since);
    SameRowLater(t.names[p], c.names[p], since, now);
    var x, y := t.names[p].MaterializeStatusAt(now), c.names[p].MaterializeStatusAt(now);
    ResolveAlike(t, c, since, p, x, y, now);
    var m := MaterializeNameState(t, p, t.names[p], now);
    if m.Success? {
      ResolveAlike(t, c, since, p, m.value, m.value, now);
    }
  }

  /**
   * Tables that mirror the contract answer a name query as the contract does, at any later time: same row,
   * same effective status and owner, same error.
   */
  lemma MirrorsAnswerAlike(t: Tables, c: Tables, since: nat, n: Name, now: nat)
    requires Mirrors(t, c, since) && since <= now
    ensures ReadName(t, n, now) == ReadName(c, n, now)
  {
    hide ResolveOwner, MaterializeNameState;
    assert SameNameAt(t, c, n, since);
    if n in t.names {
      ParentAlike(t, c, since, n, now);
    }
  }

  lemma RequireAlike(t: Tables, c: Tables, since: nat, n: Name, now: nat)
    requires Mirrors(t, c, since) && since <= now
    ensures RequireActiveAuthoritySet(t, n, now) == RequireActiveAuthoritySet(c, n, now)
  {
    assert SameNameAt(t, c, n, since);
    if n in t.names {
      SameRowLater(t.names[n], c.names[n], since, now);
    }
  }

  // ----- replaying a window -----

  /** The event settles afresh which version of the document is current. */
  predicate MovesFlag(e: RegistryEvent, n: Name, ty: DocType) {
    Registers(e, n) || AddsVersion(e, n, ty)
  }

  predicate FlagMoved(log: Records, n: Name, ty: DocType) {
    exists i | 0 <= i < |log| :: MovesFlag(log[i].event, n, ty)
  }

  /** The event makes a replay write the flags of the document: it moves them, or rewrites a version. */
  predicate TouchesFlag(e: RegistryEvent, n: Name, ty: DocType) {
    Registers(e, n) || Rewrites(e, n, ty)
  }

  predicate FlagTouched(log: Records, n: Name, ty: DocType) {
    exists i | 0 <= i < |log| :: TouchesFlag(log[i].event, n, ty)
  }

  /** Of the stored versions, exactly `current` carries the flag. */
  ghost predicate FlagsAre(docs: DocumentTable, n: Name, ty: DocType, current: nat) {
    forall v: nat | DocumentKey(n, ty, v) in docs :: docs[DocumentKey(n, ty, v)].current <==> v == current
  }

  /**
   * t is on its way from a mirror of c0 to a mirror of c1: whatever no event between the two announces
   * still is as in c0, and nothing is stored that c1 does not have.
   */
  ghost predicate Between(t: Tables, c0: Tables, c1: Tables, now: nat) {
    var w := NewRecords(c0, c1);
    && t.names.Keys <= c1.names.Keys
    && t.documents.Keys <= c1.documents.Keys
    && t.events.Keys <= c1.events.Keys
    && HasRecords(t.events, c0.events)
    && (forall n :: NamePushed(w, n) || SameNameAt(t, c0, n, now))
    && (forall k :: DocumentPushed(w, k) || SameDocument(t, c0, k))
    && (forall n, ty :: FlagTouched(w, n, ty) || FlagsAre(t.documents, n, ty, LogCurrent(Log(c0), n, ty)))
    && (forall n :: SetPushed(w, n) || SameSet(t, c0, n))
  }

  // what one record writes

  predicate DocumentEvent(e: RegistryEvent) {
    e.DocumentPublished? || e.DocumentRevoked? || e.PaymentTargetUpdated?
  }

  function EventKey(e: RegistryEvent): DocumentKey
    requires DocumentEvent(e)
  {
    DocumentKey(e.name, e.docType, e.version)
  }

  /** The write carries the contract's own rows for what the event announces, and nothing else. */
  predicate Reflects(w: Write, e: RegistryEvent, c: Tables, now: nat) {
    && w.reset == (if e.NameRegistered? then Some(e.name) else None)
    && w.name.Some? == (PushesName(e, PushedName(e)) && PushedName(e) in c.names)
    && (w.name.Some? ==>
          w.name.value.0 == PushedName(e) && SameRow(w.name.value.1, c.names[PushedName(e)], now))
    && w.document == (if DocumentEvent(e) && EventKey(e) in c.documents
                      then Some((EventKey(e), c.documents[EventKey(e)].state)) else None)
    && w.set_ == (if e.AuthorityKeysUpdated? then Some((e.name, AuthoritySetOf(c, e.name))) else None)
  }

  /** The same for aliases and checkpoints: the newest checkpoint is read unless the call behind the event decodes. */
  predicate SidesReflect(w: Write, input: Input, c: Tables) {
    var e := input.record.event;
    && (w.alias.Some? <==> e.DidAliasSet?)
    && (w.alias.Some? ==> w.alias.value.0 == e.name && (e.name in c.aliases ==> w.alias.value.1 == c.aliases[e.name]))
    && (w.checkpoint.Some? <==> e.LogCheckpointPublished?)
    && (e.LogCheckpointPublished? && input.call.CheckpointCall? ==>
          && input.call.externalAnchor == e.externalAnchor
          && w.checkpoint.value == LogCheckpoint(e.logRoot, e.lastSeq, e.issuedAt, input.call.issuer, e.externalAnchor))
    && (e.LogCheckpointPublished? && !input.call.CheckpointCall? && c.checkpoints != map[] ==>
          exists last | last in c.checkpoints ::
            w.checkpoint.value == c.checkpoints[last] && forall s | s in c.checkpoints :: s <= last)
  }

  lemma PushedRow(snap: Snapshot, c: Tables, now: nat, n: Name)
    requires ReadFrom(snap, c, now)
    ensures n in snap.names ==>
      if n in c.names then snap.names[n].Some? && SameRow(snap.names[n].value, c.names[n], now)
      else snap.names[n].None?
  {
    hide MaterializeNameState;
    if n in snap.names && n in c.names {
      assert ReadName(c, n, now) == Success(snap.names[n]);
      MaterializedSame(c.names[n], MaterializeNameState(c, n, c.names[n], now).value, now);
    }
  }

  lemma MaterializedSame(s: NameState, m: NameState, now: nat)
    requires SameCore(s.MaterializeStatusAt(now), m)
    ensures SameRow(m, s, now)
  {
  }

  lemma WriteReflects(snap: Snapshot, input: Input, c: Tables, now: nat)
    requires ReadFrom(snap, c, now) && ProjectionFor(snap, input).Success?
    ensures Reflects(ProjectionFor(snap, input).value, input.record.event, c, now)
  {
    hide ReadName, SameRow;
    PushedRow(snap, c, now, PushedName(input.record.event));
  }

  lemma WriteReflectsSides(snap: Snapshot, input: Input, c: Tables, now: nat)
    requires ReadFrom(snap, c, now) && ProjectionFor(snap, input).Success?
    ensures SidesReflect(ProjectionFor(snap, input).value, input, c)
  {
    hide ReadName, AuthoritySetOf, ReadDocument;
    assert c.checkpoints != map[] ==> c.checkpoints.Keys != {};
  }

  // what one write does to each kind of row

  lemma StepName(t: Tables, w: Write, e: RegistryEvent, c: Tables, now: nat, n: Name)
    requires Reflects(w, e, c, now)
    ensures var u := ApplyWrite(t, w);
      if PushesName(e, n) && n in c.names then n in u.names && SameRow(u.names[n], c.names[n], now)
      else SameName(t, u, n)
  {
    hide SameRow, PutDocument;
  }

  lemma StepDocument(t: Tables, w: Write, e: RegistryEvent, c: Tables, now: nat, k: DocumentKey)
    requires Reflects(w, e, c, now)
    ensures var u := ApplyWrite(t, w);
      if PushesDocument(e, k) && k in c.documents
      then k in u.documents && u.documents[k].state == c.documents[k].state
      else SameDocument(t, u, k)
  {
    hide SameRow;
  }

  lemma StepSet(t: Tables, w: Write, e: RegistryEvent, c: Tables, now: nat, n: Name)
    requires Reflects(w, e, c, now)
    ensures var u := ApplyWrite(t, w);
      if Registers(e, n) then n !in u.sets
      else if e.AuthorityKeysUpdated? && e.name == n then n in u.sets && u.sets[n] == AuthoritySetOf(c, n)
      else SameSet(t, u, n)
  {
    hide SameRow, PutDocument;
  }

  /** The write touches versions of this document. */
  predicate Rewrites(e: RegistryEvent, n: Name, ty: DocType) {
    DocumentEvent(e) && e.name == n && e.docType == ty
  }

  /** A written version that is not below any stored one takes the flag. */
  lemma StepTakesFlag(t: Tables, w: Write, e: RegistryEvent, c: Tables, now: nat, n: Name, ty: DocType)
    requires Reflects(w, e, c, now) && Rewrites(e, n, ty) && EventKey(e) in c.documents
    requires forall v: nat | DocumentKey(n, ty, v) in t.documents :: v <= e.version
    ensures FlagsAre(ApplyWrite(t, w).documents, n, ty, e.version)
  {
    hide SameRow;
  }

  lemma StepClearsFlags(t: Tables, w: Write, e: RegistryEvent, c: Tables, now: nat, n: Name, ty: DocType)
    requires Reflects(w, e, c, now) && Registers(e, n)
    requires DocumentKey(n, ty, 0) !in t.documents
    ensures FlagsAre(ApplyWrite(t, w).documents, n, ty, 0)
  {
    hide SameRow;
  }

  lemma StepKeepsFlags(t: Tables, w: Write, e: RegistryEvent, c: Tables, now: nat, n: Name, ty: DocType, current: nat)
    requires Reflects(w, e, c, now) && !TouchesFlag(e, n, ty)
    ensures FlagsAre(t.documents, n, ty, current) <==> FlagsAre(ApplyWrite(t, w).documents, n, ty, current)
  {
    hide SameRow;
  }
}
