/** Each kind of write keeps the registry invariant. */
module RegistryWrites {
  import opened BnsModel
  import opened RegistryTables
  import opened OwnerGraph
  import opened RegistryLog
  import opened RegistryHistory
  import opened RegistryInvariants

  // ----- appending an event -----

  lemma AppendKeepsCheckpoints(t: Tables, e: RegistryEvent, now: nat)
    requires LogOk(t.events) && CheckpointsOk(t)
    ensures CheckpointsOk(AppendEvent(t, e, now))
  {
    var u := AppendEvent(t, e, now);
    AppendKeepsLog(t, e, now);
    forall k | k in u.checkpoints
      ensures k <= LatestSeq(u.events) && u.checkpoints[k].logRoot == RootAt(u.events, k)
    {
      ExtensionKeepsRoots(t.events, u.events, k);
    }
  }

  /** The log grows by one record; nothing else is compared. */
  lemma AppendRecords(t: Tables, u: Tables, e: RegistryEvent, now: nat)
    requires LogOk(t.events) && u.events == AppendEvent(t, e, now).events
    ensures LogOk(u.events) && Extends(t.events, u.events)
    ensures Log(t) <= Log(u) && Log(u) == Log(t) + [NextRecord(t.events, e, now)]
    ensures NewRecords(t, u) == [NextRecord(t.events, e, now)]
  {
    AppendKeepsLog(t, e, now);
    assert Log(u) == Log(AppendEvent(t, e, now));
  }

  predicate Neutral(e: RegistryEvent) {
    && !e.NameRegistered? && !e.AuthorityKeysUpdated?
    && !e.DocumentPublished? && !e.DocumentRevoked? && !e.PaymentTargetUpdated?
  }

  /** How one event moves what the log says about a name. */
  lemma NameMatchStep(t: Tables, u: Tables, log: Records, r: EventRecord, n: Name)
    requires NameMatches(t, log, n)
    requires n in u.names <==> n in t.names || Registers(r.event, n)
    requires n in u.sets <==>
      !Registers(r.event, n) && ((r.event.AuthorityKeysUpdated? && r.event.name == n) || n in t.sets)
    requires n in u.names ==>
      u.names[n].lineageEpoch ==
      (if n !in t.names then 0 else t.names[n].lineageEpoch + if Registers(r.event, n) then 1 else 0)
    requires n in u.names ==> (
      u.names[n].ownerDocumentVersion ==
      if Registers(r.event, n) then 0
      else if AddsVersion(r.event, n, OWNER_DOC_TYPE) then r.event.version
      else t.names[n].ownerDocumentVersion)
    ensures NameMatches(u, log + [r], n)
  {
    LogPush(log, r);
  }

  lemma NeutralDetermines(t: Tables, e: RegistryEvent, now: nat)
    requires LogOk(t.events) && LogDetermines(t) && Neutral(e)
    ensures LogDetermines(AppendEvent(t, e, now))
  {
    hide DocumentsMatch, NameMatches, VersionsInOrder, PaymentsInOrder;
    var u := AppendEvent(t, e, now);
    var r := NextRecord(t.events, e, now);
    assert Log(u) == Log(t) + [r] by {
      AppendRecords(t, u, e, now);
    }
    forall m, ty
      ensures DocumentsMatch(u.documents, Log(u), m, ty)
    {
      NeutralMatches(t.documents, Log(t), r, m, ty);
    }
    forall m
      ensures NameMatches(u, Log(u), m)
    {
      NeutralName(t, u, r, m);
    }
    OrderStep(Log(t), r);
  }

  lemma NeutralName(t: Tables, u: Tables, r: EventRecord, m: Name)
    requires NameMatches(t, Log(t), m) && Neutral(r.event) && u.names == t.names && u.sets == t.sets
    ensures NameMatches(u, Log(t) + [r], m)
  {
    hide Log;
    NameMatchStep(t, u, Log(t), r, m);
  }

  lemma AppendChanges(t: Tables, e: RegistryEvent, now: nat, n: Name)
    requires LogOk(t.events)
    ensures Changes(t, AppendEvent(t, e, now), n)
    ensures PushesName(e, n) ==> NamePushed(NewRecords(t, AppendEvent(t, e, now)), n)
  {
    hide Log, LogOk, Extends;
    var u := AppendEvent(t, e, now);
    AppendRecords(t, u, e, now);
    assert NewRecords(t, u)[0].event == e;
  }

  lemma AppendNeutral(t: Tables, e: RegistryEvent, now: nat, n: Name)
    requires Inv(t, now) && Neutral(e)
    ensures Inv(AppendEvent(t, e, now), now)
    ensures Changes(t, AppendEvent(t, e, now), n)
    ensures PushesName(e, n) ==> NamePushed(NewRecords(t, AppendEvent(t, e, now)), n)
  {
    hide LogDetermines, Changes, NamePushed, NewRecords;
    var u := AppendEvent(t, e, now);
    AppendKeepsCheckpoints(t, e, now);
    AppendKeepsLog(t, e, now);
    NeutralDetermines(t, e, now);
    AppendChanges(t, e, now, n);
    forall x | x in u.names && u.names[x].ActiveAt(now) && u.names[x].semanticOwner.BnsName?
      ensures LiveOwner(u, u.names[x].semanticOwner.name)
    {
      assert LiveOwner(t, t.names[x].semanticOwner.name);
    }
  }

  // ----- replacing a name row -----

  /** The fields that the owner graph, the clock and the log look at are unchanged. */
  predicate KeepsRow(s: NameState, m: NameState) {
    && m.semanticOwner == s.semanticOwner
    && m.status == s.status
    && m.expireAt == s.expireAt
    && KeepsHistory(s, m)
  }

  /** The fields that the log determines are unchanged, and the sequence number does not fall. */
  predicate KeepsHistory(s: NameState, m: NameState) {
    && m.ownerDocumentVersion == s.ownerDocumentVersion
    && m.lineageEpoch == s.lineageEpoch
    && m.nameSeq >= s.nameSeq
  }

  lemma SameReferencesSameWalk(a: Names, b: Names, n: Name, edges: nat)
    requires a.Keys == b.Keys
    requires forall m | m in a :: a[m].semanticOwner == b[m].semanticOwner
    requires Grounded(a, n, edges)
    ensures Grounded(b, n, edges)
    decreases edges
  {
    if !Terminal(n, a[n]) {
      SameReferencesSameWalk(a, b, Next(n, a[n]), edges - 1);
    }
  }

  lemma SameReferencesGrounded(a: Names, b: Names)
    requires a.Keys == b.Keys
    requires forall m | m in a :: a[m].semanticOwner == b[m].semanticOwner
    requires GraphGrounded(a)
    ensures GraphGrounded(b)
  {
    forall n | n in b
      ensures exists edges: nat :: Grounded(b, n, edges)
    {
      var edges: nat :| Grounded(a, n, edges);
      SameReferencesSameWalk(a, b, n, edges);
    }
  }

  lemma PutRowMatches(t: Tables, n: Name, m: NameState)
    requires LogDetermines(t) && n in t.names && KeepsHistory(t.names[n], m)
    ensures LogDetermines(t.(names := t.names[n := m]))
  {
    var u := t.(names := t.names[n := m]);
    assert Log(u) == Log(t);
    forall x
      ensures NameMatches(u, Log(u), x)
    {
      assert NameMatches(t, Log(t), x);
    }
  }

  lemma PutRowChanges(t: Tables, n: Name, m: NameState)
    requires n in t.names && m.nameSeq >= t.names[n].nameSeq
    ensures Changes(t, t.(names := t.names[n := m]), n)
  {
    var u := t.(names := t.names[n := m]);
    assert Log(u) == Log(t);
  }

  lemma PutKeptRow(t: Tables, n: Name, m: NameState, now: nat)
    requires Inv(t, now) && n in t.names && KeepsRow(t.names[n], m)
    ensures Inv(t.(names := t.names[n := m]), now)
    ensures Changes(t, t.(names := t.names[n := m]), n)
  {
    hide LogDetermines, Changes;
    var u := t.(names := t.names[n := m]);
    PutRowMatches(t, n, m);
    PutRowChanges(t, n, m);
    SameReferencesGrounded(t.names, u.names);
    forall x | x in u.names && u.names[x].ActiveAt(now) && u.names[x].semanticOwner.BnsName?
      ensures LiveOwner(u, u.names[x].semanticOwner.name)
    {
      assert LiveOwner(t, t.names[x].semanticOwner.name);
    }
  }

  /** A renewed row may become active again, provided its explicit owner is live. */
  lemma PutRenewedRow(t: Tables, n: Name, m: NameState, now: nat)
    requires Inv(t, now) && n in t.names
    requires m.semanticOwner == t.names[n].semanticOwner
    requires KeepsHistory(t.names[n], m)
    requires t.names[n].status in {Active, Expired} ==> m.status in {Active, Expired}
    requires m.semanticOwner.BnsName? && m.ActiveAt(now) ==> LiveOwner(t, m.semanticOwner.name)
    ensures Inv(t.(names := t.names[n := m]), now)
    ensures Changes(t, t.(names := t.names[n := m]), n)
  {
    hide LogDetermines, Changes;
    var u := t.(names := t.names[n := m]);
    PutRowMatches(t, n, m);
    PutRowChanges(t, n, m);
    SameReferencesGrounded(t.names, u.names);
    forall x | x in u.names && u.names[x].ActiveAt(now) && u.names[x].semanticOwner.BnsName?
      ensures LiveOwner(u, u.names[x].semanticOwner.name)
    {
      if x != n {
        assert LiveOwner(t, t.names[x].semanticOwner.name);
      }
    }
  }

  /** The row keeps everything but the fields that owner resolution derives. */
  predicate SameReferences(s: NameState, m: NameState) {
    m.semanticOwner == s.semanticOwner && m.status == s.status && m.expireAt == s.expireAt
  }

  lemma ReplacedRowGrounded(names: Names, n: Name, s: NameState, m: NameState, stop: nat)
    requires GraphGrounded(names) && Grounded(names[n := s], n, stop)
    requires m.semanticOwner == s.semanticOwner
    ensures GraphGrounded(names[n := m])
  {
    var a := names[n := s];
    forall x | x in a
      ensures exists edges: nat :: Grounded(a, x, edges)
    {
      if x != n {
        var edges: nat :| Grounded(names, x, edges);
        var e := ReplaceKeepsGrounded(names, n, s, stop, x, edges);
      }
    }
    SameReferencesGrounded(a, names[n := m]);
  }

  /** A new owner reference is stored only after the owner graph was checked with it. */
  lemma PutOwnedRow(t: Tables, n: Name, s: NameState, m: NameState, now: nat)
    requires Inv(t, now) && n in t.names
    requires OwnerGraphOk(t.names[n := s], t.sets, now) && SameReferences(s, m)
    requires m.status == Active && s.ActiveAt(now)
    requires KeepsHistory(t.names[n], m)
    requires m.semanticOwner.BnsName? ==> LiveOwner(t, m.semanticOwner.name)
    ensures Inv(t.(names := t.names[n := m]), now)
    ensures Changes(t, t.(names := t.names[n := m]), n)
  {
    hide LogDetermines, Changes;
    var u := t.(names := t.names[n := m]);
    PutRowMatches(t, n, m);
    PutRowChanges(t, n, m);
    PathIsGrounded(t.names[n := s], t.sets, n, now, MAX_OWNER_REF_DEPTH);
    ReplacedRowGrounded(t.names, n, s, m, MAX_OWNER_REF_DEPTH);
    forall x | x in u.names && u.names[x].ActiveAt(now) && u.names[x].semanticOwner.BnsName?
      ensures LiveOwner(u, u.names[x].semanticOwner.name)
    {
      if x != n {
        assert LiveOwner(t, t.names[x].semanticOwner.name);
      }
    }
  }

  /** A name can be released only when no active name is owned by it. */
  lemma PutReleasedRow(t: Tables, n: Name, s: NameState, m: NameState, now: nat)
    requires Inv(t, now) && n in t.names
    requires OwnerGraphOk(t.names[n := s], t.sets, now) && SameReferences(s, m)
    requires m.status in {Released, Tombstoned} && m.semanticOwner == t.names[n].semanticOwner
    requires KeepsHistory(t.names[n], m)
    ensures Inv(t.(names := t.names[n := m]), now)
    ensures Changes(t, t.(names := t.names[n := m]), n)
  {
    hide LogDetermines, Changes;
    var u := t.(names := t.names[n := m]);
    PutRowMatches(t, n, m);
    PutRowChanges(t, n, m);
    SameReferencesGrounded(t.names, u.names);
    forall x | x in u.names && u.names[x].ActiveAt(now) && u.names[x].semanticOwner.BnsName?
      ensures LiveOwner(u, u.names[x].semanticOwner.name)
    {
      assert LiveOwner(t, t.names[x].semanticOwner.name);
      assert OwnerPathOk(t.names[n := s], t.sets, x, now, MAX_OWNER_REF_DEPTH);
      assert t.names[x].semanticOwner.name != n;
    }
  }

  // ----- registration -----

  function Registered(t: Tables, n: Name, m: NameState, e: RegistryEvent, now: nat): Tables {
    var t1 := if n in t.names then ResetNameLineage(t, n) else t;
    AppendEvent(t1.(names := t1.names[n := m]), e, now)
  }

  predicate StartsLineage(t: Tables, n: Name, m: NameState) {
    && m.ownerDocumentVersion == 0
    && m.lineageEpoch == if n in t.names then t.names[n].lineageEpoch + 1 else 0
  }

  lemma RegisteredTables(t: Tables, n: Name, m: NameState, e: RegistryEvent, now: nat)
    requires LogDetermines(t)
    ensures var u := Registered(t, n, m, e, now);
      && u.documents == ClearCurrentOfName(t.documents, n)
      && u.sets == t.sets - {n}
      && u.names == t.names[n := m]
  {
  }

  lemma RegisterDocumentsMatch(t: Tables, n: Name, r: EventRecord)
    requires LogDetermines(t) && Registers(r.event, n)
    ensures forall x, ty :: DocumentsMatch(ClearCurrentOfName(t.documents, n), Log(t) + [r], x, ty)
  {
    forall x, ty
      ensures DocumentsMatch(ClearCurrentOfName(t.documents, n), Log(t) + [r], x, ty)
    {
      RegisterMatches(t.documents, Log(t), n, r, x, ty);
    }
  }

  lemma RegisterNamesMatch(t: Tables, u: Tables, n: Name, r: EventRecord)
    requires LogDetermines(t) && Registers(r.event, n)
    requires u.names.Keys == t.names.Keys + {n} && StartsLineage(t, n, u.names[n])
    requires forall x | x in t.names && x != n :: u.names[x] == t.names[x]
    requires u.sets == t.sets - {n}
    ensures forall x :: NameMatches(u, Log(t) + [r], x)
  {
    forall x
      ensures NameMatches(u, Log(t) + [r], x)
    {
      assert NameMatches(t, Log(t), x);
      NameMatchStep(t, u, Log(t), r, x);
    }
  }

  lemma RegisterRowMatches(t: Tables, n: Name, m: NameState, e: RegistryEvent, now: nat)
    requires LogOk(t.events) && LogDetermines(t)
    requires Registers(e, n) && StartsLineage(t, n, m)
    ensures LogDetermines(Registered(t, n, m, e, now))
  {
    var u := Registered(t, n, m, e, now);
    var r := NextRecord(t.events, e, now);
    assert Log(u) == Log(t) + [r] by {
      AppendRecords(t, u, e, now);
    }
    RegisteredTables(t, n, m, e, now);
    RegisterDocumentsMatch(t, n, r);
    RegisterNamesMatch(t, u, n, r);
    OrderStep(Log(t), r);
  }

  lemma RegisterRowChanges(t: Tables, n: Name, m: NameState, e: RegistryEvent, now: nat)
    requires LogOk(t.events) && LogDetermines(t) && Registers(e, n)
    requires n in t.names ==> m.nameSeq >= t.names[n].nameSeq
    ensures Changes(t, Registered(t, n, m, e, now), n)
    ensures NamePushed(NewRecords(t, Registered(t, n, m, e, now)), n)
  {
    hide LogDetermines, LogOk, Changes, NewRecords, NamePushed;
    RegisteredTables(t, n, m, e, now);
    ResetChanges(t, Registered(t, n, m, e, now), n, m, e, now);
  }

  lemma ResetChanges(t: Tables, u: Tables, n: Name, m: NameState, e: RegistryEvent, now: nat)
    requires LogOk(t.events) && Registers(e, n) && u.events == AppendEvent(t, e, now).events
    requires u.documents == ClearCurrentOfName(t.documents, n) && u.sets == t.sets - {n} && u.names == t.names[n := m]
    requires n in t.names ==> m.nameSeq >= t.names[n].nameSeq
    ensures Changes(t, u, n) && NamePushed(NewRecords(t, u), n)
  {
    hide Log, LogOk, Extends, ClearCurrentOfName, NewRecords;
    AppendRecords(t, u, e, now);
    var w := NewRecords(t, u);
    assert w[0].event == e && PushesName(w[0].event, n) && PushesSet(w[0].event, n);
    forall k
      ensures SameDocument(t, u, k)
    {
      ClearingKeepsState(t.documents, n, k);
    }
    assert forall x | x != n :: SameSet(t, u, x);
  }

  lemma ClearingKeepsState(docs: DocumentTable, n: Name, k: DocumentKey)
    ensures k in ClearCurrentOfName(docs, n) <==> k in docs
    ensures k in docs ==> ClearCurrentOfName(docs, n)[k].state == docs[k].state
  {
  }

  lemma RegisteredOwnersLive(t: Tables, n: Name, m: NameState, e: RegistryEvent, now: nat)
    requires OwnersLive(t, now)
    requires n in t.names ==> t.names[n].status !in {Active, Expired}
    requires m.status == Active
    requires m.semanticOwner.BnsName? ==>
      LiveOwner(if n in t.names then ResetNameLineage(t, n) else t, m.semanticOwner.name)
    ensures OwnersLive(Registered(t, n, m, e, now), now)
  {
    var u := Registered(t, n, m, e, now);
    forall x | x in u.names && u.names[x].ActiveAt(now) && u.names[x].semanticOwner.BnsName?
      ensures LiveOwner(u, u.names[x].semanticOwner.name)
    {
      assert x != n ==> LiveOwner(t, t.names[x].semanticOwner.name);
    }
  }

  /** A released or new name starts over with a checked owner reference. */
  lemma PutRegisteredRow(t: Tables, n: Name, s: NameState, m: NameState, e: RegistryEvent, now: nat)
    requires Inv(t, now)
    requires n in t.names ==> t.names[n].status !in {Active, Expired}
    requires var t1 := if n in t.names then ResetNameLineage(t, n) else t;
      && OwnerGraphOk(t1.names[n := s], t1.sets, now)
      && (m.semanticOwner.BnsName? ==> LiveOwner(t1, m.semanticOwner.name))
    requires SameReferences(s, m) && m.status == Active && s.ActiveAt(now)
    requires StartsLineage(t, n, m) && Registers(e, n)
    requires n in t.names ==> m.nameSeq >= t.names[n].nameSeq
    ensures Inv(Registered(t, n, m, e, now), now)
    ensures Changes(t, Registered(t, n, m, e, now), n)
    ensures NamePushed(NewRecords(t, Registered(t, n, m, e, now)), n)
  {
    hide LogDetermines, Changes, OwnersLive, NamePushed, NewRecords;
    var t1 := if n in t.names then ResetNameLineage(t, n) else t;
    var u := Registered(t, n, m, e, now);
    RegisterRowMatches(t, n, m, e, now);
    RegisterRowChanges(t, n, m, e, now);
    assert LogOk(u.events) && CheckpointsOk(u) by {
      AppendRecords(t, u, e, now);
      AppendKeepsCheckpoints(t1.(names := t1.names[n := m]), e, now);
    }
    assert GraphGrounded(u.names) by {
      PathIsGrounded(t.names[n := s], t1.sets, n, now, MAX_OWNER_REF_DEPTH);
      ReplacedRowGrounded(t.names, n, s, m, MAX_OWNER_REF_DEPTH);
    }
    RegisteredOwnersLive(t, n, m, e, now);
  }

  // ----- authority sets -----

  function WithKeys(t: Tables, n: Name, keys: map<Kid, AuthorityKey>, set_: AuthoritySet, e: RegistryEvent, now: nat): Tables {
    AppendEvent(t.(keys := StoredKeys(t.keys, n, keys), sets := t.sets[n := set_]), e, now)
  }

  lemma KeysMatch(t: Tables, n: Name, keys: map<Kid, AuthorityKey>, set_: AuthoritySet, e: RegistryEvent, now: nat)
    requires LogOk(t.events) && LogDetermines(t) && n in t.names
    requires e.AuthorityKeysUpdated? && e.name == n
    ensures LogDetermines(WithKeys(t, n, keys, set_, e, now))
  {
    var u := WithKeys(t, n, keys, set_, e, now);
    var r := NextRecord(t.events, e, now);
    assert Log(u) == Log(t) + [r] by {
      AppendRecords(t, u, e, now);
    }
    OrderStep(Log(t), r);
    forall x, ty
      ensures DocumentsMatch(u.documents, Log(u), x, ty)
    {
      NeutralMatches(t.documents, Log(t), r, x, ty);
    }
    forall x
      ensures NameMatches(u, Log(u), x)
    {
      NameMatchStep(t, u, Log(t), r, x);
    }
  }

  lemma KeysChanges(t: Tables, n: Name, keys: map<Kid, AuthorityKey>, set_: AuthoritySet, e: RegistryEvent, now: nat)
    requires LogOk(t.events) && e.AuthorityKeysUpdated? && e.name == n
    ensures Changes(t, WithKeys(t, n, keys, set_, e, now), n)
  {
    var u := WithKeys(t, n, keys, set_, e, now);
    AppendRecords(t, u, e, now);
    assert PushesSet(NewRecords(t, u)[0].event, n);
  }

  /** Keys may run out only for a name that owns no active name. */
  lemma PutKeys(t: Tables, n: Name, keys: map<Kid, AuthorityKey>, set_: AuthoritySet, e: RegistryEvent, now: nat)
    requires Inv(t, now) && n in t.names
    requires e.AuthorityKeysUpdated? && e.name == n
    requires set_.activeKeyCount > 0 ||
      forall x | x in t.names && t.names[x].ActiveAt(now) :: t.names[x].semanticOwner != BnsName(n)
    ensures Inv(WithKeys(t, n, keys, set_, e, now), now)
    ensures Changes(t, WithKeys(t, n, keys, set_, e, now), n)
  {
    hide LogDetermines, Changes;
    var u := WithKeys(t, n, keys, set_, e, now);
    KeysMatch(t, n, keys, set_, e, now);
    KeysChanges(t, n, keys, set_, e, now);
    AppendRecords(t, u, e, now);
    AppendKeepsCheckpoints(t.(keys := StoredKeys(t.keys, n, keys), sets := t.sets[n := set_]), e, now);
    forall x | x in u.names && u.names[x].ActiveAt(now) && u.names[x].semanticOwner.BnsName?
      ensures LiveOwner(u, u.names[x].semanticOwner.name)
    {
      assert LiveOwner(t, t.names[x].semanticOwner.name);
    }
  }

  // ----- documents -----

  /** A document row and the name row that goes with it, announced by one event. */
  function WithDocument(
    t: Tables, key: DocumentKey, d: DocumentState, m: NameState, e: RegistryEvent, now: nat): Tables
  {
    var t1 := t.(documents := PutDocument(t.documents, key, d));
    AppendEvent(t1.(names := t1.names[key.name := m]), e, now)
  }

  lemma DocumentChanges(t: Tables, key: DocumentKey, d: DocumentState, m: NameState, e: RegistryEvent, now: nat)
    requires LogOk(t.events) && key.name in t.names && m.nameSeq >= t.names[key.name].nameSeq
    requires PushesDocument(e, key)
    ensures Changes(t, WithDocument(t, key, d, m, e, now), key.name)
    ensures NamePushed(NewRecords(t, WithDocument(t, key, d, m, e, now)), key.name)
  {
    var u := WithDocument(t, key, d, m, e, now);
    AppendRecords(t, u, e, now);
    assert PushesDocument(NewRecords(t, u)[0].event, key);
    assert PushesName(NewRecords(t, u)[0].event, key.name);
  }

  /** Owner references and authority sets do not depend on documents. */
  lemma DocumentKeepsOwners(t: Tables, key: DocumentKey, d: DocumentState, m: NameState, e: RegistryEvent, now: nat)
    requires Inv(t, now) && key.name in t.names
    requires SameReferences(t.names[key.name], m)
    ensures var u := WithDocument(t, key, d, m, e, now);
      LogOk(u.events) && CheckpointsOk(u) && GraphGrounded(u.names) && OwnersLive(u, now)
  {
    hide LogDetermines;
    var u := WithDocument(t, key, d, m, e, now);
    AppendRecords(t, u, e, now);
    var t1 := t.(documents := PutDocument(t.documents, key, d));
    AppendKeepsCheckpoints(t1.(names := t1.names[key.name := m]), e, now);
    SameReferencesGrounded(t.names, u.names);
    forall x | x in u.names && u.names[x].ActiveAt(now) && u.names[x].semanticOwner.BnsName?
      ensures LiveOwner(u, u.names[x].semanticOwner.name)
    {
      assert LiveOwner(t, t.names[x].semanticOwner.name);
    }
  }

  lemma NewVersionMatches(t: Tables, key: DocumentKey, d: DocumentState, m: NameState, e: RegistryEvent, now: nat)
    requires LogOk(t.events) && LogDetermines(t) && key.name in t.names
    requires m.lineageEpoch == t.names[key.name].lineageEpoch
    requires key.version == LatestVersion(t.documents, key.name, key.docType) + 1
    requires d.previousVersion == CurrentVersion(t.documents, key.name, key.docType)
    requires AddsVersion(e, key.name, key.docType) && e.version == key.version
    requires m.ownerDocumentVersion ==
      if key.docType == OWNER_DOC_TYPE then key.version else t.names[key.name].ownerDocumentVersion
    ensures LogDetermines(WithDocument(t, key, d, m, e, now))
  {
    hide DocumentsMatch, NameMatches, VersionsInOrder, PaymentsInOrder, PutDocument, LatestVersion, CurrentVersion;
    var u := WithDocument(t, key, d, m, e, now);
    var r := NextRecord(t.events, e, now);
    assert Log(u) == Log(t) + [r] by {
      AppendRecords(t, u, e, now);
    }
    assert DocumentsMatch(t.documents, Log(t), key.name, key.docType);
    ReadVersions(t.documents, Log(t), key.name, key.docType);
    OrderStep(Log(t), r);
    forall x, ty
      ensures DocumentsMatch(u.documents, Log(u), x, ty)
    {
      AddVersionMatches(t.documents, Log(t), key.name, key.docType, d, r, x, ty);
    }
    forall x
      ensures NameMatches(u, Log(u), x)
    {
      NewVersionName(t, u, key, m, r, x);
    }
    PutAddsKey(t.documents, key, d);
  }

  lemma NewVersionName(t: Tables, u: Tables, key: DocumentKey, m: NameState, r: EventRecord, x: Name)
    requires NameMatches(t, Log(t), x) && key.name in t.names
    requires u.names == t.names[key.name := m] && u.sets == t.sets
    requires m.lineageEpoch == t.names[key.name].lineageEpoch
    requires AddsVersion(r.event, key.name, key.docType) && r.event.version == key.version
    requires m.ownerDocumentVersion ==
      if key.docType == OWNER_DOC_TYPE then key.version else t.names[key.name].ownerDocumentVersion
    ensures NameMatches(u, Log(t) + [r], x)
  {
    hide Log;
    NameMatchStep(t, u, Log(t), r, x);
  }

  lemma PutAddsKey(docs: DocumentTable, key: DocumentKey, d: DocumentState)
    ensures PutDocument(docs, key, d).Keys == docs.Keys + {key}
  {
  }

  /** The next version becomes current, and the owner document's version is mirrored in the name row. */
  lemma PutNewVersion(t: Tables, key: DocumentKey, d: DocumentState, m: NameState, e: RegistryEvent, now: nat)
    requires Inv(t, now) && key.name in t.names
    requires SameReferences(t.names[key.name], m)
    requires m.nameSeq >= t.names[key.name].nameSeq && m.lineageEpoch == t.names[key.name].lineageEpoch
    requires key.version == LatestVersion(t.documents, key.name, key.docType) + 1
    requires d.previousVersion == CurrentVersion(t.documents, key.name, key.docType)
    requires AddsVersion(e, key.name, key.docType) && e.version == key.version
    requires m.ownerDocumentVersion ==
      if key.docType == OWNER_DOC_TYPE then key.version else t.names[key.name].ownerDocumentVersion
    ensures Inv(WithDocument(t, key, d, m, e, now), now)
    ensures Changes(t, WithDocument(t, key, d, m, e, now), key.name)
    ensures NamePushed(NewRecords(t, WithDocument(t, key, d, m, e, now)), key.name)
  {
    hide LogDetermines, Changes, WithDocument, NewRecords, NamePushed;
    NewVersionMatches(t, key, d, m, e, now);
    DocumentChanges(t, key, d, m, e, now);
    DocumentKeepsOwners(t, key, d, m, e, now);
  }

  lemma PaymentMatches(t: Tables, key: DocumentKey, d: DocumentState, m: NameState, e: RegistryEvent, now: nat)
    requires LogOk(t.events) && LogDetermines(t) && key.name in t.names
    requires m.lineageEpoch == t.names[key.name].lineageEpoch
    requires key in t.documents && t.documents[key].current
    requires d.previousVersion == t.documents[key].state.previousVersion
    requires e.PaymentTargetUpdated? && PushesDocument(e, key)
    requires m.ownerDocumentVersion == t.names[key.name].ownerDocumentVersion
    ensures LogDetermines(WithDocument(t, key, d, m, e, now))
  {
    var u := WithDocument(t, key, d, m, e, now);
    var r := NextRecord(t.events, e, now);
    assert Log(u) == Log(t) + [r] by {
      AppendRecords(t, u, e, now);
    }
    assert PaysCurrent(Log(t), e) by {
      assert DocumentsMatch(t.documents, Log(t), key.name, key.docType);
      assert key == DocumentKey(key.name, key.docType, key.version);
    }
    OrderStep(Log(t), r);
    forall x, ty
      ensures DocumentsMatch(u.documents, Log(u), x, ty)
    {
      RewriteCurrentMatches(t.documents, Log(t), key, d, r, x, ty);
    }
    forall x
      ensures NameMatches(u, Log(u), x)
    {
      NameMatchStep(t, u, Log(t), r, x);
    }
  }

  /** Payment fields of the current version are rewritten in place. */
  lemma PutPayment(t: Tables, key: DocumentKey, d: DocumentState, m: NameState, e: RegistryEvent, now: nat)
    requires Inv(t, now) && key.name in t.names
    requires SameReferences(t.names[key.name], m)
    requires m.nameSeq >= t.names[key.name].nameSeq && m.lineageEpoch == t.names[key.name].lineageEpoch
    requires key in t.documents && t.documents[key].current
    requires d.previousVersion == t.documents[key].state.previousVersion
    requires e.PaymentTargetUpdated? && PushesDocument(e, key)
    requires m.ownerDocumentVersion == t.names[key.name].ownerDocumentVersion
    ensures Inv(WithDocument(t, key, d, m, e, now), now)
    ensures Changes(t, WithDocument(t, key, d, m, e, now), key.name)
    ensures NamePushed(NewRecords(t, WithDocument(t, key, d, m, e, now)), key.name)
  {
    hide LogDetermines, Changes, WithDocument, NewRecords, NamePushed;
    PaymentMatches(t, key, d, m, e, now);
    DocumentChanges(t, key, d, m, e, now);
    DocumentKeepsOwners(t, key, d, m, e, now);
  }

  // ----- checkpoints -----

  lemma PutCheckpoint(t: Tables, c: LogCheckpoint, now: nat)
    requires Inv(t, now)
    requires c.lastSeq == LatestSeq(t.events) && c.logRoot == RootAt(t.events, c.lastSeq)
    ensures Inv(t.(checkpoints := t.checkpoints[c.lastSeq := c]), now)
  {
    var u := t.(checkpoints := t.checkpoints[c.lastSeq := c]);
    assert Log(u) == Log(t);
    assert forall x | NameMatches(t, Log(t), x) :: NameMatches(u, Log(u), x);
  }
}
