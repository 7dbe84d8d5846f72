/** Every table after a committed operation, with the events it announces and its reply. */
module OperationTables {
  import opened Wrappers
  import opened BnsModel
  import opened RegistryTables
  import opened OwnerGraph
  import opened Ownership
  import opened RegistrySpec
  import opened Liveness
  import opened DocumentBatches
  import opened RegistryContents
  import opened RowEffects

  // ----- the log -----

  /** The event table after these events, one record each. */
  function Appended(events: EventTable, list: seq<RegistryEvent>, now: nat): EventTable {
    if list == [] then events
    else
      var before := Appended(events, list[..|list| - 1], now);
      var record := NextRecord(before, list[|list| - 1], now);
      before[record.seq_ := record]
  }

  lemma {:induction false} AppendedTwice(events: EventTable, a: seq<RegistryEvent>, b: seq<RegistryEvent>, now: nat)
    ensures Appended(Appended(events, a, now), b, now) == Appended(events, a + b, now)
    decreases |b|
  {
    if b == [] {
      assert a + b == a;
    } else {
      var k := |b| - 1;
      AppendedTwice(events, a, b[..k], now);
      assert (a + b)[..|a + b| - 1] == a + b[..k];
    }
  }

  lemma AppendedOne(t: Tables, e: RegistryEvent, now: nat)
    ensures AppendEvent(t, e, now).events == Appended(t.events, [e], now)
  {
    assert [e][..0] == [];
  }

  // ----- what stays -----

  /** One row of one name, and the log; no other table. */
  predicate OnlyRow(t: Tables, u: Tables, n: Name, events: seq<RegistryEvent>, now: nat) {
    && n in u.names && u.names == t.names[n := u.names[n]]
    && u.documents == t.documents && SameSides(t, u)
    && u.events == Appended(t.events, events, now)
  }

  /** One row, the documents, and the log. */
  predicate RowAndDocuments(t: Tables, u: Tables, n: Name, events: seq<RegistryEvent>, now: nat) {
    && n in u.names && u.names == t.names[n := u.names[n]] && SameSides(t, u)
    && u.events == Appended(t.events, events, now)
  }

  lemma SaveThenAppend(t: Tables, n: Name, s: NameState, e: RegistryEvent, now: nat)
    requires SaveName(t, n, s, now).Success?
    ensures OnlyRow(t, AppendEvent(SaveName(t, n, s, now).value, e, now), n, [e], now)
  {
    hide MaterializeNameState, NextRecord, Appended;
    AppendedOne(SaveName(t, n, s, now).value, e, now);
  }

  // ----- derived fields of a stored row -----

  /** Where the owner of a name comes from, given its semantic owner. */
  function SourceFor(n: Name, owner: Principal): OwnerSource {
    if owner.BnsName? then ExplicitSemanticOwner else if n.Top? then AssetOwnerFallback else ParentInherited
  }

  lemma SavedDerived(t: Tables, n: Name, s: NameState, now: nat)
    requires SaveName(t, n, s, now).Success? && s.status == Active && Within(0, s.expireAt, now)
    ensures var m := SaveName(t, n, s, now).value.names[n];
      && m.ownerSource == SourceFor(n, s.semanticOwner)
      && (m.standardTransferEnabled <==> s.transferable && n.Top? && !s.semanticOwner.BnsName?)
  {
    hide ResolveOwner;
    assert s.MaterializeStatusAt(now) == s;
    ResolvedSource(t, n, s, now);
  }

  lemma ResolvedSource(t: Tables, n: Name, s: NameState, now: nat)
    requires ResolveOwner(t, n, s, now).Success?
    ensures ResolveOwner(t, n, s, now).value.source == SourceFor(n, s.semanticOwner)
  {
  }

  function OwnerAnnounced(n: Name, owner: Principal, m: NameState): RegistryEvent {
    NameOwnerUpdated(n, owner, SourceFor(n, owner), m.transferable && n.Top? && !owner.BnsName?, m.nameSeq)
  }

  // ----- one row -----

  predicate RowOperation(op: Operation) {
    op.Renew? || op.StandardTransfer? || op.SetOwner? || op.Release? || op.SetMinIat? || op.SetNamespace?
  }

  function RowAnnounced(op: Operation, s: NameState, m: NameState): RegistryEvent
    requires RowOperation(op)
  {
    match op
    case Renew(n, _) => NameRenewed(n, m.expireAt, m.nameSeq)
    case StandardTransfer(n, assetOwner) => NameAssetTransferred(n, s.assetOwner, assetOwner, true, m.nameSeq)
    case SetOwner(n, owner, _, _) => OwnerAnnounced(n, owner, m)
    case Release(n, mode, reasonHash, _, _) => NameReleased(n, mode, reasonHash, m.nameSeq)
    case SetMinIat(n, iat, reasonHash, _, _) =>
      OwnerDocumentIatFloorUpdated(n, s.minDocumentIat, iat, m.ownerPolicySeq, m.nameSeq, reasonHash)
    case SetNamespace(n, allow, policyHash, _, _) => NamespacePolicyUpdated(n, allow, policyHash, m.nameSeq)
  }

  /** The operation changes the row of its name, announces it, and replies with the new number or the new expiry. */
  predicate RowLeft(t: Tables, op: Operation, o: Outcome, now: nat)
    requires RowOperation(op)
  {
    var n, u := op.name, o.tables;
    && n in t.names && n in u.names
    && OnlyRow(t, u, n, [RowAnnounced(op, t.names[n], u.names[n])], now)
    && o.reply == if op.Renew? then u.names[n].expireAt else u.names[n].nameSeq
  }

  lemma RenewLeaves(t: Tables, op: Operation, now: nat)
    requires op.Renew? && Apply(t, op, now).Success?
    ensures RowLeft(t, op, Apply(t, op, now).value, now)
  {
    hide SaveName, OnlyRow, RenewedState;
    var s := RenewedState(t.names[op.name], op.duration, now);
    SavedRow(t, op.name, s, now);
    SaveThenAppend(t, op.name, s, NameRenewed(op.name, s.expireAt, s.nameSeq), now);
  }

  lemma PlainRowLeaves(t: Tables, op: Operation, now: nat)
    requires (op.StandardTransfer? || op.SetMinIat? || op.SetNamespace?) && Apply(t, op, now).Success?
    ensures RowLeft(t, op, Apply(t, op, now).value, now)
  {
    hide SaveName, OnlyRow, RequiredActiveName, AuthorizeOwner, AuthorizeUpdate, SameCore;
    var n := op.name;
    var s := RequiredActiveName(t, n, now).value;
    SameCoreKeeps(t.names[n], s);
    CoreKeeps(t.names[n], s);
    var s1 := match op
      case StandardTransfer(_, assetOwner) => s.(assetOwner := assetOwner, nameSeq := s.nameSeq + 1, updatedAt := now)
      case SetMinIat(_, iat, _, _, _) =>
        s.(nameSeq := s.nameSeq + 1, minDocumentIat := iat, ownerPolicySeq := s.ownerPolicySeq + 1, updatedAt := now)
      case SetNamespace(_, allow, policyHash, _, _) =>
        s.(allowDelegatedSubnames := allow, namespacePolicyHash := policyHash, nameSeq := s.nameSeq + 1, updatedAt := now);
    SavedActiveRow(t, n, s, s1, now);
    var u := SaveName(t, n, s1, now).value;
    SameCoreKeeps(s1, u.names[n]);
    CoreKeeps(s1, u.names[n]);
    SaveThenAppend(t, n, s1, RowAnnounced(op, t.names[n], u.names[n]), now);
  }

  lemma CoreKeeps(r: NameState, m: NameState)
    requires SameCore(r, m)
    ensures m.assetOwner == r.assetOwner && m.minDocumentIat == r.minDocumentIat && m.ownerPolicySeq == r.ownerPolicySeq
    ensures m.semanticOwner == r.semanticOwner && m.transferable == r.transferable
  {
  }

  lemma AssignLeaves(t: Tables, n: Name, assetOwner: Option<string>, owner: Principal, now: nat)
    requires AssignOwner(t, n, assetOwner, owner, now).Success?
    ensures var u := AssignOwner(t, n, assetOwner, owner, now).value;
      && n in t.names && OnlyRow(t, u, n, [], now)
      && OwnerEvent(n, u.names[n]) == OwnerAnnounced(n, owner, u.names[n])
      && u.names[n].nameSeq == t.names[n].nameSeq + 1
  {
    hide RequiredActiveName, MaterializeNameState, OwnerGraphOk, ValidateSemanticOwnerTarget, SameCore;
    var s := RequiredActiveName(t, n, now).value;
    CoreKeeps(t.names[n], s);
    SameCoreKeeps(t.names[n], s);
    var s1 := s.(assetOwner := assetOwner.GetOr(s.assetOwner), semanticOwner := owner,
                 nameSeq := s.nameSeq + 1, updatedAt := now);
    SavedActiveRow(t, n, s, s1, now);
    var u := SaveName(t, n, s1, now).value;
    SameCoreKeeps(s1, u.names[n]);
    CoreKeeps(s1, u.names[n]);
    SavedDerived(t, n, s1, now);
  }

  lemma OwnerLeaves(t: Tables, op: Operation, now: nat)
    requires op.SetOwner? && Apply(t, op, now).Success?
    ensures RowLeft(t, op, Apply(t, op, now).value, now)
  {
    hide AssignOwner, RequiredActiveName, AuthorizeOwner, NextRecord, SameCore;
    var n := op.name;
    AssignLeaves(t, n, None, op.owner, now);
    SameCoreKeeps(t.names[n], RequiredActiveName(t, n, now).value);
    var u := AssignOwner(t, n, None, op.owner, now).value;
    AppendedOne(u, OwnerEvent(n, u.names[n]), now);
    NothingAppended(t.events, now);
  }

  lemma NothingAppended(events: EventTable, now: nat)
    ensures Appended(events, [], now) == events
  {
  }

  lemma ReleaseLeaves(t: Tables, op: Operation, now: nat)
    requires op.Release? && Apply(t, op, now).Success?
    ensures RowLeft(t, op, Apply(t, op, now).value, now)
  {
    hide SaveName, OnlyRow, RequiredActiveName, AuthorizeOwner, OwnerGraphOk;
    var n := op.name;
    var s := RequiredActiveName(t, n, now).value;
    var s1 := s.(status := ReleasedStatus(op.mode), nameSeq := s.nameSeq + 1, updatedAt := now);
    SavedRow(t, n, s1, now);
    SaveThenAppend(t, n, s1, NameReleased(n, op.mode, op.reasonHash, s1.nameSeq), now);
  }

  // ----- keys -----

  /** The set counts the live keys, and its root commits to exactly these. */
  predicate Counts(set_: AuthoritySet, keys: map<Kid, AuthorityKey>, now: nat) {
    var live := set kid | kid in keys && LiveKey(keys[kid], now);
    && set_.activeKeyCount == |live|
    && set_.root == if live == {} then ZeroHash else AuthorityRoot(map kid | kid in live :: keys[kid])
  }

  /** The keys of the name are those of the batch, and its authority set counts them anew. */
  ghost predicate KeysLeft(t: Tables, u: Tables, n: Name, updates: seq<KeyUpdate>, now: nat) {
    && KeysOf(u, n) == ApplyKeyUpdates(KeysOf(t, n), updates)
    && (forall m | m != n :: KeysOf(u, m) == KeysOf(t, m))
    && n in u.sets && u.sets == t.sets[n := u.sets[n]] && Counts(u.sets[n], KeysOf(u, n), now)
    && u.sets[n].authoritySeq == AuthoritySetOf(t, n).authoritySeq + 1
  }

  function KeysAnnounced(u: Tables, n: Name): RegistryEvent {
    AuthorityKeysUpdated(n, AuthoritySetOf(u, n).authoritySeq, AuthoritySetOf(u, n).root)
  }

  lemma KeysLeave(t: Tables, n: Name, updates: seq<KeyUpdate>, now: nat)
    requires ApplyAuthorityUpdates(t, n, updates, now).Success?
    ensures var u := ApplyAuthorityUpdates(t, n, updates, now).value;
      && KeysLeft(t, u, n, updates, now)
      && u == t.(keys := u.keys, sets := u.sets, events := Appended(t.events, [KeysAnnounced(u, n)], now))
  {
    hide ApplyAuthorityUpdates, ApplyKeyUpdates, Appended, Counts;
    var u := ApplyAuthorityUpdates(t, n, updates, now).value;
    KeysCounted(t, n, updates, now, u);
    CountsMean(u, n, now);
    KeysFrame(t, n, updates, now);
  }

  lemma KeysFrame(t: Tables, n: Name, updates: seq<KeyUpdate>, now: nat)
    requires ApplyAuthorityUpdates(t, n, updates, now).Success?
    ensures var u := ApplyAuthorityUpdates(t, n, updates, now).value;
      && u == t.(keys := u.keys, sets := u.sets, events := Appended(t.events, [KeysAnnounced(u, n)], now))
      && n in u.sets && u.sets == t.sets[n := u.sets[n]]
      && (forall m | m != n :: KeysOf(u, m) == KeysOf(t, m))
  {
    hide ApplyKeyUpdates, NextRecord, Appended, IsAuthorityOwner, ActiveKeys;
    var keys := ApplyKeyUpdates(KeysOf(t, n), updates);
    var set_ := RecomputeAuthoritySet(t, n, keys, now);
    AppendedOne(t.(keys := StoredKeys(t.keys, n, keys), sets := t.sets[n := set_]),
                AuthorityKeysUpdated(n, set_.authoritySeq, set_.root), now);
  }

  lemma CountsMean(u: Tables, n: Name, now: nat)
    requires n in u.sets
    requires var live := set kid | kid in KeysOf(u, n) && LiveKey(KeysOf(u, n)[kid], now);
      && u.sets[n].activeKeyCount == |live|
      && (u.sets[n].root == ZeroHash <==> live == {})
      && (live != {} ==> u.sets[n].root == AuthorityRoot(map kid | kid in live :: KeysOf(u, n)[kid]))
    ensures Counts(u.sets[n], KeysOf(u, n), now)
  {
  }

  // ----- documents -----

  /** One event for each document, with its version, its content hash and its seal. */
  function DocumentsAnnounced(docs: DocumentTable, n: Name, updates: seq<DocumentUpdate>, w: DocumentTable): seq<RegistryEvent>
    requires AllIn(docs, n, updates, w)
  {
    seq(|updates|, i requires 0 <= i < |updates| =>
      var key := KeyOf(docs, n, updates, i);
      DocumentPublished(n, key.docType, key.version, updates[i].document.contentHash, w[key].state.stateHash))
  }

  lemma PublishLeaves(t: Tables, n: Name, u: DocumentUpdate, bump: bool, now: nat)
    requires PublishInternal(t, n, u, bump, now).Success?
    ensures var w := PublishInternal(t, n, u, bump, now).value.tables;
      var key := DocumentKey(n, u.docType, LatestVersion(t.documents, n, u.docType) + 1);
      && n in t.names && key in w.documents
      && RowAndDocuments(t, w, n, [DocumentPublished(n, u.docType, key.version, u.document.contentHash,
                                                     w.documents[key].state.stateHash)], now)
  {
    hide RequiredActiveName, MaterializeNameState, CurrentVersion, LatestVersion, WithDocumentVersion, NextRecord, Appended;
    hide PutDocument;
    var key := DocumentKey(n, u.docType, LatestVersion(t.documents, n, u.docType) + 1);
    var d := SealDocument(key, PublishedDocument(u, CurrentVersion(t.documents, n, u.docType), now));
    PutNewest(t.documents, key, d);
    var t1 := t.(documents := PutDocument(t.documents, key, d));
    var s := RequiredActiveName(t1, n, now).value;
    var s1 := WithDocumentVersion(s, u.docType, key.version).(
      nameSeq := if bump then s.nameSeq + 1 else s.nameSeq, updatedAt := now);
    AppendedOne(SaveName(t1, n, s1, now).value,
                DocumentPublished(n, u.docType, key.version, d.document.contentHash, d.stateHash), now);
  }

  predicate AllIn(docs: DocumentTable, n: Name, updates: seq<DocumentUpdate>, w: DocumentTable) {
    forall i | 0 <= i < |updates| :: KeyOf(docs, n, updates, i) in w
  }

  /** Later documents of a batch do not change what was announced of earlier ones. */
  lemma SameAnnouncements(docs: DocumentTable, n: Name, updates: seq<DocumentUpdate>, w: DocumentTable,
                          key: DocumentKey, d: DocumentState, after: DocumentTable)
    requires updates != [] && AllIn(docs, n, updates[..|updates| - 1], w) && AllIn(docs, n, updates, after)
    requires PutAbove(w, key, d, after)
    ensures var whole := DocumentsAnnounced(docs, n, updates, after);
      whole == DocumentsAnnounced(docs, n, updates[..|updates| - 1], w) + [whole[|updates| - 1]]
  {
    hide LatestVersion, CountType, KeyOf;
    var k := |updates| - 1;
    forall i | 0 <= i < k
      ensures KeyOf(docs, n, updates, i) == KeyOf(docs, n, updates[..k], i)
      ensures KeyOf(docs, n, updates[..k], i) in w && KeyOf(docs, n, updates[..k], i) != key
    {
      KeyOfPrefix(docs, n, updates, i);
    }
  }

  lemma {:induction false} PublishAllLeaves(t: Tables, n: Name, updates: seq<DocumentUpdate>, now: nat)
    requires PublishAll(t, n, updates, now).Success? && n in t.names
    ensures var u := PublishAll(t, n, updates, now).value;
      && Stored(t.documents, n, updates, u.documents, now) && AllIn(t.documents, n, updates, u.documents)
      && RowAndDocuments(t, u, n, DocumentsAnnounced(t.documents, n, updates, u.documents), now)
    decreases |updates|
  {
    hide PublishInternal, Appended, LatestVersion, CountType, Carries, OldKept, NoOthers, PutDocument, PutAbove;
    hide SealDocument, PublishedDocument, CurrentVersion;
    BatchStored(t, n, updates, now);
    var u := PublishAll(t, n, updates, now).value;
    if updates == [] {
      NothingAppended(t.events, now);
      assert DocumentsAnnounced(t.documents, n, updates, u.documents) == [];
    } else {
      var k := |updates| - 1;
      PublishAllLeaves(t, n, updates[..k], now);
      OneMoreAnnounced(t, n, updates, PublishAll(t, n, updates[..k], now).value, u, now);
    }
  }

  lemma OneMoreAnnounced(t: Tables, n: Name, updates: seq<DocumentUpdate>, t1: Tables, u: Tables, now: nat)
    requires updates != [] && PublishAll(t, n, updates[..|updates| - 1], now) == Success(t1)
    requires var k := |updates| - 1;
      && PublishInternal(t1, n, updates[k], false, now).Success?
      && PublishInternal(t1, n, updates[k], false, now).value.tables == u
      && AllIn(t.documents, n, updates[..k], t1.documents) && AllIn(t.documents, n, updates, u.documents)
      && RowAndDocuments(t, t1, n, DocumentsAnnounced(t.documents, n, updates[..k], t1.documents), now)
    ensures RowAndDocuments(t, u, n, DocumentsAnnounced(t.documents, n, updates, u.documents), now)
  {
    hide PublishAll, PublishInternal, Appended, LatestVersion, CountType, PutDocument, SealDocument, PublishedDocument;
    var k := |updates| - 1;
    var doc := updates[k];
    var key := DocumentKey(n, doc.docType, LatestVersion(t1.documents, n, doc.docType) + 1);
    var d := SealDocument(key, PublishedDocument(doc, doc.expectedVersion, now));
    PublishLeaves(t1, n, doc, false, now);
    PublishStores(t1, n, doc, false, now);
    PutNewest(t1.documents, key, d);
    VersionsAfter(t, n, updates[..k], now, doc.docType);
    SameAnnouncements(t.documents, n, updates, t1.documents, key, d, u.documents);
    var before := DocumentsAnnounced(t.documents, n, updates[..k], t1.documents);
    AppendedTwice(t.events, before, [DocumentsAnnounced(t.documents, n, updates, u.documents)[k]], now);
  }
}
