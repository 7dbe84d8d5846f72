/** Every table after the operations that touch more than one row, and the theorem for all operations. */
module BatchTables {
  import opened Wrappers
  import opened BnsModel
  import opened RegistryTables
  import opened Ownership
  import opened RegistrySpec
  import opened RowEffects
  import opened DocumentBatches
  import opened OperationTables

  /** All tables: one row, a key batch if there is one, a batch of documents, and what is announced. */
  ghost predicate TablesLeft(
    t: Tables, u: Tables, n: Name, keys: Option<seq<KeyUpdate>>, documents: seq<DocumentUpdate>,
    policies: map<Name, ControllerPolicy>, aliases: map<Name, AliasState>, events: seq<RegistryEvent>, now: nat)
  {
    && n in u.names && u.names == t.names[n := u.names[n]]
    && Stored(t.documents, n, documents, u.documents, now)
    && (match keys
        case None => u.keys == t.keys && u.sets == t.sets
        case Some(updates) => KeysLeft(t, u, n, updates, now))
    && u.policies == policies && u.aliases == aliases && u.checkpoints == t.checkpoints
    && u.events == Appended(t.events, events, now)
  }

  // ----- settings -----

  lemma PolicyLeaves(t: Tables, n: Name, rules: seq<ControllerRule>, policyHash: Hash, now: nat)
    requires InstallPolicy(t, n, rules, policyHash, now).Success?
    ensures var o := InstallPolicy(t, n, rules, policyHash, now).value; var u := o.tables;
      && n in t.names && n in u.names && o.reply == u.names[n].nameSeq
      && OnlyRow(t.(policies := t.policies[n := ControllerPolicy(rules, policyHash)]), u, n,
                 [ControllerPolicyUpdated(n, policyHash, u.names[n].nameSeq)], now)
  {
    hide RequiredActiveName, CheckControllers, OnlyRow, SaveName, SameCore;
    var t1 := t.(policies := t.policies[n := ControllerPolicy(rules, policyHash)]);
    var s := RequiredActiveName(t1, n, now).value;
    var s1 := s.(nameSeq := s.nameSeq + 1, updatedAt := now);
    SavedRow(t1, n, s1, now);
    SaveThenAppend(t1, n, s1, ControllerPolicyUpdated(n, policyHash, SaveName(t1, n, s1, now).value.names[n].nameSeq), now);
  }

  predicate Setting(op: Operation) {
    op.SetPolicy? || op.SetAlias? || op.UpdateKeys?
  }

  ghost predicate SettingLeft(t: Tables, op: Operation, o: Outcome, now: nat)
    requires Setting(op)
  {
    var n, u := op.name, o.tables;
    && n in u.names
    && match op
       case SetPolicy(_, rules, policyHash, _, _) =>
         && o.reply == u.names[n].nameSeq
         && TablesLeft(t, u, n, None, [], t.policies[n := ControllerPolicy(rules, policyHash)], t.aliases,
                       [ControllerPolicyUpdated(n, policyHash, u.names[n].nameSeq)], now)
       case SetAlias(_, targetDid, kind, proofHash, _, _) =>
         && o.reply == u.names[n].nameSeq
         && TablesLeft(t, u, n, None, [], t.policies,
                       t.aliases[n := AliasState(kind, targetDid, proofHash, now, u.names[n].nameSeq)],
                       [DidAliasSet(n, targetDid, kind, proofHash, u.names[n].nameSeq)], now)
       case UpdateKeys(_, updates, _, _) =>
         && n in u.sets && o.reply == u.sets[n].authoritySeq
         && TablesLeft(t, u, n, Some(updates), [], t.policies, t.aliases, [KeysAnnounced(u, n)], now)
  }

  lemma PolicySettingLeaves(t: Tables, op: Operation, now: nat)
    requires op.SetPolicy? && Apply(t, op, now).Success?
    ensures SettingLeft(t, op, Apply(t, op, now).value, now)
  {
    hide RequiredActiveName, AuthorizeOwner, InstallPolicy, Stored, Appended;
    NothingStored(t.documents, op.name, now);
    PolicyLeaves(t, op.name, op.rules, op.policyHash, now);
  }

  lemma KeySettingLeaves(t: Tables, op: Operation, now: nat)
    requires op.UpdateKeys? && Apply(t, op, now).Success?
    ensures SettingLeft(t, op, Apply(t, op, now).value, now)
  {
    hide RequiredActiveName, AuthorizeOwner, ApplyAuthorityUpdates, Stored, KeysLeft, Appended;
    NothingStored(t.documents, op.name, now);
    KeysLeave(t, op.name, op.keyUpdates, now);
    KeysFrame(t, op.name, op.keyUpdates, now);
  }

  lemma AliasSettingLeaves(t: Tables, op: Operation, now: nat)
    requires op.SetAlias? && Apply(t, op, now).Success?
    ensures SettingLeft(t, op, Apply(t, op, now).value, now)
  {
    hide RequiredActiveName, AuthorizeUpdate, Stored, Appended, SaveName, NextRecord, SameCore;
    var n := op.name;
    NothingStored(t.documents, n, now);
    var s := RequiredActiveName(t, n, now).value;
    var s1 := s.(aliasStateHash := op.proofHash, nameSeq := s.nameSeq + 1, updatedAt := now);
    SameCoreKeeps(t.names[n], s);
    SavedActiveRow(t, n, s, s1, now);
    var t1 := SaveName(t, n, s1, now).value;
    SameCoreKeeps(s1, t1.names[n]);
    AppendedOne(t1.(aliases := t1.aliases[n := AliasState(op.kind, op.targetDid, op.proofHash, now, s1.nameSeq)]),
                DidAliasSet(n, op.targetDid, op.kind, op.proofHash, s1.nameSeq), now);
  }

  // ----- documents -----

  lemma SingleStored(docs: DocumentTable, n: Name, u: DocumentUpdate, d: DocumentState, now: nat)
    requires Carries(d, u, now)
    ensures var key := DocumentKey(n, u.docType, LatestVersion(docs, n, u.docType) + 1);
      && KeyOf(docs, n, [u], 0) == key
      && Stored(docs, n, [u], PutDocument(docs, key, d), now)
  {
    hide PutDocument, PutAbove, LatestVersion, Carries;
    var key := DocumentKey(n, u.docType, LatestVersion(docs, n, u.docType) + 1);
    assert [u][..0] == [];
    NothingStored(docs, n, now);
    PutNewest(docs, key, d);
    OldKeptGrows(docs, n, [u], docs, d, PutDocument(docs, key, d));
    NewStoredGrows(docs, n, [u], docs, d, PutDocument(docs, key, d), now);
    NoOthersGrows(docs, n, [u], docs, d, PutDocument(docs, key, d));
  }

  lemma PublishOneLeaves(t: Tables, n: Name, doc: DocumentUpdate, now: nat)
    requires PublishInternal(t, n, doc, true, now).Success?
    ensures var o := PublishInternal(t, n, doc, true, now).value; var u := o.tables;
      && o.reply == KeyOf(t.documents, n, [doc], 0).version
      && Stored(t.documents, n, [doc], u.documents, now) && AllIn(t.documents, n, [doc], u.documents)
      && RowAndDocuments(t, u, n, DocumentsAnnounced(t.documents, n, [doc], u.documents), now)
  {
    hide PublishInternal, Appended, LatestVersion, PutDocument, NewStored, OldKept, NoOthers;
    var key := DocumentKey(n, doc.docType, LatestVersion(t.documents, n, doc.docType) + 1);
    var d := SealDocument(key, PublishedDocument(doc, doc.expectedVersion, now));
    PublishStores(t, n, doc, true, now);
    PublishLeaves(t, n, doc, true, now);
    SingleStored(t.documents, n, doc, d, now);
    var u := PublishInternal(t, n, doc, true, now).value.tables;
    assert DocumentsAnnounced(t.documents, n, [doc], u.documents) ==
           [DocumentPublished(n, doc.docType, key.version, doc.document.contentHash, u.documents[key].state.stateHash)];
  }

  /** A revocation stores one more version that says nothing but that it was revoked. */
  predicate RevokedAs(d: DocumentState, previous: nat, now: nat) {
    && d.status == DocRevoked && d.revokedAt == now && d.validFrom == now && d.previousVersion == previous
    && d.expireAt == 0 && d.document.contentHash == ZeroHash && d.document.inlineDocument == [] && d.document.uri == ""
    && d.controller == Unset && d.beneficiary == Unset && d.paymentTarget == "" && d.policies == ZERO_POLICIES
  }

  /** No stored version of the document is above this one. */
  predicate Newest(docs: DocumentTable, key: DocumentKey) {
    forall k | k in docs && k.name == key.name && k.docType == key.docType :: k.version <= key.version
  }

  predicate DocumentOperation(op: Operation) {
    op.Publish? || op.Revoke? || op.SetPayment?
  }

  ghost predicate DocumentLeft(t: Tables, op: Operation, o: Outcome, now: nat)
    requires DocumentOperation(op)
  {
    var n, u := op.name, o.tables;
    match op
    case Publish(_, doc, _, _) =>
      && AllIn(t.documents, n, [doc], u.documents)
      && o.reply == KeyOf(t.documents, n, [doc], 0).version
      && TablesLeft(t, u, n, None, [doc], t.policies, t.aliases, DocumentsAnnounced(t.documents, n, [doc], u.documents), now)
    case Revoke(_, ty, expected, reasonHash, _, _) =>
      var key := DocumentKey(n, ty, LatestVersion(t.documents, n, ty) + 1);
      && o.reply == key.version
      && key in u.documents && RevokedAs(u.documents[key].state, expected, now)
      && PutAbove(t.documents, key, u.documents[key].state, u.documents)
      && RowAndDocuments(t, u, n, [DocumentRevoked(n, ty, key.version, expected, reasonHash)], now)
    case SetPayment(_, ty, expected, target, _, payment, _, _, _, _, _) =>
      var key := DocumentKey(n, ty, expected);
      && o.reply == expected && key in t.documents && key in u.documents
      && t.documents[key].current && (u.documents[key].current <==> Newest(t.documents, key))
      && (forall k | k != key :: (k in u.documents <==> k in t.documents))
      && (forall k | k != key && k in t.documents :: u.documents[k].state == t.documents[k].state)
      && RowAndDocuments(t, u, n, [PaymentTargetUpdated(n, ty, expected, target, payment)], now)
  }

  lemma PublishDocumentLeaves(t: Tables, op: Operation, now: nat)
    requires op.Publish? && Apply(t, op, now).Success?
    ensures DocumentLeft(t, op, Apply(t, op, now).value, now)
  {
    hide RequiredActiveName, AuthorizeUpdate, PublishInternal, Stored, Appended, DocumentsAnnounced, KeyOf;
    PublishOneLeaves(t, op.name, op.document, now);
  }

  lemma RevokeLeaves(t: Tables, op: Operation, now: nat)
    requires op.Revoke? && Apply(t, op, now).Success?
    ensures DocumentLeft(t, op, Apply(t, op, now).value, now)
  {
    hide RequiredActiveName, AuthorizeUpdate, RevokeInternal, PutAbove, LatestVersion, Appended, RevokedAs;
    RevokedVersionLeaves(t, op, RequiredActiveName(t, op.name, now).value, now, Apply(t, op, now));
  }

  lemma RevokedVersionLeaves(t: Tables, op: Operation, s: NameState, now: nat, r: Attempt)
    requires op.Revoke? && r.Success? && op.name in t.names
    requires r == RevokeInternal(t, op.name, s, op.docType, op.expectedVersion, op.reasonHash, now)
    ensures var u := r.value.tables;
      var key := DocumentKey(op.name, op.docType, LatestVersion(t.documents, op.name, op.docType) + 1);
      && r.value.reply == key.version
      && key in u.documents && RevokedAs(u.documents[key].state, op.expectedVersion, now)
      && PutAbove(t.documents, key, u.documents[key].state, u.documents)
      && RowAndDocuments(t, u, op.name,
                         [DocumentRevoked(op.name, op.docType, key.version, op.expectedVersion, op.reasonHash)], now)
  {
    hide MaterializeNameState, PutDocument, PutAbove, LatestVersion, Appended, NextRecord, CurrentVersion, WithDocumentVersion;
    var n, ty := op.name, op.docType;
    var key := DocumentKey(n, ty, LatestVersion(t.documents, n, ty) + 1);
    var d := SealDocument(key, RevokedDocument(op.expectedVersion, now));
    PutNewest(t.documents, key, d);
    AboveHas(t.documents, key, d, PutDocument(t.documents, key, d));
    var s1 := WithDocumentVersion(s, ty, key.version).(nameSeq := s.nameSeq + 1, updatedAt := now);
    AppendedOne(SaveName(t.(documents := PutDocument(t.documents, key, d)), n, s1, now).value,
                DocumentRevoked(n, ty, key.version, op.expectedVersion, op.reasonHash), now);
  }

  lemma AboveHas(docs: DocumentTable, key: DocumentKey, d: DocumentState, w: DocumentTable)
    requires PutAbove(docs, key, d, w)
    ensures key in w && w[key].state == d
  {
  }

  lemma PaymentLeaves(t: Tables, op: Operation, now: nat)
    requires op.SetPayment? && Apply(t, op, now).Success?
    ensures DocumentLeft(t, op, Apply(t, op, now).value, now)
  {
    hide RequiredActiveName, AuthorizeUpdate, PaymentInternal, Appended;
    PaymentLeavesOthers(t, op, RequiredActiveName(t, op.name, now).value, now, Apply(t, op, now));
  }

  lemma PaymentLeavesOthers(t: Tables, op: Operation, s: NameState, now: nat, r: Attempt)
    requires op.SetPayment? && r.Success? && op.name in t.names
    requires r == PaymentInternal(t, op.name, s, op.docType, op.expectedVersion, op.paymentTarget, op.beneficiary,
                                  op.payment, op.split, op.price, op.rights, now)
    ensures var key := DocumentKey(op.name, op.docType, op.expectedVersion); var u := r.value.tables;
      && r.value.reply == op.expectedVersion && key in t.documents && key in u.documents
      && t.documents[key].current && (u.documents[key].current <==> Newest(t.documents, key))
      && (forall k | k != key :: (k in u.documents <==> k in t.documents))
      && (forall k | k != key && k in t.documents :: u.documents[k].state == t.documents[k].state)
      && RowAndDocuments(t, u, op.name,
           [PaymentTargetUpdated(op.name, op.docType, op.expectedVersion, op.paymentTarget, op.payment)], now)
  {
    hide MaterializeNameState, CurrentVersion, Appended, NextRecord, SealDocument;
    var n := op.name;
    var key := DocumentKey(n, op.docType, op.expectedVersion);
    var was := t.documents[key].state;
    var d := SealDocument(key, was.(
      paymentTarget := op.paymentTarget, beneficiary := op.beneficiary,
      policies := DocumentPolicies(was.policies.controller, op.payment, op.split, op.price, op.rights)));
    var t1 := t.(documents := PutDocument(t.documents, key, d));
    var s1 := s.(paymentPolicyHash := op.payment, nameSeq := s.nameSeq + 1, updatedAt := now);
    assert t1.documents[key].current <==> Newest(t.documents, key) by {
      PutIsCurrent(t.documents, key, d);
    }
    AppendedOne(SaveName(t1, n, s1, now).value,
                PaymentTargetUpdated(n, op.docType, key.version, op.paymentTarget, op.payment), now);
  }

  lemma PutIsCurrent(docs: DocumentTable, key: DocumentKey, d: DocumentState)
    ensures PutDocument(docs, key, d)[key].current <==> Newest(docs, key)
  {
    assert forall k | k in docs && k.name == key.name && k.docType == key.docType ::
      k.version in Versions(docs, key.name, key.docType);
  }

  // ----- batches -----

  predicate BatchOperation(op: Operation) {
    op.Transfer? || op.Rotate? || op.Mutate?
  }

  /** The keys a batch sets; an empty batch of mutations sets none. */
  function KeyBatch(op: Operation): Option<seq<KeyUpdate>>
    requires BatchOperation(op) || op.Bootstrap?
  {
    if op.Transfer? || (!op.Rotate? && op.keyUpdates == []) then None else Some(op.keyUpdates)
  }

  function DocumentBatch(op: Operation): seq<DocumentUpdate>
    requires BatchOperation(op)
  {
    if op.Rotate? then [op.document] else op.documents
  }

  /** What comes before the documents, and what after them. */
  function AnnouncedBefore(op: Operation, s: NameState, u: Tables): seq<RegistryEvent>
    requires BatchOperation(op) && op.name in u.names
  {
    var n, m := op.name, u.names[op.name];
    if op.Transfer? then
      [NameAssetTransferred(n, s.assetOwner, op.assetOwner, false, m.nameSeq), OwnerAnnounced(n, op.owner, m)]
    else if KeyBatch(op).Some? then [KeysAnnounced(u, n)]
    else []
  }

  function AnnouncedAfter(op: Operation, s: NameState, m: NameState): seq<RegistryEvent>
    requires BatchOperation(op)
  {
    if op.Mutate? && op.policy.RaiseIatFloor? then
      [OwnerDocumentIatFloorUpdated(op.name, s.minDocumentIat, op.policy.minDocumentIat, m.ownerPolicySeq, m.nameSeq,
                                    op.policy.reasonHash)]
    else []
  }

  ghost predicate BatchLeft(t: Tables, op: Operation, o: Outcome, now: nat)
    requires BatchOperation(op)
  {
    var n, u, docs := op.name, o.tables, DocumentBatch(op);
    && n in t.names && n in u.names && AllIn(t.documents, n, docs, u.documents)
    && TablesLeft(t, u, n, KeyBatch(op), docs, t.policies, t.aliases,
                  AnnouncedBefore(op, t.names[n], u) + DocumentsAnnounced(t.documents, n, docs, u.documents)
                    + AnnouncedAfter(op, t.names[n], u.names[n]), now)
    && o.reply == if op.Rotate? then KeyOf(t.documents, n, docs, 0).version else u.names[n].nameSeq
  }

  lemma RowsCompose(t: Tables, t1: Tables, u: Tables, n: Name, a: seq<RegistryEvent>, b: seq<RegistryEvent>, now: nat)
    requires RowAndDocuments(t, t1, n, a, now) && RowAndDocuments(t1, u, n, b, now)
    ensures RowAndDocuments(t, u, n, a + b, now)
  {
    hide Appended;
    AppendedTwice(t.events, a, b, now);
  }

  lemma TransferLeaves(t: Tables, op: Operation, now: nat)
    requires op.Transfer? && Apply(t, op, now).Success?
    ensures BatchLeft(t, op, Apply(t, op, now).value, now)
  {
    hide RequiredActiveName, AuthorizeOwner, AssignOwner, PublishAll, Stored, Appended, DocumentsAnnounced, SameCore;
    hide NextRecord;
    var n := op.name;
    var s := RequiredActiveName(t, n, now).value;
    SameCoreKeeps(t.names[n], s);
    CoreKeeps(t.names[n], s);
    AssignLeaves(t, n, Some(op.assetOwner), op.owner, now);
    TransferRowLeaves(t, n, op.assetOwner, op.owner, now);
    var t2 := TransferRow(t, n, op.assetOwner, op.owner, s.assetOwner, now).value;
    var u := PublishAll(t2, n, op.documents, now).value;
    PublishAllLeaves(t2, n, op.documents, now);
    AssignKeepsDocuments(t, n, Some(op.assetOwner), op.owner, now);
    TransferredRow(t, n, op.assetOwner, op.owner, op.documents, now);
    var announced := DocumentsAnnounced(t.documents, n, op.documents, u.documents);
    RowsCompose(t, t2, u, n, AnnouncedBefore(op, t.names[n], u), announced, now);
    assert AnnouncedBefore(op, t.names[n], u) + announced + [] == AnnouncedBefore(op, t.names[n], u) + announced;
  }

  lemma TransferRowLeaves(t: Tables, n: Name, assetOwner: string, owner: Principal, now: nat)
    requires AssignOwner(t, n, Some(assetOwner), owner, now).Success?
    ensures n in t.names
    ensures var r := TransferRow(t, n, assetOwner, owner, t.names[n].assetOwner, now);
      && r.Success? && n in r.value.names && r.value.documents == t.documents
      && RowAndDocuments(t, r.value, n,
           [NameAssetTransferred(n, t.names[n].assetOwner, assetOwner, false, r.value.names[n].nameSeq),
            OwnerAnnounced(n, owner, r.value.names[n])], now)
  {
    hide AssignOwner, NextRecord, Appended, OwnerEvent, OwnerAnnounced;
    AssignLeaves(t, n, Some(assetOwner), owner, now);
    AssignKeepsDocuments(t, n, Some(assetOwner), owner, now);
    var t1 := AssignOwner(t, n, Some(assetOwner), owner, now).value;
    var a := NameAssetTransferred(n, t.names[n].assetOwner, assetOwner, false, t1.names[n].nameSeq);
    var b := OwnerEvent(n, t1.names[n]);
    NothingAppended(t.events, now);
    AppendedOne(t1, a, now);
    AppendedOne(AppendEvent(t1, a, now), b, now);
    AppendedTwice(t.events, [a], [b], now);
    assert [a] + [b] == [a, b];
  }

  /** Publishing leaves the number and the flags that the events of a transfer carry. */
  lemma TransferredRow(t: Tables, n: Name, assetOwner: string, owner: Principal, documents: seq<DocumentUpdate>, now: nat)
    requires AssignOwner(t, n, Some(assetOwner), owner, now).Success? && n in t.names
    requires TransferRow(t, n, assetOwner, owner, t.names[n].assetOwner, now).Success?
    requires PublishAll(TransferRow(t, n, assetOwner, owner, t.names[n].assetOwner, now).value, n, documents, now).Success?
    ensures var t2 := TransferRow(t, n, assetOwner, owner, t.names[n].assetOwner, now).value;
      var u := PublishAll(t2, n, documents, now).value;
      && n in t2.names && n in u.names && u.names[n].nameSeq == t2.names[n].nameSeq == t.names[n].nameSeq + 1
      && u.names[n].transferable == t2.names[n].transferable
  {
    hide AssignOwner, PublishAll, AppendEvent, LatestVersion;
    AssignedRow(t, n, Some(assetOwner), owner, now);
    AppendKeepsNames(AssignOwner(t, n, Some(assetOwner), owner, now).value);
    PublishAllRow(TransferRow(t, n, assetOwner, owner, t.names[n].assetOwner, now).value, n, documents, now);
  }

  lemma AppendKeepsNames(t: Tables)
    ensures forall e, now :: AppendEvent(t, e, now) == t.(events := AppendEvent(t, e, now).events)
    ensures forall e, now, f :: AppendEvent(AppendEvent(t, e, now), f, now).names == t.names
  {
  }

  lemma RotateLeaves(t: Tables, op: Operation, now: nat)
    requires op.Rotate? && Apply(t, op, now).Success?
    ensures BatchLeft(t, op, Apply(t, op, now).value, now)
  {
    hide RequiredActiveName, AuthorizeOwner, ApplyAuthorityUpdates, PublishInternal, Stored, Appended, DocumentsAnnounced;
    hide KeyOf, Counts, ApplyKeyUpdates;
    var n := op.name;
    KeysLeave(t, n, op.keyUpdates, now);
    var t1 := ApplyAuthorityUpdates(t, n, op.keyUpdates, now).value;
    PublishOneLeaves(t1, n, op.document, now);
    var u := Apply(t, op, now).value.tables;
    var announced := DocumentsAnnounced(t.documents, n, [op.document], u.documents);
    AppendedTwice(t.events, [KeysAnnounced(u, n)], announced, now);
    assert [KeysAnnounced(u, n)] + announced + [] == [KeysAnnounced(u, n)] + announced;
  }

  lemma BumpLeaves(t: Tables, n: Name, now: nat)
    requires BumpName(t, n, now).Success?
    ensures n in t.names && OnlyRow(t, BumpName(t, n, now).value, n, [], now)
  {
    hide RequiredActiveName, MaterializeNameState, Appended;
    NothingAppended(t.events, now);
  }

  lemma RaiseLeaves(t: Tables, n: Name, iat: nat, reason: Hash, now: nat)
    requires RaiseMinDocumentIat(t, n, iat, reason, false, now).Success?
    ensures var u := RaiseMinDocumentIat(t, n, iat, reason, false, now).value.tables;
      && n in t.names && n in u.names && u.names[n].nameSeq == t.names[n].nameSeq
      && OnlyRow(t, u, n, [OwnerDocumentIatFloorUpdated(n, t.names[n].minDocumentIat, iat, u.names[n].ownerPolicySeq,
                                                        u.names[n].nameSeq, reason)], now)
  {
    hide SaveName, OnlyRow, RequiredActiveName, SameCore;
    var s := RequiredActiveName(t, n, now).value;
    SameCoreKeeps(t.names[n], s);
    CoreKeeps(t.names[n], s);
    var s1 := s.(minDocumentIat := iat, ownerPolicySeq := s.ownerPolicySeq + 1, updatedAt := now);
    SavedActiveRow(t, n, s, s1, now);
    SameCoreKeeps(s1, SaveName(t, n, s1, now).value.names[n]);
    CoreKeeps(s1, SaveName(t, n, s1, now).value.names[n]);
    SaveThenAppend(t, n, s1, OwnerDocumentIatFloorUpdated(n, s.minDocumentIat, iat, s1.ownerPolicySeq, s1.nameSeq, reason), now);
  }

  /** The rows of a batch, without its keys. */
  lemma MutateRowsLeave(t: Tables, op: Operation, now: nat, u: Tables)
    requires op.Mutate? && (op.documents != [] || op.policy.RaiseIatFloor?)
    requires MutateRows(t, op.name, op.documents, op.policy, now) == Success(u)
    ensures op.name in t.names && op.name in u.names && Stored(t.documents, op.name, op.documents, u.documents, now)
    ensures AllIn(t.documents, op.name, op.documents, u.documents)
    ensures RowAndDocuments(t, u, op.name,
              DocumentsAnnounced(t.documents, op.name, op.documents, u.documents)
                + AnnouncedAfter(op, t.names[op.name], u.names[op.name]), now)
  {
    hide BumpName, PublishAll, RaiseMinDocumentIat, Stored, Appended, DocumentsAnnounced, LatestVersion, HasOwnerDocument;
    var n := op.name;
    var t1 := BumpName(t, n, now).value;
    BumpLeaves(t, n, now);
    BumpedRow(t, n, now);
    NothingAppended(t.events, now);
    var t2 := PublishAll(t1, n, op.documents, now).value;
    PublishAllLeaves(t1, n, op.documents, now);
    PublishAllRow(t1, n, op.documents, now);
    var announced := DocumentsAnnounced(t.documents, n, op.documents, t2.documents);
    RowsCompose(t, t1, t2, n, [], announced, now);
    assert [] + announced == announced == announced + [];
    if op.policy.RaiseIatFloor? {
      RaiseLeaves(t2, n, op.policy.minDocumentIat, op.policy.reasonHash, now);
      RowsCompose(t, t2, u, n, announced, AnnouncedAfter(op, t.names[n], u.names[n]), now);
    }
  }

  /** The same for a batch of keys alone. */
  lemma AnyRowsLeave(t: Tables, op: Operation, now: nat, u: Tables)
    requires op.Mutate? && op.name in t.names
    requires if op.documents == [] && op.policy.KeepPolicy? then u == t
             else MutateRows(t, op.name, op.documents, op.policy, now) == Success(u)
    ensures op.name in u.names && Stored(t.documents, op.name, op.documents, u.documents, now)
    ensures AllIn(t.documents, op.name, op.documents, u.documents)
    ensures RowAndDocuments(t, u, op.name,
              DocumentsAnnounced(t.documents, op.name, op.documents, u.documents)
                + AnnouncedAfter(op, t.names[op.name], u.names[op.name]), now)
  {
    hide MutateRows, Appended, Stored;
    if op.documents == [] && op.policy.KeepPolicy? {
      NothingStored(t.documents, op.name, now);
      NoneAnnounced(t.documents, op.name, u.documents);
      NothingAppended(t.events, now);
      assert u.names == t.names[op.name := u.names[op.name]];
      assert DocumentsAnnounced(t.documents, op.name, op.documents, u.documents)
             + AnnouncedAfter(op, t.names[op.name], u.names[op.name]) == [];
    } else {
      MutateRowsLeave(t, op, now, u);
    }
  }

  lemma MutateSteps(t: Tables, op: Operation, now: nat)
    requires op.Mutate? && Apply(t, op, now).Success?
    ensures var n, o := op.name, Apply(t, op, now).value;
      && n in t.names
      && ApplyKeyBatch(t, n, op.keyUpdates, now).Success?
      && (var t1 := ApplyKeyBatch(t, n, op.keyUpdates, now).value;
          if op.documents == [] && op.policy.KeepPolicy? then o.tables == t1
          else MutateRows(t1, n, op.documents, op.policy, now) == Success(o.tables))
      && RequiredActiveName(o.tables, n, now).Success?
      && o.reply == RequiredActiveName(o.tables, n, now).value.nameSeq
  {
    hide AuthorizeBatch, ApplyAuthorityUpdates, MutateRows, DistinctDocTypes, MaterializeNameState;
  }

  lemma RequiredSeq(t: Tables, n: Name, now: nat)
    requires RequiredActiveName(t, n, now).Success?
    ensures n in t.names && RequiredActiveName(t, n, now).value.nameSeq == t.names[n].nameSeq
  {
    hide ResolveOwner;
  }

  /** Keys first, then rows and documents, make a batch. */
  lemma BatchComposes(t: Tables, t1: Tables, op: Operation, u: Tables, now: nat)
    requires op.Mutate? && op.name in t.names && op.name in u.names && t1.names == t.names
    requires KeyStep(t, t1, op.name, KeyBatch(op), now)
    requires Stored(t1.documents, op.name, op.documents, u.documents, now)
    requires AllIn(t1.documents, op.name, op.documents, u.documents)
    requires RowAndDocuments(t1, u, op.name,
               DocumentsAnnounced(t1.documents, op.name, op.documents, u.documents)
                 + AnnouncedAfter(op, t.names[op.name], u.names[op.name]), now)
    ensures BatchLeft(t, op, Outcome(u, u.names[op.name].nameSeq), now)
  {
    hide Stored, Appended, DocumentsAnnounced, KeysLeft, KeyStep, AllIn, KeysAnnounced, AnnouncedAfter;
    var n := op.name;
    var documents := DocumentsAnnounced(t1.documents, n, op.documents, u.documents);
    var last := AnnouncedAfter(op, t.names[n], u.names[n]);
    KeysThenRows(t, t1, u, n, KeyBatch(op), documents + last, now);
    var before := AnnouncedBefore(op, t.names[n], u);
    assert before + documents + last == before + (documents + last);
  }

  lemma MutateLeaves(t: Tables, op: Operation, now: nat)
    requires op.Mutate? && Apply(t, op, now).Success?
    ensures BatchLeft(t, op, Apply(t, op, now).value, now)
  {
    hide Apply, ApplyKeyBatch, RequiredActiveName, MutateRows, Stored, DocumentsAnnounced, KeyStep, AllIn, BatchLeft;
    hide RowAndDocuments, AnnouncedAfter;
    var n, o := op.name, Apply(t, op, now).value;
    MutateSteps(t, op, now);
    var t1 := ApplyKeyBatch(t, n, op.keyUpdates, now).value;
    KeyBatchKeepsRows(t, n, op.keyUpdates, now);
    AnyRowsLeave(t1, op, now, o.tables);
    KeyBatchStep(t, n, op.keyUpdates, now);
    RequiredSeq(o.tables, n, now);
    BatchComposes(t, t1, op, o.tables, now);
  }

  lemma NoneAnnounced(docs: DocumentTable, n: Name, w: DocumentTable)
    ensures DocumentsAnnounced(docs, n, [], w) == []
  {
  }

  /** A key batch writes keys, authority set and one event; an empty one writes nothing. */
  ghost predicate KeyStep(t: Tables, u: Tables, n: Name, keys: Option<seq<KeyUpdate>>, now: nat) {
    match keys
    case None => u == t
    case Some(updates) =>
      && KeysLeft(t, u, n, updates, now)
      && u == t.(keys := u.keys, sets := u.sets, events := Appended(t.events, [KeysAnnounced(u, n)], now))
  }

  lemma KeyBatchStep(t: Tables, n: Name, updates: seq<KeyUpdate>, now: nat)
    requires ApplyKeyBatch(t, n, updates, now).Success?
    ensures KeyStep(t, ApplyKeyBatch(t, n, updates, now).value, n, if updates == [] then None else Some(updates), now)
  {
    hide ApplyAuthorityUpdates, Appended, KeysLeft;
    if updates != [] {
      KeysLeave(t, n, updates, now);
    }
  }

  lemma KeysLeftReads(t: Tables, u: Tables, w: Tables, n: Name, updates: seq<KeyUpdate>, now: nat)
    requires KeysLeft(t, u, n, updates, now) && w.keys == u.keys && w.sets == u.sets
    ensures KeysLeft(t, w, n, updates, now) && KeysAnnounced(w, n) == KeysAnnounced(u, n)
  {
    hide ApplyKeyUpdates, Counts;
    assert forall m :: KeysOf(w, m) == KeysOf(u, m);
  }

  /** Keys, and then rows and documents that leave the keys alone. */
  lemma KeysThenRows(t: Tables, t1: Tables, u: Tables, n: Name, keys: Option<seq<KeyUpdate>>, after: seq<RegistryEvent>,
                     now: nat)
    requires KeyStep(t, t1, n, keys, now) && u.keys == t1.keys && u.sets == t1.sets
    requires u.events == Appended(t1.events, after, now)
    ensures match keys
      case None => u.keys == t.keys && u.sets == t.sets
      case Some(updates) => KeysLeft(t, u, n, updates, now)
    ensures u.events ==
            Appended(t.events, (if keys.None? then [] else [KeysAnnounced(u, n)]) + after, now)
    ensures t1.names == t.names && t1.documents == t.documents && t1.policies == t.policies
    ensures t1.aliases == t.aliases && t1.checkpoints == t.checkpoints
  {
    hide Appended, KeysLeft;
    if keys.None? {
      assert [] + after == after;
    } else {
      KeysLeftReads(t, t1, u, n, keys.value, now);
      AppendedTwice(t.events, [KeysAnnounced(t1, n)], after, now);
    }
  }
}
