/** Field by field: what a committed operation changes in the row of its name and in its documents. */
module RowEffects {
  import opened Wrappers
  import opened BnsModel
  import opened RegistryTables
  import opened OwnerGraph
  import opened Ownership
  import opened RegistrySpec

  function Max(a: nat, b: nat): nat {
    if a < b then b else a
  }

  /** The expected row, changed now; the derived owner fields are computed anew. */
  predicate Row(expected: NameState, m: NameState, now: nat) {
    SameCore(expected.(updatedAt := now), m)
  }

  predicate HasOwnerDocument(documents: seq<DocumentUpdate>) {
    exists u | u in documents :: u.docType == OWNER_DOC_TYPE
  }

  /** The version of the owner document that the row names: the newest one, if one was added. */
  function OwnerVersion(s: NameState, added: bool, docs: DocumentTable, n: Name): nat {
    if added then LatestVersion(docs, n, OWNER_DOC_TYPE) else s.ownerDocumentVersion
  }

  /** A batch raises the sequence number once; one that only updates keys leaves the row alone. */
  predicate MutateRowEffect(
    n: Name, documents: seq<DocumentUpdate>, policy: OwnerPolicyUpdate, s: NameState, m: NameState, docs: DocumentTable,
    now: nat)
  {
    if documents == [] && policy.KeepPolicy? then m == s
    else
      && Row(s.(nameSeq := s.nameSeq + 1,
                ownerDocumentVersion := OwnerVersion(s, HasOwnerDocument(documents), docs, n),
                minDocumentIat := if policy.RaiseIatFloor? then policy.minDocumentIat else s.minDocumentIat,
                ownerPolicySeq := if policy.RaiseIatFloor? then s.ownerPolicySeq + 1 else s.ownerPolicySeq), m, now)
      && s.minDocumentIat <= m.minDocumentIat
  }

  /** The row m that operation op makes of s, with documents docs stored; fields that are not named keep their value. */
  predicate RowEffect(op: Operation, s: NameState, m: NameState, docs: DocumentTable, now: nat) {
    match op
    case Renew(_, duration) =>
      && Row(s.(status := m.status, expireAt := Max(s.expireAt, now) + duration, graceUntil := m.graceUntil,
                nameSeq := s.nameSeq + 1), m, now)
      && m.graceUntil - m.expireAt == Max(s.graceUntil, s.expireAt) - s.expireAt
      && (s.status in {Active, Expired} ==> m.ActiveAt(now))
    case Transfer(n, assetOwner, owner, documents, _, _) =>
      Row(s.(assetOwner := assetOwner, semanticOwner := owner, nameSeq := s.nameSeq + 1,
             ownerDocumentVersion := OwnerVersion(s, HasOwnerDocument(documents), docs, n)), m, now)
    case StandardTransfer(_, assetOwner) => Row(s.(assetOwner := assetOwner, nameSeq := s.nameSeq + 1), m, now)
    case SetOwner(_, owner, _, _) => Row(s.(semanticOwner := owner, nameSeq := s.nameSeq + 1), m, now)
    case Release(_, mode, _, _, _) =>
      Row(s.(status := if mode == TombstoneForever then Tombstoned else Released, nameSeq := s.nameSeq + 1), m, now)
    case UpdateKeys(_, _, _, _) => m == s
    case Mutate(n, _, documents, policy, _, _) => MutateRowEffect(n, documents, policy, s, m, docs, now)
    case SetMinIat(_, iat, _, _, _) =>
      && s.minDocumentIat <= iat
      && Row(s.(minDocumentIat := iat, ownerPolicySeq := s.ownerPolicySeq + 1, nameSeq := s.nameSeq + 1), m, now)
    case SetPayment(_, _, _, _, _, payment, _, _, _, _, _) =>
      Row(s.(paymentPolicyHash := payment, nameSeq := s.nameSeq + 1), m, now)
    case SetNamespace(_, allow, policyHash, _, _) =>
      Row(s.(allowDelegatedSubnames := allow, namespacePolicyHash := policyHash, nameSeq := s.nameSeq + 1), m, now)
    case SetAlias(_, _, _, proofHash, _, _) => Row(s.(aliasStateHash := proofHash, nameSeq := s.nameSeq + 1), m, now)
    case SetPolicy(_, _, _, _, _) => Row(s.(nameSeq := s.nameSeq + 1), m, now)
    case Publish(n, document, _, _) => PublishRowEffect(n, document.docType, s, m, docs, now)
    case Rotate(n, _, document, _, _) => PublishRowEffect(n, document.docType, s, m, docs, now)
    case Revoke(n, ty, _, _, _, _) => PublishRowEffect(n, ty, s, m, docs, now)
    case _ => false
  }

  /** One more version of one document. */
  predicate PublishRowEffect(n: Name, ty: DocType, s: NameState, m: NameState, docs: DocumentTable, now: nat) {
    Row(s.(nameSeq := s.nameSeq + 1, ownerDocumentVersion := OwnerVersion(s, ty == OWNER_DOC_TYPE, docs, n)), m, now)
  }

  /** Operations on a row that is already there. */
  predicate ChangesRow(op: Operation) {
    !op.Register? && !op.Bootstrap? && !op.PublishCheckpoint?
  }

  /** The operation left the row of its name as its parameters call for. */
  predicate HasEffect(op: Operation, t: Tables, u: Tables, now: nat)
    requires ChangesRow(op)
  {
    && op.name in t.names && op.name in u.names
    && RowEffect(op, t.names[op.name], u.names[op.name], u.documents, now)
  }

  /** Storing the next version of one document makes it the newest, and leaves the others. */
  lemma LatestAfterPut(docs: DocumentTable, key: DocumentKey, d: DocumentState, ty: DocType)
    requires key.version == LatestVersion(docs, key.name, key.docType) + 1
    ensures LatestVersion(PutDocument(docs, key, d), key.name, ty) ==
            if ty == key.docType then key.version else LatestVersion(docs, key.name, ty)
  {
    var put := PutDocument(docs, key, d);
    assert Versions(put, key.name, ty) ==
           Versions(docs, key.name, ty) + if ty == key.docType then {key.version} else {} by {
      forall v
        ensures v in Versions(put, key.name, ty) <==>
                v in Versions(docs, key.name, ty) || (ty == key.docType && v == key.version)
      {
        var k := DocumentKey(key.name, ty, v);
        assert v in Versions(put, key.name, ty) <==> k in put;
        assert v in Versions(docs, key.name, ty) <==> k in docs;
      }
    }
  }

  lemma SavedRow(t: Tables, n: Name, s: NameState, now: nat)
    requires SaveName(t, n, s, now).Success?
    ensures n in SaveName(t, n, s, now).value.names
    ensures SameCore(s.MaterializeStatusAt(now), SaveName(t, n, s, now).value.names[n])
    ensures SaveName(t, n, s, now).value == PutName(t, n, SaveName(t, n, s, now).value.names[n])
  {
    hide ResolveOwner;
  }

  /** Saving a row that keeps the name active. */
  lemma SavedActiveRow(t: Tables, n: Name, s: NameState, s1: NameState, now: nat)
    requires SaveName(t, n, s1, now).Success?
    requires s.ActiveAt(now) && s1.status == s.status && s1.expireAt == s.expireAt
    ensures n in SaveName(t, n, s1, now).value.names && SameCore(s1, SaveName(t, n, s1, now).value.names[n])
    ensures SaveName(t, n, s1, now).value == PutName(t, n, SaveName(t, n, s1, now).value.names[n])
  {
    hide SaveName;
    SavedRow(t, n, s1, now);
  }

  lemma PublishStores(t: Tables, n: Name, u: DocumentUpdate, bump: bool, now: nat)
    requires PublishInternal(t, n, u, bump, now).Success?
    ensures var o := PublishInternal(t, n, u, bump, now).value;
      var key := DocumentKey(n, u.docType, LatestVersion(t.documents, n, u.docType) + 1);
      && o.reply == key.version
      && o.tables.documents ==
         PutDocument(t.documents, key, SealDocument(key, PublishedDocument(u, u.expectedVersion, now)))
  {
    hide RequiredActiveName, MaterializeNameState, PutDocument, SealDocument, LatestVersion, CurrentVersion;
    hide WithDocumentVersion;
  }

  /** Publishing adds a version of its own document type and of no other. */
  lemma PublishLatest(t: Tables, n: Name, u: DocumentUpdate, bump: bool, now: nat)
    requires PublishInternal(t, n, u, bump, now).Success?
    ensures LatestVersion(PublishInternal(t, n, u, bump, now).value.tables.documents, n, OWNER_DOC_TYPE) ==
            LatestVersion(t.documents, n, OWNER_DOC_TYPE) + if u.docType == OWNER_DOC_TYPE then 1 else 0
  {
    hide PublishInternal, PutDocument, LatestVersion;
    var key := DocumentKey(n, u.docType, LatestVersion(t.documents, n, u.docType) + 1);
    PublishStores(t, n, u, bump, now);
    LatestAfterPut(t.documents, key, SealDocument(key, PublishedDocument(u, u.expectedVersion, now)), OWNER_DOC_TYPE);
  }

  /** A saved row that names the version just stored, if it is of the owner document. */
  lemma VersionSaved(was: NameState, s: NameState, ty: DocType, v: nat, nameSeq: nat, m: NameState,
                     docs: DocumentTable, n: Name, now: nat)
    requires SameCore(was, s)
    requires SameCore(WithDocumentVersion(s, ty, v).(nameSeq := nameSeq, updatedAt := now), m)
    requires ty == OWNER_DOC_TYPE ==> LatestVersion(docs, n, OWNER_DOC_TYPE) == v
    ensures Row(was.(nameSeq := nameSeq, ownerDocumentVersion := OwnerVersion(was, ty == OWNER_DOC_TYPE, docs, n)),
                m, now)
  {
    hide LatestVersion;
  }

  lemma PublishRow(t: Tables, n: Name, u: DocumentUpdate, bump: bool, now: nat)
    requires PublishInternal(t, n, u, bump, now).Success?
    ensures n in t.names && t.names[n].ActiveAt(now)
    ensures var w := PublishInternal(t, n, u, bump, now).value.tables; var s := t.names[n];
      && n in w.names
      && Row(s.(nameSeq := s.nameSeq + if bump then 1 else 0,
                ownerDocumentVersion := OwnerVersion(s, u.docType == OWNER_DOC_TYPE, w.documents, n)), w.names[n], now)
  {
    hide RequiredActiveName, SaveName, PutDocument, SealDocument, LatestVersion, CurrentVersion, SameCore, Row;
    var key := DocumentKey(n, u.docType, LatestVersion(t.documents, n, u.docType) + 1);
    var d := SealDocument(key, PublishedDocument(u, CurrentVersion(t.documents, n, u.docType), now));
    var t1 := t.(documents := PutDocument(t.documents, key, d));
    var s := RequiredActiveName(t1, n, now).value;
    var s1 := WithDocumentVersion(s, u.docType, key.version).(
      nameSeq := if bump then s.nameSeq + 1 else s.nameSeq, updatedAt := now);
    PublishLatest(t, n, u, bump, now);
    SameCoreKeeps(t.names[n], s);
    SavedActiveRow(t1, n, s, s1, now);
    VersionSaved(t.names[n], s, u.docType, key.version, s1.nameSeq,
                 SaveName(t1, n, s1, now).value.names[n], t1.documents, n, now);
  }

  lemma PublishTouchesOneRow(t: Tables, n: Name, u: DocumentUpdate, bump: bool, now: nat)
    requires PublishInternal(t, n, u, bump, now).Success?
    ensures var w := PublishInternal(t, n, u, bump, now).value.tables;
      n in w.names && w.names == t.names[n := w.names[n]] && w.sets == t.sets
  {
    hide RequiredActiveName, MaterializeNameState, PutDocument, SealDocument, LatestVersion, CurrentVersion;
    hide WithDocumentVersion;
  }

  /** Publishing documents on a row that was changed at the same time. */
  lemma {:induction false} PublishAllRow(t: Tables, n: Name, updates: seq<DocumentUpdate>, now: nat)
    requires PublishAll(t, n, updates, now).Success? && n in t.names && t.names[n].updatedAt == now
    ensures var w := PublishAll(t, n, updates, now).value; var s := t.names[n];
      && n in w.names
      && Row(s.(ownerDocumentVersion := OwnerVersion(s, HasOwnerDocument(updates), w.documents, n)), w.names[n], now)
    decreases |updates|
  {
    hide PublishInternal, LatestVersion;
    if updates != [] {
      var k := |updates| - 1;
      PublishAllRow(t, n, updates[..k], now);
      PublishRow(PublishAll(t, n, updates[..k], now).value, n, updates[k], false, now);
      PublishLatest(PublishAll(t, n, updates[..k], now).value, n, updates[k], false, now);
      assert HasOwnerDocument(updates) <==> HasOwnerDocument(updates[..k]) || updates[k].docType == OWNER_DOC_TYPE by {
        assert updates == updates[..k] + [updates[k]];
      }
    }
  }

  lemma AssignedRow(t: Tables, n: Name, assetOwner: Option<string>, owner: Principal, now: nat)
    requires AssignOwner(t, n, assetOwner, owner, now).Success?
    ensures n in t.names && n in AssignOwner(t, n, assetOwner, owner, now).value.names
    ensures Row(t.names[n].(assetOwner := assetOwner.GetOr(t.names[n].assetOwner), semanticOwner := owner,
                            nameSeq := t.names[n].nameSeq + 1),
                AssignOwner(t, n, assetOwner, owner, now).value.names[n], now)
  {
    hide RequiredActiveName, SaveName, OwnerGraphOk, ValidateSemanticOwnerTarget;
    var s := RequiredActiveName(t, n, now).value;
    SavedActiveRow(t, n, s, s.(assetOwner := assetOwner.GetOr(s.assetOwner),
                               semanticOwner := owner, nameSeq := s.nameSeq + 1, updatedAt := now), now);
  }

  lemma BumpedRow(t: Tables, n: Name, now: nat)
    requires BumpName(t, n, now).Success?
    ensures n in t.names && n in BumpName(t, n, now).value.names
    ensures Row(t.names[n].(nameSeq := t.names[n].nameSeq + 1), BumpName(t, n, now).value.names[n], now)
    ensures BumpName(t, n, now).value == PutName(t, n, BumpName(t, n, now).value.names[n])
  {
    hide RequiredActiveName, SaveName;
    var s := RequiredActiveName(t, n, now).value;
    SavedActiveRow(t, n, s, s.(nameSeq := s.nameSeq + 1, updatedAt := now), now);
  }

  lemma RaisedRow(t: Tables, n: Name, iat: nat, reason: Hash, bump: bool, now: nat, r: Attempt)
    requires r == RaiseMinDocumentIat(t, n, iat, reason, bump, now) && r.Success?
    ensures n in t.names && n in r.value.tables.names && t.names[n].minDocumentIat <= iat
    ensures var s := t.names[n];
      Row(s.(minDocumentIat := iat, ownerPolicySeq := s.ownerPolicySeq + 1,
             nameSeq := if bump then s.nameSeq + 1 else s.nameSeq), r.value.tables.names[n], now)
    ensures r.value.tables.documents == t.documents
  {
    hide RequiredActiveName, SaveName;
    var s := RequiredActiveName(t, n, now).value;
    var s1 := s.(nameSeq := if bump then s.nameSeq + 1 else s.nameSeq,
                 minDocumentIat := iat, ownerPolicySeq := s.ownerPolicySeq + 1, updatedAt := now);
    SavedActiveRow(t, n, s, s1, now);
  }

  lemma MutatedRow(t: Tables, n: Name, documents: seq<DocumentUpdate>, policy: OwnerPolicyUpdate, now: nat)
    requires MutateRows(t, n, documents, policy, now).Success? && (documents != [] || policy.RaiseIatFloor?)
    ensures n in t.names && n in MutateRows(t, n, documents, policy, now).value.names
    ensures var w := MutateRows(t, n, documents, policy, now).value;
      MutateRowEffect(n, documents, policy, t.names[n], w.names[n], w.documents, now)
  {
    hide BumpName, PublishAll, RaiseMinDocumentIat, LatestVersion, HasOwnerDocument;
    var t1 := BumpName(t, n, now).value;
    BumpedRow(t, n, now);
    PublishAllRow(t1, n, documents, now);
    var t2 := PublishAll(t1, n, documents, now).value;
    if policy.RaiseIatFloor? {
      RaisedRow(t2, n, policy.minDocumentIat, policy.reasonHash, false, now,
                RaiseMinDocumentIat(t2, n, policy.minDocumentIat, policy.reasonHash, false, now));
    }
  }

  lemma KeysKeepRows(t: Tables, n: Name, updates: seq<KeyUpdate>, now: nat)
    ensures ApplyAuthorityUpdates(t, n, updates, now).Success? ==>
      var u := ApplyAuthorityUpdates(t, n, updates, now).value; u.names == t.names && u.documents == t.documents
  {
  }

  lemma MutateEffect(
    t: Tables, n: Name, keyUpdates: seq<KeyUpdate>, documents: seq<DocumentUpdate>, policy: OwnerPolicyUpdate,
    authority: CallAuthority, guard: MutationGuard, now: nat, r: Attempt)
    requires r == ApplyMutations(t, n, keyUpdates, documents, policy, authority, guard, now) && r.Success?
    ensures HasEffect(Mutate(n, keyUpdates, documents, policy, authority, guard), t, r.value.tables, now)
  {
    hide MutateRows, RequiredActiveName, AuthorizeBatch, ApplyKeyBatch, DistinctDocTypes, MutateRowEffect;
    var t1 := ApplyKeyBatch(t, n, keyUpdates, now).value;
    KeyBatchKeepsRows(t, n, keyUpdates, now);
    if documents != [] || policy.RaiseIatFloor? {
      MutatedRow(t1, n, documents, policy, now);
    } else {
      NothingMutated(n, t.names[n], r.value.tables.documents, now);
    }
  }

  lemma NothingMutated(n: Name, s: NameState, docs: DocumentTable, now: nat)
    ensures MutateRowEffect(n, [], KeepPolicy, s, s, docs, now)
  {
  }

  lemma KeyBatchKeepsRows(t: Tables, n: Name, updates: seq<KeyUpdate>, now: nat)
    ensures ApplyKeyBatch(t, n, updates, now).Success? ==>
      var u := ApplyKeyBatch(t, n, updates, now).value; u.names == t.names && u.documents == t.documents
  {
    KeysKeepRows(t, n, updates, now);
  }

  lemma TransferEffect(
    t: Tables, n: Name, assetOwner: string, owner: Principal, documents: seq<DocumentUpdate>,
    authority: CallAuthority, guard: MutationGuard, now: nat, r: Attempt)
    requires r == TransferName(t, n, assetOwner, owner, documents, authority, guard, now) && r.Success?
    ensures HasEffect(Transfer(n, assetOwner, owner, documents, authority, guard), t, r.value.tables, now)
  {
    hide RequiredActiveName, AssignOwner, PublishAll, AuthorizeOwner;
    var was := RequiredActiveName(t, n, now).value.assetOwner;
    AssignedRow(t, n, Some(assetOwner), owner, now);
    PublishAllRow(TransferRow(t, n, assetOwner, owner, was, now).value, n, documents, now);
  }

  lemma RenewEffect(t: Tables, n: Name, duration: nat, now: nat, r: Attempt)
    requires r == RenewName(t, n, duration, now) && r.Success?
    ensures HasEffect(Renew(n, duration), t, r.value.tables, now)
  {
    hide SaveName, RenewedState, RowEffect;
    var s := t.names[n];
    SavedRow(t, n, RenewedState(s, duration, now), now);
    RenewedEffect(n, s, duration, now, r.value.tables.names[n], r.value.tables.documents);
  }

  lemma RenewedEffect(n: Name, s: NameState, duration: nat, now: nat, m: NameState, docs: DocumentTable)
    requires duration > 0 && SameCore(RenewedState(s, duration, now).MaterializeStatusAt(now), m)
    ensures RowEffect(Renew(n, duration), s, m, docs, now)
  {
    hide SameCore;
    var r := RenewedState(s, duration, now);
    assert r.expireAt == Max(s.expireAt, now) + duration > now;
    assert r.EffectiveStatusAt(now) == r.status;
    SameCoreKeeps(r.MaterializeStatusAt(now), m);
    RenewedFields(s, r, m, now);
  }

  lemma SameCoreKeeps(r: NameState, m: NameState)
    requires SameCore(r, m)
    ensures m.status == r.status && m.expireAt == r.expireAt && m.graceUntil == r.graceUntil && m.nameSeq == r.nameSeq
    ensures SameCore(r.(standardTransferEnabled := true), m) && SameCore(r.(standardTransferEnabled := false), m)
  {
  }

  lemma RenewedFields(s: NameState, r: NameState, m: NameState, now: nat)
    requires SameCore(r, m) || SameCore(r.(standardTransferEnabled := false), m)
    requires r == s.(status := r.status, expireAt := r.expireAt, graceUntil := r.graceUntil,
                     updatedAt := now, nameSeq := s.nameSeq + 1)
    ensures Row(s.(status := m.status, expireAt := r.expireAt, graceUntil := m.graceUntil, nameSeq := s.nameSeq + 1),
                m, now)
  {
  }

  lemma RevokeRow(t: Tables, n: Name, s: NameState, ty: DocType, expected: nat, reason: Hash, now: nat, r: Attempt)
    requires n in t.names && t.names[n].ActiveAt(now) && SameCore(t.names[n], s)
    requires r == RevokeInternal(t, n, s, ty, expected, reason, now) && r.Success?
    ensures n in r.value.tables.names
    ensures PublishRowEffect(n, ty, t.names[n], r.value.tables.names[n], r.value.tables.documents, now)
  {
    hide SaveName, PutDocument, SealDocument, LatestVersion, CurrentVersion, SameCore, Row;
    var key := DocumentKey(n, ty, LatestVersion(t.documents, n, ty) + 1);
    var d := SealDocument(key, RevokedDocument(CurrentVersion(t.documents, n, ty), now));
    var s1 := WithDocumentVersion(s, ty, key.version).(nameSeq := s.nameSeq + 1, updatedAt := now);
    var t1 := t.(documents := PutDocument(t.documents, key, d));
    LatestAfterPut(t.documents, key, d, OWNER_DOC_TYPE);
    SameCoreKeeps(t.names[n], s);
    SavedActiveRow(t1, n, s, s1, now);
    VersionSaved(t.names[n], s, ty, key.version, s1.nameSeq,
                 SaveName(t1, n, s1, now).value.names[n], t1.documents, n, now);
  }

  lemma RevokeEffect(
    t: Tables, n: Name, ty: DocType, expected: nat, reason: Hash, authority: CallAuthority, guard: MutationGuard,
    now: nat, r: Attempt)
    requires r == RevokeDocument(t, n, ty, expected, reason, authority, guard, now) && r.Success?
    ensures HasEffect(Revoke(n, ty, expected, reason, authority, guard), t, r.value.tables, now)
  {
    hide RequiredActiveName, AuthorizeUpdate, RevokeInternal, PublishRowEffect, SameCore;
    RevokeRow(t, n, RequiredActiveName(t, n, now).value, ty, expected, reason, now, r);
  }

  lemma PaymentEffect(
    t: Tables, n: Name, s: NameState, ty: DocType, expected: nat, target: string, beneficiary: Principal,
    payment: Hash, split: Hash, price: Hash, rights: Hash, now: nat, r: Attempt)
    requires s.ActiveAt(now) && r.Success?
    requires r == PaymentInternal(t, n, s, ty, expected, target, beneficiary, payment, split, price, rights, now)
    ensures n in r.value.tables.names
    ensures Row(s.(paymentPolicyHash := payment, nameSeq := s.nameSeq + 1), r.value.tables.names[n], now)
  {
    hide SaveName, PutDocument, SealDocument, CurrentVersion;
    var key := DocumentKey(n, ty, CurrentVersion(t.documents, n, ty));
    var was := t.documents[key].state;
    var d := SealDocument(key, was.(
      paymentTarget := target, beneficiary := beneficiary,
      policies := DocumentPolicies(was.policies.controller, payment, split, price, rights)));
    SavedActiveRow(t.(documents := PutDocument(t.documents, key, d)), n, s,
                   s.(paymentPolicyHash := payment, nameSeq := s.nameSeq + 1, updatedAt := now), now);
  }

  lemma PublishEffect(t: Tables, op: Operation, now: nat, r: Attempt)
    requires op.Publish? || op.Rotate?
    requires r == (if op.Publish? then PublishDocument(t, op.name, op.document, op.authority, op.guard, now)
                   else RotateAuthorityAndOwnerDocument(t, op.name, op.keyUpdates, op.document, op.authority, op.guard, now))
    requires r.Success?
    ensures HasEffect(op, t, r.value.tables, now)
  {
    hide RequiredActiveName, PublishInternal, AuthorizeOwner, AuthorizeUpdate, ApplyAuthorityUpdates;
    if op.Publish? {
      PublishRow(t, op.name, op.document, true, now);
    } else {
      KeysKeepRows(t, op.name, op.keyUpdates, now);
      PublishRow(ApplyAuthorityUpdates(t, op.name, op.keyUpdates, now).value, op.name, op.document, true, now);
    }
  }

  lemma ReleaseEffect(
    t: Tables, n: Name, mode: ReleaseMode, reason: Hash, authority: CallAuthority, guard: MutationGuard,
    now: nat, r: Attempt)
    requires r == ReleaseName(t, n, mode, reason, authority, guard, now) && r.Success?
    ensures HasEffect(Release(n, mode, reason, authority, guard), t, r.value.tables, now)
  {
    hide RequiredActiveName, AuthorizeOwner, SaveName, OwnerGraphOk;
    var s := RequiredActiveName(t, n, now).value;
    SavedRow(t, n, s.(status := ReleasedStatus(mode), nameSeq := s.nameSeq + 1, updatedAt := now), now);
  }

  lemma StandardTransferEffect(t: Tables, n: Name, assetOwner: string, now: nat, r: Attempt)
    requires r == StandardTransferName(t, n, assetOwner, now) && r.Success?
    ensures HasEffect(StandardTransfer(n, assetOwner), t, r.value.tables, now)
  {
    hide RequiredActiveName, SaveName;
    var s := RequiredActiveName(t, n, now).value;
    SavedActiveRow(t, n, s, s.(assetOwner := assetOwner, nameSeq := s.nameSeq + 1, updatedAt := now), now);
  }

  lemma NamespaceEffect(
    t: Tables, n: Name, allow: bool, policyHash: Hash, authority: CallAuthority, guard: MutationGuard, now: nat, r: Attempt)
    requires r == SetNamespacePolicy(t, n, allow, policyHash, authority, guard, now) && r.Success?
    ensures HasEffect(SetNamespace(n, allow, policyHash, authority, guard), t, r.value.tables, now)
  {
    hide RequiredActiveName, AuthorizeUpdate, SaveName;
    var s := RequiredActiveName(t, n, now).value;
    SavedActiveRow(t, n, s, s.(allowDelegatedSubnames := allow, namespacePolicyHash := policyHash,
                               nameSeq := s.nameSeq + 1, updatedAt := now), now);
  }

  lemma AliasEffect(
    t: Tables, n: Name, did: string, kind: AliasKind, proofHash: Hash, authority: CallAuthority, guard: MutationGuard,
    now: nat, r: Attempt)
    requires r == SetDidAlias(t, n, did, kind, proofHash, authority, guard, now) && r.Success?
    ensures HasEffect(SetAlias(n, did, kind, proofHash, authority, guard), t, r.value.tables, now)
    ensures n in r.value.tables.aliases && r.value.tables.aliases[n] ==
      AliasState(kind, did, proofHash, now, r.value.tables.names[n].nameSeq)
  {
    hide RequiredActiveName, AuthorizeUpdate, SaveName;
    var s := RequiredActiveName(t, n, now).value;
    SavedActiveRow(t, n, s, s.(aliasStateHash := proofHash, nameSeq := s.nameSeq + 1, updatedAt := now), now);
  }

  lemma PolicyEffect(
    t: Tables, n: Name, rules: seq<ControllerRule>, policyHash: Hash, authority: CallAuthority, guard: MutationGuard,
    now: nat, r: Attempt)
    requires r == SetControllerPolicy(t, n, rules, policyHash, authority, guard, now) && r.Success?
    ensures HasEffect(SetPolicy(n, rules, policyHash, authority, guard), t, r.value.tables, now)
  {
    hide RequiredActiveName, AuthorizeOwner, BumpName, CheckControllers;
    BumpedRow(t.(policies := t.policies[n := ControllerPolicy(rules, policyHash)]), n, now);
  }

  lemma SetPaymentEffect(t: Tables, op: Operation, now: nat, r: Attempt)
    requires op.SetPayment? && r.Success?
    requires r == SetPaymentTarget(t, op.name, op.docType, op.expectedVersion, op.paymentTarget, op.beneficiary,
                                   op.payment, op.split, op.price, op.rights, op.authority, op.guard, now)
    ensures HasEffect(op, t, r.value.tables, now)
  {
    hide RequiredActiveName, AuthorizeUpdate, PaymentInternal;
    PaymentEffect(t, op.name, RequiredActiveName(t, op.name, now).value, op.docType, op.expectedVersion,
                  op.paymentTarget, op.beneficiary, op.payment, op.split, op.price, op.rights, now, r);
  }

  lemma OtherEffect(t: Tables, op: Operation, now: nat, r: Attempt)
    requires op.SetOwner? || op.UpdateKeys? || op.SetMinIat?
    requires r.Success?
    requires r == match op
      case SetOwner(n, owner, authority, guard) => SetNameOwner(t, n, owner, authority, guard, now)
      case UpdateKeys(n, updates, authority, guard) => UpdateAuthorityKeys(t, n, updates, authority, guard, now)
      case SetMinIat(n, iat, reason, authority, guard) => SetMinDocumentIat(t, n, iat, reason, authority, guard, now)
    ensures HasEffect(op, t, r.value.tables, now)
  {
    hide RequiredActiveName, AuthorizeOwner, AssignOwner, RaiseMinDocumentIat, ApplyAuthorityUpdates;
    match op
    case SetOwner(n, owner, _, _) => AssignedRow(t, n, None, owner, now);
    case UpdateKeys(n, updates, _, _) => KeysKeepRows(t, n, updates, now);
    case SetMinIat(n, iat, reason, _, _) => RaisedRow(t, n, iat, reason, true, now, r);
  }

  /** Every committed operation leaves exactly the row its parameters call for. */
  lemma CommittedRow(t: Tables, op: Operation, now: nat)
    requires ChangesRow(op) && Apply(t, op, now).Success?
    ensures HasEffect(op, t, Apply(t, op, now).value.tables, now)
  {
    hide RowEffect, RegisterName, BootstrapName, RenewName, TransferName, StandardTransferName, SetNameOwner;
    hide ReleaseName, UpdateAuthorityKeys, ApplyMutations, RotateAuthorityAndOwnerDocument, PublishDocument;
    hide RevokeDocument, SetMinDocumentIat, SetPaymentTarget, SetNamespacePolicy, SetControllerPolicy, SetDidAlias;
    hide PublishLogCheckpoint;
    var r := Apply(t, op, now);
    match op
    case Mutate(n, keyUpdates, documents, policy, authority, guard) =>
      MutateEffect(t, n, keyUpdates, documents, policy, authority, guard, now, r);
    case Transfer(n, assetOwner, owner, documents, authority, guard) =>
      TransferEffect(t, n, assetOwner, owner, documents, authority, guard, now, r);
    case Renew(n, duration) => RenewEffect(t, n, duration, now, r);
    case Publish(_, _, _, _) => PublishEffect(t, op, now, r);
    case Rotate(_, _, _, _, _) => PublishEffect(t, op, now, r);
    case Revoke(n, ty, expected, reason, authority, guard) =>
      RevokeEffect(t, n, ty, expected, reason, authority, guard, now, r);
    case SetPayment(_, _, _, _, _, _, _, _, _, _, _) => SetPaymentEffect(t, op, now, r);
    case Release(n, mode, reason, authority, guard) => ReleaseEffect(t, n, mode, reason, authority, guard, now, r);
    case StandardTransfer(n, assetOwner) => StandardTransferEffect(t, n, assetOwner, now, r);
    case SetNamespace(n, allow, policyHash, authority, guard) =>
      NamespaceEffect(t, n, allow, policyHash, authority, guard, now, r);
    case SetAlias(n, did, kind, proofHash, authority, guard) =>
      AliasEffect(t, n, did, kind, proofHash, authority, guard, now, r);
    case SetPolicy(n, rules, policyHash, authority, guard) =>
      PolicyEffect(t, n, rules, policyHash, authority, guard, now, r);
    case SetOwner(_, _, _, _) => OtherEffect(t, op, now, r);
    case UpdateKeys(_, _, _, _) => OtherEffect(t, op, now, r);
    case SetMinIat(_, _, _, _, _) => OtherEffect(t, op, now, r);
  }

  /** The row of a new lineage: everything from the options, nothing from the row before but its counters. */
  predicate FreshRow(t: Tables, op: Operation, u: Tables, owner: Principal, bumps: nat, now: nat)
    requires (op.Register? || op.Bootstrap?) && op.name in u.names
  {
    var m, options := u.names[op.name], op.options;
    && m.assetOwner == op.assetOwner && m.semanticOwner == owner
    && m.status == Active && m.registeredAt == now && m.updatedAt == now
    && m.expireAt == now + options.duration && m.graceUntil == m.expireAt + options.gracePeriod
    && m.nameSeq == (if op.name in t.names then t.names[op.name].nameSeq else 0) + 1 + bumps
    && m.lineageEpoch == (if op.name in t.names then t.names[op.name].lineageEpoch + 1 else 0)
    && m.renewable == options.renewable && m.transferable == options.transferable
    && m.allowDelegatedSubnames == options.allowDelegatedSubnames
    && m.namespacePolicyHash == options.initialNamespacePolicyHash
    && m.paymentPolicyHash == options.initialPaymentPolicyHash && m.aliasStateHash == ZeroHash
    && m.minDocumentIat == 0 && m.ownerPolicySeq == 0
    && m.ownerDocumentVersion ==
       if HasOwnerDocument(op.documents) then LatestVersion(u.documents, op.name, OWNER_DOC_TYPE) else 0
  }

  lemma RegisterTxRow(t: Tables, op: Operation, now: nat, r: Attempt)
    requires (op.Register? || op.Bootstrap?) && op.options.duration > 0
    requires r == RegisterTx(t, op.name, op.assetOwner, op.options, op.documents, op.authority, op.guard, now) && r.Success?
    ensures op.name in r.value.tables.names
    ensures FreshRow(t, op, r.value.tables, op.options.initialSemanticOwner, 0, now)
  {
    hide ResolveOwner, PublishAll, OwnerGraphOk, CheckRegistration, ResetNameLineage, LatestVersion, HasOwnerDocument;
    var t1 := RegisterRow(t, op.name, op.assetOwner, op.options, now).value;
    PublishAllRow(t1, op.name, op.documents, now);
  }

  /** A registration, first or repeated, leaves the fresh row its options call for. */
  lemma RegisteredRow(t: Tables, op: Operation, now: nat)
    requires op.Register? && Apply(t, op, now).Success?
    ensures var u := Apply(t, op, now).value.tables;
      op.name in u.names && FreshRow(t, op, u, op.options.initialSemanticOwner, 0, now)
  {
    hide RegisterTx;
    RegisterTxRow(t, op, now, Apply(t, op, now));
  }

  /** So does a bootstrap, with the owner it installs after the keys; that and the policy each raise the number. */
  lemma BootstrappedRow(t: Tables, op: Operation, now: nat)
    requires op.Bootstrap? && Apply(t, op, now).Success?
    ensures var u := Apply(t, op, now).value.tables;
      && op.name in u.names
      && FreshRow(t, op, u, op.ownerAfter.GetOr(op.options.initialSemanticOwner),
                  if op.ownerAfter.Some? then 2 else 1, now)
  {
    hide RegisterTx, AssignOwner, BumpName, CheckControllers, ApplyKeyBatch, LatestVersion, HasOwnerDocument;
    var n := op.name;
    var registered := RegisterTx(t, n, op.assetOwner, op.options, op.documents, op.authority, op.guard, now);
    RegisterTxRow(t, op, now, registered);
    var t1 := registered.value.tables;
    KeyBatchKeepsRows(t1, n, op.keyUpdates, now);
    var t2 := ApplyKeyBatch(t1, n, op.keyUpdates, now).value;
    if op.ownerAfter.Some? {
      AssignedRow(t2, n, None, op.ownerAfter.value, now);
      AssignKeepsDocuments(t2, n, None, op.ownerAfter.value, now);
    }
    var t3 := BootstrapOwner(t2, n, op.ownerAfter, now).value;
    BumpedRow(t3.(policies := t3.policies[n := ControllerPolicy(op.rules, op.policyHash)]), n, now);
  }

  lemma AssignKeepsDocuments(t: Tables, n: Name, assetOwner: Option<string>, owner: Principal, now: nat)
    ensures AssignOwner(t, n, assetOwner, owner, now).Success? ==>
      AssignOwner(t, n, assetOwner, owner, now).value.documents == t.documents
  {
    hide RequiredActiveName, MaterializeNameState, OwnerGraphOk, ValidateSemanticOwnerTarget;
  }

  // ----- documents -----

  /** A published version carries what was published. */
  lemma PublishedContents(t: Tables, op: Operation, now: nat)
    requires op.Publish? && Apply(t, op, now).Success?
    ensures var o := Apply(t, op, now).value; var u := op.document;
      var key := DocumentKey(op.name, u.docType, o.reply);
      && key !in t.documents && key in o.tables.documents && o.tables.documents[key].current
      && var d := o.tables.documents[key].state;
         && d.status == DocActive && d.document == u.document && d.controller == u.controller
         && d.beneficiary == u.beneficiary && d.paymentTarget == u.paymentTarget && d.policies == u.policies
         && d.validFrom == now && d.expireAt == u.expireAt && d.previousVersion == u.expectedVersion
  {
    hide AuthorizeUpdate, RequiredActiveName, PublishInternal, LatestVersion, CurrentVersion;
    PublishStores(t, op.name, op.document, true, now);
    NextVersionIsNew(t.documents, op.name, op.document.docType);
  }

  lemma NextVersionIsNew(docs: DocumentTable, n: Name, ty: DocType)
    ensures DocumentKey(n, ty, LatestVersion(docs, n, ty) + 1) !in docs
    ensures forall v | v in Versions(docs, n, ty) :: v <= LatestVersion(docs, n, ty)
  {
    var next := DocumentKey(n, ty, LatestVersion(docs, n, ty) + 1);
    assert next in docs ==> next.version in Versions(docs, n, ty);
  }

  /** Setting the payment target rewrites the payment fields of one document and nothing else of it. */
  lemma PaymentContents(t: Tables, op: Operation, now: nat)
    requires op.SetPayment? && Apply(t, op, now).Success?
    ensures var u := Apply(t, op, now).value.tables; var key := DocumentKey(op.name, op.docType, op.expectedVersion);
      && key in t.documents && key in u.documents
      && var d, e := t.documents[key].state, u.documents[key].state;
         && e.paymentTarget == op.paymentTarget && e.beneficiary == op.beneficiary
         && e.policies == DocumentPolicies(d.policies.controller, op.payment, op.split, op.price, op.rights)
         && e == d.(paymentTarget := e.paymentTarget, beneficiary := e.beneficiary, policies := e.policies,
                    stateHash := e.stateHash)
  {
    hide ResolveOwner, AuthorizeUpdate;
  }
}
