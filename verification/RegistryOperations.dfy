/** Every committed operation keeps the invariant and announces what it changed. */
module RegistryOperations {
  import opened Wrappers
  import opened BnsModel
  import opened RegistryTables
  import opened Ownership
  import opened RegistrySpec
  import opened RegistryInvariants
  import opened RegistryWrites
  import opened RegistryBlocks

  /** Operations that carry an expected sequence number for the name itself. */
  predicate Guarded(op: Operation) {
    !op.Register? && !op.Bootstrap? && !op.Renew? && !op.StandardTransfer? && !op.PublishCheckpoint?
  }

  /** Authority-key updates alone leave the name row as it is. */
  predicate PureKeyUpdate(op: Operation) {
    op.UpdateKeys? || (op.Mutate? && op.documents == [] && op.policy.KeepPolicy?)
  }

  function Target(op: Operation): Name {
    if op.PublishCheckpoint? then Top("") else op.name
  }

  /** The guard matched, and the sequence number moved on. */
  predicate SequenceMoves(t: Tables, op: Operation, u: Tables) {
    Guarded(op) ==>
      && GuardMatched(t, op.name, op.guard)
      && op.name in u.names
      && (!PureKeyUpdate(op) ==> u.names[op.name].nameSeq > t.names[op.name].nameSeq)
  }

  predicate GuardMatched(t: Tables, n: Name, guard: MutationGuard) {
    n in t.names && t.names[n].nameSeq == guard.expectedNameSeq
  }

  /** u follows t, announces the row of n and carries a higher sequence number. */
  ghost predicate Lands(t: Tables, u: Tables, n: Name, now: nat) {
    && Follows(t, u, n, now) && Announces(t, u, n)
    && n in t.names && n in u.names && u.names[n].nameSeq > t.names[n].nameSeq
  }

  ghost predicate Sound(t: Tables, op: Operation, u: Tables, now: nat) {
    && Follows(t, u, Target(op), now)
    && (Announces(t, u, Target(op)) || SameName(t, u, Target(op)))
    && SequenceMoves(t, op, u)
  }

  lemma RegisterFollows(
    t: Tables, n: Name, assetOwner: string, options: RegisterOptions, documents: seq<DocumentUpdate>,
    authority: CallAuthority, guard: MutationGuard, now: nat, r: Attempt)
    requires Inv(t, now) && options.duration > 0
    requires r == RegisterTx(t, n, assetOwner, options, documents, authority, guard, now) && r.Success?
    ensures Follows(t, r.value.tables, n, now) && Announces(t, r.value.tables, n)
    ensures n in r.value.tables.names
  {
    hide Inv, Changes, NamePushed, NewRecords;
    var t1 := RegisterRow(t, n, assetOwner, options, now).value;
    RegisterRowFollows(t, n, assetOwner, options, now);
    PublishAllFollows(t1, n, documents, now);
    FollowsTrans(t, t1, r.value.tables, n, now);
  }

  lemma RegisterNameFollows(
    t: Tables, n: Name, assetOwner: string, options: RegisterOptions, documents: seq<DocumentUpdate>,
    authority: CallAuthority, guard: MutationGuard, now: nat, r: Attempt)
    requires Inv(t, now)
    requires r == RegisterName(t, n, assetOwner, options, documents, authority, guard, now) && r.Success?
    ensures Follows(t, r.value.tables, n, now) && Announces(t, r.value.tables, n)
  {
    hide Inv, Changes, NamePushed, NewRecords, RegisterTx;
    RegisterFollows(t, n, assetOwner, options, documents, authority, guard, now, r);
  }

  lemma BootstrapTailFollows(
    t: Tables, n: Name, keyUpdates: seq<KeyUpdate>, ownerAfter: Option<Principal>,
    rules: seq<ControllerRule>, policyHash: Hash, now: nat, r: Attempt)
    requires Inv(t, now) && n in t.names
    requires r == BootstrapTail(t, n, keyUpdates, ownerAfter, rules, policyHash, now) && r.Success?
    ensures Follows(t, r.value.tables, n, now)
  {
    hide Inv, Changes, NamePushed, NewRecords;
    var t1 := ApplyKeyBatch(t, n, keyUpdates, now).value;
    KeyBatchFollows(t, n, keyUpdates, now);
    var t2 := BootstrapOwner(t1, n, ownerAfter, now).value;
    BootstrapOwnerFollows(t1, n, ownerAfter, now);
    FollowsTrans(t, t1, t2, n, now);
    InstallPolicyFollows(t2, n, rules, policyHash, now);
    FollowsTrans(t, t2, r.value.tables, n, now);
  }

  lemma BootstrapFollows(
    t: Tables, n: Name, assetOwner: string, options: RegisterOptions, documents: seq<DocumentUpdate>,
    keyUpdates: seq<KeyUpdate>, ownerAfter: Option<Principal>, rules: seq<ControllerRule>, policyHash: Hash,
    authority: CallAuthority, guard: MutationGuard, now: nat, r: Attempt)
    requires Inv(t, now)
    requires r == BootstrapName(t, n, assetOwner, options, documents, keyUpdates, ownerAfter, rules, policyHash,
                                authority, guard, now) && r.Success?
    ensures Follows(t, r.value.tables, n, now) && Announces(t, r.value.tables, n)
  {
    hide Inv, Changes, NamePushed, NewRecords, RegisterTx, BootstrapTail;
    var r0 := RegisterTx(t, n, assetOwner, options, documents, authority, guard, now);
    RegisterFollows(t, n, assetOwner, options, documents, authority, guard, now, r0);
    var t0 := r0.value.tables;
    BootstrapTailFollows(t0, n, keyUpdates, ownerAfter, rules, policyHash, now, r);
    FollowsTrans(t, t0, r.value.tables, n, now);
  }

  lemma KeyBatchFollows(t: Tables, n: Name, keyUpdates: seq<KeyUpdate>, now: nat)
    requires Inv(t, now) && n in t.names && ApplyKeyBatch(t, n, keyUpdates, now).Success?
    ensures Follows(t, ApplyKeyBatch(t, n, keyUpdates, now).value, n, now)
    ensures ApplyKeyBatch(t, n, keyUpdates, now).value.names == t.names
  {
    hide Inv, Changes, NamePushed, NewRecords;
    if keyUpdates == [] {
      FollowsSelf(t, n, now);
    } else {
      KeysFollow(t, n, keyUpdates, now);
    }
  }

  lemma BootstrapOwnerFollows(t: Tables, n: Name, ownerAfter: Option<Principal>, now: nat)
    requires Inv(t, now) && BootstrapOwner(t, n, ownerAfter, now).Success?
    ensures Follows(t, BootstrapOwner(t, n, ownerAfter, now).value, n, now)
  {
    hide Inv, Changes, NamePushed, NewRecords;
    if ownerAfter == None {
      FollowsSelf(t, n, now);
    } else {
      OwnerAnnounced(t, n, None, ownerAfter.value, now);
    }
  }

  lemma RenewFollows(t: Tables, n: Name, duration: nat, now: nat, r: Attempt)
    requires Inv(t, now) && r == RenewName(t, n, duration, now) && r.Success?
    ensures Lands(t, r.value.tables, n, now)
  {
    hide Inv, Changes, NamePushed, NewRecords;
    var s := RenewedState(t.names[n], duration, now);
    var m := MaterializeNameState(t, n, s, now).value;
    if s.semanticOwner.BnsName? && s.ActiveAt(now) {
      RenewedOwnerLive(t, n, s, now);
    }
    PutRenewedRow(t, n, m, now);
    var t1 := PutName(t, n, m);
    var e := NameRenewed(n, s.expireAt, s.nameSeq);
    AppendNeutral(t1, e, now, n);
    FollowsTrans(t, t1, AppendEvent(t1, e, now), n, now);
  }

  /** Materializing an active row with an explicit owner demands that the owner is live. */
  lemma RenewedOwnerLive(t: Tables, n: Name, s: NameState, now: nat)
    requires MaterializeNameState(t, n, s, now).Success?
    requires s.semanticOwner.BnsName? && s.ActiveAt(now)
    ensures LiveOwner(t, s.semanticOwner.name)
  {
    var m := s.MaterializeStatusAt(now);
    assert ResolveOwner(t, n, m, now).Success?;
    assert RequireActiveAuthoritySet(t, s.semanticOwner.name, now).Success?;
  }

  lemma TransferRowFollows(
    t: Tables, n: Name, assetOwner: string, owner: Principal, oldAssetOwner: string, now: nat)
    requires Inv(t, now) && TransferRow(t, n, assetOwner, owner, oldAssetOwner, now).Success?
    ensures var u := TransferRow(t, n, assetOwner, owner, oldAssetOwner, now).value;
      && Follows(t, u, n, now) && Announces(t, u, n)
      && n in t.names && n in u.names && u.names[n].nameSeq == t.names[n].nameSeq + 1
  {
    hide Inv, Changes, NamePushed, NewRecords;
    var t1 := AssignOwner(t, n, Some(assetOwner), owner, now).value;
    AssignOwnerFollows(t, n, Some(assetOwner), owner, now);
    var e := NameAssetTransferred(n, oldAssetOwner, assetOwner, false, t1.names[n].nameSeq);
    var t2 := AppendEvent(t1, e, now);
    AppendNeutral(t1, e, now, n);
    FollowsTrans(t, t1, t2, n, now);
    var t3 := AppendEvent(t2, OwnerEvent(n, t1.names[n]), now);
    AppendNeutral(t2, OwnerEvent(n, t1.names[n]), now, n);
    FollowsTrans(t, t2, t3, n, now);
  }

  lemma TransferFollows(
    t: Tables, n: Name, assetOwner: string, owner: Principal, documents: seq<DocumentUpdate>,
    authority: CallAuthority, guard: MutationGuard, now: nat, r: Attempt)
    requires Inv(t, now)
    requires r == TransferName(t, n, assetOwner, owner, documents, authority, guard, now) && r.Success?
    ensures Follows(t, r.value.tables, n, now) && Announces(t, r.value.tables, n)
    ensures n in t.names && n in r.value.tables.names
    ensures t.names[n].nameSeq == guard.expectedNameSeq < r.value.tables.names[n].nameSeq
  {
    hide Inv, Changes, NamePushed, NewRecords;
    var s := RequiredActiveName(t, n, now).value;
    var t1 := TransferRow(t, n, assetOwner, owner, s.assetOwner, now).value;
    TransferRowFollows(t, n, assetOwner, owner, s.assetOwner, now);
    PublishAllFollows(t1, n, documents, now);
    FollowsTrans(t, t1, r.value.tables, n, now);
  }

  lemma StandardTransferFollows(t: Tables, n: Name, assetOwner: string, now: nat, r: Attempt)
    requires Inv(t, now) && r == StandardTransferName(t, n, assetOwner, now) && r.Success?
    ensures Lands(t, r.value.tables, n, now)
  {
    hide Inv, Changes, NamePushed, NewRecords;
    var s := RequiredActiveName(t, n, now).value;
    var s1 := s.(assetOwner := assetOwner, nameSeq := s.nameSeq + 1, updatedAt := now);
    SaveAndAnnounce(t, n, s1, NameAssetTransferred(n, s.assetOwner, assetOwner, true, s.nameSeq + 1), now);
  }

  lemma SetOwnerFollows(
    t: Tables, n: Name, owner: Principal, authority: CallAuthority, guard: MutationGuard, now: nat, r: Attempt)
    requires Inv(t, now) && r == SetNameOwner(t, n, owner, authority, guard, now) && r.Success?
    ensures Lands(t, r.value.tables, n, now) && GuardMatched(t, n, guard)
  {
    hide Inv, Changes, NamePushed, NewRecords;
    AssignOwnerFollows(t, n, None, owner, now);
    OwnerAnnounced(t, n, None, owner, now);
  }

  lemma ReleaseFollows(
    t: Tables, n: Name, mode: ReleaseMode, reasonHash: Hash,
    authority: CallAuthority, guard: MutationGuard, now: nat, r: Attempt)
    requires Inv(t, now) && r == ReleaseName(t, n, mode, reasonHash, authority, guard, now) && r.Success?
    ensures Lands(t, r.value.tables, n, now) && GuardMatched(t, n, guard)
  {
    hide Inv, Changes, NamePushed, NewRecords, AuthorizeOwner, ResolveOwner;
    var s := RequiredActiveName(t, n, now).value;
    var s1 := s.(status := ReleasedStatus(mode), nameSeq := s.nameSeq + 1, updatedAt := now);
    var m := MaterializeNameState(t, n, s1, now).value;
    PutReleasedRow(t, n, s1, m, now);
    var t1 := PutName(t, n, m);
    var e := NameReleased(n, mode, reasonHash, s1.nameSeq);
    AppendNeutral(t1, e, now, n);
    FollowsTrans(t, t1, AppendEvent(t1, e, now), n, now);
  }

  lemma UpdateKeysFollows(
    t: Tables, n: Name, updates: seq<KeyUpdate>, authority: CallAuthority, guard: MutationGuard, now: nat, r: Attempt)
    requires Inv(t, now) && r == UpdateAuthorityKeys(t, n, updates, authority, guard, now) && r.Success?
    ensures Follows(t, r.value.tables, n, now) && GuardMatched(t, n, guard)
    ensures r.value.tables.names == t.names
  {
    hide Inv, Changes, NamePushed, NewRecords;
    KeysFollow(t, n, updates, now);
  }

  lemma MutateRowsFollow(
    t: Tables, n: Name, documents: seq<DocumentUpdate>, policy: OwnerPolicyUpdate, now: nat)
    requires Inv(t, now) && MutateRows(t, n, documents, policy, now).Success?
    requires documents != [] || policy.RaiseIatFloor?
    ensures Lands(t, MutateRows(t, n, documents, policy, now).value, n, now)
  {
    hide Inv, Changes, NamePushed, NewRecords, BumpName, PublishAll, RaiseMinDocumentIat;
    var t1 := BumpName(t, n, now).value;
    BumpFollows(t, n, now);
    var t2 := PublishAll(t1, n, documents, now).value;
    PublishAllFollows(t1, n, documents, now);
    FollowsTrans(t, t1, t2, n, now);
    if policy.RaiseIatFloor? {
      RaiseIatFollows(t2, n, policy.minDocumentIat, policy.reasonHash, false, now);
      FollowsTrans(t, t2, MutateRows(t, n, documents, policy, now).value, n, now);
    }
  }

  lemma MutateFollows(
    t: Tables, n: Name, keyUpdates: seq<KeyUpdate>, documents: seq<DocumentUpdate>,
    policy: OwnerPolicyUpdate, authority: CallAuthority, guard: MutationGuard, now: nat, r: Attempt)
    requires Inv(t, now)
    requires r == ApplyMutations(t, n, keyUpdates, documents, policy, authority, guard, now) && r.Success?
    ensures GuardMatched(t, n, guard)
    ensures documents == [] && policy.KeepPolicy? ==>
      Follows(t, r.value.tables, n, now) && r.value.tables.names == t.names
    ensures documents != [] || policy.RaiseIatFloor? ==> Lands(t, r.value.tables, n, now)
  {
    hide Inv, Changes, NamePushed, NewRecords;
    var t1 := ApplyKeyBatch(t, n, keyUpdates, now).value;
    KeyBatchFollows(t, n, keyUpdates, now);
    if documents != [] || policy.RaiseIatFloor? {
      MutateRowsFollow(t1, n, documents, policy, now);
      FollowsTrans(t, t1, r.value.tables, n, now);
    }
  }

  lemma RotateFollows(
    t: Tables, n: Name, updates: seq<KeyUpdate>, document: DocumentUpdate,
    authority: CallAuthority, guard: MutationGuard, now: nat, r: Attempt)
    requires Inv(t, now)
    requires r == RotateAuthorityAndOwnerDocument(t, n, updates, document, authority, guard, now) && r.Success?
    ensures Lands(t, r.value.tables, n, now) && GuardMatched(t, n, guard)
  {
    hide Inv, Changes, NamePushed, NewRecords, ApplyAuthorityUpdates, PublishInternal, AuthorizeOwner;
    var t1 := ApplyAuthorityUpdates(t, n, updates, now).value;
    KeysFollow(t, n, updates, now);
    PublishInternalFollows(t1, n, document, true, now);
    FollowsTrans(t, t1, r.value.tables, n, now);
  }

  lemma AliasFollows(
    t: Tables, n: Name, targetDid: string, kind: AliasKind, proofHash: Hash,
    authority: CallAuthority, guard: MutationGuard, now: nat, r: Attempt)
    requires Inv(t, now) && r == SetDidAlias(t, n, targetDid, kind, proofHash, authority, guard, now) && r.Success?
    ensures Lands(t, r.value.tables, n, now) && GuardMatched(t, n, guard)
  {
    hide Inv, Changes, NamePushed, NewRecords, AuthorizeUpdate, ResolveOwner;
    var s := RequiredActiveName(t, n, now).value;
    var s1 := s.(aliasStateHash := proofHash, nameSeq := s.nameSeq + 1, updatedAt := now);
    var t1 := SaveName(t, n, s1, now).value;
    SaveKeptName(t, n, s1, now);
    var t2 := t1.(aliases := t1.aliases[n := AliasState(kind, targetDid, proofHash, now, s1.nameSeq)]);
    SideTables(t1, t1.policies, t2.aliases, n, now);
    FollowsTrans(t, t1, t2, n, now);
    AppendNeutral(t2, DidAliasSet(n, targetDid, kind, proofHash, s1.nameSeq), now, n);
    FollowsTrans(t, t2, r.value.tables, n, now);
  }

  lemma NamespaceFollows(
    t: Tables, n: Name, allow: bool, policyHash: Hash, authority: CallAuthority, guard: MutationGuard, now: nat, r: Attempt)
    requires Inv(t, now) && r == SetNamespacePolicy(t, n, allow, policyHash, authority, guard, now) && r.Success?
    ensures Lands(t, r.value.tables, n, now) && GuardMatched(t, n, guard)
  {
    hide Inv, Changes, NamePushed, NewRecords, AuthorizeUpdate, ResolveOwner;
    var s := RequiredActiveName(t, n, now).value;
    var s1 := s.(allowDelegatedSubnames := allow, namespacePolicyHash := policyHash,
                 nameSeq := s.nameSeq + 1, updatedAt := now);
    SaveAndAnnounce(t, n, s1, NamespacePolicyUpdated(n, allow, policyHash, s1.nameSeq), now);
  }

  lemma CheckpointFollows(t: Tables, issuer: Principal, externalAnchor: Hash, n: Name, now: nat, r: Attempt)
    requires Inv(t, now) && r == PublishLogCheckpoint(t, issuer, externalAnchor, now) && r.Success?
    ensures Follows(t, r.value.tables, n, now) && r.value.tables.names == t.names
  {
    var last := LatestSeq(t.events);
    var c := LogCheckpoint(RootAt(t.events, last), last, now, issuer, externalAnchor);
    var t1 := t.(checkpoints := t.checkpoints[last := c]);
    PutCheckpoint(t, c, now);
    CheckpointChanges(t, t1, n);
    AppendNeutral(t1, LogCheckpointPublished(c.logRoot, last, now, externalAnchor), now, n);
    FollowsTrans(t, t1, r.value.tables, n, now);
  }

  lemma CheckpointChanges(t: Tables, u: Tables, n: Name)
    requires u == t.(checkpoints := u.checkpoints)
    ensures Changes(t, u, n)
  {
    assert Log(u) == Log(t);
  }

  lemma PublishFollows(
    t: Tables, n: Name, document: DocumentUpdate, authority: CallAuthority, guard: MutationGuard, now: nat, r: Attempt)
    requires Inv(t, now) && r == PublishDocument(t, n, document, authority, guard, now) && r.Success?
    ensures Lands(t, r.value.tables, n, now) && GuardMatched(t, n, guard)
  {
    hide Inv, Changes, NamePushed, NewRecords;
    PublishInternalFollows(t, n, document, true, now);
  }

  lemma RevokeDocumentFollows(
    t: Tables, n: Name, ty: DocType, expected: nat, reason: Hash,
    authority: CallAuthority, guard: MutationGuard, now: nat, r: Attempt)
    requires Inv(t, now) && r == RevokeDocument(t, n, ty, expected, reason, authority, guard, now) && r.Success?
    ensures Lands(t, r.value.tables, n, now) && GuardMatched(t, n, guard)
  {
    hide Inv, Changes, NamePushed, NewRecords;
    RevokeFollows(t, n, RequiredActiveName(t, n, now).value, ty, expected, reason, now, r.value.tables);
  }

  lemma SetPaymentFollows(
    t: Tables, n: Name, ty: DocType, expected: nat, target: string, beneficiary: Principal,
    payment: Hash, split: Hash, price: Hash, rights: Hash,
    authority: CallAuthority, guard: MutationGuard, now: nat, r: Attempt)
    requires Inv(t, now) && r.Success?
    requires r == SetPaymentTarget(t, n, ty, expected, target, beneficiary, payment, split, price, rights,
                                   authority, guard, now)
    ensures Lands(t, r.value.tables, n, now) && GuardMatched(t, n, guard)
  {
    hide Inv, Changes, NamePushed, NewRecords;
    PaymentFollows(t, n, RequiredActiveName(t, n, now).value, ty, expected, target, beneficiary,
                   payment, split, price, rights, now, r);
  }

  lemma SetPolicyFollows(
    t: Tables, n: Name, rules: seq<ControllerRule>, policyHash: Hash,
    authority: CallAuthority, guard: MutationGuard, now: nat, r: Attempt)
    requires Inv(t, now) && r == SetControllerPolicy(t, n, rules, policyHash, authority, guard, now) && r.Success?
    ensures Lands(t, r.value.tables, n, now) && GuardMatched(t, n, guard)
  {
    hide Inv, Changes, NamePushed, NewRecords;
    InstallPolicyFollows(t, n, rules, policyHash, now);
  }

  lemma SetMinIatFollows(
    t: Tables, n: Name, iat: nat, reason: Hash, authority: CallAuthority, guard: MutationGuard, now: nat, r: Attempt)
    requires Inv(t, now) && r == SetMinDocumentIat(t, n, iat, reason, authority, guard, now) && r.Success?
    ensures Lands(t, r.value.tables, n, now) && GuardMatched(t, n, guard)
  {
    hide Inv, Changes, NamePushed, NewRecords;
    RaiseIatFollows(t, n, iat, reason, true, now);
  }

  /** One committed operation: the invariant holds again, and every change is announced. */
  lemma OperationSound(t: Tables, op: Operation, now: nat)
    requires Inv(t, now) && Apply(t, op, now).Success?
    ensures Sound(t, op, Apply(t, op, now).value.tables, now)
  {
    hide Inv, Changes, NamePushed, NewRecords;
    hide RegisterName, BootstrapName, RenewName, TransferName, StandardTransferName, SetNameOwner, ReleaseName;
    hide UpdateAuthorityKeys, ApplyMutations, RotateAuthorityAndOwnerDocument, PublishDocument, RevokeDocument;
    hide SetMinDocumentIat, SetPaymentTarget, SetNamespacePolicy, SetControllerPolicy, SetDidAlias;
    hide PublishLogCheckpoint;
    var r := Apply(t, op, now);
    match op
    case Register(n, assetOwner, options, documents, authority, guard) =>
      RegisterNameFollows(t, n, assetOwner, options, documents, authority, guard, now, r);
    case Bootstrap(n, assetOwner, options, documents, keyUpdates, ownerAfter, rules, policyHash, authority, guard) =>
      BootstrapFollows(t, n, assetOwner, options, documents, keyUpdates, ownerAfter, rules, policyHash,
                       authority, guard, now, r);
    case Renew(n, duration) => RenewFollows(t, n, duration, now, r);
    case Transfer(n, assetOwner, owner, documents, authority, guard) =>
      TransferFollows(t, n, assetOwner, owner, documents, authority, guard, now, r);
    case StandardTransfer(n, assetOwner) => StandardTransferFollows(t, n, assetOwner, now, r);
    case SetOwner(n, owner, authority, guard) => SetOwnerFollows(t, n, owner, authority, guard, now, r);
    case Release(n, mode, reasonHash, authority, guard) =>
      ReleaseFollows(t, n, mode, reasonHash, authority, guard, now, r);
    case UpdateKeys(n, updates, authority, guard) => UpdateKeysFollows(t, n, updates, authority, guard, now, r);
    case Mutate(n, keyUpdates, documents, policy, authority, guard) =>
      MutateFollows(t, n, keyUpdates, documents, policy, authority, guard, now, r);
    case Rotate(n, updates, document, authority, guard) =>
      RotateFollows(t, n, updates, document, authority, guard, now, r);
    case SetAlias(n, did, kind, proofHash, authority, guard) =>
      AliasFollows(t, n, did, kind, proofHash, authority, guard, now, r);
    case SetNamespace(n, allow, policyHash, authority, guard) =>
      NamespaceFollows(t, n, allow, policyHash, authority, guard, now, r);
    case PublishCheckpoint(issuer, anchor) => CheckpointFollows(t, issuer, anchor, Target(op), now, r);
    case Publish(n, document, authority, guard) => PublishFollows(t, n, document, authority, guard, now, r);
    case Revoke(n, ty, expected, reason, authority, guard) =>
      RevokeDocumentFollows(t, n, ty, expected, reason, authority, guard, now, r);
    case SetPayment(n, ty, expected, target, beneficiary, payment, split, price, rights, authority, guard) =>
      SetPaymentFollows(t, n, ty, expected, target, beneficiary, payment, split, price, rights, authority, guard, now, r);
    case SetPolicy(n, rules, policyHash, authority, guard) =>
      SetPolicyFollows(t, n, rules, policyHash, authority, guard, now, r);
    case SetMinIat(n, iat, reason, authority, guard) =>
      SetMinIatFollows(t, n, iat, reason, authority, guard, now, r);
  }
}
