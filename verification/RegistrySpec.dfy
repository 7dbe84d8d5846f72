/** Every registry mutation as a function from tables to tables. */
module RegistrySpec {
  import opened Wrappers
  import opened BnsModel
  import opened RegistryTables
  import opened OwnerGraph
  import opened Ownership

  datatype Outcome = Outcome(tables: Tables, reply: nat)
  type Attempt = Result<Outcome, Error>

  // ----- building blocks -----

  function PutName(t: Tables, n: Name, s: NameState): Tables {
    t.(names := t.names[n := s])
  }

  /** Materialize a row and store it. */
  function SaveName(t: Tables, n: Name, s: NameState, now: nat): Result<Tables, Error> {
    var m :- MaterializeNameState(t, n, s, now);
    Success(PutName(t, n, m))
  }

  /** Store a row only when the whole owner graph stays sound with it. */
  function SaveOwnedName(t: Tables, n: Name, s: NameState, now: nat): Result<Tables, Error> {
    var request := Need(OwnerGraphOk(t.names[n := s], t.sets, now), OwnerGraphRejected);
    :- request;
    SaveName(t, n, s, now)
  }

  function ApplyKeyUpdate(keys: map<Kid, AuthorityKey>, u: KeyUpdate): map<Kid, AuthorityKey> {
    if u.active then
      keys[u.kid := if u.key.status == KeyMissing then u.key.(status := KeyActive) else u.key]
    else
      keys[u.kid := (if u.kid in keys then keys[u.kid] else u.key).(status := KeyRevoked)]
  }

  function ApplyKeyUpdates(keys: map<Kid, AuthorityKey>, updates: seq<KeyUpdate>): map<Kid, AuthorityKey> {
    if updates == [] then keys
    else ApplyKeyUpdate(ApplyKeyUpdates(keys, updates[..|updates| - 1]), updates[|updates| - 1])
  }

  function ActiveKeys(keys: map<Kid, AuthorityKey>, now: nat): map<Kid, AuthorityKey> {
    map kid | kid in keys && keys[kid].ActiveFor(KEY_PURPOSE_AUTHENTICATION, now) :: keys[kid]
  }

  function RecomputeAuthoritySet(t: Tables, n: Name, keys: map<Kid, AuthorityKey>, now: nat): AuthoritySet {
    var active := ActiveKeys(keys, now);
    AuthoritySet(
      if n in t.sets then t.sets[n].authoritySeq + 1 else 1,
      if active == map[] then ZeroHash else AuthorityRoot(active),
      |active|)
  }

  /** A name that still owns active names may not lose its last key. */
  function ApplyAuthorityUpdates(t: Tables, n: Name, updates: seq<KeyUpdate>, now: nat): Result<Tables, Error> {
    var keys := ApplyKeyUpdates(KeysOf(t, n), updates);
    var set_ := RecomputeAuthoritySet(t, n, keys, now);
    :- Need(set_.activeKeyCount > 0 || !IsAuthorityOwner(t, n, now), NoConcreteSigner);
    var stored := t.(keys := StoredKeys(t.keys, n, keys), sets := t.sets[n := set_]);
    Success(AppendEvent(stored, AuthorityKeysUpdated(n, set_.authoritySeq, set_.root), now))
  }

  function SealDocument(key: DocumentKey, d: DocumentState): DocumentState {
    d.(stateHash := DocumentHash(key, d.(stateHash := ZeroHash)))
  }

  function PublishedDocument(u: DocumentUpdate, previous: nat, now: nat): DocumentState {
    DocumentState(previous, DocActive, u.document, u.controller, u.beneficiary, u.paymentTarget,
                  now, u.expireAt, 0, u.policies, ZeroHash)
  }

  function RevokedDocument(previous: nat, now: nat): DocumentState {
    DocumentState(previous, DocRevoked, DocumentRef("0x0", "", [], ZeroHash), Unset, Unset, "",
                  now, 0, now, ZERO_POLICIES, ZeroHash)
  }

  function WithDocumentVersion(s: NameState, ty: DocType, version: nat): NameState {
    if ty == OWNER_DOC_TYPE then s.(ownerDocumentVersion := version) else s
  }

  /** Append the next version of a document; the caller must know the current one. */
  function PublishInternal(t: Tables, n: Name, u: DocumentUpdate, bump: bool, now: nat): Attempt {
    var actual := CurrentVersion(t.documents, n, u.docType);
    :- Need(actual == u.expectedVersion, StaleDocumentVersion);
    var key := DocumentKey(n, u.docType, LatestVersion(t.documents, n, u.docType) + 1);
    var d := SealDocument(key, PublishedDocument(u, actual, now));
    var t1 := t.(documents := PutDocument(t.documents, key, d));
    var s :- RequiredActiveName(t1, n, now);
    var s1 := WithDocumentVersion(s, u.docType, key.version).(
      nameSeq := if bump then s.nameSeq + 1 else s.nameSeq, updatedAt := now);
    var t2 :- SaveName(t1, n, s1, now);
    var event := DocumentPublished(n, u.docType, key.version, d.document.contentHash, d.stateHash);
    Success(Outcome(AppendEvent(t2, event, now), key.version))
  }

  function PublishAll(t: Tables, n: Name, updates: seq<DocumentUpdate>, now: nat): Result<Tables, Error> {
    if updates == [] then Success(t)
    else
      var k := |updates| - 1;
      var t1 :- PublishAll(t, n, updates[..k], now);
      var r :- PublishInternal(t1, n, updates[k], false, now);
      Success(r.tables)
  }

  function RaiseMinDocumentIat(
    t: Tables, n: Name, minDocumentIat: nat, reasonHash: Hash, bump: bool, now: nat): Attempt
  {
    var s :- RequiredActiveName(t, n, now);
    :- Need(s.minDocumentIat <= minDocumentIat, InvalidMutation);
    var s1 := s.(
      nameSeq := if bump then s.nameSeq + 1 else s.nameSeq,
      minDocumentIat := minDocumentIat, ownerPolicySeq := s.ownerPolicySeq + 1, updatedAt := now);
    var t1 :- SaveName(t, n, s1, now);
    var event := OwnerDocumentIatFloorUpdated(
      n, s.minDocumentIat, minDocumentIat, s1.ownerPolicySeq, s1.nameSeq, reasonHash);
    Success(Outcome(AppendEvent(t1, event, now), s1.nameSeq))
  }

  function CheckControllers(t: Tables, rules: seq<ControllerRule>, now: nat): Check<Error> {
    if rules == [] then Pass
    else
      var owner := rules[0].controller;
      var first :=
        if owner.BnsName? then RequireActiveAuthoritySet(t, owner.name, now) else Success(EMPTY_AUTHORITY_SET);
      if first.Failure? then Fail(first.error) else CheckControllers(t, rules[1..], now)
  }

  predicate ValidRules(rules: seq<ControllerRule>) {
    forall r | r in rules :: r.controller.Valid() && !r.controller.Unset?
  }

  function OwnerEvent(n: Name, s: NameState): RegistryEvent {
    NameOwnerUpdated(n, s.semanticOwner, s.ownerSource, s.standardTransferEnabled, s.nameSeq)
  }

  // ----- registration -----

  /** The checks made before the transaction opens. */
  function CheckRegistrationRequest(
    n: Name, assetOwner: string, options: RegisterOptions, documents: seq<DocumentUpdate>): Check<Error>
  {
    if !RegisterableDepth(n) then Fail(InvalidName)
    else if assetOwner == "" || options.duration == 0 then Fail(InvalidMutation)
    else if !ValidSemanticOwner(options.initialSemanticOwner) then Fail(InvalidPrincipal)
    else Need(forall u | u in documents :: u.expectedVersion == 0, StaleDocumentVersion)
  }

  /** A released name can be registered again; any other stored status blocks registration. */
  function CheckRegistration(
    t: Tables, n: Name, authority: CallAuthority, guard: MutationGuard, now: nat): Check<Error>
  {
    if n in t.names && t.names[n].status in {Active, Expired, Tombstoned} then Fail(NameAlreadyExists)
    else if n.Top? then Need(authority.role == PublicRole, InvalidMutation)
    else match RequiredActiveName(t, n.parent, now)
      case Failure(e) => Fail(e)
      case Success(p) =>
        if guard.expectedParentNameSeq != p.nameSeq then Fail(StaleParentNameSeq)
        else AuthorizeOwner(t, n.parent, authority, now)
  }

  function FreshState(
    t: Tables, n: Name, assetOwner: string, options: RegisterOptions, now: nat): NameState
  {
    NameState(
      assetOwner, options.initialSemanticOwner, Unset, NoSource, false, Active,
      now, now + options.duration, now + options.duration + options.gracePeriod, now,
      if n in t.names then t.names[n].nameSeq + 1 else 1,
      0, 0, 0,
      if n in t.names then t.names[n].lineageEpoch + 1 else 0,
      options.renewable, options.transferable, options.allowDelegatedSubnames,
      options.initialNamespacePolicyHash, options.initialPaymentPolicyHash, ZeroHash)
  }

  /** The lineage reset, the new row and its event. */
  function RegisterRow(
    t: Tables, n: Name, assetOwner: string, options: RegisterOptions, now: nat): Result<Tables, Error>
  {
    var t1 := if n in t.names then ResetNameLineage(t, n) else t;
    :- ValidateSemanticOwnerTarget(t1, options.initialSemanticOwner, now);
    var s := FreshState(t, n, assetOwner, options, now);
    var t2 :- SaveOwnedName(t1, n, s, now);
    Success(AppendEvent(t2, NameRegistered(n, assetOwner, s.expireAt, s.lineageEpoch, s.nameSeq), now))
  }

  function RegisterName(
    t: Tables, n: Name, assetOwner: string, options: RegisterOptions, documents: seq<DocumentUpdate>,
    authority: CallAuthority, guard: MutationGuard, now: nat): Attempt
  {
    var request := CheckRegistrationRequest(n, assetOwner, options, documents);
    :- request;
    RegisterTx(t, n, assetOwner, options, documents, authority, guard, now)
  }

  function RegisterTx(
    t: Tables, n: Name, assetOwner: string, options: RegisterOptions, documents: seq<DocumentUpdate>,
    authority: CallAuthority, guard: MutationGuard, now: nat): Attempt
  {
    var request := CheckRegistration(t, n, authority, guard, now);
    :- request;
    var t1 :- RegisterRow(t, n, assetOwner, options, now);
    var t2 :- PublishAll(t1, n, documents, now);
    Success(Outcome(t2, FreshState(t, n, assetOwner, options, now).nameSeq))
  }

  /** Change the semantic owner of an active name. */
  function AssignOwner(t: Tables, n: Name, assetOwner: Option<string>, owner: Principal, now: nat): Result<Tables, Error> {
    var s :- RequiredActiveName(t, n, now);
    :- ValidateSemanticOwnerTarget(t, owner, now);
    SaveOwnedName(t, n, s.(
      assetOwner := assetOwner.GetOr(s.assetOwner),
      semanticOwner := owner, nameSeq := s.nameSeq + 1, updatedAt := now), now)
  }

  /** Bump the sequence number of an active name. */
  function BumpName(t: Tables, n: Name, now: nat): Result<Tables, Error> {
    var s :- RequiredActiveName(t, n, now);
    SaveName(t, n, s.(nameSeq := s.nameSeq + 1, updatedAt := now), now)
  }

  function InstallPolicy(t: Tables, n: Name, rules: seq<ControllerRule>, policyHash: Hash, now: nat): Attempt {
    var request := CheckControllers(t, rules, now);
    :- request;
    var t1 := t.(policies := t.policies[n := ControllerPolicy(rules, policyHash)]);
    var t2 :- BumpName(t1, n, now);
    var seq_ := t2.names[n].nameSeq;
    Success(Outcome(AppendEvent(t2, ControllerPolicyUpdated(n, policyHash, seq_), now), seq_))
  }

  function BootstrapName(
    t: Tables, n: Name, assetOwner: string, options: RegisterOptions, documents: seq<DocumentUpdate>,
    keyUpdates: seq<KeyUpdate>, ownerAfter: Option<Principal>, rules: seq<ControllerRule>, policyHash: Hash,
    authority: CallAuthority, guard: MutationGuard, now: nat): Attempt
  {
    var request := CheckRegistrationRequest(n, assetOwner, options, documents);
    :- request;
    :- Need(ownerAfter.Some? ==> ValidSemanticOwner(ownerAfter.value), InvalidPrincipal);
    :- Need(ValidRules(rules), InvalidPrincipal);
    var r :- RegisterTx(t, n, assetOwner, options, documents, authority, guard, now);
    BootstrapTail(r.tables, n, keyUpdates, ownerAfter, rules, policyHash, now)
  }

  /** What bootstrap adds to a registration: keys, then an owner that may need them, then the policy. */
  function BootstrapTail(
    t: Tables, n: Name, keyUpdates: seq<KeyUpdate>, ownerAfter: Option<Principal>,
    rules: seq<ControllerRule>, policyHash: Hash, now: nat): Attempt
  {
    var t1 :- ApplyKeyBatch(t, n, keyUpdates, now);
    var t2 :- BootstrapOwner(t1, n, ownerAfter, now);
    InstallPolicy(t2, n, rules, policyHash, now)
  }

  /** An empty batch of key updates writes nothing. */
  function ApplyKeyBatch(t: Tables, n: Name, keyUpdates: seq<KeyUpdate>, now: nat): Result<Tables, Error> {
    if keyUpdates == [] then Success(t) else ApplyAuthorityUpdates(t, n, keyUpdates, now)
  }

  function BootstrapOwner(t: Tables, n: Name, ownerAfter: Option<Principal>, now: nat): Result<Tables, Error> {
    match ownerAfter
    case None => Success(t)
    case Some(owner) =>
      var t1 :- AssignOwner(t, n, None, owner, now);
      Success(AppendEvent(t1, OwnerEvent(n, t1.names[n]), now))
  }

  // ----- life cycle -----

  /** Renewal extends the later of expiry and now; it does not look at the owner graph. */
  function RenewName(t: Tables, n: Name, duration: nat, now: nat): Attempt {
    var request := Need(duration > 0, InvalidMutation);
    :- request;
    :- Need(n in t.names, NameNotFound);
    :- Need(t.names[n].renewable && t.names[n].status !in {Released, Tombstoned}, InvalidMutation);
    var s := RenewedState(t.names[n], duration, now);
    var t1 :- SaveName(t, n, s, now);
    Success(Outcome(AppendEvent(t1, NameRenewed(n, s.expireAt, s.nameSeq), now), s.expireAt))
  }

  function RenewedState(s: NameState, duration: nat, now: nat): NameState {
    var grace := if s.graceUntil <= s.expireAt then 0 else s.graceUntil - s.expireAt;
    var expireAt := (if s.expireAt <= now then now else s.expireAt) + duration;
    s.(status := if s.status == Expired then Active else s.status,
       expireAt := expireAt, graceUntil := expireAt + grace, updatedAt := now, nameSeq := s.nameSeq + 1)
  }

  function TransferName(
    t: Tables, n: Name, newAssetOwner: string, owner: Principal, documents: seq<DocumentUpdate>,
    authority: CallAuthority, guard: MutationGuard, now: nat): Attempt
  {
    var request := Need(newAssetOwner != "", InvalidMutation);
    :- request;
    :- Need(ValidSemanticOwner(owner), InvalidPrincipal);
    var s :- RequiredActiveName(t, n, now);
    :- CheckGuard(s, guard);
    :- AuthorizeOwner(t, n, authority, now);
    var t1 :- TransferRow(t, n, newAssetOwner, owner, s.assetOwner, now);
    var t2 :- PublishAll(t1, n, documents, now);
    Success(Outcome(t2, s.nameSeq + 1))
  }

  /** The new asset owner and semantic owner, with both events. */
  function TransferRow(
    t: Tables, n: Name, newAssetOwner: string, owner: Principal, oldAssetOwner: string, now: nat): Result<Tables, Error>
  {
    var t1 :- AssignOwner(t, n, Some(newAssetOwner), owner, now);
    var s := t1.names[n];
    var t2 := AppendEvent(t1, NameAssetTransferred(n, oldAssetOwner, newAssetOwner, false, s.nameSeq), now);
    Success(AppendEvent(t2, OwnerEvent(n, s), now))
  }

  function StandardTransferName(t: Tables, n: Name, newAssetOwner: string, now: nat): Attempt {
    var request := Need(newAssetOwner != "", InvalidMutation);
    :- request;
    var s :- RequiredActiveName(t, n, now);
    :- Need(s.standardTransferEnabled, StandardTransferDisabled);
    var t1 :- SaveName(t, n, s.(assetOwner := newAssetOwner, nameSeq := s.nameSeq + 1, updatedAt := now), now);
    var event := NameAssetTransferred(n, s.assetOwner, newAssetOwner, true, s.nameSeq + 1);
    Success(Outcome(AppendEvent(t1, event, now), s.nameSeq + 1))
  }

  function SetNameOwner(
    t: Tables, n: Name, owner: Principal, authority: CallAuthority, guard: MutationGuard, now: nat): Attempt
  {
    var request := Need(ValidSemanticOwner(owner), InvalidPrincipal);
    :- request;
    var s :- RequiredActiveName(t, n, now);
    :- CheckGuard(s, guard);
    :- AuthorizeOwner(t, n, authority, now);
    var t1 :- AssignOwner(t, n, None, owner, now);
    Success(Outcome(AppendEvent(t1, OwnerEvent(n, t1.names[n]), now), s.nameSeq + 1))
  }

  function ReleasedStatus(mode: ReleaseMode): NameStatus {
    match mode case ReleaseAfterGrace => Released case TombstoneForever => Tombstoned
  }

  function ReleaseName(
    t: Tables, n: Name, mode: ReleaseMode, reasonHash: Hash,
    authority: CallAuthority, guard: MutationGuard, now: nat): Attempt
  {
    var s :- RequiredActiveName(t, n, now);
    :- CheckGuard(s, guard);
    :- AuthorizeOwner(t, n, authority, now);
    var s1 := s.(status := ReleasedStatus(mode), nameSeq := s.nameSeq + 1, updatedAt := now);
    var t1 :- SaveOwnedName(t, n, s1, now);
    Success(Outcome(AppendEvent(t1, NameReleased(n, mode, reasonHash, s1.nameSeq), now), s1.nameSeq))
  }

  // ----- keys and documents -----

  function UpdateAuthorityKeys(
    t: Tables, n: Name, updates: seq<KeyUpdate>, authority: CallAuthority, guard: MutationGuard, now: nat): Attempt
  {
    var s :- RequiredActiveName(t, n, now);
    :- CheckGuard(s, guard);
    :- AuthorizeOwner(t, n, authority, now);
    var t1 :- ApplyAuthorityUpdates(t, n, updates, now);
    Success(Outcome(t1, t1.sets[n].authoritySeq))
  }

  predicate DistinctDocTypes(documents: seq<DocumentUpdate>) {
    forall i, j | 0 <= i < j < |documents| :: documents[i].docType != documents[j].docType
  }

  function AuthorizeBatch(
    t: Tables, n: Name, keyUpdates: seq<KeyUpdate>, documents: seq<DocumentUpdate>,
    policy: OwnerPolicyUpdate, authority: CallAuthority, now: nat): Check<Error>
  {
    var ownerOnly :=
      keyUpdates != [] || policy.RaiseIatFloor? || exists u | u in documents :: u.docType == OWNER_DOC_TYPE;
    if ownerOnly then AuthorizeOwner(t, n, authority, now)
    else AuthorizeAll(t, n, documents, authority, now)
  }

  function AuthorizeAll(
    t: Tables, n: Name, documents: seq<DocumentUpdate>, authority: CallAuthority, now: nat): Check<Error>
  {
    if documents == [] then Pass
    else
      var first := AuthorizeUpdate(t, n, documents[0].docType, PERMISSION_PUBLISH_DOCUMENT, authority, now);
      if first.Fail? then first else AuthorizeAll(t, n, documents[1..], authority, now)
  }

  /** Keys, then one sequence bump, then documents, then the iat floor. */
  function ApplyMutations(
    t: Tables, n: Name, keyUpdates: seq<KeyUpdate>, documents: seq<DocumentUpdate>,
    policy: OwnerPolicyUpdate, authority: CallAuthority, guard: MutationGuard, now: nat): Attempt
  {
    var request := Need(keyUpdates != [] || documents != [] || policy.RaiseIatFloor?, InvalidMutation);
    :- request;
    :- Need(DistinctDocTypes(documents), InvalidMutation);
    var s :- RequiredActiveName(t, n, now);
    :- CheckGuard(s, guard);
    :- AuthorizeBatch(t, n, keyUpdates, documents, policy, authority, now);
    var t1 :- ApplyKeyBatch(t, n, keyUpdates, now);
    var t2 :-
      if documents == [] && policy.KeepPolicy? then Success(t1) else MutateRows(t1, n, documents, policy, now);
    var last :- RequiredActiveName(t2, n, now);
    Success(Outcome(t2, last.nameSeq))
  }

  function MutateRows(
    t: Tables, n: Name, documents: seq<DocumentUpdate>, policy: OwnerPolicyUpdate, now: nat): Result<Tables, Error>
  {
    var t1 :- BumpName(t, n, now);
    var t2 :- PublishAll(t1, n, documents, now);
    match policy
    case KeepPolicy => Success(t2)
    case RaiseIatFloor(iat, reason) =>
      var r :- RaiseMinDocumentIat(t2, n, iat, reason, false, now);
      Success(r.tables)
  }

  function RotateAuthorityAndOwnerDocument(
    t: Tables, n: Name, updates: seq<KeyUpdate>, document: DocumentUpdate,
    authority: CallAuthority, guard: MutationGuard, now: nat): Attempt
  {
    var request := Need(document.docType == OWNER_DOC_TYPE, InvalidMutation);
    :- request;
    var s :- RequiredActiveName(t, n, now);
    :- CheckGuard(s, guard);
    :- AuthorizeOwner(t, n, authority, now);
    var t1 :- ApplyAuthorityUpdates(t, n, updates, now);
    PublishInternal(t1, n, document, true, now)
  }

  function PublishDocument(
    t: Tables, n: Name, document: DocumentUpdate, authority: CallAuthority, guard: MutationGuard, now: nat): Attempt
  {
    var s :- RequiredActiveName(t, n, now);
    :- CheckGuard(s, guard);
    :- AuthorizeUpdate(t, n, document.docType, PERMISSION_PUBLISH_DOCUMENT, authority, now);
    PublishInternal(t, n, document, true, now)
  }

  /** Revocation publishes one more version, with revoked status. */
  function RevokeDocument(
    t: Tables, n: Name, ty: DocType, expectedVersion: nat, reasonHash: Hash,
    authority: CallAuthority, guard: MutationGuard, now: nat): Attempt
  {
    var s :- RequiredActiveName(t, n, now);
    :- CheckGuard(s, guard);
    :- AuthorizeUpdate(t, n, ty, PERMISSION_REVOKE_DOCUMENT, authority, now);
    RevokeInternal(t, n, s, ty, expectedVersion, reasonHash, now)
  }

  function RevokeInternal(
    t: Tables, n: Name, s: NameState, ty: DocType, expectedVersion: nat, reasonHash: Hash, now: nat): Attempt
  {
    var actual := CurrentVersion(t.documents, n, ty);
    :- Need(actual == expectedVersion, StaleDocumentVersion);
    var key := DocumentKey(n, ty, LatestVersion(t.documents, n, ty) + 1);
    var t1 := t.(documents := PutDocument(t.documents, key, SealDocument(key, RevokedDocument(actual, now))));
    var s1 := WithDocumentVersion(s, ty, key.version).(nameSeq := s.nameSeq + 1, updatedAt := now);
    var t2 :- SaveName(t1, n, s1, now);
    Success(Outcome(AppendEvent(t2, DocumentRevoked(n, ty, key.version, actual, reasonHash), now), key.version))
  }

  function SetMinDocumentIat(
    t: Tables, n: Name, minDocumentIat: nat, reasonHash: Hash,
    authority: CallAuthority, guard: MutationGuard, now: nat): Attempt
  {
    var s :- RequiredActiveName(t, n, now);
    :- CheckGuard(s, guard);
    :- AuthorizeOwner(t, n, authority, now);
    RaiseMinDocumentIat(t, n, minDocumentIat, reasonHash, true, now)
  }

  /** Rewrite the payment fields of the current version in place. */
  function SetPaymentTarget(
    t: Tables, n: Name, ty: DocType, expectedVersion: nat, paymentTarget: string, beneficiary: Principal,
    payment: Hash, split: Hash, price: Hash, rights: Hash,
    authority: CallAuthority, guard: MutationGuard, now: nat): Attempt
  {
    var request := Need(beneficiary.Valid(), InvalidPrincipal);
    :- request;
    var s :- RequiredActiveName(t, n, now);
    :- CheckGuard(s, guard);
    :- AuthorizeUpdate(t, n, ty, PERMISSION_SET_PAYMENT, authority, now);
    PaymentInternal(t, n, s, ty, expectedVersion, paymentTarget, beneficiary, payment, split, price, rights, now)
  }

  function PaymentInternal(
    t: Tables, n: Name, s: NameState, ty: DocType, expectedVersion: nat, paymentTarget: string,
    beneficiary: Principal, payment: Hash, split: Hash, price: Hash, rights: Hash, now: nat): Attempt
  {
    var key := DocumentKey(n, ty, CurrentVersion(t.documents, n, ty));
    :- Need(key in t.documents && t.documents[key].current, DocumentNotFound);
    :- Need(key.version == expectedVersion, StaleDocumentVersion);
    var was := t.documents[key].state;
    var d := SealDocument(key, was.(
      paymentTarget := paymentTarget, beneficiary := beneficiary,
      policies := DocumentPolicies(was.policies.controller, payment, split, price, rights)));
    var t1 := t.(documents := PutDocument(t.documents, key, d));
    var t2 :- SaveName(t1, n, s.(paymentPolicyHash := payment, nameSeq := s.nameSeq + 1, updatedAt := now), now);
    Success(Outcome(AppendEvent(t2, PaymentTargetUpdated(n, ty, key.version, paymentTarget, payment), now), key.version))
  }

  // ----- single-row settings -----

  function SetNamespacePolicy(
    t: Tables, n: Name, allow: bool, policyHash: Hash, authority: CallAuthority, guard: MutationGuard, now: nat): Attempt
  {
    var s :- RequiredActiveName(t, n, now);
    :- CheckGuard(s, guard);
    :- AuthorizeUpdate(t, n, "", PERMISSION_SET_NAMESPACE, authority, now);
    var s1 := s.(allowDelegatedSubnames := allow, namespacePolicyHash := policyHash,
                 nameSeq := s.nameSeq + 1, updatedAt := now);
    var t1 :- SaveName(t, n, s1, now);
    Success(Outcome(AppendEvent(t1, NamespacePolicyUpdated(n, allow, policyHash, s1.nameSeq), now), s1.nameSeq))
  }

  function SetControllerPolicy(
    t: Tables, n: Name, rules: seq<ControllerRule>, policyHash: Hash,
    authority: CallAuthority, guard: MutationGuard, now: nat): Attempt
  {
    var request := Need(ValidRules(rules), InvalidPrincipal);
    :- request;
    var s :- RequiredActiveName(t, n, now);
    :- CheckGuard(s, guard);
    :- AuthorizeOwner(t, n, authority, now);
    InstallPolicy(t, n, rules, policyHash, now)
  }

  function SetDidAlias(
    t: Tables, n: Name, targetDid: string, kind: AliasKind, proofHash: Hash,
    authority: CallAuthority, guard: MutationGuard, now: nat): Attempt
  {
    var s :- RequiredActiveName(t, n, now);
    :- CheckGuard(s, guard);
    :- AuthorizeUpdate(t, n, "", PERMISSION_SET_ALIAS, authority, now);
    var s1 := s.(aliasStateHash := proofHash, nameSeq := s.nameSeq + 1, updatedAt := now);
    var t1 :- SaveName(t, n, s1, now);
    var t2 := t1.(aliases := t1.aliases[n := AliasState(kind, targetDid, proofHash, now, s1.nameSeq)]);
    Success(Outcome(AppendEvent(t2, DidAliasSet(n, targetDid, kind, proofHash, s1.nameSeq), now), s1.nameSeq))
  }

  function PublishLogCheckpoint(t: Tables, issuer: Principal, externalAnchor: Hash, now: nat): Attempt {
    var request := Need(issuer.Valid(), InvalidPrincipal);
    :- request;
    var last := LatestSeq(t.events);
    var checkpoint := LogCheckpoint(RootAt(t.events, last), last, now, issuer, externalAnchor);
    var t1 := t.(checkpoints := t.checkpoints[last := checkpoint]);
    var event := LogCheckpointPublished(checkpoint.logRoot, last, now, externalAnchor);
    Success(Outcome(AppendEvent(t1, event, now), last))
  }

  // ----- all operations -----

  datatype Operation =
    | Register(name: Name, assetOwner: string, options: RegisterOptions, documents: seq<DocumentUpdate>,
               authority: CallAuthority, guard: MutationGuard)
    | Bootstrap(name: Name, assetOwner: string, options: RegisterOptions, documents: seq<DocumentUpdate>,
                keyUpdates: seq<KeyUpdate>, ownerAfter: Option<Principal>, rules: seq<ControllerRule>,
                policyHash: Hash, authority: CallAuthority, guard: MutationGuard)
    | Renew(name: Name, duration: nat)
    | Transfer(name: Name, assetOwner: string, owner: Principal, documents: seq<DocumentUpdate>,
               authority: CallAuthority, guard: MutationGuard)
    | StandardTransfer(name: Name, assetOwner: string)
    | SetOwner(name: Name, owner: Principal, authority: CallAuthority, guard: MutationGuard)
    | Release(name: Name, mode: ReleaseMode, reasonHash: Hash, authority: CallAuthority, guard: MutationGuard)
    | UpdateKeys(name: Name, keyUpdates: seq<KeyUpdate>, authority: CallAuthority, guard: MutationGuard)
    | Mutate(name: Name, keyUpdates: seq<KeyUpdate>, documents: seq<DocumentUpdate>,
             policy: OwnerPolicyUpdate, authority: CallAuthority, guard: MutationGuard)
    | Rotate(name: Name, keyUpdates: seq<KeyUpdate>, document: DocumentUpdate,
             authority: CallAuthority, guard: MutationGuard)
    | Publish(name: Name, document: DocumentUpdate, authority: CallAuthority, guard: MutationGuard)
    | Revoke(name: Name, docType: DocType, expectedVersion: nat, reasonHash: Hash,
             authority: CallAuthority, guard: MutationGuard)
    | SetMinIat(name: Name, minDocumentIat: nat, reasonHash: Hash, authority: CallAuthority, guard: MutationGuard)
    | SetPayment(name: Name, docType: DocType, expectedVersion: nat, paymentTarget: string,
                 beneficiary: Principal, payment: Hash, split: Hash, price: Hash, rights: Hash,
                 authority: CallAuthority, guard: MutationGuard)
    | SetNamespace(name: Name, allow: bool, policyHash: Hash, authority: CallAuthority, guard: MutationGuard)
    | SetPolicy(name: Name, rules: seq<ControllerRule>, policyHash: Hash,
                authority: CallAuthority, guard: MutationGuard)
    | SetAlias(name: Name, targetDid: string, kind: AliasKind, proofHash: Hash,
               authority: CallAuthority, guard: MutationGuard)
    | PublishCheckpoint(issuer: Principal, externalAnchor: Hash)

  /** One transaction at time `now`. */
  function Apply(t: Tables, op: Operation, now: nat): Attempt {
    match op
    case Register(n, assetOwner, options, documents, authority, guard) =>
      RegisterName(t, n, assetOwner, options, documents, authority, guard, now)
    case Bootstrap(n, assetOwner, options, documents, keyUpdates, ownerAfter, rules, policyHash, authority, guard) =>
      BootstrapName(t, n, assetOwner, options, documents, keyUpdates, ownerAfter, rules, policyHash, authority, guard, now)
    case Renew(n, duration) => RenewName(t, n, duration, now)
    case Transfer(n, assetOwner, owner, documents, authority, guard) =>
      TransferName(t, n, assetOwner, owner, documents, authority, guard, now)
    case StandardTransfer(n, assetOwner) => StandardTransferName(t, n, assetOwner, now)
    case SetOwner(n, owner, authority, guard) => SetNameOwner(t, n, owner, authority, guard, now)
    case Release(n, mode, reasonHash, authority, guard) => ReleaseName(t, n, mode, reasonHash, authority, guard, now)
    case UpdateKeys(n, keyUpdates, authority, guard) => UpdateAuthorityKeys(t, n, keyUpdates, authority, guard, now)
    case Mutate(n, keyUpdates, documents, policy, authority, guard) =>
      ApplyMutations(t, n, keyUpdates, documents, policy, authority, guard, now)
    case Rotate(n, keyUpdates, document, authority, guard) =>
      RotateAuthorityAndOwnerDocument(t, n, keyUpdates, document, authority, guard, now)
    case Publish(n, document, authority, guard) => PublishDocument(t, n, document, authority, guard, now)
    case Revoke(n, ty, expectedVersion, reasonHash, authority, guard) =>
      RevokeDocument(t, n, ty, expectedVersion, reasonHash, authority, guard, now)
    case SetMinIat(n, iat, reasonHash, authority, guard) => SetMinDocumentIat(t, n, iat, reasonHash, authority, guard, now)
    case SetPayment(n, ty, expectedVersion, target, beneficiary, payment, split, price, rights, authority, guard) =>
      SetPaymentTarget(t, n, ty, expectedVersion, target, beneficiary, payment, split, price, rights, authority, guard, now)
    case SetNamespace(n, allow, policyHash, authority, guard) =>
      SetNamespacePolicy(t, n, allow, policyHash, authority, guard, now)
    case SetPolicy(n, rules, policyHash, authority, guard) =>
      SetControllerPolicy(t, n, rules, policyHash, authority, guard, now)
    case SetAlias(n, did, kind, proofHash, authority, guard) =>
      SetDidAlias(t, n, did, kind, proofHash, authority, guard, now)
    case PublishCheckpoint(issuer, anchor) => PublishLogCheckpoint(t, issuer, anchor, now)
  }

  /** A failed transaction rolls back. */
  function Commit(t: Tables, op: Operation, now: nat): Tables {
    match Apply(t, op, now)
    case Success(o) => o.tables
    case Failure(_) => t
  }
}
