/** The registry's records: names, principals, rows, events and symbolic hashes. */
module BnsModel {

  /** A canonical name as its labels, leftmost first; the parent drops the leftmost label. */
  datatype Name = Top(first: string) | Sub(first: string, parent: Name)

  type Kid = string
  type DocType = string
  type Bits = set<nat>  // a u32 mask as the set of its one-bits

  const OWNER_DOC_TYPE: DocType := "owner"
  const MAX_OWNER_REF_DEPTH: nat := 8
  const KEY_PURPOSE_AUTHENTICATION: nat := 0
  const PERMISSION_PUBLISH_DOCUMENT: nat := 0
  const PERMISSION_REVOKE_DOCUMENT: nat := 1
  const PERMISSION_SET_PAYMENT: nat := 2
  const PERMISSION_SET_ALIAS: nat := 3
  const PERMISSION_SET_NAMESPACE: nat := 4

  /** The registry accepts first-level and second-level names only. */
  predicate RegisterableDepth(n: Name) {
    n.Top? || n.parent.Top?
  }

  datatype NameStatus = Available | Active | Expired | Released | Tombstoned
  datatype DocumentStatus = DocActive | DocRevoked
  datatype KeyStatus = KeyMissing | KeyActive | KeyRevoked | KeyExpired
  datatype OwnerSource = NoSource | AssetOwnerFallback | ExplicitSemanticOwner | ParentInherited
  datatype Role = PublicRole | OwnerRole | ControllerRole
  datatype ReleaseMode = ReleaseAfterGrace | TombstoneForever
  datatype AliasKind = NoAlias | Alias | MigratedTo | Canonical

  datatype Principal = Unset | ChainAccount(account: string) | BnsName(name: Name) {
    predicate Valid() {
      ChainAccount? ==> account != ""
    }
  }

  /** A semantic owner is unset or a BNS name, never a chain account. */
  predicate ValidSemanticOwner(owner: Principal) {
    !owner.ChainAccount?
  }

  /** Collision-free hashing: equal hashes have equal arguments. */
  datatype Hash =
    | ZeroHash
    | Digest(text: string)
    | EventHash(seq_: nat, previous: Hash, event: RegistryEvent)
    | ProjectedHash(seq_: nat, eventType: Hash, previous: Hash, root: Hash, event: RegistryEvent)
    | LogRoot(previousRoot: Hash, eventHash: Hash)
    | DocumentHash(key: DocumentKey, document: DocumentState)
    | AuthorityRoot(keys: map<Kid, AuthorityKey>)

  datatype CallAuthority = CallAuthority(role: Role, actor: Principal, kid: Kid)
  datatype MutationGuard = MutationGuard(expectedNameSeq: nat, expectedParentNameSeq: nat)

  datatype AuthorityKey = AuthorityKey(
    verificationMethod: string, keyData: seq<nat>, purposes: Bits,
    validFrom: nat, validUntil: nat, status: KeyStatus, metadataHash: Hash)
  {
    predicate ActiveFor(purpose: nat, now: nat) {
      && status == KeyActive
      && purpose in purposes
      && validFrom <= now
      && (validUntil == 0 || now < validUntil)
    }
  }

  datatype KeyUpdate = KeyUpdate(kid: Kid, key: AuthorityKey, active: bool)

  datatype AuthoritySet = AuthoritySet(authoritySeq: nat, root: Hash, activeKeyCount: nat)

  const EMPTY_AUTHORITY_SET := AuthoritySet(0, ZeroHash, 0)

  datatype NameState = NameState(
    assetOwner: string, semanticOwner: Principal, effectiveOwner: Principal,
    ownerSource: OwnerSource, standardTransferEnabled: bool, status: NameStatus,
    registeredAt: nat, expireAt: nat, graceUntil: nat, updatedAt: nat,
    nameSeq: nat, ownerDocumentVersion: nat, minDocumentIat: nat, ownerPolicySeq: nat,
    lineageEpoch: nat, renewable: bool, transferable: bool, allowDelegatedSubnames: bool,
    namespacePolicyHash: Hash, paymentPolicyHash: Hash, aliasStateHash: Hash)
  {
    /** Expiry is derived from the clock; no event fires when a name runs out. */
    function EffectiveStatusAt(now: nat): NameStatus {
      if status == Active && expireAt != 0 && now >= expireAt then Expired else status
    }

    predicate ActiveAt(now: nat) {
      EffectiveStatusAt(now) == Active
    }

    function MaterializeStatusAt(now: nat): NameState {
      var s := this.(status := EffectiveStatusAt(now));
      if s.status != Active then s.(standardTransferEnabled := false) else s
    }
  }

  datatype DocumentKey = DocumentKey(name: Name, docType: DocType, version: nat)

  datatype DocumentRef = DocumentRef(
    storageType: string, uri: string, inlineDocument: seq<nat>, contentHash: Hash)

  datatype DocumentPolicies = DocumentPolicies(
    controller: Hash, payment: Hash, split: Hash, price: Hash, rights: Hash)

  const ZERO_POLICIES := DocumentPolicies(ZeroHash, ZeroHash, ZeroHash, ZeroHash, ZeroHash)

  datatype DocumentState = DocumentState(
    previousVersion: nat, status: DocumentStatus, document: DocumentRef,
    controller: Principal, beneficiary: Principal, paymentTarget: string,
    validFrom: nat, expireAt: nat, revokedAt: nat,
    policies: DocumentPolicies, stateHash: Hash)

  datatype DocumentUpdate = DocumentUpdate(
    docType: DocType, expectedVersion: nat, document: DocumentRef,
    controller: Principal, beneficiary: Principal, paymentTarget: string,
    expireAt: nat, policies: DocumentPolicies)

  datatype ControllerRule = ControllerRule(
    controller: Principal, docType: DocType, permissions: Bits, validFrom: nat, validUntil: nat)
  {
    predicate Permits(actor: Principal, ty: DocType, permission: nat, now: nat) {
      && controller == actor
      && (docType == "" || docType == ty)
      && permission in permissions
      && validFrom <= now
      && (validUntil == 0 || now < validUntil)
    }
  }

  datatype ControllerPolicy = ControllerPolicy(rules: seq<ControllerRule>, policyHash: Hash)

  datatype AliasState = AliasState(
    kind: AliasKind, targetDid: string, proofHash: Hash, setAt: nat, nameSeq: nat)

  datatype RegisterOptions = RegisterOptions(
    duration: nat, gracePeriod: nat, renewable: bool, transferable: bool,
    initialSemanticOwner: Principal, allowDelegatedSubnames: bool,
    initialPaymentPolicyHash: Hash, initialNamespacePolicyHash: Hash)

  datatype OwnerPolicyUpdate = KeepPolicy | RaiseIatFloor(minDocumentIat: nat, reasonHash: Hash)

  datatype OwnerResolution = OwnerResolution(
    effectiveOwner: Principal, source: OwnerSource, authorityRoot: Hash, authoritySeq: nat)

  datatype LogCheckpoint = LogCheckpoint(
    logRoot: Hash, lastSeq: nat, issuedAt: nat, issuer: Principal, externalAnchor: Hash)

  datatype RegistryEvent =
    | NameRegistered(name: Name, assetOwner: string, expireAt: nat, lineageEpoch: nat, nameSeq: nat)
    | NameRenewed(name: Name, expireAt: nat, nameSeq: nat)
    | NameAssetTransferred(name: Name, oldAssetOwner: string, newAssetOwner: string, standardTransfer: bool, nameSeq: nat)
    | NameOwnerUpdated(name: Name, owner: Principal, ownerSource: OwnerSource, standardTransferEnabled: bool, nameSeq: nat)
    | AuthorityKeysUpdated(name: Name, authoritySeq: nat, authorityRoot: Hash)
    | NameReleased(name: Name, mode: ReleaseMode, reasonHash: Hash, nameSeq: nat)
    | DocumentPublished(name: Name, docType: DocType, version: nat, contentHash: Hash, stateHash: Hash)
    | DocumentRevoked(name: Name, docType: DocType, version: nat, previousVersion: nat, reasonHash: Hash)
    | OwnerDocumentIatFloorUpdated(name: Name, previousMin: nat, newMin: nat, ownerPolicySeq: nat, nameSeq: nat, reasonHash: Hash)
    | ControllerPolicyUpdated(name: Name, policyHash: Hash, nameSeq: nat)
    | NamespacePolicyUpdated(name: Name, allowDelegatedSubnames: bool, namespacePolicyHash: Hash, nameSeq: nat)
    | DidAliasSet(name: Name, targetDid: string, kind: AliasKind, proofHash: Hash, nameSeq: nat)
    | PaymentTargetUpdated(name: Name, docType: DocType, version: nat, paymentTarget: string, paymentPolicyHash: Hash)
    | LogCheckpointPublished(logRoot: Hash, lastSeq: nat, issuedAt: nat, externalAnchor: Hash)

  datatype EventRecord = EventRecord(
    seq_: nat, observedAt: nat, eventHash: Hash, previousLogRoot: Hash, logRoot: Hash,
    event: RegistryEvent)

  datatype Error =
    | NameAlreadyExists | NameNotFound | InvalidName | InvalidMutation | InvalidPrincipal | InvalidKid
    | StaleNameSeq | StaleParentNameSeq | StaleDocumentVersion | DocumentNotFound
    | NotEffectiveOwner | ControllerScopeDenied | StandardTransferDisabled
    | NoConcreteSigner | OwnerGraphCycle | OwnerGraphTooDeep
    | OwnerGraphRejected  // one of the owner-graph errors; which one depends on the order of iteration
    | UnsupportedOperation
}
