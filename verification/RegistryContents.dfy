/** Keys and documents: what a key batch leaves, what a new lineage starts with, and sealed documents. */
module RegistryContents {
  import opened Wrappers
  import opened BnsModel
  import opened RegistryTables
  import opened OwnerGraph
  import opened Ownership
  import opened RegistrySpec
  import opened RegistryRuns
  import opened Liveness
  import RowEffects

  // ----- authority keys -----

  /** The last update of the batch that names the key. */
  function LastUpdate(updates: seq<KeyUpdate>, kid: Kid): Option<KeyUpdate> {
    if updates == [] then None
    else if updates[|updates| - 1].kid == kid then Some(updates[|updates| - 1])
    else LastUpdate(updates[..|updates| - 1], kid)
  }

  /** The key itself: of the last activating update, else as stored before, else of the first update that names it. */
  function KeyData(keys: map<Kid, AuthorityKey>, updates: seq<KeyUpdate>, kid: Kid): Option<AuthorityKey> {
    if updates == [] then if kid in keys then Some(keys[kid]) else None
    else
      var u, before := updates[|updates| - 1], KeyData(keys, updates[..|updates| - 1], kid);
      if u.kid == kid && (u.active || before.None?) then Some(u.key) else before
  }

  /**
   * Keys that the batch does not name stay. Of the others the last update decides the status: revoked if it
   * deactivates, else as given, where a missing status means active.
   */
  lemma {:induction false} BatchLeaves(keys: map<Kid, AuthorityKey>, updates: seq<KeyUpdate>, kid: Kid)
    ensures var after := ApplyKeyUpdates(keys, updates);
      match LastUpdate(updates, kid)
      case None =>
        && (kid in after <==> kid in keys) && (kid in keys ==> after[kid] == keys[kid])
        && KeyData(keys, updates, kid) == if kid in keys then Some(keys[kid]) else None
      case Some(u) =>
        && kid in after && KeyData(keys, updates, kid).Some?
        && after[kid] == KeyData(keys, updates, kid).value.(
             status := if !u.active then KeyRevoked else if u.key.status == KeyMissing then KeyActive else u.key.status)
    ensures kid in ApplyKeyUpdates(keys, updates) <==> KeyData(keys, updates, kid).Some?
    decreases |updates|
  {
    if updates != [] {
      BatchLeaves(keys, updates[..|updates| - 1], kid);
    }
  }

  /**
   * After a committed key batch the authority set counts exactly the keys that are live for authentication now,
   * its sequence number moved by one, and its root commits to exactly these keys.
   */
  lemma KeysCounted(t: Tables, n: Name, updates: seq<KeyUpdate>, now: nat, u: Tables)
    requires ApplyAuthorityUpdates(t, n, updates, now) == Success(u)
    ensures n in u.sets
    ensures var live := set kid | kid in KeysOf(u, n) && LiveKey(KeysOf(u, n)[kid], now);
      && u.sets[n].activeKeyCount == |live|
      && (u.sets[n].root == ZeroHash <==> live == {})
      && (live != {} ==> u.sets[n].root == AuthorityRoot(map kid | kid in live :: KeysOf(u, n)[kid]))
    ensures u.sets[n].authoritySeq == AuthoritySetOf(t, n).authoritySeq + 1
    ensures KeysOf(u, n) == ApplyKeyUpdates(KeysOf(t, n), updates)
  {
    hide ApplyKeyUpdates, IsAuthorityOwner, AppendEvent;
    var keys := ApplyKeyUpdates(KeysOf(t, n), updates);
    UpdatesKeepKids(KeysOf(t, n), updates);
    assert KeysOf(u, n) == keys by {
      KeysStored(t, n, updates, now, u);
    }
    var active := ActiveKeys(keys, now);
    var live := set kid | kid in keys && LiveKey(keys[kid], now);
    assert active.Keys == live;
    KeysOfMap(active);
    assert active == map kid | kid in live :: keys[kid];
    SetStored(t, n, updates, now, u);
  }

  lemma KeysOfMap(m: map<Kid, AuthorityKey>)
    ensures |m| == |m.Keys| && (m == map[] <==> m.Keys == {})
  {
  }

  lemma {:induction false} UpdatesKeepKids(keys: map<Kid, AuthorityKey>, updates: seq<KeyUpdate>)
    ensures keys.Keys <= ApplyKeyUpdates(keys, updates).Keys
    decreases |updates|
  {
    if updates != [] {
      UpdatesKeepKids(keys, updates[..|updates| - 1]);
    }
  }

  lemma KeysStored(t: Tables, n: Name, updates: seq<KeyUpdate>, now: nat, u: Tables)
    requires ApplyAuthorityUpdates(t, n, updates, now) == Success(u)
    ensures KeysOf(u, n) == ApplyKeyUpdates(KeysOf(t, n), updates)
  {
    hide ApplyKeyUpdates, RecomputeAuthoritySet, IsAuthorityOwner;
    UpdatesKeepKids(KeysOf(t, n), updates);
  }

  lemma SetStored(t: Tables, n: Name, updates: seq<KeyUpdate>, now: nat, u: Tables)
    requires ApplyAuthorityUpdates(t, n, updates, now) == Success(u)
    ensures n in u.sets
    ensures u.sets[n] == RecomputeAuthoritySet(t, n, ApplyKeyUpdates(KeysOf(t, n), updates), now)
  {
    hide ApplyKeyUpdates, RecomputeAuthoritySet, IsAuthorityOwner;
  }

  // ----- a new lineage -----

  /** Keys, authority sets, policies, aliases and checkpoints are untouched. */
  predicate SameSides(t: Tables, u: Tables) {
    && u.keys == t.keys && u.sets == t.sets && u.policies == t.policies && u.aliases == t.aliases
    && u.checkpoints == t.checkpoints
  }

  lemma {:induction false} PublishAllKeepsSides(t: Tables, n: Name, updates: seq<DocumentUpdate>, now: nat)
    requires PublishAll(t, n, updates, now).Success?
    ensures SameSides(t, PublishAll(t, n, updates, now).value)
    decreases |updates|
  {
    hide PublishInternal;
    if updates != [] {
      var k := |updates| - 1;
      PublishAllKeepsSides(t, n, updates[..k], now);
      PublishKeepsSides(PublishAll(t, n, updates[..k], now).value, n, updates[k], now);
    }
  }

  lemma PublishKeepsSides(t: Tables, n: Name, u: DocumentUpdate, now: nat)
    requires PublishInternal(t, n, u, false, now).Success?
    ensures SameSides(t, PublishInternal(t, n, u, false, now).value.tables)
  {
    hide RequiredActiveName, MaterializeNameState, PutDocument, SealDocument, LatestVersion, CurrentVersion;
    hide WithDocumentVersion;
  }

  /** No keys, authority set, controller policy or alias. */
  predicate Bare(u: Tables, n: Name) {
    n !in u.keys && n !in u.sets && n !in u.policies && n !in u.aliases
  }

  lemma RegisterTxBare(t: Tables, op: Operation, now: nat, r: Attempt)
    requires (op.Register? || op.Bootstrap?) && op.name in t.names
    requires r == RegisterTx(t, op.name, op.assetOwner, op.options, op.documents, op.authority, op.guard, now)
    requires r.Success?
    ensures Bare(r.value.tables, op.name)
  {
    hide PublishAll, CheckRegistration, OwnerGraphOk, MaterializeNameState, ClearCurrentOfName;
    PublishAllKeepsSides(RegisterRow(t, op.name, op.assetOwner, op.options, now).value, op.name, op.documents, now);
  }

  /**
   * Registering a released name again leaves it without keys, authority set, controller policy and alias; a bootstrap
   * leaves exactly the keys and the policy it installs itself.
   */
  lemma LineageStartsOver(t: Tables, op: Operation, now: nat)
    requires (op.Register? || op.Bootstrap?) && op.name in t.names && Apply(t, op, now).Success?
    ensures var n, u := op.name, Apply(t, op, now).value.tables;
      && (op.Register? ==> Bare(u, n))
      && (op.Bootstrap? ==>
            && n !in u.aliases && n in u.policies && u.policies[n] == ControllerPolicy(op.rules, op.policyHash)
            && KeysOf(u, n) == ApplyKeyUpdates(map[], op.keyUpdates)
            && (n in u.sets <==> op.keyUpdates != []) && (n in u.sets ==> u.sets[n].authoritySeq == 1))
  {
    hide RegisterTx, BootstrapTail;
    var n := op.name;
    var r := RegisterTx(t, n, op.assetOwner, op.options, op.documents, op.authority, op.guard, now);
    RegisterTxBare(t, op, now, r);
    if op.Bootstrap? {
      TailOnBare(r.value.tables, op, now, Apply(t, op, now));
    }
  }

  /** What the keys and the owner of a bootstrap leave. */
  lemma KeysOnBare(t: Tables, n: Name, updates: seq<KeyUpdate>, now: nat, u: Tables)
    requires Bare(t, n) && ApplyKeyBatch(t, n, updates, now) == Success(u)
    ensures n !in u.aliases && KeysOf(u, n) == ApplyKeyUpdates(map[], updates)
    ensures (n in u.sets <==> updates != []) && (n in u.sets ==> u.sets[n].authoritySeq == 1)
  {
    hide ApplyAuthorityUpdates, ApplyKeyUpdates;
    if updates == [] {
      NoUpdates();
    } else {
      KeysStored(t, n, updates, now, u);
      SetStored(t, n, updates, now, u);
      KeysKeepAliases(t, n, updates, now);
    }
  }

  lemma TailOnBare(t: Tables, op: Operation, now: nat, r: Attempt)
    requires op.Bootstrap? && Bare(t, op.name) && r.Success?
    requires r == BootstrapTail(t, op.name, op.keyUpdates, op.ownerAfter, op.rules, op.policyHash, now)
    ensures var n, u := op.name, r.value.tables;
      && n !in u.aliases && n in u.policies && u.policies[n] == ControllerPolicy(op.rules, op.policyHash)
      && KeysOf(u, n) == ApplyKeyUpdates(map[], op.keyUpdates)
      && (n in u.sets <==> op.keyUpdates != []) && (n in u.sets ==> u.sets[n].authoritySeq == 1)
  {
    hide ApplyKeyBatch, ApplyKeyUpdates, AssignOwner, BumpName, CheckControllers;
    var n := op.name;
    var t1 := ApplyKeyBatch(t, n, op.keyUpdates, now).value;
    KeysOnBare(t, n, op.keyUpdates, now, t1);
    if op.ownerAfter.Some? {
      AssignKeepsSides(t1, n, op.ownerAfter.value, now);
    }
    var t2 := BootstrapOwner(t1, n, op.ownerAfter, now).value;
    BumpKeepsSides(t2.(policies := t2.policies[n := ControllerPolicy(op.rules, op.policyHash)]), n, now);
  }

  lemma NoUpdates()
    ensures ApplyKeyUpdates(map[], []) == map[]
  {
  }

  lemma KeysKeepAliases(t: Tables, n: Name, updates: seq<KeyUpdate>, now: nat)
    ensures ApplyAuthorityUpdates(t, n, updates, now).Success? ==>
      ApplyAuthorityUpdates(t, n, updates, now).value.aliases == t.aliases
  {
    hide ApplyKeyUpdates, RecomputeAuthoritySet, IsAuthorityOwner;
  }

  lemma AssignKeepsSides(t: Tables, n: Name, owner: Principal, now: nat)
    requires AssignOwner(t, n, None, owner, now).Success?
    ensures SameSides(t, AssignOwner(t, n, None, owner, now).value)
  {
    hide RequiredActiveName, MaterializeNameState, OwnerGraphOk, ValidateSemanticOwnerTarget;
  }

  lemma BumpKeepsSides(t: Tables, n: Name, now: nat)
    requires BumpName(t, n, now).Success?
    ensures SameSides(t, BumpName(t, n, now).value)
  {
    hide RequiredActiveName, MaterializeNameState;
  }

  // ----- sealed documents -----

  /** The state hash is the hash of the document under its own key. */
  predicate SealedAt(k: DocumentKey, d: DocumentState) {
    d.stateHash == DocumentHash(k, d.(stateHash := ZeroHash))
  }

  predicate Sealed(docs: DocumentTable) {
    forall k | k in docs :: SealedAt(k, docs[k].state)
  }

  lemma PutSealed(docs: DocumentTable, key: DocumentKey, d: DocumentState)
    requires Sealed(docs)
    ensures Sealed(PutDocument(docs, key, SealDocument(key, d)))
  {
  }

  lemma ClearSealed(docs: DocumentTable, n: Name)
    requires Sealed(docs)
    ensures Sealed(ClearCurrentOfName(docs, n))
  {
  }

  lemma PublishSealed(t: Tables, n: Name, u: DocumentUpdate, bump: bool, now: nat)
    requires Sealed(t.documents) && PublishInternal(t, n, u, bump, now).Success?
    ensures Sealed(PublishInternal(t, n, u, bump, now).value.tables.documents)
  {
    hide PublishInternal, Sealed;
    RowEffects.PublishStores(t, n, u, bump, now);
    var key := DocumentKey(n, u.docType, LatestVersion(t.documents, n, u.docType) + 1);
    PutSealed(t.documents, key, PublishedDocument(u, u.expectedVersion, now));
  }

  lemma {:induction false} PublishAllSealed(t: Tables, n: Name, updates: seq<DocumentUpdate>, now: nat)
    requires Sealed(t.documents) && PublishAll(t, n, updates, now).Success?
    ensures Sealed(PublishAll(t, n, updates, now).value.documents)
    decreases |updates|
  {
    hide PublishInternal, Sealed;
    if updates != [] {
      var k := |updates| - 1;
      PublishAllSealed(t, n, updates[..k], now);
      PublishSealed(PublishAll(t, n, updates[..k], now).value, n, updates[k], false, now);
    }
  }

  lemma RegisterSealed(
    t: Tables, n: Name, assetOwner: string, options: RegisterOptions, documents: seq<DocumentUpdate>,
    authority: CallAuthority, guard: MutationGuard, now: nat)
    requires Sealed(t.documents) && RegisterTx(t, n, assetOwner, options, documents, authority, guard, now).Success?
    ensures Sealed(RegisterTx(t, n, assetOwner, options, documents, authority, guard, now).value.tables.documents)
  {
    hide PublishAll, CheckRegistration, OwnerGraphOk, MaterializeNameState, ClearCurrentOfName, Sealed;
    ClearSealed(t.documents, n);
    PublishAllSealed(RegisterRow(t, n, assetOwner, options, now).value, n, documents, now);
  }

  lemma RevokeSealed(t: Tables, n: Name, s: NameState, ty: DocType, expected: nat, reason: Hash, now: nat)
    requires Sealed(t.documents) && RevokeInternal(t, n, s, ty, expected, reason, now).Success?
    ensures Sealed(RevokeInternal(t, n, s, ty, expected, reason, now).value.tables.documents)
  {
    hide MaterializeNameState, PutDocument, SealDocument, LatestVersion, CurrentVersion, Sealed, WithDocumentVersion;
    var key := DocumentKey(n, ty, LatestVersion(t.documents, n, ty) + 1);
    PutSealed(t.documents, key, RevokedDocument(CurrentVersion(t.documents, n, ty), now));
  }

  lemma PaymentSealed(
    t: Tables, n: Name, s: NameState, ty: DocType, expected: nat, target: string, beneficiary: Principal,
    payment: Hash, split: Hash, price: Hash, rights: Hash, now: nat, r: Attempt)
    requires Sealed(t.documents) && r.Success?
    requires r == PaymentInternal(t, n, s, ty, expected, target, beneficiary, payment, split, price, rights, now)
    ensures Sealed(r.value.tables.documents)
  {
    hide MaterializeNameState, PutDocument, CurrentVersion, Sealed;
    var key := DocumentKey(n, ty, CurrentVersion(t.documents, n, ty));
    var was := t.documents[key].state;
    var d := was.(paymentTarget := target, beneficiary := beneficiary,
                  policies := DocumentPolicies(was.policies.controller, payment, split, price, rights));
    PutSealed(t.documents, key, d);
  }

  lemma MutateRowsSealed(t: Tables, n: Name, documents: seq<DocumentUpdate>, policy: OwnerPolicyUpdate, now: nat)
    requires Sealed(t.documents) && MutateRows(t, n, documents, policy, now).Success?
    ensures Sealed(MutateRows(t, n, documents, policy, now).value.documents)
  {
    hide PublishAll, RequiredActiveName, MaterializeNameState, Sealed;
    var t1 := BumpName(t, n, now).value;
    PublishAllSealed(t1, n, documents, now);
  }

  /** Operations that store documents. */
  predicate StoresDocuments(op: Operation) {
    op.Register? || op.Bootstrap? || op.Transfer? || op.Mutate? || op.Rotate? || op.Publish? || op.Revoke? || op.SetPayment?
  }

  lemma PolicyKeepsDocuments(t: Tables, n: Name, rules: seq<ControllerRule>, policyHash: Hash, now: nat)
    ensures InstallPolicy(t, n, rules, policyHash, now).Success? ==>
      InstallPolicy(t, n, rules, policyHash, now).value.tables.documents == t.documents
  {
    hide RequiredActiveName, MaterializeNameState, CheckControllers;
  }

  lemma SavesKeepDocuments(t: Tables, n: Name, now: nat)
    ensures forall s | SaveName(t, n, s, now).Success? :: SaveName(t, n, s, now).value.documents == t.documents
  {
    hide MaterializeNameState;
  }

  lemma OthersKeepDocuments(t: Tables, op: Operation, now: nat)
    requires !StoresDocuments(op) && Apply(t, op, now).Success?
    ensures Apply(t, op, now).value.tables.documents == t.documents
  {
    hide RequiredActiveName, SaveName, AuthorizeOwner, AuthorizeUpdate, RenewedState;
    hide AssignOwner, ApplyAuthorityUpdates, InstallPolicy, OwnerGraphOk;
    if !op.PublishCheckpoint? {
      SavesKeepDocuments(t, op.name, now);
    }
    match op
    case SetOwner(n, owner, _, _) => RowEffects.AssignKeepsDocuments(t, n, None, owner, now);
    case UpdateKeys(n, updates, _, _) => RowEffects.KeysKeepRows(t, n, updates, now);
    case SetPolicy(n, rules, policyHash, _, _) => PolicyKeepsDocuments(t, n, rules, policyHash, now);
    case _ =>
  }

  lemma BootstrapTailKeepsDocuments(
    t: Tables, n: Name, keyUpdates: seq<KeyUpdate>, ownerAfter: Option<Principal>,
    rules: seq<ControllerRule>, policyHash: Hash, now: nat)
    requires BootstrapTail(t, n, keyUpdates, ownerAfter, rules, policyHash, now).Success?
    ensures BootstrapTail(t, n, keyUpdates, ownerAfter, rules, policyHash, now).value.tables.documents == t.documents
  {
    hide AssignOwner, ApplyAuthorityUpdates, InstallPolicy;
    RowEffects.KeysKeepRows(t, n, keyUpdates, now);
    var t1 := ApplyKeyBatch(t, n, keyUpdates, now).value;
    if ownerAfter.Some? {
      RowEffects.AssignKeepsDocuments(t1, n, None, ownerAfter.value, now);
    }
    PolicyKeepsDocuments(BootstrapOwner(t1, n, ownerAfter, now).value, n, rules, policyHash, now);
  }

  lemma DocumentsStaySealed(t: Tables, op: Operation, now: nat)
    requires StoresDocuments(op) && Sealed(t.documents) && Apply(t, op, now).Success?
    ensures Sealed(Apply(t, op, now).value.tables.documents)
  {
    hide Sealed, RegisterTx, BootstrapTail, PublishAll, PublishInternal, RevokeInternal, PaymentInternal, MutateRows;
    hide RequiredActiveName, AuthorizeOwner, AuthorizeUpdate, AuthorizeBatch, AssignOwner, ApplyAuthorityUpdates;
    hide CheckRegistrationRequest, ValidRules, DistinctDocTypes;
    match op
    case Register(n, assetOwner, options, documents, authority, guard) =>
      RegisterSealed(t, n, assetOwner, options, documents, authority, guard, now);
    case Bootstrap(n, assetOwner, options, documents, keyUpdates, ownerAfter, rules, policyHash, authority, guard) =>
      RegisterSealed(t, n, assetOwner, options, documents, authority, guard, now);
      var r := RegisterTx(t, n, assetOwner, options, documents, authority, guard, now);
      BootstrapTailKeepsDocuments(r.value.tables, n, keyUpdates, ownerAfter, rules, policyHash, now);
    case Transfer(n, assetOwner, owner, documents, _, _) =>
      var was := RequiredActiveName(t, n, now).value.assetOwner;
      RowEffects.AssignKeepsDocuments(t, n, Some(assetOwner), owner, now);
      PublishAllSealed(TransferRow(t, n, assetOwner, owner, was, now).value, n, documents, now);
    case Mutate(n, keyUpdates, documents, policy, _, _) =>
      RowEffects.KeysKeepRows(t, n, keyUpdates, now);
      if documents != [] || policy.RaiseIatFloor? {
        MutateRowsSealed(ApplyKeyBatch(t, n, keyUpdates, now).value, n, documents, policy, now);
      }
    case Rotate(n, updates, document, _, _) =>
      RowEffects.KeysKeepRows(t, n, updates, now);
      PublishSealed(ApplyAuthorityUpdates(t, n, updates, now).value, n, document, true, now);
    case Publish(n, document, _, _) => PublishSealed(t, n, document, true, now);
    case Revoke(n, ty, expected, reason, _, _) =>
      RevokeSealed(t, n, RequiredActiveName(t, n, now).value, ty, expected, reason, now);
    case SetPayment(n, ty, expected, target, beneficiary, payment, split, price, rights, _, _) =>
      PaymentSealed(t, n, RequiredActiveName(t, n, now).value, ty, expected, target, beneficiary,
                    payment, split, price, rights, now, Apply(t, op, now));
  }

  /** In every reachable state the state hash of every document version is the hash of what is stored. */
  lemma {:induction false} DocumentsSealed(txs: seq<Tx>)
    ensures Sealed(Run(txs).documents)
    decreases |txs|
  {
    hide Apply, Sealed;
    if txs == [] {
      NothingSealed();
    } else {
      var k := |txs| - 1;
      var t := Run(txs[..k]);
      DocumentsSealed(txs[..k]);
      if Apply(t, txs[k].op, txs[k].now).Success? {
        if StoresDocuments(txs[k].op) {
          DocumentsStaySealed(t, txs[k].op, txs[k].now);
        } else {
          OthersKeepDocuments(t, txs[k].op, txs[k].now);
        }
      }
    }
  }

  lemma NothingSealed()
    ensures Sealed(EMPTY_TABLES.documents)
  {
  }
}
