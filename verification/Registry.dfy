/** The registry object: every mutation as a transaction on the store, rolled back when it fails. */
module Registry {
  import opened Wrappers
  import opened BnsModel
  import opened RegistryTables
  import opened OwnerGraph
  import opened Ownership
  import Spec = RegistrySpec
  import opened RegistryStore
  import opened RegistryRuns
  import RegistryContents
  import RowEffects
  import RegistrationConditions
  import RegistrationTables

  type Operation = Spec.Operation

  const OWNER_GRAPH_ERRORS := {OwnerGraphCycle, OwnerGraphTooDeep, NameNotFound, NoConcreteSigner}

  /** The specification does not fix which owner-graph error is met first. */
  predicate ErrorAgrees(e: Error, spec: Error) {
    e == spec || (spec == OwnerGraphRejected && e in OWNER_GRAPH_ERRORS)
  }

  /** A step agrees with its specification; when it fails, the tables may be half written. */
  predicate Did(r: Check<Error>, after: Tables, spec: Result<Tables, Error>) {
    match spec
    case Success(t) => r.Pass? && after == t
    case Failure(e) => r.Fail? && ErrorAgrees(r.error, e)
  }

  predicate Replied(r: Result<nat, Error>, after: Tables, spec: Spec.Attempt) {
    match spec
    case Success(o) => r == Success(o.reply) && after == o.tables
    case Failure(e) => r.Failure? && ErrorAgrees(r.error, e)
  }

  predicate LifeCycle(op: Operation) {
    op.Register? || op.Bootstrap? || op.Renew? || op.Transfer? || op.StandardTransfer? || op.SetOwner? || op.Release?
  }

  function RowOf(table: map<Name, map<Kid, AuthorityKey>>, n: Name): map<Kid, AuthorityKey> {
    if n in table then table[n] else map[]
  }

  /** One more key row on top of those already written. */
  lemma PutOneKey(
    table: map<Name, map<Kid, AuthorityKey>>, n: Name, written: map<Kid, AuthorityKey>, kid: Kid, key: AuthorityKey)
    requires RowOf(table, n).Keys <= written.Keys
    ensures StoredKeys(table, n, written)[n := RowOf(StoredKeys(table, n, written), n)[kid := key]]
         == StoredKeys(table, n, written[kid := key])
  {
    assert kid in written[kid := key];
    if written == map[] {
      assert RowOf(table, n) == map[];
    }
  }

  /** Check every active name of the table; the order is arbitrary. */
  method ValidateOwnerGraph(names: Names, sets: Sets, now: nat) returns (r: Check<Error>)
    ensures r.Pass? <==> OwnerGraphOk(names, sets, now)
    ensures r.Fail? ==> r.error in OWNER_GRAPH_ERRORS
  {
    var todo := names.Keys;
    while todo != {}
      invariant todo <= names.Keys
      invariant forall n | n in names.Keys - todo && names[n].ActiveAt(now) ::
        OwnerPathOk(names, sets, n, now, MAX_OWNER_REF_DEPTH)
      decreases |todo|
    {
      var n :| n in todo;
      if names[n].ActiveAt(now) {
        var path := ValidateOwnerPath(names, sets, n, now);
        if path.Fail? {
          return path;
        }
      }
      todo := todo - {n};
    }
    return Pass;
  }

  method NameIsAuthorityOwner(t: Tables, n: Name, now: nat) returns (found: bool)
    ensures found <==> IsAuthorityOwner(t, n, now)
  {
    var todo := t.names.Keys;
    while todo != {}
      invariant todo <= t.names.Keys
      invariant forall m | m in t.names.Keys - todo ::
        !(t.names[m].ActiveAt(now) && t.names[m].semanticOwner == BnsName(n))
      decreases |todo|
    {
      var m :| m in todo;
      if t.names[m].ActiveAt(now) && t.names[m].semanticOwner == BnsName(n) {
        return true;
      }
      todo := todo - {m};
    }
    return false;
  }

  class BnsRegistry {
    const store: Store
    const writesEnabled: bool
    ghost var history: seq<Tx>

    /** The tables are those of the transactions made so far. */
    ghost predicate Valid()
      reads this, store
    {
      ClockOk(history) && store.Contents() == Run(history)
    }

    constructor (writesEnabled: bool)
      ensures Valid() && fresh(store) && history == []
      ensures this.writesEnabled == writesEnabled
    {
      this.writesEnabled := writesEnabled;
      store := new Store();
      history := [];
    }

    // ----- steps shared by the mutations -----

    method SaveName(n: Name, s: NameState, now: nat) returns (r: Check<Error>)
      modifies store
      ensures Did(r, store.Contents(), Spec.SaveName(old(store.Contents()), n, s, now))
    {
      var m := MaterializeNameState(store.Contents(), n, s, now);
      if m.Failure? {
        return Fail(m.error);
      }
      store.PutName(n, m.value);
      return Pass;
    }

    method SaveOwnedName(n: Name, s: NameState, now: nat) returns (r: Check<Error>)
      modifies store
      ensures Did(r, store.Contents(), Spec.SaveOwnedName(old(store.Contents()), n, s, now))
    {
      r := ValidateOwnerGraph(store.names[n := s], store.sets, now);
      if r.Pass? {
        r := SaveName(n, s, now);
      }
    }

    method ApplyAuthorityUpdates(n: Name, updates: seq<KeyUpdate>, now: nat) returns (r: Check<Error>)
      modifies store
      ensures Did(r, store.Contents(), Spec.ApplyAuthorityUpdates(old(store.Contents()), n, updates, now))
    {
      var byKid := KeysOf(store.Contents(), n);
      for i := 0 to |updates|
        invariant byKid == Spec.ApplyKeyUpdates(KeysOf(store.Contents(), n), updates[..i])
      {
        assert updates[..i + 1][..i] == updates[..i];
        var key := updates[i].key;
        if updates[i].active {
          if key.status == KeyMissing {
            key := key.(status := KeyActive);
          }
        } else {
          if updates[i].kid in byKid {
            key := byKid[updates[i].kid];
          }
          key := key.(status := KeyRevoked);
        }
        byKid := byKid[updates[i].kid := key];
      }
      assert updates[..|updates|] == updates;
      var set_ := Spec.RecomputeAuthoritySet(store.Contents(), n, byKid, now);
      if set_.activeKeyCount == 0 {
        var owner := NameIsAuthorityOwner(store.Contents(), n, now);
        if owner {
          return Fail(NoConcreteSigner);
        }
      }
      RegistryContents.UpdatesKeepKids(KeysOf(store.Contents(), n), updates);
      PutAuthorityKeys(n, byKid);
      store.PutAuthoritySet(n, set_);
      store.AppendEvent(AuthorityKeysUpdated(n, set_.authoritySeq, set_.root), now);
      return Pass;
    }

    /** One row at a time; rows of other kids stay, and there are none. */
    method PutAuthorityKeys(n: Name, keys: map<Kid, AuthorityKey>)
      requires KeysOf(store.Contents(), n).Keys <= keys.Keys
      modifies store
      ensures store.Contents() == old(store.Contents()).(keys := StoredKeys(old(store.keys), n, keys))
    {
      ghost var written := KeysOf(store.Contents(), n);
      ghost var table := store.keys;
      assert StoredKeys(table, n, written) == table;
      var todo := keys.Keys;
      while todo != {}
        invariant RowOf(table, n).Keys <= written.Keys <= keys.Keys && todo <= keys.Keys
        invariant forall kid | kid in keys.Keys - todo :: kid in written && written[kid] == keys[kid]
        invariant store.keys == StoredKeys(table, n, written)
        invariant store.Contents() == old(store.Contents()).(keys := store.keys)
        decreases |todo|
      {
        var kid :| kid in todo;
        PutOneKey(table, n, written, kid, keys[kid]);
        store.PutAuthorityKey(n, kid, keys[kid]);
        written := written[kid := keys[kid]];
        todo := todo - {kid};
      }
      assert written == keys;
    }

    method PublishInternal(n: Name, u: DocumentUpdate, bump: bool, now: nat) returns (r: Result<nat, Error>)
      modifies store
      ensures Replied(r, store.Contents(), Spec.PublishInternal(old(store.Contents()), n, u, bump, now))
    {
      hide RequiredActiveName, Spec.SaveName, AppendEvent, LatestVersion, CurrentVersion, PutDocument;
      hide Spec.SealDocument, Spec.PublishedDocument, Spec.WithDocumentVersion;
      var actual := CurrentVersion(store.documents, n, u.docType);
      if actual != u.expectedVersion {
        return Failure(StaleDocumentVersion);
      }
      var key := DocumentKey(n, u.docType, LatestVersion(store.documents, n, u.docType) + 1);
      var d := Spec.SealDocument(key, Spec.PublishedDocument(u, actual, now));
      store.PutDocument(key, d);
      var s :- RequiredActiveName(store.Contents(), n, now);
      var seq_ := s.nameSeq;
      if bump {
        seq_ := seq_ + 1;
      }
      s := Spec.WithDocumentVersion(s, u.docType, key.version).(nameSeq := seq_, updatedAt := now);
      :- SaveName(n, s, now);
      store.AppendEvent(DocumentPublished(n, u.docType, key.version, d.document.contentHash, d.stateHash), now);
      return Success(key.version);
    }

    method PublishAll(n: Name, updates: seq<DocumentUpdate>, now: nat) returns (r: Check<Error>)
      modifies store
      ensures Did(r, store.Contents(), Spec.PublishAll(old(store.Contents()), n, updates, now))
    {
      hide Spec.PublishInternal;
      for i := 0 to |updates|
        invariant Did(Pass, store.Contents(), Spec.PublishAll(old(store.Contents()), n, updates[..i], now))
      {
        assert updates[..i + 1][..i] == updates[..i];
        var published := PublishInternal(n, updates[i], false, now);
        if published.Failure? {
          StopsAll(old(store.Contents()), n, updates, i + 1, now);
          return Fail(published.error);
        }
      }
      assert updates[..|updates|] == updates;
      return Pass;
    }

    method RaiseMinDocumentIat(n: Name, minDocumentIat: nat, reasonHash: Hash, bump: bool, now: nat)
      returns (r: Result<nat, Error>)
      modifies store
      ensures Replied(r, store.Contents(),
                      Spec.RaiseMinDocumentIat(old(store.Contents()), n, minDocumentIat, reasonHash, bump, now))
    {
      var s :- RequiredActiveName(store.Contents(), n, now);
      if minDocumentIat < s.minDocumentIat {
        return Failure(InvalidMutation);
      }
      var previous := s.minDocumentIat;
      var seq_ := s.nameSeq;
      if bump {
        seq_ := seq_ + 1;
      }
      s := s.(nameSeq := seq_, minDocumentIat := minDocumentIat, ownerPolicySeq := s.ownerPolicySeq + 1,
              updatedAt := now);
      :- SaveName(n, s, now);
      store.AppendEvent(
        OwnerDocumentIatFloorUpdated(n, previous, minDocumentIat, s.ownerPolicySeq, s.nameSeq, reasonHash), now);
      return Success(s.nameSeq);
    }

    method AssignOwner(n: Name, assetOwner: Option<string>, owner: Principal, now: nat) returns (r: Check<Error>)
      modifies store
      ensures Did(r, store.Contents(), Spec.AssignOwner(old(store.Contents()), n, assetOwner, owner, now))
      ensures r.Pass? ==> n in store.names
    {
      var s := RequiredActiveName(store.Contents(), n, now);
      if s.Failure? {
        return Fail(s.error);
      }
      var target := ValidateSemanticOwnerTarget(store.Contents(), owner, now);
      if target.Fail? {
        return target;
      }
      var row := s.value.(semanticOwner := owner, nameSeq := s.value.nameSeq + 1, updatedAt := now);
      if assetOwner.Some? {
        row := row.(assetOwner := assetOwner.value);
      }
      r := SaveOwnedName(n, row, now);
    }

    method BumpName(n: Name, now: nat) returns (r: Check<Error>)
      modifies store
      ensures Did(r, store.Contents(), Spec.BumpName(old(store.Contents()), n, now))
    {
      var s := RequiredActiveName(store.Contents(), n, now);
      if s.Failure? {
        return Fail(s.error);
      }
      r := SaveName(n, s.value.(nameSeq := s.value.nameSeq + 1, updatedAt := now), now);
    }

    method InstallPolicy(n: Name, rules: seq<ControllerRule>, policyHash: Hash, now: nat) returns (r: Result<nat, Error>)
      modifies store
      ensures Replied(r, store.Contents(), Spec.InstallPolicy(old(store.Contents()), n, rules, policyHash, now))
    {
      var controllers := CheckControllers(rules, now);
      :- controllers;
      store.PutControllerPolicy(n, ControllerPolicy(rules, policyHash));
      :- BumpName(n, now);
      var seq_ := store.names[n].nameSeq;
      store.AppendEvent(ControllerPolicyUpdated(n, policyHash, seq_), now);
      return Success(seq_);
    }

    method CheckControllers(rules: seq<ControllerRule>, now: nat) returns (r: Check<Error>)
      ensures r == Spec.CheckControllers(store.Contents(), rules, now)
    {
      for i := 0 to |rules|
        invariant Spec.CheckControllers(store.Contents(), rules, now) ==
                  Spec.CheckControllers(store.Contents(), rules[i..], now)
      {
        if rules[i].controller.BnsName? {
          var authority := RequireActiveAuthoritySet(store.Contents(), rules[i].controller.name, now);
          if authority.Failure? {
            return Fail(authority.error);
          }
        }
        assert rules[i..][1..] == rules[i + 1..];
      }
      return Pass;
    }

    // ----- registration -----

    method RegisterTx(
      n: Name, assetOwner: string, options: RegisterOptions, documents: seq<DocumentUpdate>,
      authority: CallAuthority, guard: MutationGuard, now: nat) returns (r: Result<nat, Error>)
      modifies store
      ensures Replied(r, store.Contents(), Spec.RegisterTx(
        old(store.Contents()), n, assetOwner, options, documents, authority, guard, now))
    {
      hide Spec.RegisterRow, Spec.PublishAll, Spec.CheckRegistration;
      var before := store.Contents();
      var request := Spec.CheckRegistration(before, n, authority, guard, now);
      :- request;
      :- RegisterRow(n, assetOwner, options, now);
      :- PublishAll(n, documents, now);
      return Success(if n in before.names then before.names[n].nameSeq + 1 else 1);
    }

    method RegisterRow(n: Name, assetOwner: string, options: RegisterOptions, now: nat) returns (r: Check<Error>)
      modifies store
      ensures Did(r, store.Contents(), Spec.RegisterRow(old(store.Contents()), n, assetOwner, options, now))
    {
      hide Spec.SaveOwnedName, ResetNameLineage, AppendEvent, ValidateSemanticOwnerTarget;
      var s := Spec.FreshState(store.Contents(), n, assetOwner, options, now);
      if n in store.names {
        store.ResetNameLineage(n);
      }
      r := ValidateSemanticOwnerTarget(store.Contents(), options.initialSemanticOwner, now);
      if r.Fail? {
        return;
      }
      r := SaveOwnedName(n, s, now);
      if r.Fail? {
        return;
      }
      store.AppendEvent(NameRegistered(n, assetOwner, s.expireAt, s.lineageEpoch, s.nameSeq), now);
    }

    method RegisterName(
      n: Name, assetOwner: string, options: RegisterOptions, documents: seq<DocumentUpdate>,
      authority: CallAuthority, guard: MutationGuard, now: nat) returns (r: Result<nat, Error>)
      modifies store
      ensures Replied(r, store.Contents(), Spec.RegisterName(
        old(store.Contents()), n, assetOwner, options, documents, authority, guard, now))
    {
      hide Spec.RegisterTx, Spec.CheckRegistrationRequest;
      var request := Spec.CheckRegistrationRequest(n, assetOwner, options, documents);
      :- request;
      r := RegisterTx(n, assetOwner, options, documents, authority, guard, now);
    }

    method BootstrapName(
      n: Name, assetOwner: string, options: RegisterOptions, documents: seq<DocumentUpdate>,
      keyUpdates: seq<KeyUpdate>, ownerAfter: Option<Principal>, rules: seq<ControllerRule>, policyHash: Hash,
      authority: CallAuthority, guard: MutationGuard, now: nat) returns (r: Result<nat, Error>)
      modifies store
      ensures Replied(r, store.Contents(), Spec.BootstrapName(
        old(store.Contents()), n, assetOwner, options, documents, keyUpdates, ownerAfter, rules, policyHash,
        authority, guard, now))
    {
      hide Spec.RegisterTx, Spec.BootstrapTail, Spec.CheckRegistrationRequest;
      var request := Spec.CheckRegistrationRequest(n, assetOwner, options, documents);
      :- request;
      :- Need(ownerAfter.Some? ==> ValidSemanticOwner(ownerAfter.value), InvalidPrincipal);
      :- Need(Spec.ValidRules(rules), InvalidPrincipal);
      var registered :- RegisterTx(n, assetOwner, options, documents, authority, guard, now);
      r := BootstrapTail(n, keyUpdates, ownerAfter, rules, policyHash, now);
    }

    method BootstrapTail(
      n: Name, keyUpdates: seq<KeyUpdate>, ownerAfter: Option<Principal>,
      rules: seq<ControllerRule>, policyHash: Hash, now: nat) returns (r: Result<nat, Error>)
      modifies store
      ensures Replied(r, store.Contents(), Spec.BootstrapTail(
        old(store.Contents()), n, keyUpdates, ownerAfter, rules, policyHash, now))
    {
      hide Spec.ApplyAuthorityUpdates, Spec.AssignOwner, Spec.InstallPolicy, AppendEvent, Spec.OwnerEvent;
      if keyUpdates != [] {
        :- ApplyAuthorityUpdates(n, keyUpdates, now);
      }
      if ownerAfter.Some? {
        :- AssignOwner(n, None, ownerAfter.value, now);
        store.AppendEvent(Spec.OwnerEvent(n, store.names[n]), now);
      }
      r := InstallPolicy(n, rules, policyHash, now);
    }

    // ----- life cycle -----

    method RenewName(n: Name, duration: nat, now: nat) returns (r: Result<nat, Error>)
      modifies store
      ensures Replied(r, store.Contents(), Spec.RenewName(old(store.Contents()), n, duration, now))
    {
      hide Spec.SaveName, AppendEvent, Spec.RenewedState;
      if duration == 0 {
        return Failure(InvalidMutation);
      }
      if n !in store.names {
        return Failure(NameNotFound);
      }
      var s := store.names[n];
      if !s.renewable || s.status in {Released, Tombstoned} {
        return Failure(InvalidMutation);
      }
      s := Renewed(s, duration, now);
      :- SaveName(n, s, now);
      store.AppendEvent(NameRenewed(n, s.expireAt, s.nameSeq), now);
      return Success(s.expireAt);
    }

    /** The later of expiry and now, plus the duration; the grace period keeps its length. */
    static method Renewed(state: NameState, duration: nat, now: nat) returns (s: NameState)
      ensures s == Spec.RenewedState(state, duration, now)
    {
      var expireAt := state.expireAt;
      if expireAt <= now {
        expireAt := now;
      }
      expireAt := expireAt + duration;
      var grace := 0;
      if state.expireAt < state.graceUntil {
        grace := state.graceUntil - state.expireAt;
      }
      var status := state.status;
      if status == Expired {
        status := Active;
      }
      s := state.(status := status, expireAt := expireAt, graceUntil := expireAt + grace, updatedAt := now,
                  nameSeq := state.nameSeq + 1);
    }

    method TransferName(
      n: Name, newAssetOwner: string, owner: Principal, documents: seq<DocumentUpdate>,
      authority: CallAuthority, guard: MutationGuard, now: nat) returns (r: Result<nat, Error>)
      modifies store
      ensures Replied(r, store.Contents(), Spec.TransferName(
        old(store.Contents()), n, newAssetOwner, owner, documents, authority, guard, now))
    {
      hide RequiredActiveName, AuthorizeOwner, Spec.AssignOwner, Spec.PublishAll, AppendEvent, Spec.OwnerEvent;
      if newAssetOwner == "" {
        return Failure(InvalidMutation);
      }
      if !ValidSemanticOwner(owner) {
        return Failure(InvalidPrincipal);
      }
      var s :- RequiredActiveName(store.Contents(), n, now);
      :- CheckGuard(s, guard);
      :- AuthorizeOwner(store.Contents(), n, authority, now);
      :- AssignOwner(n, Some(newAssetOwner), owner, now);
      var row := store.names[n];
      store.AppendEvent(NameAssetTransferred(n, s.assetOwner, newAssetOwner, false, row.nameSeq), now);
      store.AppendEvent(Spec.OwnerEvent(n, row), now);
      :- PublishAll(n, documents, now);
      return Success(s.nameSeq + 1);
    }

    method StandardTransferName(n: Name, newAssetOwner: string, now: nat) returns (r: Result<nat, Error>)
      modifies store
      ensures Replied(r, store.Contents(), Spec.StandardTransferName(old(store.Contents()), n, newAssetOwner, now))
    {
      hide RequiredActiveName, Spec.SaveName, AppendEvent;
      if newAssetOwner == "" {
        return Failure(InvalidMutation);
      }
      var s :- RequiredActiveName(store.Contents(), n, now);
      if !s.standardTransferEnabled {
        return Failure(StandardTransferDisabled);
      }
      var was := s.assetOwner;
      s := s.(assetOwner := newAssetOwner, nameSeq := s.nameSeq + 1, updatedAt := now);
      :- SaveName(n, s, now);
      store.AppendEvent(NameAssetTransferred(n, was, newAssetOwner, true, s.nameSeq), now);
      return Success(s.nameSeq);
    }

    method SetNameOwner(n: Name, owner: Principal, authority: CallAuthority, guard: MutationGuard, now: nat)
      returns (r: Result<nat, Error>)
      modifies store
      ensures Replied(r, store.Contents(), Spec.SetNameOwner(old(store.Contents()), n, owner, authority, guard, now))
    {
      hide RequiredActiveName, AuthorizeOwner, Spec.AssignOwner, AppendEvent, Spec.OwnerEvent;
      if !ValidSemanticOwner(owner) {
        return Failure(InvalidPrincipal);
      }
      var s :- RequiredActiveName(store.Contents(), n, now);
      :- CheckGuard(s, guard);
      :- AuthorizeOwner(store.Contents(), n, authority, now);
      :- AssignOwner(n, None, owner, now);
      store.AppendEvent(Spec.OwnerEvent(n, store.names[n]), now);
      return Success(s.nameSeq + 1);
    }

    method ReleaseName(
      n: Name, mode: ReleaseMode, reasonHash: Hash, authority: CallAuthority, guard: MutationGuard, now: nat)
      returns (r: Result<nat, Error>)
      modifies store
      ensures Replied(r, store.Contents(), Spec.ReleaseName(
        old(store.Contents()), n, mode, reasonHash, authority, guard, now))
    {
      hide RequiredActiveName, AuthorizeOwner, Spec.SaveOwnedName, AppendEvent;
      var s :- RequiredActiveName(store.Contents(), n, now);
      :- CheckGuard(s, guard);
      :- AuthorizeOwner(store.Contents(), n, authority, now);
      s := s.(status := Spec.ReleasedStatus(mode), nameSeq := s.nameSeq + 1, updatedAt := now);
      :- SaveOwnedName(n, s, now);
      store.AppendEvent(NameReleased(n, mode, reasonHash, s.nameSeq), now);
      return Success(s.nameSeq);
    }

    // ----- keys and documents -----

    method UpdateAuthorityKeys(
      n: Name, updates: seq<KeyUpdate>, authority: CallAuthority, guard: MutationGuard, now: nat)
      returns (r: Result<nat, Error>)
      modifies store
      ensures Replied(r, store.Contents(), Spec.UpdateAuthorityKeys(
        old(store.Contents()), n, updates, authority, guard, now))
    {
      hide RequiredActiveName, AuthorizeOwner;
      var s :- RequiredActiveName(store.Contents(), n, now);
      :- CheckGuard(s, guard);
      :- AuthorizeOwner(store.Contents(), n, authority, now);
      :- ApplyAuthorityUpdates(n, updates, now);
      return Success(AuthoritySetOf(store.Contents(), n).authoritySeq);
    }

    method AuthorizeBatch(
      n: Name, keyUpdates: seq<KeyUpdate>, documents: seq<DocumentUpdate>, policy: OwnerPolicyUpdate,
      authority: CallAuthority, now: nat) returns (r: Check<Error>)
      ensures r == Spec.AuthorizeBatch(store.Contents(), n, keyUpdates, documents, policy, authority, now)
    {
      hide AuthorizeOwner, AuthorizeUpdate;
      if keyUpdates != [] || policy.RaiseIatFloor? || exists u | u in documents :: u.docType == OWNER_DOC_TYPE {
        return AuthorizeOwner(store.Contents(), n, authority, now);
      }
      for i := 0 to |documents|
        invariant Spec.AuthorizeAll(store.Contents(), n, documents, authority, now) ==
                  Spec.AuthorizeAll(store.Contents(), n, documents[i..], authority, now)
      {
        assert documents[i..][1..] == documents[i + 1..];
        r := AuthorizeUpdate(store.Contents(), n, documents[i].docType, PERMISSION_PUBLISH_DOCUMENT, authority, now);
        if r.Fail? {
          return;
        }
      }
      return Pass;
    }

    method ApplyMutations(
      n: Name, keyUpdates: seq<KeyUpdate>, documents: seq<DocumentUpdate>, policy: OwnerPolicyUpdate,
      authority: CallAuthority, guard: MutationGuard, now: nat) returns (r: Result<nat, Error>)
      modifies store
      ensures Replied(r, store.Contents(), Spec.ApplyMutations(
        old(store.Contents()), n, keyUpdates, documents, policy, authority, guard, now))
    {
      hide RequiredActiveName, Spec.AuthorizeBatch, Spec.ApplyAuthorityUpdates, Spec.MutateRows;
      if keyUpdates == [] && documents == [] && policy.KeepPolicy? {
        return Failure(InvalidMutation);
      }
      :- Need(Spec.DistinctDocTypes(documents), InvalidMutation);
      var s :- RequiredActiveName(store.Contents(), n, now);
      :- CheckGuard(s, guard);
      :- AuthorizeBatch(n, keyUpdates, documents, policy, authority, now);
      if keyUpdates != [] {
        :- ApplyAuthorityUpdates(n, keyUpdates, now);
      }
      if documents != [] || policy.RaiseIatFloor? {
        :- MutateRows(n, documents, policy, now);
      }
      var last :- RequiredActiveName(store.Contents(), n, now);
      return Success(last.nameSeq);
    }

    method MutateRows(n: Name, documents: seq<DocumentUpdate>, policy: OwnerPolicyUpdate, now: nat)
      returns (r: Check<Error>)
      modifies store
      ensures Did(r, store.Contents(), Spec.MutateRows(old(store.Contents()), n, documents, policy, now))
    {
      hide Spec.BumpName, Spec.PublishAll, Spec.RaiseMinDocumentIat;
      r := BumpName(n, now);
      if r.Fail? {
        return;
      }
      r := PublishAll(n, documents, now);
      if r.Fail? {
        return;
      }
      if policy.RaiseIatFloor? {
        var raised := RaiseMinDocumentIat(n, policy.minDocumentIat, policy.reasonHash, false, now);
        if raised.Failure? {
          return Fail(raised.error);
        }
      }
    }

    method RotateAuthorityAndOwnerDocument(
      n: Name, updates: seq<KeyUpdate>, document: DocumentUpdate,
      authority: CallAuthority, guard: MutationGuard, now: nat) returns (r: Result<nat, Error>)
      modifies store
      ensures Replied(r, store.Contents(), Spec.RotateAuthorityAndOwnerDocument(
        old(store.Contents()), n, updates, document, authority, guard, now))
    {
      hide RequiredActiveName, AuthorizeOwner, Spec.ApplyAuthorityUpdates, Spec.PublishInternal;
      if document.docType != OWNER_DOC_TYPE {
        return Failure(InvalidMutation);
      }
      var s :- RequiredActiveName(store.Contents(), n, now);
      :- CheckGuard(s, guard);
      :- AuthorizeOwner(store.Contents(), n, authority, now);
      :- ApplyAuthorityUpdates(n, updates, now);
      r := PublishInternal(n, document, true, now);
    }

    method PublishDocument(
      n: Name, document: DocumentUpdate, authority: CallAuthority, guard: MutationGuard, now: nat)
      returns (r: Result<nat, Error>)
      modifies store
      ensures Replied(r, store.Contents(), Spec.PublishDocument(
        old(store.Contents()), n, document, authority, guard, now))
    {
      hide RequiredActiveName, AuthorizeUpdate, Spec.PublishInternal;
      var s :- RequiredActiveName(store.Contents(), n, now);
      :- CheckGuard(s, guard);
      :- AuthorizeUpdate(store.Contents(), n, document.docType, PERMISSION_PUBLISH_DOCUMENT, authority, now);
      r := PublishInternal(n, document, true, now);
    }

    method RevokeDocument(
      n: Name, ty: DocType, expectedVersion: nat, reasonHash: Hash,
      authority: CallAuthority, guard: MutationGuard, now: nat) returns (r: Result<nat, Error>)
      modifies store
      ensures Replied(r, store.Contents(), Spec.RevokeDocument(
        old(store.Contents()), n, ty, expectedVersion, reasonHash, authority, guard, now))
    {
      hide RequiredActiveName, AuthorizeUpdate, Spec.RevokeInternal;
      var s :- RequiredActiveName(store.Contents(), n, now);
      :- CheckGuard(s, guard);
      :- AuthorizeUpdate(store.Contents(), n, ty, PERMISSION_REVOKE_DOCUMENT, authority, now);
      r := RevokeInternal(n, s, ty, expectedVersion, reasonHash, now);
    }

    method RevokeInternal(n: Name, state: NameState, ty: DocType, expectedVersion: nat, reasonHash: Hash, now: nat)
      returns (r: Result<nat, Error>)
      modifies store
      ensures Replied(r, store.Contents(), Spec.RevokeInternal(
        old(store.Contents()), n, state, ty, expectedVersion, reasonHash, now))
    {
      hide Spec.SaveName, AppendEvent, LatestVersion, CurrentVersion, PutDocument;
      hide Spec.SealDocument, Spec.RevokedDocument, Spec.WithDocumentVersion;
      var actual := CurrentVersion(store.documents, n, ty);
      if actual != expectedVersion {
        return Failure(StaleDocumentVersion);
      }
      var key := DocumentKey(n, ty, LatestVersion(store.documents, n, ty) + 1);
      store.PutDocument(key, Spec.SealDocument(key, Spec.RevokedDocument(actual, now)));
      var s := Spec.WithDocumentVersion(state, ty, key.version).(nameSeq := state.nameSeq + 1, updatedAt := now);
      :- SaveName(n, s, now);
      store.AppendEvent(DocumentRevoked(n, ty, key.version, actual, reasonHash), now);
      return Success(key.version);
    }

    method SetMinDocumentIat(
      n: Name, minDocumentIat: nat, reasonHash: Hash, authority: CallAuthority, guard: MutationGuard, now: nat)
      returns (r: Result<nat, Error>)
      modifies store
      ensures Replied(r, store.Contents(), Spec.SetMinDocumentIat(
        old(store.Contents()), n, minDocumentIat, reasonHash, authority, guard, now))
    {
      hide RequiredActiveName, AuthorizeOwner, Spec.RaiseMinDocumentIat;
      var s :- RequiredActiveName(store.Contents(), n, now);
      :- CheckGuard(s, guard);
      :- AuthorizeOwner(store.Contents(), n, authority, now);
      r := RaiseMinDocumentIat(n, minDocumentIat, reasonHash, true, now);
    }

    method SetPaymentTarget(
      n: Name, ty: DocType, expectedVersion: nat, paymentTarget: string, beneficiary: Principal,
      payment: Hash, split: Hash, price: Hash, rights: Hash,
      authority: CallAuthority, guard: MutationGuard, now: nat) returns (r: Result<nat, Error>)
      modifies store
      ensures Replied(r, store.Contents(), Spec.SetPaymentTarget(
        old(store.Contents()), n, ty, expectedVersion, paymentTarget, beneficiary, payment, split, price, rights,
        authority, guard, now))
    {
      hide RequiredActiveName, AuthorizeUpdate, Spec.PaymentInternal;
      :- Need(beneficiary.Valid(), InvalidPrincipal);
      var s :- RequiredActiveName(store.Contents(), n, now);
      :- CheckGuard(s, guard);
      :- AuthorizeUpdate(store.Contents(), n, ty, PERMISSION_SET_PAYMENT, authority, now);
      r := PaymentInternal(
        n, s, ty, expectedVersion, paymentTarget, beneficiary, payment, split, price, rights, now);
    }

    method PaymentInternal(
      n: Name, s: NameState, ty: DocType, expectedVersion: nat, paymentTarget: string, beneficiary: Principal,
      payment: Hash, split: Hash, price: Hash, rights: Hash, now: nat) returns (r: Result<nat, Error>)
      modifies store
      ensures Replied(r, store.Contents(), Spec.PaymentInternal(
        old(store.Contents()), n, s, ty, expectedVersion, paymentTarget, beneficiary,
        payment, split, price, rights, now))
    {
      hide Spec.SaveName, AppendEvent, CurrentVersion, PutDocument, Spec.SealDocument;
      var key := DocumentKey(n, ty, CurrentVersion(store.documents, n, ty));
      if key !in store.documents || !store.documents[key].current {
        return Failure(DocumentNotFound);
      }
      if key.version != expectedVersion {
        return Failure(StaleDocumentVersion);
      }
      var d := store.documents[key].state;
      d := d.(paymentTarget := paymentTarget, beneficiary := beneficiary,
              policies := d.policies.(payment := payment, split := split, price := price, rights := rights));
      store.PutDocument(key, Spec.SealDocument(key, d));
      var s1 := s.(paymentPolicyHash := payment, nameSeq := s.nameSeq + 1, updatedAt := now);
      :- SaveName(n, s1, now);
      store.AppendEvent(PaymentTargetUpdated(n, ty, key.version, paymentTarget, payment), now);
      return Success(key.version);
    }

    // ----- single-row settings -----

    method SetNamespacePolicy(
      n: Name, allow: bool, policyHash: Hash, authority: CallAuthority, guard: MutationGuard, now: nat)
      returns (r: Result<nat, Error>)
      modifies store
      ensures Replied(r, store.Contents(), Spec.SetNamespacePolicy(
        old(store.Contents()), n, allow, policyHash, authority, guard, now))
    {
      hide RequiredActiveName, AuthorizeUpdate, Spec.SaveName, AppendEvent;
      var s :- RequiredActiveName(store.Contents(), n, now);
      :- CheckGuard(s, guard);
      :- AuthorizeUpdate(store.Contents(), n, "", PERMISSION_SET_NAMESPACE, authority, now);
      s := s.(allowDelegatedSubnames := allow, namespacePolicyHash := policyHash,
              nameSeq := s.nameSeq + 1, updatedAt := now);
      :- SaveName(n, s, now);
      store.AppendEvent(NamespacePolicyUpdated(n, allow, policyHash, s.nameSeq), now);
      return Success(s.nameSeq);
    }

    method SetControllerPolicy(
      n: Name, rules: seq<ControllerRule>, policyHash: Hash,
      authority: CallAuthority, guard: MutationGuard, now: nat) returns (r: Result<nat, Error>)
      modifies store
      ensures Replied(r, store.Contents(), Spec.SetControllerPolicy(
        old(store.Contents()), n, rules, policyHash, authority, guard, now))
    {
      hide RequiredActiveName, AuthorizeOwner, Spec.InstallPolicy;
      :- Need(Spec.ValidRules(rules), InvalidPrincipal);
      var s :- RequiredActiveName(store.Contents(), n, now);
      :- CheckGuard(s, guard);
      :- AuthorizeOwner(store.Contents(), n, authority, now);
      r := InstallPolicy(n, rules, policyHash, now);
    }

    method SetDidAlias(
      n: Name, targetDid: string, kind: AliasKind, proofHash: Hash,
      authority: CallAuthority, guard: MutationGuard, now: nat) returns (r: Result<nat, Error>)
      modifies store
      ensures Replied(r, store.Contents(), Spec.SetDidAlias(
        old(store.Contents()), n, targetDid, kind, proofHash, authority, guard, now))
    {
      hide RequiredActiveName, AuthorizeUpdate, Spec.SaveName, AppendEvent;
      var s :- RequiredActiveName(store.Contents(), n, now);
      :- CheckGuard(s, guard);
      :- AuthorizeUpdate(store.Contents(), n, "", PERMISSION_SET_ALIAS, authority, now);
      s := s.(aliasStateHash := proofHash, nameSeq := s.nameSeq + 1, updatedAt := now);
      :- SaveName(n, s, now);
      store.PutAlias(n, AliasState(kind, targetDid, proofHash, now, s.nameSeq));
      store.AppendEvent(DidAliasSet(n, targetDid, kind, proofHash, s.nameSeq), now);
      return Success(s.nameSeq);
    }

    method PublishLogCheckpoint(issuer: Principal, externalAnchor: Hash, now: nat) returns (r: Result<nat, Error>)
      modifies store
      ensures Replied(r, store.Contents(), Spec.PublishLogCheckpoint(old(store.Contents()), issuer, externalAnchor, now))
    {
      hide AppendEvent, LatestSeq, RootAt;
      :- Need(issuer.Valid(), InvalidPrincipal);
      var last := LatestSeq(store.events);
      var root := RootAt(store.events, last);
      store.PutCheckpoint(LogCheckpoint(root, last, now, issuer, externalAnchor));
      store.AppendEvent(LogCheckpointPublished(root, last, now, externalAnchor), now);
      return Success(last);
    }

    // ----- transactions -----

    method DispatchLifeCycle(op: Operation, now: nat) returns (r: Result<nat, Error>)
      requires LifeCycle(op)
      modifies store
      ensures Replied(r, store.Contents(), Spec.Apply(old(store.Contents()), op, now))
    {
      hide Spec.RegisterName, Spec.BootstrapName, Spec.RenewName, Spec.TransferName, Spec.StandardTransferName;
      hide Spec.SetNameOwner, Spec.ReleaseName, Spec.UpdateAuthorityKeys, Spec.ApplyMutations;
      hide Spec.RotateAuthorityAndOwnerDocument, Spec.PublishDocument, Spec.RevokeDocument, Spec.SetMinDocumentIat;
      hide Spec.SetPaymentTarget, Spec.SetNamespacePolicy, Spec.SetControllerPolicy, Spec.SetDidAlias;
      hide Spec.PublishLogCheckpoint;
      match op
      case Register(n, assetOwner, options, documents, authority, guard) =>
        r := RegisterName(n, assetOwner, options, documents, authority, guard, now);
      case Bootstrap(n, assetOwner, options, documents, keyUpdates, ownerAfter, rules, policyHash, authority, guard) =>
        r := BootstrapName(
          n, assetOwner, options, documents, keyUpdates, ownerAfter, rules, policyHash, authority, guard, now);
      case Renew(n, duration) => r := RenewName(n, duration, now);
      case Transfer(n, assetOwner, owner, documents, authority, guard) =>
        r := TransferName(n, assetOwner, owner, documents, authority, guard, now);
      case StandardTransfer(n, assetOwner) => r := StandardTransferName(n, assetOwner, now);
      case SetOwner(n, owner, authority, guard) => r := SetNameOwner(n, owner, authority, guard, now);
      case Release(n, mode, reasonHash, authority, guard) =>
        r := ReleaseName(n, mode, reasonHash, authority, guard, now);
    }

    method Dispatch(op: Operation, now: nat) returns (r: Result<nat, Error>)
      modifies store
      ensures Replied(r, store.Contents(), Spec.Apply(old(store.Contents()), op, now))
    {
      hide Spec.RegisterName, Spec.BootstrapName, Spec.RenewName, Spec.TransferName, Spec.StandardTransferName;
      hide Spec.SetNameOwner, Spec.ReleaseName, Spec.UpdateAuthorityKeys, Spec.ApplyMutations;
      hide Spec.RotateAuthorityAndOwnerDocument, Spec.PublishDocument, Spec.RevokeDocument, Spec.SetMinDocumentIat;
      hide Spec.SetPaymentTarget, Spec.SetNamespacePolicy, Spec.SetControllerPolicy, Spec.SetDidAlias;
      hide Spec.PublishLogCheckpoint;
      if LifeCycle(op) {
        r := DispatchLifeCycle(op, now);
        return;
      }
      match op
      case UpdateKeys(n, keyUpdates, authority, guard) =>
        r := UpdateAuthorityKeys(n, keyUpdates, authority, guard, now);
      case Mutate(n, keyUpdates, documents, policy, authority, guard) =>
        r := ApplyMutations(n, keyUpdates, documents, policy, authority, guard, now);
      case Rotate(n, keyUpdates, document, authority, guard) =>
        r := RotateAuthorityAndOwnerDocument(n, keyUpdates, document, authority, guard, now);
      case Publish(n, document, authority, guard) => r := PublishDocument(n, document, authority, guard, now);
      case Revoke(n, ty, expectedVersion, reasonHash, authority, guard) =>
        r := RevokeDocument(n, ty, expectedVersion, reasonHash, authority, guard, now);
      case SetMinIat(n, iat, reasonHash, authority, guard) =>
        r := SetMinDocumentIat(n, iat, reasonHash, authority, guard, now);
      case SetPayment(n, ty, expectedVersion, target, beneficiary, payment, split, price, rights, authority, guard) =>
        r := SetPaymentTarget(
          n, ty, expectedVersion, target, beneficiary, payment, split, price, rights, authority, guard, now);
      case SetNamespace(n, allow, policyHash, authority, guard) =>
        r := SetNamespacePolicy(n, allow, policyHash, authority, guard, now);
      case SetPolicy(n, rules, policyHash, authority, guard) =>
        r := SetControllerPolicy(n, rules, policyHash, authority, guard, now);
      case SetAlias(n, did, kind, proofHash, authority, guard) =>
        r := SetDidAlias(n, did, kind, proofHash, authority, guard, now);
      case PublishCheckpoint(issuer, anchor) => r := PublishLogCheckpoint(issuer, anchor, now);
    }

    /**
     * One transaction. A mutation that fails, however much it had written, leaves every table as it was;
     * with writes disabled every mutation fails at once.
     */
    method Execute(op: Operation, now: nat) returns (r: Result<nat, Error>)
      requires Valid() && Clock(history) <= now
      modifies this, store
      ensures Valid()
      ensures r.Failure? ==> store.Contents() == old(store.Contents())
      ensures !writesEnabled ==> r == Failure(UnsupportedOperation) && history == old(history)
      ensures writesEnabled ==>
        && history == old(history) + [Tx(op, now)]
        && (r.Success? <==> Committed(history, |history| - 1))
        && Replied(r, Spec.Commit(old(store.Contents()), op, now), Spec.Apply(old(store.Contents()), op, now))
      ensures r.Success? && RowEffects.ChangesRow(op) ==>
        RowEffects.HasEffect(op, old(store.Contents()), store.Contents(), now)
      ensures r.Success? ==>
        RegistrationTables.Leaves(old(store.Contents()), op, Spec.Outcome(store.Contents(), r.value), now)
      ensures writesEnabled ==> (r.Success? <==> RegistrationConditions.Commits(old(store.Contents()), op, now))
    {
      hide Spec.Apply, RowEffects.HasEffect, RegistrationTables.Leaves, RegistrationConditions.Commits;
      if !writesEnabled {
        return Failure(UnsupportedOperation);
      }
      var saved := store.Contents();
      r := Dispatch(op, now);
      if r.Failure? {
        store.Rollback(saved);
      }
      history := history + [Tx(op, now)];
      assert history[..|history| - 1] == old(history);
      if r.Success? && RowEffects.ChangesRow(op) {
        RowEffects.CommittedRow(saved, op, now);
      }
      RegistrationConditions.CommitsExactlyWhen(saved, op, now);
      if r.Success? {
        assert RegistryLog.LogOk(saved.events) by {
          RunKeepsInv(old(history));
        }
        RegistrationTables.OperationLeaves(saved, op, now);
      }
    }
  }

  /** A publication that stops a prefix of a batch stops the whole batch. */
  lemma {:induction false} StopsAll(t: Tables, n: Name, updates: seq<DocumentUpdate>, i: nat, now: nat)
    requires i <= |updates| && Spec.PublishAll(t, n, updates[..i], now).Failure?
    ensures Spec.PublishAll(t, n, updates, now) == Spec.PublishAll(t, n, updates[..i], now)
    decreases |updates|
  {
    if i == |updates| {
      assert updates[..i] == updates;
    } else {
      assert updates[..|updates| - 1][..i] == updates[..i];
      StopsAll(t, n, updates[..|updates| - 1], i, now);
    }
  }
}
