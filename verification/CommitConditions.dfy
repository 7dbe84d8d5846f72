/** Exactly when each operation commits, on the stored rows and the arguments. */
module CommitConditions {
  import opened Wrappers
  import opened BnsModel
  import opened RegistryTables
  import opened OwnerGraph
  import opened Ownership
  import opened RegistrySpec
  import opened Liveness
  import opened OwnerCommits
  import opened RegistryEffects
  import opened NameAnswers
  import opened DocumentBatches

  // ----- reading and saving one row -----

  /** An owner that the name could act under: a live and keyed name, or none where the parents can act. */
  predicate OwnerUsable(t: Tables, n: Name, owner: Principal, now: nat) {
    if owner.BnsName? then Keyed(t, owner.name, now) else n.Top? || Resolvable(t, n.parent, now)
  }

  /** For a row that is no longer active. */
  predicate OwnerKnown(t: Tables, n: Name, owner: Principal, now: nat) {
    owner.BnsName? || n.Top? || Answerable(t, n.parent, now)
  }

  lemma RequiredWhen(t: Tables, n: Name, now: nat)
    ensures RequiredActiveName(t, n, now).Success? <==> Resolvable(t, n, now)
    ensures Resolvable(t, n, now) ==>
      var s := RequiredActiveName(t, n, now).value;
      && SameCore(t.names[n], s)
      && (s.standardTransferEnabled <==> s.transferable && n.Top? && !s.semanticOwner.BnsName?)
  {
    hide ResolveOwner;
    if n in t.names && t.names[n].ActiveAt(now) {
      ResolutionIsPlainWalk(t, n, now);
      ResolvesExactlyWhen(t, n, now);
      assert t.names[n].MaterializeStatusAt(now) == t.names[n];
    }
  }

  lemma SavesWhen(t: Tables, n: Name, s: NameState, now: nat)
    ensures SaveName(t, n, s, now).Success? <==>
      if s.status == Active && Within(0, s.expireAt, now) then OwnerUsable(t, n, s.semanticOwner, now)
      else OwnerKnown(t, n, s.semanticOwner, now)
  {
    hide Answerable, Resolvable;
    var m := s.MaterializeStatusAt(now);
    assert m.semanticOwner == s.semanticOwner;
    assert m.status == Active <==> s.status == Active && Within(0, s.expireAt, now);
    assert SaveName(t, n, s, now).Success? <==> ResolveOwner(t, n, m, now).Success?;
    if !s.semanticOwner.BnsName? && n.Sub? {
      ResolvableExactlyWhen(t, n.parent, now);
      AbsentUnanswered(t, n.parent, now);
      if n.parent in t.names {
        ParentResolves(t, n, m, now);
      }
    }
  }

  lemma AbsentUnanswered(t: Tables, n: Name, now: nat)
    ensures n !in t.names ==> !Answerable(t, n, now)
  {
  }

  lemma ParentResolves(t: Tables, n: Name, m: NameState, now: nat)
    requires n.Sub? && n.parent in t.names && !m.semanticOwner.BnsName?
    ensures ResolveOwner(t, n, m, now).Success? <==>
      Answerable(t, n.parent, now) && (m.status == Active ==> Live(t, n.parent, now))
  {
    hide Answerable;
    ResolvesExactlyWhen(t, n.parent, now);
    var p := MaterializeNameState(t, n.parent, t.names[n.parent], now);
    if p.Success? {
      ResolutionReads(t, n.parent, t.names[n.parent].MaterializeStatusAt(now), p.value, now);
    }
  }

  /** What a row resolves to depends on names and authority sets only. */
  lemma {:induction false} ResolvableReads(t: Tables, u: Tables, n: Name, now: nat)
    requires u.names == t.names && u.sets == t.sets
    ensures Resolvable(u, n, now) <==> Resolvable(t, n, now)
    decreases n
  {
    if n.Sub? {
      ResolvableReads(t, u, n.parent, now);
    }
  }

  /** A name that can act may be saved with the owner it has. */
  lemma ResolvableUsable(t: Tables, n: Name, now: nat)
    requires Resolvable(t, n, now)
    ensures OwnerUsable(t, n, t.names[n].semanticOwner, now) && OwnerKnown(t, n, t.names[n].semanticOwner, now)
  {
    if n.Sub? {
      ResolvableExactlyWhen(t, n.parent, now);
    }
  }

  // ----- who, and with what knowledge -----

  /** The name can act, the caller knows its sequence number and is its owner. */
  predicate AsOwner(t: Tables, n: Name, authority: CallAuthority, guard: MutationGuard, now: nat) {
    && Resolvable(t, n, now) && guard.expectedNameSeq == t.names[n].nameSeq
    && ActsAsOwner(t, n, authority, now)
  }

  /** The same, or a controller with this permission. */
  predicate AsAllowed(
    t: Tables, n: Name, ty: DocType, permission: nat, authority: CallAuthority, guard: MutationGuard, now: nat)
  {
    && Resolvable(t, n, now) && guard.expectedNameSeq == t.names[n].nameSeq
    && Allowed(t, n, ty, permission, authority, now)
  }

  lemma GuardedWhen(t: Tables, n: Name, ty: DocType, permission: nat, authority: CallAuthority, guard: MutationGuard,
                    now: nat)
    ensures var s := RequiredActiveName(t, n, now);
      && (s.Success? && CheckGuard(s.value, guard).Pass? && AuthorizeOwner(t, n, authority, now).Pass? <==>
          AsOwner(t, n, authority, guard, now))
      && (s.Success? && CheckGuard(s.value, guard).Pass? && AuthorizeUpdate(t, n, ty, permission, authority, now).Pass? <==>
          AsAllowed(t, n, ty, permission, authority, guard, now))
  {
    hide AuthorizeOwner, AuthorizeUpdate, RequiredActiveName, ActsAsOwner, Allowed;
    RequiredWhen(t, n, now);
    if Resolvable(t, n, now) {
      OwnerCheckMeans(t, n, authority, now);
      UpdateCheckMeans(t, n, ty, permission, authority, now);
    }
  }

  /** A name that a live name refers to as its owner keeps a live key. */
  predicate KeysStay(t: Tables, n: Name, updates: seq<KeyUpdate>, now: nat) {
    var keys := ApplyKeyUpdates(KeysOf(t, n), updates);
    || (exists kid | kid in keys :: LiveKey(keys[kid], now))
    || !(exists m | m in t.names :: Live(t, m, now) && t.names[m].semanticOwner == BnsName(n))
  }

  predicate ControllersKeyed(t: Tables, rules: seq<ControllerRule>, now: nat) {
    forall r | r in rules && r.controller.BnsName? :: Keyed(t, r.controller.name, now)
  }

  /** Every rule names a controller, and no account is empty. */
  predicate ControllersNamed(rules: seq<ControllerRule>) {
    forall r | r in rules :: r.controller.BnsName? || (r.controller.ChainAccount? && r.controller.account != "")
  }

  /** The owner graph with this row in place passes the check. */
  predicate GraphAllows(t: Tables, n: Name, row: NameState, now: nat) {
    OwnerGraphOk(t.names[n := row], t.sets, now)
  }

  // ----- one row, one document -----

  predicate CommitsAlone(t: Tables, op: Operation, now: nat)
    requires !op.Register? && !op.Bootstrap? && !op.Transfer? && !op.Mutate? && !op.Rotate?
  {
    match op
    case Renew(n, duration) =>
      && duration > 0 && n in t.names && t.names[n].renewable && t.names[n].status !in {Released, Tombstoned}
      && (if t.names[n].status in {Active, Expired} then OwnerUsable(t, n, t.names[n].semanticOwner, now)
          else OwnerKnown(t, n, t.names[n].semanticOwner, now))
    case StandardTransfer(n, assetOwner) =>
      && assetOwner != "" && Live(t, n, now) && n.Top? && t.names[n].transferable
      && !t.names[n].semanticOwner.BnsName?
    case SetOwner(n, owner, authority, guard) =>
      && !owner.ChainAccount? && AsOwner(t, n, authority, guard, now) && OwnerUsable(t, n, owner, now)
      && GraphAllows(t, n, t.names[n].(semanticOwner := owner), now)
    case Release(n, mode, _, authority, guard) =>
      && AsOwner(t, n, authority, guard, now)
      && GraphAllows(t, n, t.names[n].(status := if mode.TombstoneForever? then Tombstoned else Released), now)
    case UpdateKeys(n, keyUpdates, authority, guard) =>
      AsOwner(t, n, authority, guard, now) && KeysStay(t, n, keyUpdates, now)
    case SetMinIat(n, iat, _, authority, guard) =>
      AsOwner(t, n, authority, guard, now) && t.names[n].minDocumentIat <= iat
    case SetPolicy(n, rules, _, authority, guard) =>
      ControllersNamed(rules) && AsOwner(t, n, authority, guard, now) && ControllersKeyed(t, rules, now)
    case Publish(n, document, authority, guard) =>
      && AsAllowed(t, n, document.docType, PERMISSION_PUBLISH_DOCUMENT, authority, guard, now)
      && document.expectedVersion == CurrentVersion(t.documents, n, document.docType)
    case Revoke(n, ty, expectedVersion, _, authority, guard) =>
      && AsAllowed(t, n, ty, PERMISSION_REVOKE_DOCUMENT, authority, guard, now)
      && expectedVersion == CurrentVersion(t.documents, n, ty)
    case SetPayment(n, ty, expectedVersion, _, beneficiary, _, _, _, _, authority, guard) =>
      && beneficiary != ChainAccount("")
      && AsAllowed(t, n, ty, PERMISSION_SET_PAYMENT, authority, guard, now)
      && expectedVersion == CurrentVersion(t.documents, n, ty)
      && DocumentKey(n, ty, expectedVersion) in t.documents
      && t.documents[DocumentKey(n, ty, expectedVersion)].current
    case SetNamespace(n, _, _, authority, guard) =>
      AsAllowed(t, n, "", PERMISSION_SET_NAMESPACE, authority, guard, now)
    case SetAlias(n, _, _, _, authority, guard) =>
      AsAllowed(t, n, "", PERMISSION_SET_ALIAS, authority, guard, now)
    case PublishCheckpoint(issuer, _) => issuer != ChainAccount("")
  }

  lemma RenewWhen(t: Tables, op: Operation, now: nat)
    requires op.Renew?
    ensures Apply(t, op, now).Success? <==> CommitsAlone(t, op, now)
  {
    hide SaveName;
    if op.name in t.names {
      SavesWhen(t, op.name, RenewedState(t.names[op.name], op.duration, now), now);
    }
  }

  lemma StandardTransferWhen(t: Tables, op: Operation, now: nat)
    requires op.StandardTransfer?
    ensures Apply(t, op, now).Success? <==> CommitsAlone(t, op, now)
  {
    hide SaveName, RequiredActiveName;
    var n := op.name;
    RequiredWhen(t, n, now);
    if Resolvable(t, n, now) {
      var s := RequiredActiveName(t, n, now).value;
      SavesWhen(t, n, s.(assetOwner := op.assetOwner, nameSeq := s.nameSeq + 1, updatedAt := now), now);
    }
  }

  /** Saving the row of a name that can act, with its references unchanged, on tables with the same names and sets. */
  lemma SavesAgain(t: Tables, u: Tables, n: Name, s: NameState, now: nat)
    requires Resolvable(t, n, now) && u.names == t.names && u.sets == t.sets
    requires s.semanticOwner == t.names[n].semanticOwner
    requires s.status == Active ==> s.expireAt == t.names[n].expireAt
    ensures SaveName(u, n, s, now).Success?
  {
    hide SaveName;
    SavesWhen(u, n, s, now);
    ResolvableReads(t, u, n, now);
    ResolvableUsable(u, n, now);
  }

  lemma SingleRowWhen(t: Tables, op: Operation, now: nat)
    requires op.SetNamespace? || op.SetAlias? || op.SetMinIat?
    ensures Apply(t, op, now).Success? <==> CommitsAlone(t, op, now)
  {
    hide SaveName, RequiredActiveName, AuthorizeOwner, AuthorizeUpdate, Resolvable, ActsAsOwner, Allowed, SameCore;
    var n := op.name;
    var permission := if op.SetAlias? then PERMISSION_SET_ALIAS else PERMISSION_SET_NAMESPACE;
    GuardedWhen(t, n, "", permission, op.authority, op.guard, now);
    RequiredWhen(t, n, now);
    if Resolvable(t, n, now) {
      var s := RequiredActiveName(t, n, now).value;
      CoreOf(t, n, s, now);
      var s1 := match op
        case SetNamespace(_, allow, policyHash, _, _) =>
          s.(allowDelegatedSubnames := allow, namespacePolicyHash := policyHash, nameSeq := s.nameSeq + 1, updatedAt := now)
        case SetAlias(_, _, _, proofHash, _, _) => s.(aliasStateHash := proofHash, nameSeq := s.nameSeq + 1, updatedAt := now)
        case SetMinIat(_, iat, _, _, _) =>
          s.(nameSeq := s.nameSeq + 1, minDocumentIat := iat, ownerPolicySeq := s.ownerPolicySeq + 1, updatedAt := now);
      SavesAgain(t, t, n, s1, now);
    }
  }

  lemma CoreOf(t: Tables, n: Name, s: NameState, now: nat)
    requires Resolvable(t, n, now) && SameCore(t.names[n], s)
    ensures s.semanticOwner == t.names[n].semanticOwner && s.status == Active == t.names[n].status
    ensures s.expireAt == t.names[n].expireAt && s.minDocumentIat == t.names[n].minDocumentIat
    ensures s.assetOwner == t.names[n].assetOwner && Within(0, s.expireAt, now)
  {
  }

  lemma PublishesWhen(t: Tables, n: Name, u: DocumentUpdate, bump: bool, now: nat)
    ensures PublishInternal(t, n, u, bump, now).Success? <==>
      Resolvable(t, n, now) && u.expectedVersion == CurrentVersion(t.documents, n, u.docType)
  {
    hide SaveName, RequiredActiveName, Resolvable, SameCore, PutDocument, SealDocument, CurrentVersion, LatestVersion;
    var key := DocumentKey(n, u.docType, LatestVersion(t.documents, n, u.docType) + 1);
    var d := SealDocument(key, PublishedDocument(u, CurrentVersion(t.documents, n, u.docType), now));
    var t1 := t.(documents := PutDocument(t.documents, key, d));
    ResolvableReads(t, t1, n, now);
    RequiredWhen(t1, n, now);
    if Resolvable(t1, n, now) {
      var s := RequiredActiveName(t1, n, now).value;
      CoreOf(t1, n, s, now);
      SavesAgain(t1, t1, n, WithDocumentVersion(s, u.docType, key.version).(
        nameSeq := if bump then s.nameSeq + 1 else s.nameSeq, updatedAt := now), now);
    }
  }

  lemma DocumentWhen(t: Tables, op: Operation, now: nat)
    requires op.Publish? || op.Revoke? || op.SetPayment?
    ensures Apply(t, op, now).Success? <==> CommitsAlone(t, op, now)
  {
    hide SaveName, RequiredActiveName, AuthorizeOwner, AuthorizeUpdate, Resolvable, ActsAsOwner, Allowed, SameCore;
    hide PublishInternal, RevokeInternal, PaymentInternal, CurrentVersion;
    var n := op.name;
    var ty := if op.Publish? then op.document.docType else op.docType;
    var permission := if op.Publish? then PERMISSION_PUBLISH_DOCUMENT
                      else if op.Revoke? then PERMISSION_REVOKE_DOCUMENT else PERMISSION_SET_PAYMENT;
    GuardedWhen(t, n, ty, permission, op.authority, op.guard, now);
    RequiredWhen(t, n, now);
    if Resolvable(t, n, now) {
      var s := RequiredActiveName(t, n, now).value;
      match op
      case Publish(_, document, _, _) => PublishesWhen(t, n, document, true, now);
      case Revoke(_, _, expected, reason, _, _) => RevokesWhen(t, n, s, ty, expected, reason, now);
      case SetPayment(_, _, expected, target, beneficiary, payment, split, price, rights, _, _) =>
        PaysWhen(t, n, s, op, now);
    }
  }

  lemma RevokesWhen(t: Tables, n: Name, s: NameState, ty: DocType, expected: nat, reason: Hash, now: nat)
    requires Resolvable(t, n, now) && SameCore(t.names[n], s)
    ensures RevokeInternal(t, n, s, ty, expected, reason, now).Success? <==> expected == CurrentVersion(t.documents, n, ty)
  {
    hide SaveName, Resolvable, SameCore, PutDocument, SealDocument, CurrentVersion, LatestVersion;
    var key := DocumentKey(n, ty, LatestVersion(t.documents, n, ty) + 1);
    var d := SealDocument(key, RevokedDocument(CurrentVersion(t.documents, n, ty), now));
    CoreOf(t, n, s, now);
    SavesAgain(t, t.(documents := PutDocument(t.documents, key, d)), n,
               WithDocumentVersion(s, ty, key.version).(nameSeq := s.nameSeq + 1, updatedAt := now), now);
  }

  lemma PaysWhen(t: Tables, n: Name, s: NameState, op: Operation, now: nat)
    requires op.SetPayment? && Resolvable(t, n, now) && SameCore(t.names[n], s)
    ensures PaymentInternal(t, n, s, op.docType, op.expectedVersion, op.paymentTarget, op.beneficiary,
                            op.payment, op.split, op.price, op.rights, now).Success? <==>
      var key := DocumentKey(n, op.docType, op.expectedVersion);
      op.expectedVersion == CurrentVersion(t.documents, n, op.docType) && key in t.documents && t.documents[key].current
  {
    hide SaveName, Resolvable, SameCore, PutDocument, SealDocument, CurrentVersion;
    var key := DocumentKey(n, op.docType, CurrentVersion(t.documents, n, op.docType));
    if key in t.documents {
      var was := t.documents[key].state;
      var d := SealDocument(key, was.(
        paymentTarget := op.paymentTarget, beneficiary := op.beneficiary,
        policies := DocumentPolicies(was.policies.controller, op.payment, op.split, op.price, op.rights)));
      CoreOf(t, n, s, now);
      SavesAgain(t, t.(documents := PutDocument(t.documents, key, d)), n,
                 s.(paymentPolicyHash := op.payment, nameSeq := s.nameSeq + 1, updatedAt := now), now);
    }
  }

  // ----- keys and controllers -----

  lemma KeysApplyWhen(t: Tables, n: Name, updates: seq<KeyUpdate>, now: nat)
    ensures ApplyAuthorityUpdates(t, n, updates, now).Success? <==> KeysStay(t, n, updates, now)
  {
    hide ApplyKeyUpdates, AppendEvent;
    var keys := ApplyKeyUpdates(KeysOf(t, n), updates);
    var active := ActiveKeys(keys, now);
    assert |active| > 0 <==> exists kid | kid in keys :: LiveKey(keys[kid], now) by {
      if kid :| kid in keys && LiveKey(keys[kid], now) {
        assert kid in active;
      }
      if |active| > 0 {
        var kid :| kid in active;
        assert kid in keys && LiveKey(keys[kid], now);
      }
    }
    assert IsAuthorityOwner(t, n, now) <==>
      exists m | m in t.names :: Live(t, m, now) && t.names[m].semanticOwner == BnsName(n);
  }

  lemma {:induction false} ControllersPassWhen(t: Tables, rules: seq<ControllerRule>, now: nat)
    ensures CheckControllers(t, rules, now).Pass? <==> ControllersKeyed(t, rules, now)
    decreases |rules|
  {
    if rules != [] {
      ControllersPassWhen(t, rules[1..], now);
      assert rules == [rules[0]] + rules[1..];
    }
  }

  lemma BumpsWhen(t: Tables, n: Name, now: nat)
    ensures BumpName(t, n, now).Success? <==> Resolvable(t, n, now)
  {
    hide SaveName, RequiredActiveName, Resolvable, SameCore;
    RequiredWhen(t, n, now);
    if Resolvable(t, n, now) {
      var s := RequiredActiveName(t, n, now).value;
      CoreOf(t, n, s, now);
      SavesAgain(t, t, n, s.(nameSeq := s.nameSeq + 1, updatedAt := now), now);
    }
  }

  lemma InstallsWhen(t: Tables, n: Name, rules: seq<ControllerRule>, policyHash: Hash, now: nat)
    ensures InstallPolicy(t, n, rules, policyHash, now).Success? <==>
      ControllersKeyed(t, rules, now) && Resolvable(t, n, now)
  {
    hide BumpName, CheckControllers, Resolvable, ControllersKeyed;
    ControllersPassWhen(t, rules, now);
    var t1 := t.(policies := t.policies[n := ControllerPolicy(rules, policyHash)]);
    ResolvableReads(t, t1, n, now);
    BumpsWhen(t1, n, now);
  }

  lemma OwnerOnlyWhen(t: Tables, op: Operation, now: nat)
    requires op.UpdateKeys? || op.SetPolicy?
    ensures Apply(t, op, now).Success? <==> CommitsAlone(t, op, now)
  {
    hide RequiredActiveName, AuthorizeOwner, AuthorizeUpdate, Resolvable, ActsAsOwner, Allowed, SameCore;
    hide ApplyAuthorityUpdates, InstallPolicy, KeysStay, ControllersKeyed;
    GuardedWhen(t, op.name, "", 0, op.authority, op.guard, now);
    match op
    case UpdateKeys(n, updates, _, _) => KeysApplyWhen(t, n, updates, now);
    case SetPolicy(n, rules, policyHash, _, _) => InstallsWhen(t, n, rules, policyHash, now);
  }

  // ----- batches of documents -----

  lemma PublishKeepsResolvable(t: Tables, n: Name, u: DocumentUpdate, x: Name, now: nat)
    requires PublishInternal(t, n, u, false, now).Success? && Resolvable(t, x, now)
    ensures Resolvable(PublishInternal(t, n, u, false, now).value.tables, x, now)
  {
    hide PublishInternal;
    PublishSameGraph(t, n, u, now);
    RowEffects.PublishTouchesOneRow(t, n, u, false, now);
    SameGraphResolvable(t, PublishInternal(t, n, u, false, now).value.tables, x, now);
  }

  /** Rows with the same references and the same sets resolve alike. */
  lemma {:induction false} SameGraphResolvable(t: Tables, u: Tables, n: Name, now: nat)
    requires SameGraph(t, u, now) && u.sets == t.sets && Resolvable(t, n, now)
    ensures Resolvable(u, n, now)
    decreases n
  {
    if n.Sub? && !t.names[n].semanticOwner.BnsName? {
      SameGraphResolvable(t, u, n.parent, now);
    }
  }

  lemma {:induction false} PublishesAllWhen(t: Tables, n: Name, updates: seq<DocumentUpdate>, now: nat)
    requires Resolvable(t, n, now)
    ensures PublishAll(t, n, updates, now).Success? <==> VersionsKnown(t.documents, n, updates)
    ensures PublishAll(t, n, updates, now).Success? ==> Resolvable(PublishAll(t, n, updates, now).value, n, now)
    decreases |updates|
  {
    hide PublishInternal, CurrentAfter, Resolvable, CurrentVersion;
    if updates != [] {
      var k := |updates| - 1;
      PublishesAllWhen(t, n, updates[..k], now);
      KnownGrows(t.documents, n, updates);
      if PublishAll(t, n, updates[..k], now).Success? {
        var t1 := PublishAll(t, n, updates[..k], now).value;
        VersionsAfter(t, n, updates[..k], now, updates[k].docType);
        PublishesWhen(t1, n, updates[k], false, now);
        if PublishInternal(t1, n, updates[k], false, now).Success? {
          PublishKeepsResolvable(t1, n, updates[k], n, now);
        }
      }
    }
  }

  lemma KnownGrows(docs: DocumentTable, n: Name, updates: seq<DocumentUpdate>)
    requires updates != []
    ensures var k := |updates| - 1;
      VersionsKnown(docs, n, updates) <==>
      && VersionsKnown(docs, n, updates[..k])
      && updates[k].expectedVersion == CurrentAfter(docs, n, updates[..k], updates[k].docType)
  {
    hide CurrentAfter;
    var k := |updates| - 1;
    assert forall i | 0 <= i < k :: updates[..k][..i] == updates[..i] && updates[..k][i] == updates[i];
  }

  // ----- operations that set or drop an owner -----

  /** The check of the owner graph reads references, asset owners and clocks only. */
  lemma GraphReads(t: Tables, n: Name, a: NameState, b: NameState, now: nat)
    requires a.semanticOwner == b.semanticOwner && a.assetOwner == b.assetOwner
    requires a.status == b.status && a.expireAt == b.expireAt
    ensures GraphAllows(t, n, a, now) <==> GraphAllows(t, n, b, now)
  {
    hide OwnerGraphOk;
    var x, y := t.(names := t.names[n := a]), t.(names := t.names[n := b]);
    if GraphAllows(t, n, a, now) {
      SameGraphStaysOk(x, y, now);
    }
    if GraphAllows(t, n, b, now) {
      SameGraphStaysOk(y, x, now);
    }
  }

  lemma TargetPassesWhen(t: Tables, owner: Principal, now: nat)
    ensures ValidateSemanticOwnerTarget(t, owner, now).Pass? <==>
      !owner.ChainAccount? && (owner.BnsName? ==> Keyed(t, owner.name, now))
  {
  }

  lemma AssignsWhen(t: Tables, n: Name, assetOwner: Option<string>, owner: Principal, now: nat)
    requires Resolvable(t, n, now)
    ensures var row := t.names[n].(assetOwner := assetOwner.GetOr(t.names[n].assetOwner), semanticOwner := owner);
      AssignOwner(t, n, assetOwner, owner, now).Success? <==>
      !owner.ChainAccount? && OwnerUsable(t, n, owner, now) && GraphAllows(t, n, row, now)
  {
    hide SaveName, RequiredActiveName, SameCore, OwnerGraphOk, ValidateSemanticOwnerTarget, Resolvable;
    RequiredWhen(t, n, now);
    TargetPassesWhen(t, owner, now);
    var s := RequiredActiveName(t, n, now).value;
    CoreOf(t, n, s, now);
    var s1 := s.(assetOwner := assetOwner.GetOr(s.assetOwner), semanticOwner := owner,
                 nameSeq := s.nameSeq + 1, updatedAt := now);
    SavesWhen(t, n, s1, now);
    GraphReads(t, n, s1, t.names[n].(assetOwner := assetOwner.GetOr(t.names[n].assetOwner), semanticOwner := owner), now);
  }

  lemma OwnerWhen(t: Tables, op: Operation, now: nat)
    requires op.SetOwner?
    ensures Apply(t, op, now).Success? <==> CommitsAlone(t, op, now)
  {
    hide RequiredActiveName, AuthorizeOwner, AuthorizeUpdate, Resolvable, ActsAsOwner, Allowed, SameCore;
    hide AssignOwner, GraphAllows, OwnerUsable;
    GuardedWhen(t, op.name, "", 0, op.authority, op.guard, now);
    if Resolvable(t, op.name, now) {
      AssignsWhen(t, op.name, None, op.owner, now);
    }
  }

  lemma ReleaseWhen(t: Tables, op: Operation, now: nat)
    requires op.Release?
    ensures Apply(t, op, now).Success? <==> CommitsAlone(t, op, now)
  {
    hide SaveName, RequiredActiveName, AuthorizeOwner, AuthorizeUpdate, Resolvable, ActsAsOwner, Allowed, SameCore;
    hide OwnerGraphOk;
    var n := op.name;
    GuardedWhen(t, n, "", 0, op.authority, op.guard, now);
    RequiredWhen(t, n, now);
    if Resolvable(t, n, now) {
      var s := RequiredActiveName(t, n, now).value;
      var dropped := if op.mode.TombstoneForever? then Tombstoned else Released;
      var s1 := s.(status := dropped, nameSeq := s.nameSeq + 1, updatedAt := now);
      CoreOf(t, n, s, now);
      SavesAgain(t, t, n, s1, now);
      GraphReads(t, n, s1, t.names[n].(status := dropped), now);
    }
  }

  // ----- batches -----

  function Depth(n: Name): nat {
    if n.Top? then 0 else 1 + Depth(n.parent)
  }

  /** Replacing a live row by a live row changes nothing for names that are not below it. */
  lemma {:induction false} AboveUnchanged(t: Tables, u: Tables, n: Name, m: NameState, x: Name, now: nat)
    requires u.names == t.names[n := m] && u.sets == t.sets && Live(t, n, now) && Live(u, n, now)
    requires Depth(x) < Depth(n)
    ensures Resolvable(u, x, now) <==> Resolvable(t, x, now)
    decreases x
  {
    assert x != n;
    if x.Sub? {
      AboveUnchanged(t, u, n, m, x.parent, now);
    }
  }

  lemma UsableResolvable(t: Tables, u: Tables, n: Name, m: NameState, now: nat)
    requires u.names == t.names[n := m] && u.sets == t.sets && Live(t, n, now) && Live(u, n, now)
    ensures Resolvable(u, n, now) <==> OwnerUsable(t, n, m.semanticOwner, now)
  {
    if n.Sub? {
      AboveUnchanged(t, u, n, m, n.parent, now);
    }
  }

  lemma AssignedResolvable(t: Tables, n: Name, assetOwner: Option<string>, owner: Principal, now: nat)
    requires Resolvable(t, n, now) && AssignOwner(t, n, assetOwner, owner, now).Success?
    ensures Resolvable(AssignOwner(t, n, assetOwner, owner, now).value, n, now)
  {
    hide Resolvable, RequiredActiveName, OwnerGraphOk, ValidateSemanticOwnerTarget, MaterializeNameState;
    AssignsWhen(t, n, assetOwner, owner, now);
    RowEffects.AssignedRow(t, n, assetOwner, owner, now);
    var u := AssignOwner(t, n, assetOwner, owner, now).value;
    ResolvableLive(t, n, now);
    UsableResolvable(t, u, n, u.names[n], now);
  }

  lemma ResolvableLive(t: Tables, n: Name, now: nat)
    requires Resolvable(t, n, now)
    ensures Live(t, n, now)
  {
  }

  /** A key batch that is let through leaves every name that could act able to act. */
  lemma {:induction false} KeysKeepResolvable(t: Tables, n: Name, updates: seq<KeyUpdate>, x: Name, now: nat)
    requires ApplyAuthorityUpdates(t, n, updates, now).Success? && Resolvable(t, x, now)
    ensures Resolvable(ApplyAuthorityUpdates(t, n, updates, now).value, x, now)
    decreases x
  {
    hide ApplyAuthorityUpdates, ApplyKeyUpdates, KeysStay;
    var u := ApplyAuthorityUpdates(t, n, updates, now).value;
    RowEffects.KeysKeepRows(t, n, updates, now);
    KeysWritten(t, n, updates, now);
    if t.names[x].semanticOwner.BnsName? {
      if t.names[x].semanticOwner.name == n {
        OwnerKeepsKey(t, n, updates, x, now);
      }
    } else if x.Sub? {
      KeysKeepResolvable(t, n, updates, x.parent, now);
    }
  }

  lemma OwnerKeepsKey(t: Tables, n: Name, updates: seq<KeyUpdate>, x: Name, now: nat)
    requires ApplyAuthorityUpdates(t, n, updates, now).Success?
    requires Live(t, x, now) && t.names[x].semanticOwner == BnsName(n)
    ensures RecomputeAuthoritySet(t, n, ApplyKeyUpdates(KeysOf(t, n), updates), now).activeKeyCount > 0
  {
    hide ApplyKeyUpdates, AppendEvent;
    assert IsAuthorityOwner(t, n, now);
  }

  predicate CommitsBatch(t: Tables, op: Operation, now: nat)
    requires op.Transfer? || op.Mutate? || op.Rotate?
  {
    match op
    case Transfer(n, assetOwner, owner, documents, authority, guard) =>
      && assetOwner != "" && !owner.ChainAccount? && AsOwner(t, n, authority, guard, now)
      && OwnerUsable(t, n, owner, now)
      && GraphAllows(t, n, t.names[n].(assetOwner := assetOwner, semanticOwner := owner), now)
      && VersionsKnown(t.documents, n, documents)
    case Rotate(n, keyUpdates, document, authority, guard) =>
      && document.docType == OWNER_DOC_TYPE && AsOwner(t, n, authority, guard, now) && KeysStay(t, n, keyUpdates, now)
      && document.expectedVersion == CurrentVersion(t.documents, n, OWNER_DOC_TYPE)
    case Mutate(n, keyUpdates, documents, policy, authority, guard) =>
      && (keyUpdates != [] || documents != [] || policy.RaiseIatFloor?)
      && (forall i, j | 0 <= i < j < |documents| :: documents[i].docType != documents[j].docType)
      && Resolvable(t, n, now) && guard.expectedNameSeq == t.names[n].nameSeq
      && (if OwnerOnly(op) then ActsAsOwner(t, n, authority, now)
          else forall u | u in documents :: Allowed(t, n, u.docType, PERMISSION_PUBLISH_DOCUMENT, authority, now))
      && (keyUpdates == [] || KeysStay(t, n, keyUpdates, now))
      && VersionsKnown(t.documents, n, documents)
      && (policy.RaiseIatFloor? ==> t.names[n].minDocumentIat <= policy.minDocumentIat)
  }

  lemma TransferWhen(t: Tables, op: Operation, now: nat)
    requires op.Transfer?
    ensures Apply(t, op, now).Success? <==> CommitsBatch(t, op, now)
  {
    hide RequiredActiveName, AuthorizeOwner, AuthorizeUpdate, Resolvable, ActsAsOwner, Allowed, SameCore;
    hide AssignOwner, GraphAllows, OwnerUsable, PublishAll, VersionsKnown;
    var n := op.name;
    GuardedWhen(t, n, "", 0, op.authority, op.guard, now);
    RequiredWhen(t, n, now);
    if Resolvable(t, n, now) {
      AssignsWhen(t, n, Some(op.assetOwner), op.owner, now);
      if AssignOwner(t, n, Some(op.assetOwner), op.owner, now).Success? {
        AssignedResolvable(t, n, Some(op.assetOwner), op.owner, now);
        RowEffects.AssignKeepsDocuments(t, n, Some(op.assetOwner), op.owner, now);
        var t1 := AssignOwner(t, n, Some(op.assetOwner), op.owner, now).value;
        var was := RequiredActiveName(t, n, now).value.assetOwner;
        var t2 := TransferRow(t, n, op.assetOwner, op.owner, was, now).value;
        ResolvableReads(t1, t2, n, now);
        PublishesAllWhen(t2, n, op.documents, now);
      }
    }
  }

  lemma RotateWhen(t: Tables, op: Operation, now: nat)
    requires op.Rotate?
    ensures Apply(t, op, now).Success? <==> CommitsBatch(t, op, now)
  {
    hide RequiredActiveName, AuthorizeOwner, AuthorizeUpdate, Resolvable, ActsAsOwner, Allowed, SameCore;
    hide ApplyAuthorityUpdates, PublishInternal, KeysStay, CurrentVersion;
    var n := op.name;
    GuardedWhen(t, n, "", 0, op.authority, op.guard, now);
    KeysApplyWhen(t, n, op.keyUpdates, now);
    if Resolvable(t, n, now) && ApplyAuthorityUpdates(t, n, op.keyUpdates, now).Success? {
      KeysKeepResolvable(t, n, op.keyUpdates, n, now);
      RowEffects.KeysKeepRows(t, n, op.keyUpdates, now);
      PublishesWhen(ApplyAuthorityUpdates(t, n, op.keyUpdates, now).value, n, op.document, true, now);
    }
  }

  lemma RaisesWhen(t: Tables, n: Name, iat: nat, reason: Hash, bump: bool, now: nat)
    ensures RaiseMinDocumentIat(t, n, iat, reason, bump, now).Success? <==>
      Resolvable(t, n, now) && t.names[n].minDocumentIat <= iat
  {
    hide SaveName, RequiredActiveName, Resolvable, SameCore;
    RequiredWhen(t, n, now);
    if Resolvable(t, n, now) {
      var s := RequiredActiveName(t, n, now).value;
      CoreOf(t, n, s, now);
      SavesAgain(t, t, n, s.(nameSeq := if bump then s.nameSeq + 1 else s.nameSeq, minDocumentIat := iat,
                             ownerPolicySeq := s.ownerPolicySeq + 1, updatedAt := now), now);
    }
  }

  lemma BumpedResolvable(t: Tables, n: Name, now: nat)
    requires BumpName(t, n, now).Success?
    ensures Resolvable(BumpName(t, n, now).value, n, now)
  {
    hide BumpName, Resolvable;
    BumpsWhen(t, n, now);
    RowEffects.BumpedRow(t, n, now);
    var u := BumpName(t, n, now).value;
    ResolvableLive(t, n, now);
    ResolvableUsable(t, n, now);
    UsableResolvable(t, u, n, u.names[n], now);
  }

  lemma MutateRowsWhen(t: Tables, n: Name, documents: seq<DocumentUpdate>, policy: OwnerPolicyUpdate, now: nat)
    requires Resolvable(t, n, now)
    ensures MutateRows(t, n, documents, policy, now).Success? <==>
      && VersionsKnown(t.documents, n, documents)
      && (policy.RaiseIatFloor? ==> t.names[n].minDocumentIat <= policy.minDocumentIat)
    ensures MutateRows(t, n, documents, policy, now).Success? ==>
      Resolvable(MutateRows(t, n, documents, policy, now).value, n, now)
  {
    hide BumpName, PublishAll, RaiseMinDocumentIat, Resolvable, VersionsKnown;
    BumpsWhen(t, n, now);
    BumpedResolvable(t, n, now);
    RowEffects.BumpedRow(t, n, now);
    var t1 := BumpName(t, n, now).value;
    PublishesAllWhen(t1, n, documents, now);
    if PublishAll(t1, n, documents, now).Success? {
      var t2 := PublishAll(t1, n, documents, now).value;
      RowEffects.PublishAllRow(t1, n, documents, now);
      if policy.RaiseIatFloor? {
        RaisesWhen(t2, n, policy.minDocumentIat, policy.reasonHash, false, now);
        RaisedResolvable(t2, n, policy.minDocumentIat, policy.reasonHash, now);
      }
    }
  }

  lemma RaisedResolvable(t: Tables, n: Name, iat: nat, reason: Hash, now: nat)
    requires Resolvable(t, n, now)
    ensures RaiseMinDocumentIat(t, n, iat, reason, false, now).Success? ==>
      Resolvable(RaiseMinDocumentIat(t, n, iat, reason, false, now).value.tables, n, now)
  {
    hide Resolvable, RequiredActiveName, MaterializeNameState, SameCore;
    var r := RaiseMinDocumentIat(t, n, iat, reason, false, now);
    if r.Success? {
      var u := r.value.tables;
      RaisedLive(t, n, iat, reason, now, r);
      ResolvableLive(t, n, now);
      ResolvableUsable(t, n, now);
      UsableResolvable(t, u, n, u.names[n], now);
    }
  }

  lemma RaisedLive(t: Tables, n: Name, iat: nat, reason: Hash, now: nat, r: Attempt)
    requires r == RaiseMinDocumentIat(t, n, iat, reason, false, now) && r.Success? && Live(t, n, now)
    ensures n in r.value.tables.names && Live(r.value.tables, n, now)
    ensures r.value.tables.names[n].semanticOwner == t.names[n].semanticOwner
  {
    hide RaiseMinDocumentIat;
    RowEffects.RaisedRow(t, n, iat, reason, false, now, r);
  }

  lemma AuthorizedBatchWhen(t: Tables, op: Operation, now: nat)
    requires op.Mutate? && Resolvable(t, op.name, now)
    ensures AuthorizeBatch(t, op.name, op.keyUpdates, op.documents, op.policy, op.authority, now).Pass? <==>
      if OwnerOnly(op) then ActsAsOwner(t, op.name, op.authority, now)
      else forall u | u in op.documents ::
        Allowed(t, op.name, u.docType, PERMISSION_PUBLISH_DOCUMENT, op.authority, now)
  {
    hide AuthorizeOwner, AuthorizeAll, ActsAsOwner, Allowed, Resolvable;
    ResolvableLive(t, op.name, now);
    OwnerCheckMeans(t, op.name, op.authority, now);
    AllChecksMean(t, op.name, op.documents, op.authority, now);
  }

  lemma MutateWhen(t: Tables, op: Operation, now: nat)
    requires op.Mutate?
    ensures Apply(t, op, now).Success? <==> CommitsBatch(t, op, now)
  {
    hide RequiredActiveName, AuthorizeBatch, Resolvable, ActsAsOwner, Allowed, SameCore, OwnerOnly;
    hide ApplyAuthorityUpdates, MutateRows, KeysStay, VersionsKnown;
    var n := op.name;
    RequiredWhen(t, n, now);
    KeysApplyWhen(t, n, op.keyUpdates, now);
    if Resolvable(t, n, now) {
      SeqOf(t, n, now);
      AuthorizedBatchWhen(t, op, now);
      if ApplyKeyBatch(t, n, op.keyUpdates, now).Success? {
        var t1 := ApplyKeyBatch(t, n, op.keyUpdates, now).value;
        if op.keyUpdates != [] {
          KeysKeepResolvable(t, n, op.keyUpdates, n, now);
        }
        RowEffects.KeyBatchKeepsRows(t, n, op.keyUpdates, now);
        RequiredWhen(t1, n, now);
        MutateRowsWhen(t1, n, op.documents, op.policy, now);
        if MutateRows(t1, n, op.documents, op.policy, now).Success? {
          RequiredWhen(MutateRows(t1, n, op.documents, op.policy, now).value, n, now);
        }
        if op.documents == [] {
          NothingKnown(t.documents, n);
        }
      }
    }
  }

  lemma NothingKnown(docs: DocumentTable, n: Name)
    ensures VersionsKnown(docs, n, [])
  {
  }

  lemma SeqOf(t: Tables, n: Name, now: nat)
    requires Resolvable(t, n, now)
    ensures RequiredActiveName(t, n, now).Success? && RequiredActiveName(t, n, now).value.nameSeq == t.names[n].nameSeq
  {
    hide Resolvable, RequiredActiveName;
    RequiredWhen(t, n, now);
  }
}
