/** Each building block of a registry transaction keeps the invariant. */
module RegistryBlocks {
  import opened Wrappers
  import opened BnsModel
  import opened RegistryTables
  import opened Ownership
  import opened RegistrySpec
  import opened RegistryHistory
  import opened RegistryInvariants
  import opened RegistryWrites

  /** u is a sound successor of t in which only the row of n changed unannounced. */
  ghost predicate Follows(t: Tables, u: Tables, n: Name, now: nat) {
    Inv(u, now) && Changes(t, u, n)
  }

  predicate SeqKept(t: Tables, u: Tables, n: Name) {
    n in t.names ==> n in u.names && t.names[n].nameSeq <= u.names[n].nameSeq
  }

  ghost predicate Announces(t: Tables, u: Tables, n: Name) {
    NamePushed(NewRecords(t, u), n)
  }

  lemma FollowsTrans(t: Tables, u: Tables, w: Tables, n: Name, now: nat)
    requires Follows(t, u, n, now) && Follows(u, w, n, now)
    ensures Follows(t, w, n, now)
    ensures Announces(t, u, n) || Announces(u, w, n) ==> Announces(t, w, n)
    ensures SeqKept(t, w, n)
  {
    ChangesCompose(t, u, w, n);
  }

  lemma FollowsSelf(t: Tables, n: Name, now: nat)
    requires Inv(t, now)
    ensures Follows(t, t, n, now)
  {
  }

  /** Tables that no invariant looks at. */
  lemma SideTables(t: Tables, policies: map<Name, ControllerPolicy>, aliases: map<Name, AliasState>, n: Name, now: nat)
    requires Inv(t, now)
    ensures Follows(t, t.(policies := policies, aliases := aliases), n, now)
  {
    hide DocumentsMatch, VersionsInOrder, PaymentsInOrder;
    var u := t.(policies := policies, aliases := aliases);
    assert Log(u) == Log(t);
    forall x
      ensures NameMatches(u, Log(u), x)
    {
      assert NameMatches(t, Log(t), x);
    }
    forall x | x in u.names && u.names[x].ActiveAt(now) && u.names[x].semanticOwner.BnsName?
      ensures LiveOwner(u, u.names[x].semanticOwner.name)
    {
      assert LiveOwner(t, t.names[x].semanticOwner.name);
    }
  }

  lemma SaveKeptName(t: Tables, n: Name, s: NameState, now: nat)
    requires Inv(t, now) && n in t.names && t.names[n].ActiveAt(now)
    requires KeepsRow(t.names[n], s) && SaveName(t, n, s, now).Success?
    ensures Follows(t, SaveName(t, n, s, now).value, n, now)
    ensures n in SaveName(t, n, s, now).value.names && SameCore(s, SaveName(t, n, s, now).value.names[n])
  {
    hide Inv, Changes, NamePushed, NewRecords;
    PutKeptRow(t, n, MaterializeNameState(t, n, s, now).value, now);
  }

  /** A kept row followed by a neutral event that names it. */
  lemma SaveAndAnnounce(t: Tables, n: Name, s: NameState, e: RegistryEvent, now: nat)
    requires Inv(t, now) && n in t.names && t.names[n].ActiveAt(now)
    requires KeepsRow(t.names[n], s) && SaveName(t, n, s, now).Success?
    requires Neutral(e) && PushesName(e, n)
    ensures var u := AppendEvent(SaveName(t, n, s, now).value, e, now);
      && Follows(t, u, n, now) && Announces(t, u, n)
      && n in u.names && SameCore(s, u.names[n])
  {
    hide Inv, Changes, NamePushed, NewRecords;
    var t1 := SaveName(t, n, s, now).value;
    SaveKeptName(t, n, s, now);
    AppendNeutral(t1, e, now, n);
    FollowsTrans(t, t1, AppendEvent(t1, e, now), n, now);
  }

  /** The next version of a document, saved together with its name row. */
  lemma NewVersionFollows(t: Tables, key: DocumentKey, d: DocumentState, s: NameState, e: RegistryEvent, now: nat)
    requires Inv(t, now) && key.name in t.names && t.names[key.name].ActiveAt(now)
    requires SameReferences(t.names[key.name], s) && s.lineageEpoch == t.names[key.name].lineageEpoch
    requires s.nameSeq >= t.names[key.name].nameSeq
    requires s.ownerDocumentVersion ==
      if key.docType == OWNER_DOC_TYPE then key.version else t.names[key.name].ownerDocumentVersion
    requires key.version == LatestVersion(t.documents, key.name, key.docType) + 1
    requires d.previousVersion == CurrentVersion(t.documents, key.name, key.docType)
    requires AddsVersion(e, key.name, key.docType) && e.version == key.version
    requires SaveName(t.(documents := PutDocument(t.documents, key, d)), key.name, s, now).Success?
    ensures var u := AppendEvent(
        SaveName(t.(documents := PutDocument(t.documents, key, d)), key.name, s, now).value, e, now);
      && Follows(t, u, key.name, now) && Announces(t, u, key.name)
      && key.name in u.names && u.names[key.name].nameSeq == s.nameSeq
  {
    hide Inv, Changes, NamePushed, NewRecords;
    var t1 := t.(documents := PutDocument(t.documents, key, d));
    var m := MaterializeNameState(t1, key.name, s, now).value;
    assert s.MaterializeStatusAt(now) == s;
    PutNewVersion(t, key, d, m, e, now);
  }

  lemma PublishInternalFollows(t: Tables, n: Name, u: DocumentUpdate, bump: bool, now: nat)
    requires Inv(t, now) && PublishInternal(t, n, u, bump, now).Success?
    ensures var w := PublishInternal(t, n, u, bump, now).value.tables;
      && Follows(t, w, n, now) && Announces(t, w, n)
      && n in t.names && n in w.names
      && (bump ==> w.names[n].nameSeq > t.names[n].nameSeq)
  {
    hide Inv, Changes, NamePushed, NewRecords;
    var key := DocumentKey(n, u.docType, LatestVersion(t.documents, n, u.docType) + 1);
    var d := SealDocument(key, PublishedDocument(u, CurrentVersion(t.documents, n, u.docType), now));
    var t1 := t.(documents := PutDocument(t.documents, key, d));
    var s := RequiredActiveName(t1, n, now).value;
    var s1 := WithDocumentVersion(s, u.docType, key.version).(
      nameSeq := if bump then s.nameSeq + 1 else s.nameSeq, updatedAt := now);
    var e := DocumentPublished(n, u.docType, key.version, d.document.contentHash, d.stateHash);
    NewVersionFollows(t, key, d, s1, e, now);
  }

  lemma {:induction false} PublishAllFollows(t: Tables, n: Name, updates: seq<DocumentUpdate>, now: nat)
    requires Inv(t, now) && PublishAll(t, n, updates, now).Success?
    ensures Follows(t, PublishAll(t, n, updates, now).value, n, now)
    ensures updates != [] ==> Announces(t, PublishAll(t, n, updates, now).value, n)
    ensures SeqKept(t, PublishAll(t, n, updates, now).value, n)
    decreases |updates|
  {
    hide Inv, Changes, NamePushed, NewRecords;
    if updates == [] {
      FollowsSelf(t, n, now);
    } else {
      var k := |updates| - 1;
      var t1 := PublishAll(t, n, updates[..k], now).value;
      PublishAllFollows(t, n, updates[..k], now);
      PublishInternalFollows(t1, n, updates[k], false, now);
      FollowsTrans(t, t1, PublishInternal(t1, n, updates[k], false, now).value.tables, n, now);
    }
  }

  lemma KeysFollow(t: Tables, n: Name, updates: seq<KeyUpdate>, now: nat)
    requires Inv(t, now) && n in t.names && ApplyAuthorityUpdates(t, n, updates, now).Success?
    ensures Follows(t, ApplyAuthorityUpdates(t, n, updates, now).value, n, now)
    ensures ApplyAuthorityUpdates(t, n, updates, now).value.names == t.names
  {
    hide Inv, Changes, NamePushed, NewRecords;
    var keys := ApplyKeyUpdates(KeysOf(t, n), updates);
    var set_ := RecomputeAuthoritySet(t, n, keys, now);
    PutKeys(t, n, keys, set_, AuthorityKeysUpdated(n, set_.authoritySeq, set_.root), now);
  }

  lemma BumpFollows(t: Tables, n: Name, now: nat)
    requires Inv(t, now) && BumpName(t, n, now).Success?
    ensures Follows(t, BumpName(t, n, now).value, n, now)
    ensures n in t.names && n in BumpName(t, n, now).value.names
    ensures BumpName(t, n, now).value.names[n].nameSeq == t.names[n].nameSeq + 1
  {
    hide Inv, Changes, NamePushed, NewRecords;
    var s := RequiredActiveName(t, n, now).value;
    SaveKeptName(t, n, s.(nameSeq := s.nameSeq + 1, updatedAt := now), now);
  }

  lemma AssignOwnerFollows(t: Tables, n: Name, assetOwner: Option<string>, owner: Principal, now: nat)
    requires Inv(t, now) && AssignOwner(t, n, assetOwner, owner, now).Success?
    ensures Follows(t, AssignOwner(t, n, assetOwner, owner, now).value, n, now)
    ensures n in t.names && n in AssignOwner(t, n, assetOwner, owner, now).value.names
    ensures AssignOwner(t, n, assetOwner, owner, now).value.names[n].nameSeq == t.names[n].nameSeq + 1
  {
    hide Inv, Changes, NamePushed, NewRecords;
    var s := RequiredActiveName(t, n, now).value;
    var s1 := s.(assetOwner := assetOwner.GetOr(s.assetOwner),
                 semanticOwner := owner, nameSeq := s.nameSeq + 1, updatedAt := now);
    var m := MaterializeNameState(t, n, s1, now).value;
    PutOwnedRow(t, n, s1, m, now);
  }

  /** An owner reference, with the event that announces it. */
  lemma OwnerAnnounced(t: Tables, n: Name, assetOwner: Option<string>, owner: Principal, now: nat)
    requires Inv(t, now) && AssignOwner(t, n, assetOwner, owner, now).Success?
    ensures var t1 := AssignOwner(t, n, assetOwner, owner, now).value;
      && n in t1.names
      && Follows(t, AppendEvent(t1, OwnerEvent(n, t1.names[n]), now), n, now)
      && Announces(t, AppendEvent(t1, OwnerEvent(n, t1.names[n]), now), n)
  {
    hide Inv, Changes, NamePushed, NewRecords;
    var t1 := AssignOwner(t, n, assetOwner, owner, now).value;
    AssignOwnerFollows(t, n, assetOwner, owner, now);
    AppendNeutral(t1, OwnerEvent(n, t1.names[n]), now, n);
    FollowsTrans(t, t1, AppendEvent(t1, OwnerEvent(n, t1.names[n]), now), n, now);
  }

  lemma InstallPolicyFollows(t: Tables, n: Name, rules: seq<ControllerRule>, policyHash: Hash, now: nat)
    requires Inv(t, now) && InstallPolicy(t, n, rules, policyHash, now).Success?
    ensures var u := InstallPolicy(t, n, rules, policyHash, now).value.tables;
      && Follows(t, u, n, now) && Announces(t, u, n)
      && n in t.names && n in u.names && u.names[n].nameSeq == t.names[n].nameSeq + 1
  {
    hide Inv, Changes, NamePushed, NewRecords;
    var t1 := t.(policies := t.policies[n := ControllerPolicy(rules, policyHash)]);
    SideTables(t, t1.policies, t.aliases, n, now);
    var t2 := BumpName(t1, n, now).value;
    BumpFollows(t1, n, now);
    FollowsTrans(t, t1, t2, n, now);
    var e := ControllerPolicyUpdated(n, policyHash, t2.names[n].nameSeq);
    AppendNeutral(t2, e, now, n);
    FollowsTrans(t, t2, AppendEvent(t2, e, now), n, now);
  }

  lemma RaiseIatFollows(t: Tables, n: Name, iat: nat, reason: Hash, bump: bool, now: nat)
    requires Inv(t, now) && RaiseMinDocumentIat(t, n, iat, reason, bump, now).Success?
    ensures var u := RaiseMinDocumentIat(t, n, iat, reason, bump, now).value.tables;
      && Follows(t, u, n, now) && Announces(t, u, n)
      && n in t.names && SeqKept(t, u, n)
      && (bump ==> u.names[n].nameSeq > t.names[n].nameSeq)
  {
    hide Inv, Changes, NamePushed, NewRecords;
    var s := RequiredActiveName(t, n, now).value;
    var s1 := s.(
      nameSeq := if bump then s.nameSeq + 1 else s.nameSeq,
      minDocumentIat := iat, ownerPolicySeq := s.ownerPolicySeq + 1, updatedAt := now);
    var e := OwnerDocumentIatFloorUpdated(n, s.minDocumentIat, iat, s1.ownerPolicySeq, s1.nameSeq, reason);
    SaveAndAnnounce(t, n, s1, e, now);
  }

  lemma RegisterRowFollows(t: Tables, n: Name, assetOwner: string, options: RegisterOptions, now: nat)
    requires Inv(t, now) && options.duration > 0
    requires n in t.names ==> t.names[n].status !in {Active, Expired}
    requires RegisterRow(t, n, assetOwner, options, now).Success?
    ensures Follows(t, RegisterRow(t, n, assetOwner, options, now).value, n, now)
    ensures Announces(t, RegisterRow(t, n, assetOwner, options, now).value, n)
    ensures n in RegisterRow(t, n, assetOwner, options, now).value.names
  {
    hide Inv, Changes, NamePushed, NewRecords;
    var t1 := if n in t.names then ResetNameLineage(t, n) else t;
    var s := FreshState(t, n, assetOwner, options, now);
    var m := MaterializeNameState(t1, n, s, now).value;
    var e := NameRegistered(n, assetOwner, s.expireAt, s.lineageEpoch, s.nameSeq);
    PutRegisteredRow(t, n, s, m, e, now);
    assert RegisterRow(t, n, assetOwner, options, now).value == Registered(t, n, m, e, now);
  }

  lemma RevokeFollows(
    t: Tables, n: Name, s: NameState, ty: DocType, expected: nat, reason: Hash, now: nat, u: Tables)
    requires Inv(t, now) && RequiredActiveName(t, n, now) == Success(s)
    requires RevokeInternal(t, n, s, ty, expected, reason, now).Success?
    requires u == RevokeInternal(t, n, s, ty, expected, reason, now).value.tables
    ensures Follows(t, u, n, now) && Announces(t, u, n)
    ensures n in t.names && n in u.names && u.names[n].nameSeq > t.names[n].nameSeq
  {
    hide Inv, Changes, NamePushed, NewRecords;
    var actual := CurrentVersion(t.documents, n, ty);
    var key := DocumentKey(n, ty, LatestVersion(t.documents, n, ty) + 1);
    var d := SealDocument(key, RevokedDocument(actual, now));
    var s1 := WithDocumentVersion(s, ty, key.version).(nameSeq := s.nameSeq + 1, updatedAt := now);
    NewVersionFollows(t, key, d, s1, DocumentRevoked(n, ty, key.version, actual, reason), now);
  }

  lemma PaymentFollows(
    t: Tables, n: Name, s: NameState, ty: DocType, expected: nat, target: string, beneficiary: Principal,
    payment: Hash, split: Hash, price: Hash, rights: Hash, now: nat, r: Attempt)
    requires Inv(t, now) && RequiredActiveName(t, n, now) == Success(s)
    requires r == PaymentInternal(t, n, s, ty, expected, target, beneficiary, payment, split, price, rights, now)
    requires r.Success?
    ensures var u := r.value.tables;
      && Follows(t, u, n, now) && Announces(t, u, n)
      && n in t.names && n in u.names && u.names[n].nameSeq > t.names[n].nameSeq
  {
    hide Inv, Changes, NamePushed, NewRecords;
    var key := DocumentKey(n, ty, CurrentVersion(t.documents, n, ty));
    var was := t.documents[key].state;
    var d := SealDocument(key, was.(
      paymentTarget := target, beneficiary := beneficiary,
      policies := DocumentPolicies(was.policies.controller, payment, split, price, rights)));
    var t1 := t.(documents := PutDocument(t.documents, key, d));
    var s1 := s.(paymentPolicyHash := payment, nameSeq := s.nameSeq + 1, updatedAt := now);
    var m := MaterializeNameState(t1, n, s1, now).value;
    var e := PaymentTargetUpdated(n, ty, key.version, target, payment);
    assert r.value.tables == WithDocument(t, key, d, m, e, now);
    PutPayment(t, key, d, m, e, now);
  }
}
