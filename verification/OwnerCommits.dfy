/** Right after a commit that sets an owner reference, and what owner resolution returns. */
module OwnerCommits {
  import opened Wrappers
  import opened BnsModel
  import opened RegistryTables
  import opened OwnerGraph
  import opened Ownership
  import opened RegistrySpec
  import opened RegistryInvariants
  import opened RegistryWrites
  import opened RegistryRuns
  import opened Liveness
  import RowEffects

  // ----- owner resolution -----

  /** Walking up the labels, every row is live until an explicit owner, itself live and keyed, is met. */
  predicate Resolvable(t: Tables, n: Name, now: nat)
    decreases n
  {
    && Live(t, n, now)
    && var s := t.names[n];
       if s.semanticOwner.BnsName? then Keyed(t, s.semanticOwner.name, now)
       else n.Top? || Resolvable(t, n.parent, now)
  }

  /** The nearest explicit owner up the labels, else the asset owner of the top-level name. */
  function PlainOwner(t: Tables, n: Name, now: nat): OwnerResolution
    requires Resolvable(t, n, now)
    decreases n
  {
    var s := t.names[n];
    if s.semanticOwner.BnsName? then
      var authority := AuthoritySetOf(t, s.semanticOwner.name);
      OwnerResolution(s.semanticOwner, ExplicitSemanticOwner, authority.root, authority.authoritySeq)
    else if n.Top? then
      var authority := AuthoritySetOf(t, n);
      OwnerResolution(ChainAccount(s.assetOwner), AssetOwnerFallback, authority.root, authority.authoritySeq)
    else PlainOwner(t, n.parent, now).(source := ParentInherited)
  }

  /** Resolution reads only these fields of the row it is given. */
  lemma ResolutionReads(t: Tables, n: Name, s: NameState, m: NameState, now: nat)
    requires m.semanticOwner == s.semanticOwner && m.status == s.status && m.assetOwner == s.assetOwner
    ensures ResolveOwner(t, n, m, now) == ResolveOwner(t, n, s, now)
  {
  }

  /**
   * The mutually recursive resolution of an active name succeeds exactly when the plain walk up the
   * labels does, and then returns what that walk returns.
   */
  lemma {:induction false} ResolutionIsPlainWalk(t: Tables, n: Name, now: nat)
    requires n in t.names && t.names[n].ActiveAt(now)
    ensures ResolveOwner(t, n, t.names[n], now).Success? <==> Resolvable(t, n, now)
    ensures Resolvable(t, n, now) ==> ResolveOwner(t, n, t.names[n], now) == Success(PlainOwner(t, n, now))
    decreases n
  {
    var s := t.names[n];
    if !s.semanticOwner.BnsName? && n.Sub? && n.parent in t.names {
      var p := t.names[n.parent];
      if p.ActiveAt(now) {
        assert p.MaterializeStatusAt(now) == p;
        ResolutionIsPlainWalk(t, n.parent, now);
        var r := MaterializeNameState(t, n.parent, p, now);
        if r.Success? {
          ResolutionReads(t, n.parent, p, r.value, now);
        }
      }
    }
  }

  // ----- rows that leave the owner graph alone -----

  /** The same names with the same references, asset owners and clocks, and no key lost that mattered. */
  predicate SameGraph(t: Tables, u: Tables, now: nat) {
    && t.names.Keys == u.names.Keys
    && (forall n | n in t.names ::
          SameReferences(t.names[n], u.names[n]) && t.names[n].assetOwner == u.names[n].assetOwner)
    && (forall n | n in t.names && SelfOwned(n, t.names[n]) && t.names[n].ActiveAt(now) ::
          KeyCount(t.sets, n) > 0 ==> KeyCount(u.sets, n) > 0)
  }

  lemma {:induction false} SameGraphSamePath(t: Tables, u: Tables, n: Name, now: nat, edges: nat)
    requires SameGraph(t, u, now) && OwnerPathOk(t.names, t.sets, n, now, edges)
    ensures OwnerPathOk(u.names, u.sets, n, now, edges)
    decreases edges
  {
    if !Terminal(n, t.names[n]) {
      SameGraphSamePath(t, u, Next(n, t.names[n]), now, edges - 1);
    }
  }

  lemma SameGraphStaysOk(t: Tables, u: Tables, now: nat)
    requires SameGraph(t, u, now) && OwnerGraphOk(t.names, t.sets, now)
    ensures OwnerGraphOk(u.names, u.sets, now)
  {
    forall n | n in u.names && u.names[n].ActiveAt(now)
      ensures OwnerPathOk(u.names, u.sets, n, now, MAX_OWNER_REF_DEPTH)
    {
      SameGraphSamePath(t, u, n, now, MAX_OWNER_REF_DEPTH);
    }
  }

  lemma SameGraphTrans(t: Tables, u: Tables, w: Tables, now: nat)
    requires SameGraph(t, u, now) && SameGraph(u, w, now)
    ensures SameGraph(t, w, now)
  {
    assert forall n | n in t.names :: SameReferences(t.names[n], u.names[n]) && SameReferences(u.names[n], w.names[n]);
  }

  lemma PublishSameGraph(t: Tables, n: Name, u: DocumentUpdate, now: nat)
    requires PublishInternal(t, n, u, false, now).Success?
    ensures SameGraph(t, PublishInternal(t, n, u, false, now).value.tables, now)
  {
    hide PublishInternal;
    RowEffects.PublishRow(t, n, u, false, now);
    RowEffects.PublishTouchesOneRow(t, n, u, false, now);
  }

  lemma {:induction false} PublishAllSameGraph(t: Tables, n: Name, updates: seq<DocumentUpdate>, now: nat)
    requires PublishAll(t, n, updates, now).Success?
    ensures SameGraph(t, PublishAll(t, n, updates, now).value, now)
    decreases |updates|
  {
    if updates != [] {
      var k := |updates| - 1;
      var t1 := PublishAll(t, n, updates[..k], now).value;
      PublishAllSameGraph(t, n, updates[..k], now);
      PublishSameGraph(t1, n, updates[k], now);
      SameGraphTrans(t, t1, PublishAll(t, n, updates, now).value, now);
    }
  }

  lemma KeysSameGraph(t: Tables, n: Name, updates: seq<KeyUpdate>, now: nat)
    requires ApplyKeyBatch(t, n, updates, now).Success?
    ensures SameGraph(t, ApplyKeyBatch(t, n, updates, now).value, now)
  {
    hide ApplyKeyUpdates, RecomputeAuthoritySet, AppendEvent, StoredKeys;
    var u := ApplyKeyBatch(t, n, updates, now).value;
    assert u.names == t.names by {
      RowEffects.KeyBatchKeepsRows(t, n, updates, now);
    }
    if updates != [] && n in t.names && SelfOwned(n, t.names[n]) && t.names[n].ActiveAt(now) {
      assert IsAuthorityOwner(t, n, now);
    }
    if updates != [] {
      KeysWritten(t, n, updates, now);
    }
  }

  lemma KeysWritten(t: Tables, n: Name, updates: seq<KeyUpdate>, now: nat)
    requires ApplyAuthorityUpdates(t, n, updates, now).Success?
    ensures ApplyAuthorityUpdates(t, n, updates, now).value.sets ==
      t.sets[n := RecomputeAuthoritySet(t, n, ApplyKeyUpdates(KeysOf(t, n), updates), now)]
  {
    hide ApplyKeyUpdates, RecomputeAuthoritySet;
  }

  lemma PolicySameGraph(t: Tables, n: Name, rules: seq<ControllerRule>, policyHash: Hash, now: nat)
    requires InstallPolicy(t, n, rules, policyHash, now).Success?
    ensures SameGraph(t, InstallPolicy(t, n, rules, policyHash, now).value.tables, now)
  {
    hide BumpName, CheckControllers;
    RowEffects.BumpedRow(t.(policies := t.policies[n := ControllerPolicy(rules, policyHash)]), n, now);
  }

  /** The checked row and the stored row differ only in derived fields. */
  lemma SavedGraphOk(t: Tables, n: Name, s: NameState, now: nat)
    requires SaveOwnedName(t, n, s, now).Success?
    requires s.MaterializeStatusAt(now).status == s.status
    ensures OwnerGraphOk(SaveOwnedName(t, n, s, now).value.names, t.sets, now)
  {
    var checked := t.(names := t.names[n := s]);
    SameGraphStaysOk(checked, SaveOwnedName(t, n, s, now).value, now);
  }

  // ----- the owner-setting operations -----

  predicate SetsOwner(op: Operation) {
    op.Register? || op.Bootstrap? || op.Transfer? || op.SetOwner? || op.Release?
  }

  lemma AssignOwnerGraphOk(t: Tables, n: Name, assetOwner: Option<string>, owner: Principal, now: nat)
    requires AssignOwner(t, n, assetOwner, owner, now).Success?
    ensures var u := AssignOwner(t, n, assetOwner, owner, now).value;
      OwnerGraphOk(u.names, u.sets, now)
  {
    var s := RequiredActiveName(t, n, now).value;
    SavedGraphOk(t, n, s.(assetOwner := assetOwner.GetOr(s.assetOwner),
                          semanticOwner := owner, nameSeq := s.nameSeq + 1, updatedAt := now), now);
  }

  lemma RegisterGraphOk(
    t: Tables, n: Name, assetOwner: string, options: RegisterOptions, documents: seq<DocumentUpdate>,
    authority: CallAuthority, guard: MutationGuard, now: nat, r: Attempt)
    requires r == RegisterTx(t, n, assetOwner, options, documents, authority, guard, now) && r.Success?
    requires options.duration > 0
    ensures OwnerGraphOk(r.value.tables.names, r.value.tables.sets, now)
  {
    var t0 := if n in t.names then ResetNameLineage(t, n) else t;
    var t1 := RegisterRow(t, n, assetOwner, options, now).value;
    SavedGraphOk(t0, n, FreshState(t, n, assetOwner, options, now), now);
    PublishAllSameGraph(t1, n, documents, now);
    SameGraphStaysOk(t1, r.value.tables, now);
  }

  lemma BootstrapTailGraphOk(
    t: Tables, n: Name, keyUpdates: seq<KeyUpdate>, ownerAfter: Option<Principal>,
    rules: seq<ControllerRule>, policyHash: Hash, now: nat, r: Attempt)
    requires OwnerGraphOk(t.names, t.sets, now)
    requires r == BootstrapTail(t, n, keyUpdates, ownerAfter, rules, policyHash, now) && r.Success?
    ensures OwnerGraphOk(r.value.tables.names, r.value.tables.sets, now)
  {
    var t1 := ApplyKeyBatch(t, n, keyUpdates, now).value;
    KeysSameGraph(t, n, keyUpdates, now);
    SameGraphStaysOk(t, t1, now);
    var t2 := BootstrapOwner(t1, n, ownerAfter, now).value;
    if ownerAfter.Some? {
      AssignOwnerGraphOk(t1, n, None, ownerAfter.value, now);
    }
    PolicySameGraph(t2, n, rules, policyHash, now);
    SameGraphStaysOk(t2, r.value.tables, now);
  }

  lemma TransferGraphOk(
    t: Tables, n: Name, assetOwner: string, owner: Principal, documents: seq<DocumentUpdate>,
    authority: CallAuthority, guard: MutationGuard, now: nat, r: Attempt)
    requires r == TransferName(t, n, assetOwner, owner, documents, authority, guard, now) && r.Success?
    ensures OwnerGraphOk(r.value.tables.names, r.value.tables.sets, now)
  {
    var s := RequiredActiveName(t, n, now).value;
    var t1 := TransferRow(t, n, assetOwner, owner, s.assetOwner, now).value;
    AssignOwnerGraphOk(t, n, Some(assetOwner), owner, now);
    PublishAllSameGraph(t1, n, documents, now);
    SameGraphStaysOk(t1, r.value.tables, now);
  }

  lemma ReleaseGraphOk(
    t: Tables, n: Name, mode: ReleaseMode, reasonHash: Hash,
    authority: CallAuthority, guard: MutationGuard, now: nat, r: Attempt)
    requires r == ReleaseName(t, n, mode, reasonHash, authority, guard, now) && r.Success?
    ensures OwnerGraphOk(r.value.tables.names, r.value.tables.sets, now)
  {
    var s := RequiredActiveName(t, n, now).value;
    SavedGraphOk(t, n, s.(status := ReleasedStatus(mode), nameSeq := s.nameSeq + 1, updatedAt := now), now);
  }

  /** Every owner-setting commit leaves a checked owner graph behind. */
  lemma OwnerCommitGraphOk(t: Tables, op: Operation, now: nat)
    requires SetsOwner(op) && Apply(t, op, now).Success?
    ensures var u := Apply(t, op, now).value.tables; OwnerGraphOk(u.names, u.sets, now)
  {
    var r := Apply(t, op, now);
    match op
    case Register(n, assetOwner, options, documents, authority, guard) =>
      RegisterGraphOk(t, n, assetOwner, options, documents, authority, guard, now, r);
    case Bootstrap(n, assetOwner, options, documents, keyUpdates, ownerAfter, rules, policyHash, authority, guard) =>
      var r0 := RegisterTx(t, n, assetOwner, options, documents, authority, guard, now);
      RegisterGraphOk(t, n, assetOwner, options, documents, authority, guard, now, r0);
      BootstrapTailGraphOk(r0.value.tables, n, keyUpdates, ownerAfter, rules, policyHash, now, r);
    case Transfer(n, assetOwner, owner, documents, authority, guard) =>
      TransferGraphOk(t, n, assetOwner, owner, documents, authority, guard, now, r);
    case SetOwner(n, owner, authority, guard) => AssignOwnerGraphOk(t, n, None, owner, now);
    case Release(n, mode, reasonHash, authority, guard) =>
      ReleaseGraphOk(t, n, mode, reasonHash, authority, guard, now, r);
  }

  // ----- the theorem -----

  lemma {:induction false} PathIsResolvable(t: Tables, n: Name, now: nat, edges: nat)
    requires OwnersLive(t, now) && OwnerPathOk(t.names, t.sets, n, now, edges)
    ensures Resolvable(t, n, now)
    decreases n
  {
    var s := t.names[n];
    if s.semanticOwner.BnsName? {
      assert LiveOwner(t, s.semanticOwner.name);
      if !SelfOwned(n, s) {
        assert OwnerPathOk(t.names, t.sets, s.semanticOwner.name, now, edges - 1);
      }
    } else if n.Sub? {
      PathIsResolvable(t, n.parent, now, edges - 1);
    }
  }

  /**
   * Right after a commit that sets an owner reference, every active name reaches a concrete signer over at
   * most MAX_OWNER_REF_DEPTH references through active names, and its owner resolves as the plain walk says.
   */
  lemma AfterOwnerCommit(txs: seq<Tx>, n: Name)
    requires txs != [] && ClockOk(txs) && SetsOwner(txs[|txs| - 1].op) && Committed(txs, |txs| - 1)
    requires n in Run(txs).names && Run(txs).names[n].ActiveAt(Clock(txs))
    ensures var t := Run(txs); var now := Clock(txs);
      && OwnerPathOk(t.names, t.sets, n, now, MAX_OWNER_REF_DEPTH)
      && Resolvable(t, n, now)
      && ResolveOwner(t, n, t.names[n], now) == Success(PlainOwner(t, n, now))
  {
    var k := |txs| - 1;
    var t := Run(txs);
    OwnerCommitGraphOk(Run(txs[..k]), txs[k].op, txs[k].now);
    RunKeepsInv(txs);
    PathIsResolvable(t, n, Clock(txs), MAX_OWNER_REF_DEPTH);
    ResolutionIsPlainWalk(t, n, Clock(txs));
  }
}
