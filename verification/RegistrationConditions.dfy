/** Exactly when a registration or a bootstrap commits, and the theorem for all operations. */
module RegistrationConditions {
  import opened Wrappers
  import opened BnsModel
  import opened RegistryTables
  import opened OwnerGraph
  import opened Ownership
  import opened RegistrySpec
  import opened Liveness
  import opened OwnerCommits
  import opened RegistryEffects
  import opened DocumentBatches
  import opened CommitConditions

  /** The tables a registration starts from: a name that was stored before begins a new lineage. */
  function Cleared(t: Tables, n: Name): Tables {
    if n in t.names then ResetNameLineage(t, n) else t
  }

  predicate CommitsRegistration(t: Tables, op: Operation, now: nat)
    requires op.Register? || op.Bootstrap?
  {
    var n, options := op.name, op.options;
    && (n.Top? || n.parent.Top?)
    && op.assetOwner != "" && options.duration > 0 && !options.initialSemanticOwner.ChainAccount?
    && (n in t.names ==> t.names[n].status !in {Active, Expired, Tombstoned})
    && (if n.Top? then op.authority.role == PublicRole
        else && Resolvable(t, n.parent, now) && op.guard.expectedParentNameSeq == t.names[n.parent].nameSeq
             && ActsAsOwner(t, n.parent, op.authority, now))
    && OwnerUsable(t, n, options.initialSemanticOwner, now)
    && GraphAllows(Cleared(t, n), n, FreshState(t, n, op.assetOwner, options, now), now)
    && (forall u | u in op.documents :: u.expectedVersion == 0)
    && VersionsKnown(Cleared(t, n).documents, n, op.documents)
  }

  /** A name that is not live can sign for no one, so clearing its lineage takes nothing from others. */
  lemma {:induction false} ClearedResolvable(t: Tables, n: Name, x: Name, now: nat)
    requires !Live(t, n, now)
    ensures Resolvable(Cleared(t, n), x, now) <==> Resolvable(t, x, now)
    decreases x
  {
    if x.Sub? {
      ClearedResolvable(t, n, x.parent, now);
    }
  }

  lemma ClearedUsable(t: Tables, n: Name, owner: Principal, now: nat)
    requires !Live(t, n, now)
    ensures OwnerUsable(Cleared(t, n), n, owner, now) <==> OwnerUsable(t, n, owner, now)
    ensures owner.BnsName? ==> (Keyed(Cleared(t, n), owner.name, now) <==> Keyed(t, owner.name, now))
  {
    if n.Sub? {
      ClearedResolvable(t, n, n.parent, now);
    }
  }

  /** A new live row takes nothing from others either. */
  lemma {:induction false} NewRowResolvable(t: Tables, u: Tables, n: Name, m: NameState, x: Name, now: nat)
    requires u.names == t.names[n := m] && u.sets == t.sets && !Live(t, n, now) && Resolvable(t, x, now)
    ensures Resolvable(u, x, now)
    decreases x
  {
    assert x != n;
    if x.Sub? && !t.names[x].semanticOwner.BnsName? {
      NewRowResolvable(t, u, n, m, x.parent, now);
    }
  }

  lemma NewResolvable(t: Tables, u: Tables, n: Name, m: NameState, now: nat)
    requires u.names == t.names[n := m] && u.sets == t.sets && !Live(t, n, now) && Live(u, n, now)
    requires OwnerUsable(t, n, m.semanticOwner, now)
    ensures Resolvable(u, n, now)
  {
    if n.Sub? && !m.semanticOwner.BnsName? {
      NewRowResolvable(t, u, n, m, n.parent, now);
    }
  }

  lemma FreshFields(t: Tables, n: Name, assetOwner: string, options: RegisterOptions, now: nat)
    requires options.duration > 0
    ensures var s := FreshState(t, n, assetOwner, options, now);
      s.status == Active && Within(0, s.expireAt, now) && s.semanticOwner == options.initialSemanticOwner
  {
  }

  lemma RegisterRowWhen(t: Tables, n: Name, assetOwner: string, options: RegisterOptions, now: nat)
    requires !Live(t, n, now) && options.duration > 0
    ensures RegisterRow(t, n, assetOwner, options, now).Success? <==>
      && !options.initialSemanticOwner.ChainAccount? && OwnerUsable(t, n, options.initialSemanticOwner, now)
      && GraphAllows(Cleared(t, n), n, FreshState(t, n, assetOwner, options, now), now)
  {
    hide SaveName, OwnerGraphOk, ValidateSemanticOwnerTarget, Resolvable, ResetNameLineage, OwnerUsable, FreshState;
    hide Keyed, Within, AppendEvent;
    var t1, owner := Cleared(t, n), options.initialSemanticOwner;
    var s := FreshState(t, n, assetOwner, options, now);
    FreshFields(t, n, assetOwner, options, now);
    TargetPassesWhen(t1, owner, now);
    ClearedUsable(t, n, owner, now);
    SavesWhen(t1, n, s, now);
    UsableKeyed(t, n, owner, now);
  }

  lemma RegisteredResolvable(t: Tables, n: Name, assetOwner: string, options: RegisterOptions, now: nat)
    requires !Live(t, n, now) && options.duration > 0 && RegisterRow(t, n, assetOwner, options, now).Success?
    ensures var u := RegisterRow(t, n, assetOwner, options, now).value;
      Resolvable(u, n, now) && u.documents == Cleared(t, n).documents
  {
    hide SaveName, OwnerGraphOk, ValidateSemanticOwnerTarget, Resolvable, ResetNameLineage, OwnerUsable, FreshState;
    var t1, owner := Cleared(t, n), options.initialSemanticOwner;
    var s := FreshState(t, n, assetOwner, options, now);
    FreshFields(t, n, assetOwner, options, now);
    RegisterRowWhen(t, n, assetOwner, options, now);
    ClearedUsable(t, n, owner, now);
    RowEffects.SavedActiveRow(t1, n, s, s, now);
    var t2 := SaveName(t1, n, s, now).value;
    ClearedLive(t, n, now);
    NewResolvable(t1, t2, n, t2.names[n], now);
    ResolvableReads(t2, RegisterRow(t, n, assetOwner, options, now).value, n, now);
  }

  lemma ClearedLive(t: Tables, n: Name, now: nat)
    ensures Live(Cleared(t, n), n, now) <==> Live(t, n, now)
  {
  }

  lemma UsableKeyed(t: Tables, n: Name, owner: Principal, now: nat)
    ensures OwnerUsable(t, n, owner, now) && owner.BnsName? ==> Keyed(t, owner.name, now)
  {
  }

  lemma RegistrationPassesWhen(t: Tables, n: Name, authority: CallAuthority, guard: MutationGuard, now: nat)
    ensures CheckRegistration(t, n, authority, guard, now).Pass? <==>
      && (n in t.names ==> t.names[n].status !in {Active, Expired, Tombstoned})
      && (if n.Top? then authority.role == PublicRole
          else && Resolvable(t, n.parent, now) && guard.expectedParentNameSeq == t.names[n.parent].nameSeq
               && ActsAsOwner(t, n.parent, authority, now))
  {
    hide RequiredActiveName, AuthorizeOwner, ActsAsOwner, Resolvable;
    if n.Sub? {
      RequiredWhen(t, n.parent, now);
      if Resolvable(t, n.parent, now) {
        SeqOf(t, n.parent, now);
        ResolvableLive(t, n.parent, now);
        OwnerCheckMeans(t, n.parent, authority, now);
      }
    }
  }

  /** The part that both share, once the request itself is in order. */
  lemma RegisterTxWhen(t: Tables, op: Operation, now: nat, r: Attempt)
    requires (op.Register? || op.Bootstrap?) && op.options.duration > 0
    requires r == RegisterTx(t, op.name, op.assetOwner, op.options, op.documents, op.authority, op.guard, now)
    ensures r.Success? <==>
      && CheckRegistration(t, op.name, op.authority, op.guard, now).Pass?
      && RegisterRow(t, op.name, op.assetOwner, op.options, now).Success?
      && VersionsKnown(Cleared(t, op.name).documents, op.name, op.documents)
    ensures r.Success? ==> Resolvable(r.value.tables, op.name, now)
  {
    hide CheckRegistration, RegisterRow, PublishAll, VersionsKnown, Resolvable, Cleared, FreshState;
    var n := op.name;
    if CheckRegistration(t, n, op.authority, op.guard, now).Pass? {
      RegistrationPassesWhen(t, n, op.authority, op.guard, now);
      RegisterRowWhen(t, n, op.assetOwner, op.options, now);
      if RegisterRow(t, n, op.assetOwner, op.options, now).Success? {
        RegisteredResolvable(t, n, op.assetOwner, op.options, now);
        PublishesAllWhen(RegisterRow(t, n, op.assetOwner, op.options, now).value, n, op.documents, now);
      }
    }
  }

  lemma RegisterWhen(t: Tables, op: Operation, now: nat)
    requires op.Register?
    ensures Apply(t, op, now).Success? <==> CommitsRegistration(t, op, now)
  {
    hide RegisterTx, CheckRegistration, RegisterRow, VersionsKnown, Resolvable, Cleared, ActsAsOwner, OwnerUsable;
    hide GraphAllows;
    RegistrationPassesWhen(t, op.name, op.authority, op.guard, now);
    if op.options.duration > 0 {
      var r := RegisterTx(t, op.name, op.assetOwner, op.options, op.documents, op.authority, op.guard, now);
      RegisterTxWhen(t, op, now, r);
      if CheckRegistration(t, op.name, op.authority, op.guard, now).Pass? {
        RegisterRowWhen(t, op.name, op.assetOwner, op.options, now);
      }
    }
  }

  /** The registration inside a bootstrap. */
  function AsRegistration(op: Operation): Operation
    requires op.Bootstrap?
  {
    Register(op.name, op.assetOwner, op.options, op.documents, op.authority, op.guard)
  }

  /**
   * A bootstrap commits if its registration would, and then, one after the other: the keys may be set, the owner is usable
   * once they are, and every controller can sign.
   */
  predicate CommitsBootstrap(t: Tables, op: Operation, now: nat)
    requires op.Bootstrap?
  {
    var n := op.name;
    && (op.ownerAfter.Some? ==> !op.ownerAfter.value.ChainAccount?)
    && ControllersNamed(op.rules)
    && CommitsRegistration(t, op, now)
    && Apply(t, AsRegistration(op), now).Success?
    && var registered := Apply(t, AsRegistration(op), now).value.tables;
       && (op.keyUpdates == [] || KeysStay(registered, n, op.keyUpdates, now))
       && ApplyKeyBatch(registered, n, op.keyUpdates, now).Success?
       && var keyed := ApplyKeyBatch(registered, n, op.keyUpdates, now).value;
          && n in keyed.names
          && (op.ownerAfter.Some? ==>
                && OwnerUsable(keyed, n, op.ownerAfter.value, now)
                && GraphAllows(keyed, n, keyed.names[n].(semanticOwner := op.ownerAfter.value), now))
          && ControllersKeyed(keyed, op.rules, now)
  }

  lemma TailWhen(t: Tables, op: Operation, now: nat)
    requires op.Bootstrap? && Resolvable(t, op.name, now)
    requires op.ownerAfter.Some? ==> !op.ownerAfter.value.ChainAccount?
    ensures BootstrapTail(t, op.name, op.keyUpdates, op.ownerAfter, op.rules, op.policyHash, now).Success? <==>
      && ApplyKeyBatch(t, op.name, op.keyUpdates, now).Success?
      && var keyed := ApplyKeyBatch(t, op.name, op.keyUpdates, now).value;
         && op.name in keyed.names
         && (op.ownerAfter.Some? ==>
               && OwnerUsable(keyed, op.name, op.ownerAfter.value, now)
               && GraphAllows(keyed, op.name, keyed.names[op.name].(semanticOwner := op.ownerAfter.value), now))
         && ControllersKeyed(keyed, op.rules, now)
  {
    hide Resolvable, OwnerUsable, GraphAllows, ControllersKeyed, ApplyAuthorityUpdates, AssignOwner, InstallPolicy;
    var n := op.name;
    if ApplyKeyBatch(t, n, op.keyUpdates, now).Success? {
      var t1 := ApplyKeyBatch(t, n, op.keyUpdates, now).value;
      if op.keyUpdates != [] {
        KeysKeepResolvable(t, n, op.keyUpdates, n, now);
      }
      ResolvableLive(t1, n, now);
      OwnerStepWhen(t1, n, op.ownerAfter, now);
      if BootstrapOwner(t1, n, op.ownerAfter, now).Success? {
        var t2 := BootstrapOwner(t1, n, op.ownerAfter, now).value;
        InstallsWhen(t2, n, op.rules, op.policyHash, now);
        OwnerStepKeeps(t1, n, op.ownerAfter, op.rules, now);
      }
    }
  }

  lemma OwnerStepWhen(t: Tables, n: Name, ownerAfter: Option<Principal>, now: nat)
    requires Resolvable(t, n, now) && (ownerAfter.Some? ==> !ownerAfter.value.ChainAccount?)
    ensures BootstrapOwner(t, n, ownerAfter, now).Success? <==>
      (ownerAfter.Some? ==>
         && OwnerUsable(t, n, ownerAfter.value, now)
         && GraphAllows(t, n, t.names[n].(semanticOwner := ownerAfter.value), now))
    ensures BootstrapOwner(t, n, ownerAfter, now).Success? ==>
      Resolvable(BootstrapOwner(t, n, ownerAfter, now).value, n, now)
  {
    hide Resolvable, OwnerUsable, GraphAllows, AssignOwner;
    if ownerAfter.Some? {
      AssignsWhen(t, n, None, ownerAfter.value, now);
      if AssignOwner(t, n, None, ownerAfter.value, now).Success? {
        AssignedResolvable(t, n, None, ownerAfter.value, now);
        ResolvableReads(AssignOwner(t, n, None, ownerAfter.value, now).value,
                        BootstrapOwner(t, n, ownerAfter, now).value, n, now);
      }
    }
  }

  /** Setting an owner changes neither what is live nor what is keyed. */
  lemma OwnerStepKeeps(t: Tables, n: Name, ownerAfter: Option<Principal>, rules: seq<ControllerRule>, now: nat)
    requires Resolvable(t, n, now) && BootstrapOwner(t, n, ownerAfter, now).Success?
    ensures ControllersKeyed(BootstrapOwner(t, n, ownerAfter, now).value, rules, now) <==> ControllersKeyed(t, rules, now)
  {
    hide Resolvable, RequiredActiveName, OwnerGraphOk, ValidateSemanticOwnerTarget, MaterializeNameState;
    if ownerAfter.Some? {
      RowEffects.AssignedRow(t, n, None, ownerAfter.value, now);
      ResolvableLive(t, n, now);
      var u := BootstrapOwner(t, n, ownerAfter, now).value;
      assert forall x :: Keyed(u, x, now) <==> Keyed(t, x, now);
    }
  }

  lemma BootstrapWhen(t: Tables, op: Operation, now: nat)
    requires op.Bootstrap?
    ensures Apply(t, op, now).Success? <==> CommitsBootstrap(t, op, now)
  {
    hide RegisterTx, BootstrapTail, KeysStay, OwnerUsable, GraphAllows, ControllersKeyed, ApplyAuthorityUpdates;
    hide CommitsRegistration, Resolvable;
    var n := op.name;
    RegisterWhen(t, AsRegistration(op), now);
    SameRegistration(t, op, now);
    if op.options.duration > 0 {
      var r := RegisterTx(t, n, op.assetOwner, op.options, op.documents, op.authority, op.guard, now);
      RegisterTxWhen(t, op, now, r);
      if r.Success? && (op.ownerAfter.Some? ==> !op.ownerAfter.value.ChainAccount?) {
        TailWhen(r.value.tables, op, now);
        KeysApplyWhen(r.value.tables, n, op.keyUpdates, now);
      }
    }
  }

  lemma SameRegistration(t: Tables, op: Operation, now: nat)
    requires op.Bootstrap?
    ensures CommitsRegistration(t, AsRegistration(op), now) <==> CommitsRegistration(t, op, now)
  {
    hide VersionsKnown, Resolvable, Cleared, ActsAsOwner, OwnerUsable, GraphAllows, FreshState;
  }

  // ----- all operations -----

  /** What an operation needs to commit, said on the stored rows and its arguments. */
  predicate Commits(t: Tables, op: Operation, now: nat) {
    match op
    case Register(_, _, _, _, _, _) => CommitsRegistration(t, op, now)
    case Bootstrap(_, _, _, _, _, _, _, _, _, _) => CommitsBootstrap(t, op, now)
    case Transfer(_, _, _, _, _, _) => CommitsBatch(t, op, now)
    case Mutate(_, _, _, _, _, _) => CommitsBatch(t, op, now)
    case Rotate(_, _, _, _, _) => CommitsBatch(t, op, now)
    case _ => CommitsAlone(t, op, now)
  }

  /** Every operation commits exactly when its condition holds. */
  lemma CommitsExactlyWhen(t: Tables, op: Operation, now: nat)
    ensures Apply(t, op, now).Success? <==> Commits(t, op, now)
  {
    hide Apply, CommitsRegistration, CommitsBootstrap, CommitsBatch, CommitsAlone;
    match op
    case Register(_, _, _, _, _, _) => RegisterWhen(t, op, now);
    case Bootstrap(_, _, _, _, _, _, _, _, _, _) => BootstrapWhen(t, op, now);
    case Transfer(_, _, _, _, _, _) => TransferWhen(t, op, now);
    case Mutate(_, _, _, _, _, _) => MutateWhen(t, op, now);
    case Rotate(_, _, _, _, _) => RotateWhen(t, op, now);
    case Renew(_, _) => RenewWhen(t, op, now);
    case StandardTransfer(_, _) => StandardTransferWhen(t, op, now);
    case SetOwner(_, _, _, _) => OwnerWhen(t, op, now);
    case Release(_, _, _, _, _) => ReleaseWhen(t, op, now);
    case UpdateKeys(_, _, _, _) => OwnerOnlyWhen(t, op, now);
    case SetPolicy(_, _, _, _, _) => OwnerOnlyWhen(t, op, now);
    case SetMinIat(_, _, _, _, _) => SingleRowWhen(t, op, now);
    case SetNamespace(_, _, _, _, _) => SingleRowWhen(t, op, now);
    case SetAlias(_, _, _, _, _, _) => SingleRowWhen(t, op, now);
    case Publish(_, _, _, _) => DocumentWhen(t, op, now);
    case Revoke(_, _, _, _, _, _) => DocumentWhen(t, op, now);
    case SetPayment(_, _, _, _, _, _, _, _, _, _, _) => DocumentWhen(t, op, now);
    case PublishCheckpoint(_, _) => CheckpointWhen(t, op, now);
  }

  lemma CheckpointWhen(t: Tables, op: Operation, now: nat)
    requires op.PublishCheckpoint?
    ensures Apply(t, op, now).Success? <==> CommitsAlone(t, op, now)
  {
  }
}
