/** Who may commit an operation, and what a committed operation leaves in the row and the documents. */
module RegistryEffects {
  import opened Wrappers
  import opened BnsModel
  import opened RegistryTables
  import opened Ownership
  import opened RegistrySpec
  import opened Liveness
  import opened OwnerCommits

  // ----- authorization -----

  /** The actor is well-formed and is the owner that a plain walk up the labels finds, signing with a live key. */
  predicate ActsAsOwner(t: Tables, n: Name, authority: CallAuthority, now: nat) {
    && authority.role == OwnerRole && authority.actor.Valid() && !authority.actor.Unset?
    && Resolvable(t, n, now)
    && authority.actor == PlainOwner(t, n, now).effectiveOwner
    && HasLiveKey(t, authority, now)
  }

  predicate HasLiveKey(t: Tables, authority: CallAuthority, now: nat) {
    authority.actor.BnsName? ==>
      var keys := KeysOf(t, authority.actor.name);
      authority.kid in keys && LiveKey(keys[authority.kid], now)
  }

  /** Some rule of the name's policy lets the actor use the permission now. */
  predicate ActsAsController(t: Tables, n: Name, ty: DocType, permission: nat, authority: CallAuthority, now: nat) {
    && authority.role == ControllerRole && authority.actor.Valid()
    && HasLiveKey(t, authority, now)
    && n in t.policies
    && exists r | r in t.policies[n].rules :: InForce(r, authority.actor, ty, permission, now)
  }

  predicate Allowed(t: Tables, n: Name, ty: DocType, permission: nat, authority: CallAuthority, now: nat) {
    ActsAsOwner(t, n, authority, now) || ActsAsController(t, n, ty, permission, authority, now)
  }

  /** The owner check passes for that owner and for no one else. */
  lemma OwnerCheckMeans(t: Tables, n: Name, authority: CallAuthority, now: nat)
    requires n in t.names && t.names[n].ActiveAt(now)
    ensures AuthorizeOwner(t, n, authority, now).Pass? <==> ActsAsOwner(t, n, authority, now)
  {
    hide ResolveOwner;
    ResolutionIsPlainWalk(t, n, now);
    assert t.names[n].MaterializeStatusAt(now) == t.names[n];
  }

  /** The update check passes for the owner, for controllers with a rule in force, and for no one else. */
  lemma UpdateCheckMeans(t: Tables, n: Name, ty: DocType, permission: nat, authority: CallAuthority, now: nat)
    requires n in t.names && t.names[n].ActiveAt(now)
    ensures AuthorizeUpdate(t, n, ty, permission, authority, now).Pass? <==>
      Allowed(t, n, ty, permission, authority, now)
  {
    hide ResolveOwner, AuthorizeOwner;
    OwnerCheckMeans(t, n, authority, now);
    assert forall r: ControllerRule ::
      r.Permits(authority.actor, ty, permission, now) <==> InForce(r, authority.actor, ty, permission, now);
  }

  /** A batch of documents passes when each of them would. */
  lemma {:induction false} AllChecksMean(
    t: Tables, n: Name, documents: seq<DocumentUpdate>, authority: CallAuthority, now: nat)
    requires n in t.names && t.names[n].ActiveAt(now)
    ensures AuthorizeAll(t, n, documents, authority, now).Pass? <==>
      forall u | u in documents :: Allowed(t, n, u.docType, PERMISSION_PUBLISH_DOCUMENT, authority, now)
    decreases |documents|
  {
    hide AuthorizeUpdate, Allowed;
    if documents != [] {
      UpdateCheckMeans(t, n, documents[0].docType, PERMISSION_PUBLISH_DOCUMENT, authority, now);
      AllChecksMean(t, n, documents[1..], authority, now);
      assert documents == [documents[0]] + documents[1..];
    }
  }

  /** Operations that only the owner may commit. */
  predicate OwnerOnly(op: Operation) {
    match op
    case Transfer(_, _, _, _, _, _) => true
    case SetOwner(_, _, _, _) => true
    case Release(_, _, _, _, _) => true
    case UpdateKeys(_, _, _, _) => true
    case Rotate(_, _, _, _, _) => true
    case SetMinIat(_, _, _, _, _) => true
    case SetPolicy(_, _, _, _, _) => true
    case Mutate(_, keyUpdates, documents, policy, _, _) =>
      keyUpdates != [] || policy.RaiseIatFloor? || exists u | u in documents :: u.docType == OWNER_DOC_TYPE
    case _ => false
  }

  lemma CommittedIsActive(t: Tables, op: Operation, now: nat)
    requires (OwnerOnly(op) || Permission(op).Some? || op.Mutate? || op.StandardTransfer?) && Apply(t, op, now).Success?
    ensures Live(t, op.name, now)
  {
    hide ResolveOwner, AuthorizeOwner, AuthorizeUpdate, AssignOwner, PublishInternal, ApplyAuthorityUpdates;
    hide MaterializeNameState, SaveName, SaveOwnedName, InstallPolicy, AuthorizeBatch, MutateRows;
  }

  /** No one but the owner found by the plain walk commits an owner-only operation. */
  lemma OnlyOwnerCommits(t: Tables, op: Operation, now: nat)
    requires OwnerOnly(op) && Apply(t, op, now).Success?
    ensures ActsAsOwner(t, op.name, op.authority, now)
  {
    hide ResolveOwner, AuthorizeOwner, AssignOwner, PublishInternal, ApplyAuthorityUpdates, ActsAsOwner;
    hide MaterializeNameState, SaveName, SaveOwnedName, InstallPolicy, MutateRows, RequiredActiveName;
    CommittedIsActive(t, op, now);
    OwnerCheckMeans(t, op.name, op.authority, now);
  }

  /** The document type and permission of the operations that a controller may be trusted with. */
  function Permission(op: Operation): Option<(DocType, nat)> {
    match op
    case Publish(_, document, _, _) => Some((document.docType, PERMISSION_PUBLISH_DOCUMENT))
    case Revoke(_, ty, _, _, _, _) => Some((ty, PERMISSION_REVOKE_DOCUMENT))
    case SetPayment(_, ty, _, _, _, _, _, _, _, _, _) => Some((ty, PERMISSION_SET_PAYMENT))
    case SetNamespace(_, _, _, _, _) => Some(("", PERMISSION_SET_NAMESPACE))
    case SetAlias(_, _, _, _, _, _) => Some(("", PERMISSION_SET_ALIAS))
    case _ => None
  }

  /** Every other guarded operation commits only for the owner or for a controller with that very permission. */
  lemma OnlyAllowedCommits(t: Tables, op: Operation, now: nat)
    requires Permission(op).Some? && Apply(t, op, now).Success?
    ensures Allowed(t, op.name, Permission(op).value.0, Permission(op).value.1, op.authority, now)
  {
    hide ResolveOwner, AuthorizeUpdate, PublishInternal, RevokeInternal, PaymentInternal, Allowed;
    hide MaterializeNameState, SaveName, RequiredActiveName;
    CommittedIsActive(t, op, now);
    UpdateCheckMeans(t, op.name, Permission(op).value.0, Permission(op).value.1, op.authority, now);
  }

  /** A batch of documents alone commits only if each of them might have been published by itself. */
  lemma OnlyAllowedBatchCommits(t: Tables, op: Operation, now: nat)
    requires op.Mutate? && !OwnerOnly(op) && Apply(t, op, now).Success?
    ensures forall u | u in op.documents ::
      Allowed(t, op.name, u.docType, PERMISSION_PUBLISH_DOCUMENT, op.authority, now)
  {
    hide ResolveOwner, AuthorizeAll, Allowed, MaterializeNameState, MutateRows, RequiredActiveName;
    CommittedIsActive(t, op, now);
    AllChecksMean(t, op.name, op.documents, op.authority, now);
  }

  /** A subname is registered only by the owner of its parent; a top-level name by anyone. */
  lemma OnlyParentOwnerRegisters(t: Tables, op: Operation, now: nat)
    requires (op.Register? || op.Bootstrap?) && Apply(t, op, now).Success? && op.name.Sub?
    ensures ActsAsOwner(t, op.name.parent, op.authority, now)
  {
    hide ResolveOwner, AuthorizeOwner, RegisterRow, PublishAll, BootstrapTail, MaterializeNameState, ActsAsOwner;
    OwnerCheckMeans(t, op.name.parent, op.authority, now);
  }

  /** A standard transfer needs no authority, but works only where the asset owner is the owner. */
  lemma StandardTransferNeedsFallback(t: Tables, op: Operation, now: nat)
    requires op.StandardTransfer? && Apply(t, op, now).Success?
    ensures Resolvable(t, op.name, now) && PlainOwner(t, op.name, now).source == AssetOwnerFallback
    ensures op.name.Top? && !t.names[op.name].semanticOwner.BnsName? && t.names[op.name].transferable
  {
    hide ResolveOwner, SaveName;
    CommittedIsActive(t, op, now);
    assert t.names[op.name].MaterializeStatusAt(now) == t.names[op.name];
    ResolutionIsPlainWalk(t, op.name, now);
  }
}
