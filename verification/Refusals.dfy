/** Why an operation is refused: the error names the first thing that is wrong, said on the stored rows. */
module Refusals {
  import opened Wrappers
  import opened BnsModel
  import opened RegistryTables
  import opened Ownership
  import opened RegistrySpec
  import opened RegistryOperations
  import opened Liveness
  import opened OwnerCommits
  import opened RegistryEffects
  import opened CommitConditions

  /** The arguments alone are in order. */
  predicate WellFormed(op: Operation) {
    match op
    case Transfer(_, assetOwner, owner, _, _, _) => assetOwner != "" && !owner.ChainAccount?
    case SetOwner(_, owner, _, _) => !owner.ChainAccount?
    case Mutate(_, keyUpdates, documents, policy, _, _) =>
      && (keyUpdates != [] || documents != [] || policy.RaiseIatFloor?)
      && (forall i, j | 0 <= i < j < |documents| :: documents[i].docType != documents[j].docType)
    case Rotate(_, _, document, _, _) => document.docType == OWNER_DOC_TYPE
    case SetPayment(_, _, _, _, beneficiary, _, _, _, _, _, _) => beneficiary != ChainAccount("")
    case SetPolicy(_, rules, _, _, _) => ControllersNamed(rules)
    case _ => true
  }

  /** The first error every guarded operation can meet: on the row itself, before anyone's authority is looked at. */
  lemma RowRefused(t: Tables, op: Operation, now: nat, e: Error)
    requires Guarded(op) && WellFormed(op)
    requires RequiredActiveName(t, op.name, now) == Failure(e)
          || (RequiredActiveName(t, op.name, now).Success? && e == StaleNameSeq
              && op.guard.expectedNameSeq != RequiredActiveName(t, op.name, now).value.nameSeq)
    ensures Apply(t, op, now) == Failure(e)
  {
    hide RequiredActiveName, AuthorizeOwner, AuthorizeUpdate, AuthorizeBatch, PublishInternal, RevokeInternal;
    hide PaymentInternal, InstallPolicy, ApplyAuthorityUpdates, RaiseMinDocumentIat, TransferRow, AssignOwner, SaveName;
  }

  /** What every guarded operation answers about the row: no such name, not live, or a stale sequence number. */
  lemma GuardedRefusals(t: Tables, op: Operation, now: nat)
    requires Guarded(op) && WellFormed(op)
    ensures op.name !in t.names ==> Apply(t, op, now) == Failure(NameNotFound)
    ensures op.name in t.names && !Live(t, op.name, now) ==> Apply(t, op, now) == Failure(InvalidMutation)
    ensures Resolvable(t, op.name, now) && op.guard.expectedNameSeq != t.names[op.name].nameSeq ==>
      Apply(t, op, now) == Failure(StaleNameSeq)
  {
    hide Apply, Resolvable, MaterializeNameState, WellFormed;
    var n := op.name;
    RequiredWhen(t, n, now);
    if n !in t.names {
      RowRefused(t, op, now, NameNotFound);
    } else if !Live(t, n, now) {
      RowRefused(t, op, now, InvalidMutation);
    } else if Resolvable(t, n, now) && op.guard.expectedNameSeq != t.names[n].nameSeq {
      RowRefused(t, op, now, StaleNameSeq);
    }
  }

  lemma AuthorityRefused(t: Tables, op: Operation, now: nat)
    requires Guarded(op) && WellFormed(op) && OwnerOnly(op)
    requires RequiredActiveName(t, op.name, now).Success?
    requires op.guard.expectedNameSeq == RequiredActiveName(t, op.name, now).value.nameSeq
    requires AuthorizeOwner(t, op.name, op.authority, now) == Fail(NotEffectiveOwner)
    ensures Apply(t, op, now) == Failure(NotEffectiveOwner)
  {
    hide RequiredActiveName, AuthorizeOwner, PublishInternal, InstallPolicy, ApplyAuthorityUpdates, RaiseMinDocumentIat;
    hide TransferRow, AssignOwner, SaveName;
  }

  /** An owner-only operation by someone who is not the owner that a plain walk finds. */
  lemma StrangersRefused(t: Tables, op: Operation, now: nat)
    requires Guarded(op) && WellFormed(op) && OwnerOnly(op)
    requires Resolvable(t, op.name, now) && op.guard.expectedNameSeq == t.names[op.name].nameSeq
    requires op.authority.actor.Valid()
    requires op.authority.role != OwnerRole || op.authority.actor != PlainOwner(t, op.name, now).effectiveOwner
    ensures Apply(t, op, now) == Failure(NotEffectiveOwner)
  {
    hide Apply, Resolvable, ResolveOwner, WellFormed, OwnerOnly;
    RequiredWhen(t, op.name, now);
    ResolvableLive(t, op.name, now);
    ResolutionIsPlainWalk(t, op.name, now);
    assert t.names[op.name].MaterializeStatusAt(now) == t.names[op.name];
    AuthorityRefused(t, op, now);
  }

  // ----- registrations -----

  predicate ProperRegistration(op: Operation)
    requires op.Register? || op.Bootstrap?
  {
    && (op.name.Top? || op.name.parent.Top?)
    && op.assetOwner != "" && op.options.duration > 0 && !op.options.initialSemanticOwner.ChainAccount?
    && (forall u | u in op.documents :: u.expectedVersion == 0)
    && (op.Bootstrap? ==>
          (op.ownerAfter.Some? ==> !op.ownerAfter.value.ChainAccount?) && ControllersNamed(op.rules))
  }

  lemma RegistrationRefused(t: Tables, op: Operation, now: nat, e: Error)
    requires (op.Register? || op.Bootstrap?) && ProperRegistration(op)
    requires CheckRegistration(t, op.name, op.authority, op.guard, now) == Fail(e)
    ensures Apply(t, op, now) == Failure(e)
  {
    hide CheckRegistration, RegisterRow, PublishAll, BootstrapTail;
  }

  /** What a registration answers about the name, and then about its parent. */
  lemma RegistrationRefusals(t: Tables, op: Operation, now: nat)
    requires (op.Register? || op.Bootstrap?) && ProperRegistration(op)
    ensures op.name in t.names && t.names[op.name].status in {Active, Expired, Tombstoned} ==>
      Apply(t, op, now) == Failure(NameAlreadyExists)
    ensures op.name !in t.names && op.name.Sub? ==>
      var p := op.name.parent;
      && (p !in t.names ==> Apply(t, op, now) == Failure(NameNotFound))
      && (p in t.names && !Live(t, p, now) ==> Apply(t, op, now) == Failure(InvalidMutation))
      && (Resolvable(t, p, now) && op.guard.expectedParentNameSeq != t.names[p].nameSeq ==>
            Apply(t, op, now) == Failure(StaleParentNameSeq))
  {
    hide Apply, Resolvable, MaterializeNameState, ProperRegistration, AuthorizeOwner;
    var check := CheckRegistration(t, op.name, op.authority, op.guard, now);
    if op.name.Sub? {
      RequiredWhen(t, op.name.parent, now);
    }
    if check.Fail? {
      RegistrationRefused(t, op, now, check.error);
    }
  }

  // ----- documents -----

  /** A caller who may write the document but does not know its current version. */
  lemma StaleVersionRefused(t: Tables, op: Operation, now: nat)
    requires op.Publish? || op.Revoke?
    requires var ty := if op.Publish? then op.document.docType else op.docType;
      && AsAllowed(t, op.name, ty, if op.Publish? then PERMISSION_PUBLISH_DOCUMENT else PERMISSION_REVOKE_DOCUMENT,
                   op.authority, op.guard, now)
      && CurrentVersion(t.documents, op.name, ty) !=
         if op.Publish? then op.document.expectedVersion else op.expectedVersion
    ensures Apply(t, op, now) == Failure(StaleDocumentVersion)
  {
    hide RequiredActiveName, AuthorizeUpdate, AsAllowed, SaveName;
    var ty := if op.Publish? then op.document.docType else op.docType;
    var permission := if op.Publish? then PERMISSION_PUBLISH_DOCUMENT else PERMISSION_REVOKE_DOCUMENT;
    GuardedWhen(t, op.name, ty, permission, op.authority, op.guard, now);
  }
}
