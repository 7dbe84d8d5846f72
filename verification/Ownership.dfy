/** Owner resolution and the authorization checks that rest on it. */
module Ownership {
  import opened Wrappers
  import opened BnsModel
  import opened RegistryTables

  function RequireActiveAuthoritySet(t: Tables, n: Name, now: nat): Result<AuthoritySet, Error> {
    if n !in t.names then Failure(NameNotFound)
    else if !t.names[n].ActiveAt(now) then Failure(NoConcreteSigner)
    else if AuthoritySetOf(t, n).activeKeyCount == 0 then Failure(NoConcreteSigner)
    else Success(AuthoritySetOf(t, n))
  }

  /** The owner of row s stored under n; parent rows are materialized, which resolves them in turn. */
  function ResolveOwner(t: Tables, n: Name, s: NameState, now: nat): Result<OwnerResolution, Error>
    decreases n, 0
  {
    if s.semanticOwner.BnsName? then
      var owner := s.semanticOwner.name;
      var authority :-
        if s.status == Active then RequireActiveAuthoritySet(t, owner, now)
        else Success(AuthoritySetOf(t, owner));
      Success(OwnerResolution(
        s.semanticOwner, ExplicitSemanticOwner, authority.root, authority.authoritySeq))
    else if n.Top? then
      var authority := AuthoritySetOf(t, n);
      Success(OwnerResolution(
        ChainAccount(s.assetOwner), AssetOwnerFallback, authority.root, authority.authoritySeq))
    else if n.parent !in t.names then Failure(NameNotFound)
    else
      var owner :-
        if s.status == Active then
          var p :- MaterializeNameState(t, n.parent, t.names[n.parent], now);
          if p.status != Active then Failure(NoConcreteSigner)
          else ResolveOwner(t, n.parent, p, now)
        else ResolveOwner(t, n.parent, t.names[n.parent].MaterializeStatusAt(now), now);
      Success(owner.(source := ParentInherited))
  }

  function MaterializeNameState(t: Tables, n: Name, s: NameState, now: nat): (r: Result<NameState, Error>)
    ensures r.Success? ==> SameCore(s.MaterializeStatusAt(now), r.value)
    decreases n, 1
  {
    var m := s.MaterializeStatusAt(now);
    var owner :- ResolveOwner(t, n, m, now);
    Success(m.(
      effectiveOwner := owner.effectiveOwner,
      ownerSource := owner.source,
      standardTransferEnabled :=
        m.transferable && m.status == Active && owner.source == AssetOwnerFallback))
  }

  /** Equal except for the three fields that resolution derives. */
  predicate SameCore(s: NameState, r: NameState) {
    r == s.(effectiveOwner := r.effectiveOwner,
            ownerSource := r.ownerSource,
            standardTransferEnabled := r.standardTransferEnabled)
  }

  function ResolveOwnerForName(t: Tables, n: Name, now: nat): Result<OwnerResolution, Error> {
    if n !in t.names then Failure(NameNotFound)
    else ResolveOwner(t, n, t.names[n].MaterializeStatusAt(now), now)
  }

  /** The row of a name that is active now, freshly materialized. */
  function RequiredActiveName(t: Tables, n: Name, now: nat): (r: Result<NameState, Error>)
    ensures r.Success? ==>
      n in t.names && t.names[n].ActiveAt(now) && SameCore(t.names[n], r.value)
  {
    if n !in t.names then Failure(NameNotFound)
    else if !t.names[n].ActiveAt(now) then Failure(InvalidMutation)
    else MaterializeNameState(t, n, t.names[n], now)
  }

  function ValidateSemanticOwnerTarget(t: Tables, owner: Principal, now: nat): Check<Error> {
    if !ValidSemanticOwner(owner) then Fail(InvalidPrincipal)
    else if !owner.BnsName? then Pass
    else match RequireActiveAuthoritySet(t, owner.name, now)
      case Success(_) => Pass
      case Failure(e) => Fail(e)
  }

  function ValidateActorKey(t: Tables, actor: Principal, kid: Kid, now: nat): Check<Error> {
    match actor
    case Unset => Fail(InvalidPrincipal)
    case ChainAccount(_) => Pass
    case BnsName(n) =>
      Need(kid in KeysOf(t, n) && KeysOf(t, n)[kid].ActiveFor(KEY_PURPOSE_AUTHENTICATION, now), InvalidKid)
  }

  /** Only the effective owner, acting with a live key, may change a name. */
  function AuthorizeOwner(t: Tables, n: Name, authority: CallAuthority, now: nat): Check<Error> {
    if authority.role != OwnerRole then Fail(NotEffectiveOwner)
    else if !authority.actor.Valid() then Fail(InvalidPrincipal)
    else match ResolveOwnerForName(t, n, now)
      case Failure(e) => Fail(e)
      case Success(owner) =>
        if authority.actor != owner.effectiveOwner then Fail(NotEffectiveOwner)
        else ValidateActorKey(t, authority.actor, authority.kid, now)
  }

  function AuthorizeUpdate(
    t: Tables, n: Name, docType: DocType, permission: nat, authority: CallAuthority, now: nat): Check<Error>
  {
    match authority.role
    case OwnerRole => AuthorizeOwner(t, n, authority, now)
    case PublicRole => Fail(NotEffectiveOwner)
    case ControllerRole =>
      if !authority.actor.Valid() then Fail(InvalidPrincipal)
      else if authority.actor.BnsName? && ValidateActorKey(t, authority.actor, authority.kid, now).Fail?
      then ValidateActorKey(t, authority.actor, authority.kid, now)
      else
        var rules := if n in t.policies then t.policies[n].rules else [];
        Need(exists r | r in rules :: r.Permits(authority.actor, docType, permission, now), ControllerScopeDenied)
  }

  function CheckGuard(s: NameState, guard: MutationGuard): Check<Error> {
    Need(guard.expectedNameSeq == s.nameSeq, StaleNameSeq)
  }

  /** Some active name is explicitly owned by n. */
  predicate IsAuthorityOwner(t: Tables, n: Name, now: nat) {
    exists m | m in t.names :: t.names[m].ActiveAt(now) && t.names[m].semanticOwner == BnsName(n)
  }
}
