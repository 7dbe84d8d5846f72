/** Owner references: a name points to its semantic owner, or else to its parent. */
module OwnerGraph {
  import opened Wrappers
  import opened BnsModel

  type Names = map<Name, NameState>
  type Sets = map<Name, AuthoritySet>

  function KeyCount(sets: Sets, n: Name): nat {
    if n in sets then sets[n].activeKeyCount else 0
  }

  predicate SelfOwned(n: Name, s: NameState) {
    s.semanticOwner == BnsName(n)
  }

  /** A walk stops at a self-owned name and at a top-level name without a semantic owner. */
  predicate Terminal(n: Name, s: NameState) {
    SelfOwned(n, s) || (!s.semanticOwner.BnsName? && n.Top?)
  }

  /** The next name of the walk. */
  function Next(n: Name, s: NameState): Name
    requires !Terminal(n, s)
  {
    if s.semanticOwner.BnsName? then s.semanticOwner.name else n.parent
  }

  /** The walk from n stays inside the stored names and ends within `edges` references. */
  predicate Grounded(names: Names, n: Name, edges: nat)
    decreases edges
  {
    && n in names
    && (Terminal(n, names[n]) || (edges > 0 && Grounded(names, Next(n, names[n]), edges - 1)))
  }

  /** Where a walk ends, a concrete signer must stand. */
  predicate ConcreteSigner(names: Names, sets: Sets, n: Name)
    requires n in names
  {
    if SelfOwned(n, names[n]) then KeyCount(sets, n) > 0 else names[n].assetOwner != ""
  }

  /** The walk from n visits active names only and reaches a concrete signer within `edges` references. */
  predicate OwnerPathOk(names: Names, sets: Sets, n: Name, now: nat, edges: nat)
    decreases edges
  {
    && n in names
    && names[n].ActiveAt(now)
    && (if Terminal(n, names[n]) then ConcreteSigner(names, sets, n)
        else edges > 0 && OwnerPathOk(names, sets, Next(n, names[n]), now, edges - 1))
  }

  /** What `validate_owner_graph_with` accepts. */
  predicate OwnerGraphOk(names: Names, sets: Sets, now: nat) {
    forall n | n in names && names[n].ActiveAt(now) ::
      OwnerPathOk(names, sets, n, now, MAX_OWNER_REF_DEPTH)
  }

  lemma {:induction false} PathIsGrounded(names: Names, sets: Sets, n: Name, now: nat, edges: nat)
    requires OwnerPathOk(names, sets, n, now, edges)
    ensures Grounded(names, n, edges)
    decreases edges
  {
    if !Terminal(n, names[n]) {
      PathIsGrounded(names, sets, Next(n, names[n]), now, edges - 1);
    }
  }

  lemma PathNeedsEnd(names: Names, sets: Sets, n: Name, now: nat, edges: nat)
    requires !Grounded(names, n, edges)
    ensures !OwnerPathOk(names, sets, n, now, edges)
  {
    if OwnerPathOk(names, sets, n, now, edges) {
      PathIsGrounded(names, sets, n, now, edges);
    }
  }

  /** The name reached after k references. */
  ghost function Walk(names: Names, n: Name, k: nat): Option<Name>
    decreases k
  {
    if n !in names then None
    else if k == 0 then Some(n)
    else if Terminal(n, names[n]) then None
    else Walk(names, Next(n, names[n]), k - 1)
  }

  /** A walk that comes back to where it started never ends. */
  lemma {:induction false} CycleNeverEnds(names: Names, n: Name, k: nat, edges: nat)
    requires k > 0 && Walk(names, n, k) == Some(n)
    ensures !Grounded(names, n, edges)
    decreases edges
  {
    if Grounded(names, n, edges) {
      GroundedAlong(names, n, k, edges);
      CycleNeverEnds(names, n, k, edges - k);
    }
  }

  lemma {:induction false} GroundedAlong(names: Names, n: Name, k: nat, edges: nat)
    requires Grounded(names, n, edges)
    requires Walk(names, n, k).Some?
    ensures k <= edges && Grounded(names, Walk(names, n, k).value, edges - k)
    decreases k
  {
    if k > 0 {
      GroundedAlong(names, Next(n, names[n]), k - 1, edges - 1);
    }
  }

  lemma {:induction false} WalkExtends(names: Names, n: Name, k: nat)
    requires Walk(names, n, k).Some?
    requires var m := Walk(names, n, k).value;
             m in names && !Terminal(m, names[m]) && Next(m, names[m]) in names
    ensures var m := Walk(names, n, k).value;
            Walk(names, n, k + 1) == Some(Next(m, names[m]))
    decreases k
  {
    if k > 0 {
      WalkExtends(names, Next(n, names[n]), k - 1);
    }
  }

  /** Two stops of one walk: the later one is reached from the earlier one. */
  lemma {:induction false} WalkBetween(names: Names, n: Name, i: nat, j: nat)
    requires i <= j && Walk(names, n, j).Some?
    ensures Walk(names, n, i).Some?
    ensures Walk(names, Walk(names, n, i).value, j - i) == Walk(names, n, j)
    decreases i
  {
    if i > 0 {
      WalkBetween(names, Next(n, names[n]), i - 1, j - 1);
    }
  }

  /**
   * Replacing one row keeps every walk finite when the walk from that row is finite:
   * another walk either avoids the row or ends once it gets there.
   */
  lemma {:induction false} ReplaceKeepsGrounded(names: Names, n: Name, s: NameState, stop: nat, m: Name, edges: nat)
    returns (e: nat)
    requires Grounded(names[n := s], n, stop)
    requires Grounded(names, m, edges)
    ensures Grounded(names[n := s], m, e)
    decreases edges
  {
    if m == n {
      e := stop;
    } else if Terminal(m, names[m]) {
      e := 0;
    } else {
      var rest := ReplaceKeepsGrounded(names, n, s, stop, Next(m, names[m]), edges - 1);
      e := rest + 1;
    }
  }

  /** The owner-graph check of one name, reference by reference, with a visited set. */
  method ValidateOwnerPath(names: Names, sets: Sets, start: Name, now: nat) returns (r: Check<Error>)
    ensures r.Pass? <==> OwnerPathOk(names, sets, start, now, MAX_OWNER_REF_DEPTH)
    ensures r.Fail? ==> r.error in {OwnerGraphCycle, OwnerGraphTooDeep, NameNotFound, NoConcreteSigner}
    ensures r == Fail(OwnerGraphCycle) ==>
      exists n, k: nat | k > 0 :: Walk(names, n, k) == Some(n)
    ensures r == Fail(OwnerGraphTooDeep) ==> !Grounded(names, start, MAX_OWNER_REF_DEPTH)
  {
    var current := start;
    var visited: set<Name> := {};
    var concrete := false;
    ghost var at: map<Name, nat> := map[];  // the depth at which each visited name was met
    var depth := 0;
    while depth <= MAX_OWNER_REF_DEPTH
      invariant depth <= MAX_OWNER_REF_DEPTH
      invariant visited == at.Keys
      invariant current in names ==> Walk(names, start, depth) == Some(current)
      invariant forall v | v in visited ::
        at[v] < depth && v in names && Walk(names, start, at[v]) == Some(v)
      invariant OwnerPathOk(names, sets, start, now, MAX_OWNER_REF_DEPTH) <==>
                OwnerPathOk(names, sets, current, now, MAX_OWNER_REF_DEPTH - depth)
      invariant Grounded(names, start, MAX_OWNER_REF_DEPTH) <==>
                Grounded(names, current, MAX_OWNER_REF_DEPTH - depth)
    {
      if current in visited {
        WalkBetween(names, start, at[current], depth);
        CycleNeverEnds(names, current, depth - at[current], MAX_OWNER_REF_DEPTH - depth);
        PathNeedsEnd(names, sets, current, now, MAX_OWNER_REF_DEPTH - depth);
        return Fail(OwnerGraphCycle);
      }
      visited := visited + {current};
      if current !in names {
        return Fail(NameNotFound);
      }
      at := at[current := depth];
      var state := names[current];
      if !state.ActiveAt(now) {
        return Fail(NoConcreteSigner);
      }
      if state.semanticOwner.BnsName? {
        var owner := state.semanticOwner.name;
        if owner !in names || !names[owner].ActiveAt(now) {
          return Fail(NoConcreteSigner);
        }
        if owner == current {
          if KeyCount(sets, owner) > 0 {
            concrete := true;
            break;
          }
          return Fail(NoConcreteSigner);
        }
        if KeyCount(sets, owner) > 0 {
          concrete := true;
        }
        current := owner;
      } else if current.Top? {
        concrete := state.assetOwner != "";
        break;
      } else {
        current := current.parent;
      }
      if depth == MAX_OWNER_REF_DEPTH {
        return Fail(OwnerGraphTooDeep);
      }
      if current in names {
        WalkExtends(names, start, depth);
      }
      depth := depth + 1;
    }
    if concrete {
      return Pass;
    }
    return Fail(NoConcreteSigner);
  }
}
