/** What a name query answers, on the stored fields: the status at that time, the owner, and when it fails. */
module NameAnswers {
  import opened Wrappers
  import opened BnsModel
  import opened RegistryTables
  import opened Ownership
  import opened Liveness
  import opened OwnerCommits
  import opened Projection

  /** The nearest explicit owner up the labels, else the asset owner of the top-level name, active or not. */
  function NearestOwner(t: Tables, n: Name): Principal
    decreases n
  {
    if n !in t.names then Unset
    else if t.names[n].semanticOwner.BnsName? then t.names[n].semanticOwner
    else if n.Top? then ChainAccount(t.names[n].assetOwner)
    else NearestOwner(t, n.parent)
  }

  function NearestSource(n: Name, s: NameState): OwnerSource {
    if s.semanticOwner.BnsName? then ExplicitSemanticOwner
    else if n.Top? then AssetOwnerFallback
    else ParentInherited
  }

  /** A live row needs a live and keyed owner, or a live parent; any row without an explicit owner needs its parents. */
  predicate Answerable(t: Tables, n: Name, now: nat)
    decreases n
  {
    && n in t.names
    && if t.names[n].semanticOwner.BnsName? then Live(t, n, now) ==> Keyed(t, t.names[n].semanticOwner.name, now)
       else n.Top? || ((Live(t, n, now) ==> Live(t, n.parent, now)) && Answerable(t, n.parent, now))
  }

  lemma {:induction false} ResolvesExactlyWhen(t: Tables, n: Name, now: nat)
    requires n in t.names
    ensures var r := ResolveOwner(t, n, t.names[n].MaterializeStatusAt(now), now);
      && (r.Success? <==> Answerable(t, n, now))
      && (r.Success? ==>
            r.value.effectiveOwner == NearestOwner(t, n) && r.value.source == NearestSource(n, t.names[n]))
    decreases n
  {
    var s := t.names[n];
    if !s.semanticOwner.BnsName? && n.Sub? && n.parent in t.names {
      ResolvesExactlyWhen(t, n.parent, now);
      var p := MaterializeNameState(t, n.parent, t.names[n.parent], now);
      if p.Success? {
        ResolutionReads(t, n.parent, t.names[n.parent].MaterializeStatusAt(now), p.value, now);
      }
    }
  }

  /** The status a row shows at a time: an active row past its end has expired. */
  function StatusAt(s: NameState, now: nat): NameStatus {
    if s.status == Active && 0 < s.expireAt <= now then Expired else s.status
  }

  /**
   * A query for a name answers nothing exactly when it was never registered and fails exactly when it is not answerable.
   * Otherwise it returns the stored row with the status of that time, the nearest owner up the labels, and standard
   * transfers enabled exactly for a live, transferable name that its asset owner owns.
   */
  lemma ReadAnswers(t: Tables, n: Name, now: nat)
    ensures ReadName(t, n, now) == Success(None) <==> n !in t.names
    ensures n in t.names ==>
      && (ReadName(t, n, now).Success? <==> Answerable(t, n, now))
      && (ReadName(t, n, now).Success? ==>
            var s := t.names[n];
            ReadName(t, n, now).value == Some(s.(
              status := StatusAt(s, now), effectiveOwner := NearestOwner(t, n), ownerSource := NearestSource(n, s),
              standardTransferEnabled :=
                Live(t, n, now) && s.transferable && n.Top? && !s.semanticOwner.BnsName?)))
  {
    hide ResolveOwner;
    if n in t.names {
      ResolvesExactlyWhen(t, n, now);
    }
  }

  /** A name that can act can be answered for. */
  lemma {:induction false} ResolvableExactlyWhen(t: Tables, n: Name, now: nat)
    ensures Resolvable(t, n, now) <==> Live(t, n, now) && Answerable(t, n, now)
    decreases n
  {
    if n.Sub? {
      ResolvableExactlyWhen(t, n.parent, now);
    }
  }
}
