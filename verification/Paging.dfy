/** Keyset paging over the names of one asset owner. */
module Paging {
  import opened Wrappers

  const MAX_BNS_NAMES_PAGE_SIZE: nat := 1000

  datatype PageError = InvalidLimit

  datatype Page = Page(names: seq<string>, next: Option<string>)

  /** The stored names with their asset owners. */
  type NameRows = map<string, string>

  /** The order of the name column. */
  predicate Less(a: string, b: string) {
    b != [] && (a == [] || a[0] < b[0] || (a[0] == b[0] && Less(a[1..], b[1..])))
  }

  lemma {:induction false} LessTotal(a: string, b: string)
    ensures a == b || Less(a, b) || Less(b, a)
    ensures !(Less(a, b) && Less(b, a))
    ensures !Less(a, a)
    decreases |a| + |b|
  {
    if a != [] {
      LessIrreflexive(a);
    }
    if a != [] && b != [] && a[0] == b[0] {
      LessTotal(a[1..], b[1..]);
      assert a == [a[0]] + a[1..] && b == [b[0]] + b[1..];
    }
  }

  lemma {:induction false} LessIrreflexive(a: string)
    ensures !Less(a, a)
  {
    if a != [] {
      LessIrreflexive(a[1..]);
    }
  }

  lemma {:induction false} LessTrans(a: string, b: string, c: string)
    requires Less(a, b) && Less(b, c)
    ensures Less(a, c)
    decreases |a|
  {
    if a != [] && a[0] == b[0] == c[0] {
      LessTrans(a[1..], b[1..], c[1..]);
    }
  }

  lemma {:induction false} LeastExists(s: set<string>) returns (m: string)
    requires s != {}
    ensures m in s && forall x | x in s :: x == m || Less(m, x)
    decreases |s|
  {
    m :| m in s;
    if s != {m} {
      var rest := s - {m};
      var r := LeastExists(rest);
      LessTotal(m, r);
      if Less(r, m) {
        m := r;
      } else {
        forall x | x in s
          ensures x == m || Less(m, x)
        {
          if x in rest && x != r {
            LessTrans(m, r, x);
          }
        }
      }
    }
  }

  ghost function Least(s: set<string>): (m: string)
    requires s != {}
    ensures m in s && forall x | x in s :: x == m || Less(m, x)
  {
    assert exists m :: m in s && forall x | x in s :: x == m || Less(m, x) by {
      var m := LeastExists(s);
    }
    var m :| m in s && forall x | x in s :: x == m || Less(m, x);
    m
  }

  /** The elements in ascending order, each once. */
  ghost function Ascending(s: set<string>): seq<string>
    decreases |s|
  {
    if s == {} then [] else [Least(s)] + Ascending(s - {Least(s)})
  }

  lemma {:induction false} AscendingHolds(s: set<string>)
    ensures |Ascending(s)| == |s|
    ensures forall x :: x in Ascending(s) <==> x in s
    ensures forall i, j | 0 <= i < j < |s| :: Less(Ascending(s)[i], Ascending(s)[j])
    decreases |s|
  {
    if s != {} {
      var m := Least(s);
      var rest := s - {m};
      AscendingHolds(rest);
      forall i, j | 0 <= i < j < |s|
        ensures Less(Ascending(s)[i], Ascending(s)[j])
      {
        if i == 0 {
          assert Ascending(s)[j] == Ascending(rest)[j - 1] && Ascending(rest)[j - 1] in Ascending(rest);
        }
      }
    }
  }

  function Above(s: set<string>, pivot: string): set<string> {
    set x | x in s && Less(pivot, x)
  }

  /** Dropping the first k names in order leaves exactly the names above the k-th. */
  lemma {:induction false} AscendingAfter(s: set<string>, k: nat)
    requires 0 < k <= |s|
    ensures |Ascending(s)| == |s|
    ensures Ascending(s)[k..] == Ascending(Above(s, Ascending(s)[k - 1]))
    decreases k
  {
    hide Less, Ascending;
    AscendingUnfolds(s);
    var m := Least(s);
    var rest := s - {m};
    var tail := Ascending(rest);
    AscendingHolds(rest);
    if k == 1 {
      AboveLeast(s);
      assert Ascending(s)[1..] == tail;
    } else {
      AscendingAfter(rest, k - 1);
      var pivot := tail[k - 2];
      assert pivot in tail;
      AboveSame(s, pivot);
      assert Ascending(s)[k - 1] == pivot && Ascending(s)[k..] == tail[k - 1..];
    }
  }

  lemma AscendingUnfolds(s: set<string>)
    requires s != {}
    ensures Ascending(s) == [Least(s)] + Ascending(s - {Least(s)})
  {
  }

  lemma AboveLeast(s: set<string>)
    requires s != {}
    ensures Above(s, Least(s)) == s - {Least(s)}
  {
    LessIrreflexive(Least(s));
  }

  lemma AboveSame(s: set<string>, pivot: string)
    requires s != {} && pivot in s - {Least(s)}
    ensures Above(s, pivot) == Above(s - {Least(s)}, pivot)
  {
    LessTotal(Least(s), pivot);
  }

  function Matching(rows: NameRows, owner: string, after: Option<string>): set<string> {
    set n | n in rows && rows[n] == owner && (after.Some? ==> Less(after.value, n))
  }

  ghost function Take(s: seq<string>, limit: nat): seq<string> {
    if |s| <= limit then s else s[..limit]
  }

  /** `WHERE asset_owner = ? AND name > ? ORDER BY name LIMIT ?`, one least name at a time. */
  method ListNamesByAssetOwner(rows: NameRows, owner: string, after: Option<string>, limit: nat)
    returns (names: seq<string>)
    ensures names == Take(Ascending(Matching(rows, owner, after)), limit)
  {
    names := [];
    var rest := Matching(rows, owner, after);
    while rest != {} && |names| < limit
      invariant |names| <= limit
      invariant Ascending(Matching(rows, owner, after)) == names + Ascending(rest)
      decreases |rest|
    {
      var least := FindLeast(rest);
      assert least == Least(rest) by {
        LessTotal(least, Least(rest));
      }
      names := names + [least];
      rest := rest - {least};
    }
    AscendingHolds(rest);
  }

  method FindLeast(s: set<string>) returns (m: string)
    requires s != {}
    ensures m in s && forall x | x in s :: x == m || Less(m, x)
  {
    m :| m in s;
    var todo := s - {m};
    while todo != {}
      invariant m in s && todo <= s && forall x | x in s - todo :: x == m || Less(m, x)
      decreases |todo|
    {
      var n :| n in todo;
      LessTotal(m, n);
      if Less(n, m) {
        forall x | x in s - (todo - {n})
          ensures x == n || Less(n, x)
        {
          if x != n && x != m {
            LessTrans(n, m, x);
          }
        }
        m := n;
      }
      todo := todo - {n};
    }
  }

  /** One more name than asked for tells whether there is another page. */
  method QueryNamesByAddress(rows: NameRows, owner: string, cursor: Option<string>, limit: nat)
    returns (r: Result<Page, PageError>)
    ensures r.Failure? <==> limit == 0 || limit > 1000
    ensures r.Success? ==>
      var all := Ascending(Matching(rows, owner, cursor));
      && r.value.names == Take(all, limit)
      && r.value.next == if |all| > limit then Some(all[limit - 1]) else None
  {
    if limit == 0 || limit > MAX_BNS_NAMES_PAGE_SIZE {
      return Failure(InvalidLimit);
    }
    var names := ListNamesByAssetOwner(rows, owner, cursor, limit + 1);
    var hasMore := |names| > limit;
    if hasMore {
      names := names[..limit];
    }
    return Success(Page(names, if hasMore then Some(names[|names| - 1]) else None));
  }

  /** What is still to come after a page. */
  lemma PageLeavesRest(rows: NameRows, owner: string, cursor: Option<string>, limit: nat)
    requires 0 < limit < |Ascending(Matching(rows, owner, cursor))|
    ensures var all := Ascending(Matching(rows, owner, cursor));
      && all[limit..] == Ascending(Matching(rows, owner, Some(all[limit - 1])))
      && |Matching(rows, owner, Some(all[limit - 1]))| < |Matching(rows, owner, cursor)|
  {
    var s := Matching(rows, owner, cursor);
    AscendingHolds(s);
    AscendingAfter(s, limit);
    var last := Ascending(s)[limit - 1];
    assert last in Ascending(s);
    LessIrreflexive(last);
    AboveIsNext(rows, owner, cursor, last);
    assert Above(s, last) < s;
    StrictSubsetSmaller(Above(s, last), s);
  }

  lemma StrictSubsetSmaller(a: set<string>, b: set<string>)
    requires a < b
    ensures |a| < |b|
  {
    var x :| x in b && x !in a;
    assert a <= b - {x};
    SubsetSmaller(a, b - {x});
  }

  lemma {:induction false} SubsetSmaller(a: set<string>, b: set<string>)
    requires a <= b
    ensures |a| <= |b|
    decreases a
  {
    if a != {} {
      var x :| x in a;
      SubsetSmaller(a - {x}, b - {x});
    }
  }

  /** Asking for names after one of the matching names skips exactly the names up to it. */
  lemma AboveIsNext(rows: NameRows, owner: string, cursor: Option<string>, last: string)
    requires last in Matching(rows, owner, cursor)
    ensures Matching(rows, owner, Some(last)) == Above(Matching(rows, owner, cursor), last)
  {
    forall x | x in Matching(rows, owner, Some(last))
      ensures x in Matching(rows, owner, cursor)
    {
      if cursor.Some? {
        LessTrans(cursor.value, last, x);
      }
    }
  }

  lemma OwnersNames(rows: NameRows, owner: string)
    ensures forall n :: n in Matching(rows, owner, None) <==> n in rows && rows[n] == owner
  {
  }

  /**
   * Following next_cursor from the start ends, and returns every name of the asset owner exactly once in
   * ascending order, whatever the legal limit.
   */
  method FollowCursors(rows: NameRows, owner: string, limit: nat) returns (r: Result<seq<string>, PageError>)
    ensures r.Failure? <==> limit == 0 || limit > 1000
    ensures r.Success? ==>
      && (forall n :: n in r.value <==> n in rows && rows[n] == owner)
      && (forall i, j | 0 <= i < j < |r.value| :: Less(r.value[i], r.value[j]))
  {
    hide Less, Ascending, Matching;
    var names: seq<string> := [];
    var cursor: Option<string> := None;
    ghost var whole := Ascending(Matching(rows, owner, None));
    var more := true;
    while more
      invariant more ==> whole == names + Ascending(Matching(rows, owner, cursor))
      invariant !more ==> whole == names && 0 < limit <= MAX_BNS_NAMES_PAGE_SIZE
      decreases more, |Matching(rows, owner, cursor)|
    {
      var page := QueryNamesByAddress(rows, owner, cursor, limit);
      if page.Failure? {
        return Failure(page.error);
      }
      names := names + page.value.names;
      if page.value.next.Some? {
        PageLeavesRest(rows, owner, cursor, limit);
        cursor := page.value.next;
      } else {
        more := false;
      }
    }
    AscendingHolds(Matching(rows, owner, None));
    OwnersNames(rows, owner);
    return Success(names);
  }
}
