/** What every registry transaction keeps, proved write by write. */
module RegistryInvariants {
  import opened BnsModel
  import opened RegistryTables
  import opened OwnerGraph
  import opened RegistryLog
  import opened RegistryHistory

  /** Following owner references from any stored name, active or not, comes to an end. */
  ghost predicate GraphGrounded(names: Names) {
    forall n | n in names :: exists edges: nat :: Grounded(names, n, edges)
  }

  /** The owner is stored as active or expired, so neither released nor tombstoned, and counts a key. */
  predicate LiveOwner(t: Tables, owner: Name) {
    && owner in t.names
    && t.names[owner].status in {Active, Expired}
    && KeyCount(t.sets, owner) > 0
  }

  /** Every name that is active now and has an explicit owner has a live one. */
  predicate OwnersLive(t: Tables, now: nat) {
    forall n | n in t.names && t.names[n].ActiveAt(now) && t.names[n].semanticOwner.BnsName? ::
      LiveOwner(t, t.names[n].semanticOwner.name)
  }

  ghost predicate Inv(t: Tables, now: nat) {
    && LogOk(t.events)
    && CheckpointsOk(t)
    && LogDetermines(t)
    && GraphGrounded(t.names)
    && OwnersLive(t, now)
  }

  // ----- what one transaction on a name changes -----

  predicate SameName(t: Tables, u: Tables, n: Name) {
    (n in t.names <==> n in u.names) && (n in t.names ==> t.names[n] == u.names[n])
  }

  predicate SameDocument(t: Tables, u: Tables, k: DocumentKey) {
    (k in t.documents <==> k in u.documents) &&
    (k in t.documents ==> t.documents[k].state == u.documents[k].state)
  }

  predicate SameSet(t: Tables, u: Tables, n: Name) {
    (n in t.sets <==> n in u.sets) && (n in t.sets ==> t.sets[n] == u.sets[n])
  }

  /** The event makes an indexer read the row of n again. */
  predicate PushesName(e: RegistryEvent, n: Name) {
    !e.AuthorityKeysUpdated? && !e.LogCheckpointPublished? && e.name == n
  }

  predicate PushesDocument(e: RegistryEvent, k: DocumentKey) {
    && (e.DocumentPublished? || e.DocumentRevoked? || e.PaymentTargetUpdated?)
    && e.name == k.name && e.docType == k.docType && e.version == k.version
  }

  predicate PushesSet(e: RegistryEvent, n: Name) {
    (e.AuthorityKeysUpdated? || e.NameRegistered?) && e.name == n
  }

  predicate NamePushed(log: Records, n: Name) {
    exists i | 0 <= i < |log| :: PushesName(log[i].event, n)
  }

  predicate DocumentPushed(log: Records, k: DocumentKey) {
    exists i | 0 <= i < |log| :: PushesDocument(log[i].event, k)
  }

  predicate SetPushed(log: Records, n: Name) {
    exists i | 0 <= i < |log| :: PushesSet(log[i].event, n)
  }

  function NewRecords(t: Tables, u: Tables): Records {
    if |Log(t)| <= |Log(u)| then Log(u)[|Log(t)|..] else []
  }

  /** The row of n may change; every other change is announced by a new event. */
  ghost predicate Changes(t: Tables, u: Tables, n: Name) {
    && Extends(t.events, u.events)
    && Log(t) <= Log(u)
    && (forall m | m != n :: SameName(t, u, m))
    && (n in t.names ==> n in u.names && t.names[n].nameSeq <= u.names[n].nameSeq)
    && (forall k :: DocumentPushed(NewRecords(t, u), k) || SameDocument(t, u, k))
    && (forall m :: SetPushed(NewRecords(t, u), m) || SameSet(t, u, m))
  }

  lemma PushedAcross(a: Records, b: Records, n: Name, k: DocumentKey)
    ensures NamePushed(a + b, n) <==> NamePushed(a, n) || NamePushed(b, n)
    ensures DocumentPushed(a + b, k) <==> DocumentPushed(a, k) || DocumentPushed(b, k)
    ensures SetPushed(a + b, n) <==> SetPushed(a, n) || SetPushed(b, n)
  {
    var c := a + b;
    assert forall i | 0 <= i < |a| :: c[i] == a[i];
    assert forall i | 0 <= i < |b| :: c[|a| + i] == b[i];
  }

  lemma NewRecordsConcat(t: Tables, u: Tables, w: Tables)
    requires Log(t) <= Log(u) <= Log(w)
    ensures NewRecords(t, w) == NewRecords(t, u) + NewRecords(u, w)
  {
  }

  lemma ChangesCompose(t: Tables, u: Tables, w: Tables, n: Name)
    requires Changes(t, u, n) && Changes(u, w, n)
    ensures Changes(t, w, n)
    ensures NamePushed(NewRecords(t, u), n) || NamePushed(NewRecords(u, w), n) ==> NamePushed(NewRecords(t, w), n)
  {
    var a, b := NewRecords(t, u), NewRecords(u, w);
    NewRecordsConcat(t, u, w);
    forall m
      ensures m != n ==> SameName(t, w, m)
      ensures SetPushed(a + b, m) || SameSet(t, w, m)
      ensures NamePushed(a, m) || NamePushed(b, m) ==> NamePushed(a + b, m)
    {
      PushedAcross(a, b, m, DocumentKey(m, "", 0));
      assert m != n ==> SameName(t, u, m) && SameName(u, w, m);
      assert SetPushed(a, m) || SetPushed(b, m) || (SameSet(t, u, m) && SameSet(u, w, m));
    }
    forall k
      ensures DocumentPushed(a + b, k) || SameDocument(t, w, k)
    {
      PushedAcross(a, b, k.name, k);
      assert DocumentPushed(a, k) || DocumentPushed(b, k) || (SameDocument(t, u, k) && SameDocument(u, w, k));
    }
  }
}
