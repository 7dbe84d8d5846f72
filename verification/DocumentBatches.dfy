/** What publishing a batch of documents stores, document by document, and when it is refused. */
module DocumentBatches {
  import opened BnsModel
  import opened RegistryTables
  import opened RegistrySpec
  import opened RowEffects

  function CountType(updates: seq<DocumentUpdate>, ty: DocType): nat {
    if updates == [] then 0
    else CountType(updates[..|updates| - 1], ty) + if updates[|updates| - 1].docType == ty then 1 else 0
  }

  /** The version that is current for a type after the batch. */
  function CurrentAfter(docs: DocumentTable, n: Name, updates: seq<DocumentUpdate>, ty: DocType): nat {
    var added := CountType(updates, ty);
    if added == 0 then CurrentVersion(docs, n, ty) else LatestVersion(docs, n, ty) + added
  }

  /** Every document expects the version that is current when its turn comes. */
  predicate VersionsKnown(docs: DocumentTable, n: Name, updates: seq<DocumentUpdate>) {
    forall i | 0 <= i < |updates| ::
      updates[i].expectedVersion == CurrentAfter(docs, n, updates[..i], updates[i].docType)
  }

  /** The key of the i-th document: one above all versions of its type, earlier ones of the batch included. */
  function KeyOf(docs: DocumentTable, n: Name, updates: seq<DocumentUpdate>, i: nat): DocumentKey
    requires i < |updates|
  {
    var ty := updates[i].docType;
    DocumentKey(n, ty, LatestVersion(docs, n, ty) + CountType(updates[..i], ty) + 1)
  }

  /** The stored version carries what was published. */
  predicate Carries(d: DocumentState, u: DocumentUpdate, now: nat) {
    && d.status == DocActive && d.document == u.document && d.controller == u.controller
    && d.beneficiary == u.beneficiary && d.paymentTarget == u.paymentTarget && d.policies == u.policies
    && d.validFrom == now && d.expireAt == u.expireAt && d.revokedAt == 0 && d.previousVersion == u.expectedVersion
  }

  predicate Touched(updates: seq<DocumentUpdate>, ty: DocType) {
    exists u | u in updates :: u.docType == ty
  }

  /** Each document is stored under a key of its own, the last one of each type as the current one. */
  ghost predicate NewStored(docs: DocumentTable, n: Name, updates: seq<DocumentUpdate>, w: DocumentTable, now: nat) {
    forall i | 0 <= i < |updates| ::
      var k := KeyOf(docs, n, updates, i);
      && k !in docs && k in w && Carries(w[k].state, updates[i], now)
      && (w[k].current <==> CountType(updates[i + 1..], updates[i].docType) == 0)
  }

  /** Older versions keep their contents, and lose the flag where a newer one came. */
  ghost predicate OldKept(docs: DocumentTable, n: Name, updates: seq<DocumentUpdate>, w: DocumentTable) {
    forall k | k in docs ::
      && k in w && w[k].state == docs[k].state
      && (w[k].current <==> docs[k].current && !(k.name == n && Touched(updates, k.docType)))
  }

  ghost predicate NoOthers(docs: DocumentTable, n: Name, updates: seq<DocumentUpdate>, w: DocumentTable) {
    forall k | k in w :: k in docs || exists i | 0 <= i < |updates| :: k == KeyOf(docs, n, updates, i)
  }

  /** What a batch leaves of the document table. */
  ghost predicate Stored(docs: DocumentTable, n: Name, updates: seq<DocumentUpdate>, w: DocumentTable, now: nat) {
    NewStored(docs, n, updates, w, now) && OldKept(docs, n, updates, w) && NoOthers(docs, n, updates, w)
  }

  // ----- one more version -----

  lemma CurrentAfterPut(docs: DocumentTable, key: DocumentKey, d: DocumentState, ty: DocType)
    requires key.version == LatestVersion(docs, key.name, key.docType) + 1
    ensures CurrentVersion(PutDocument(docs, key, d), key.name, ty) ==
            if ty == key.docType then key.version else CurrentVersion(docs, key.name, ty)
  {
    var put := PutDocument(docs, key, d);
    assert CurrentVersions(put, key.name, ty) ==
           if ty == key.docType then {key.version} else CurrentVersions(docs, key.name, ty) by {
      forall v
        ensures v in CurrentVersions(put, key.name, ty) <==>
                if ty == key.docType then v == key.version else v in CurrentVersions(docs, key.name, ty)
      {
        var k := DocumentKey(key.name, ty, v);
        assert v in CurrentVersions(put, key.name, ty) <==> k in put && put[k].current;
        assert v in CurrentVersions(docs, key.name, ty) <==> k in docs && docs[k].current;
      }
    }
  }

  lemma {:induction false} VersionsAfter(t: Tables, n: Name, updates: seq<DocumentUpdate>, now: nat, ty: DocType)
    requires PublishAll(t, n, updates, now).Success?
    ensures var w := PublishAll(t, n, updates, now).value.documents;
      && LatestVersion(w, n, ty) == LatestVersion(t.documents, n, ty) + CountType(updates, ty)
      && CurrentVersion(w, n, ty) == CurrentAfter(t.documents, n, updates, ty)
    decreases |updates|
  {
    hide PublishInternal, PutDocument, LatestVersion, CurrentVersion;
    if updates != [] {
      var k := |updates| - 1;
      var t1 := PublishAll(t, n, updates[..k], now).value;
      var u := updates[k];
      VersionsAfter(t, n, updates[..k], now, ty);
      PublishStores(t1, n, u, false, now);
      var key := DocumentKey(n, u.docType, LatestVersion(t1.documents, n, u.docType) + 1);
      var d := SealDocument(key, PublishedDocument(u, u.expectedVersion, now));
      LatestAfterPut(t1.documents, key, d, ty);
      CurrentAfterPut(t1.documents, key, d, ty);
    }
  }

  /** A version above all others is new and current, and the flags of its siblings are cleared. */
  ghost predicate PutAbove(docs: DocumentTable, key: DocumentKey, d: DocumentState, w: DocumentTable) {
    && key !in docs && key in w && w[key] == DocumentRow(d, true)
    && forall k | k != key ::
      && (k in w <==> k in docs)
      && (k in docs ==>
            && w[k].state == docs[k].state
            && (w[k].current <==> docs[k].current && !(k.name == key.name && k.docType == key.docType)))
  }

  lemma PutNewest(docs: DocumentTable, key: DocumentKey, d: DocumentState)
    requires key.version == LatestVersion(docs, key.name, key.docType) + 1
    ensures PutAbove(docs, key, d, PutDocument(docs, key, d))
  {
    NextVersionIsNew(docs, key.name, key.docType);
  }

  lemma KeyOfPrefix(docs: DocumentTable, n: Name, updates: seq<DocumentUpdate>, i: nat)
    requires i < |updates| - 1
    ensures KeyOf(docs, n, updates, i) == KeyOf(docs, n, updates[..|updates| - 1], i)
    ensures var last := |updates| - 1;
      CountType(updates[i + 1..], updates[i].docType) ==
      CountType(updates[..last][i + 1..], updates[i].docType)
        + if updates[last].docType == updates[i].docType then 1 else 0
  {
    var last := |updates| - 1;
    assert updates[..last][..i] == updates[..i];
    assert updates[i + 1..][..last - i - 1] == updates[..last][i + 1..];
  }

  lemma NewStoredGrows(docs: DocumentTable, n: Name, updates: seq<DocumentUpdate>, w: DocumentTable, d: DocumentState,
                       after: DocumentTable, now: nat)
    requires updates != [] && NewStored(docs, n, updates[..|updates| - 1], w, now)
    requires var last := |updates| - 1; var key := KeyOf(docs, n, updates, last);
      PutAbove(w, key, d, after) && key !in docs && Carries(d, updates[last], now)
    ensures NewStored(docs, n, updates, after, now)
  {
    hide LatestVersion, Carries, CountType;
    var last := |updates| - 1;
    forall i | 0 <= i < |updates|
      ensures var k := KeyOf(docs, n, updates, i);
        k !in docs && k in after && Carries(after[k].state, updates[i], now)
        && (after[k].current <==> CountType(updates[i + 1..], updates[i].docType) == 0)
    {
      if i < last {
        KeyOfPrefix(docs, n, updates, i);
        assert KeyOf(docs, n, updates[..last], i) in w;
      } else {
        assert updates[i + 1..] == [];
        NothingCounted(updates[i].docType);
      }
    }
  }

  lemma NothingCounted(ty: DocType)
    ensures CountType([], ty) == 0
  {
  }

  lemma OldKeptGrows(docs: DocumentTable, n: Name, updates: seq<DocumentUpdate>, w: DocumentTable, d: DocumentState,
                     after: DocumentTable)
    requires updates != [] && OldKept(docs, n, updates[..|updates| - 1], w)
    requires PutAbove(w, KeyOf(docs, n, updates, |updates| - 1), d, after)
    ensures OldKept(docs, n, updates, after)
    ensures KeyOf(docs, n, updates, |updates| - 1) !in docs
  {
    hide LatestVersion, CountType;
    var last := |updates| - 1;
    assert updates == updates[..last] + [updates[last]];
    assert forall ty :: Touched(updates, ty) <==> Touched(updates[..last], ty) || updates[last].docType == ty;
  }

  lemma NoOthersGrows(docs: DocumentTable, n: Name, updates: seq<DocumentUpdate>, w: DocumentTable, d: DocumentState,
                      after: DocumentTable)
    requires updates != [] && NoOthers(docs, n, updates[..|updates| - 1], w)
    requires PutAbove(w, KeyOf(docs, n, updates, |updates| - 1), d, after)
    ensures NoOthers(docs, n, updates, after)
  {
    hide LatestVersion, CountType, KeyOf;
    var last := |updates| - 1;
    forall k | k in after && k !in docs
      ensures exists i | 0 <= i < |updates| :: k == KeyOf(docs, n, updates, i)
    {
      if k != KeyOf(docs, n, updates, last) {
        var i :| 0 <= i < last && k == KeyOf(docs, n, updates[..last], i);
        KeyOfPrefix(docs, n, updates, i);
      }
    }
  }

  /** A batch stores each of its documents once, in order, and leaves every other version's contents alone. */
  lemma {:induction false} BatchStored(t: Tables, n: Name, updates: seq<DocumentUpdate>, now: nat)
    requires PublishAll(t, n, updates, now).Success?
    ensures Stored(t.documents, n, updates, PublishAll(t, n, updates, now).value.documents, now)
    decreases |updates|
  {
    hide PublishInternal, PutDocument, LatestVersion, CurrentVersion, NewStored, OldKept, NoOthers, PutAbove;
    if updates == [] {
      NothingStored(t.documents, n, now);
    } else {
      var k := |updates| - 1;
      var t1 := PublishAll(t, n, updates[..k], now).value;
      var u := updates[k];
      BatchStored(t, n, updates[..k], now);
      VersionsAfter(t, n, updates[..k], now, u.docType);
      PublishStores(t1, n, u, false, now);
      var key := DocumentKey(n, u.docType, LatestVersion(t1.documents, n, u.docType) + 1);
      var d := SealDocument(key, PublishedDocument(u, u.expectedVersion, now));
      var w := t1.documents;
      PutNewest(w, key, d);
      OldKeptGrows(t.documents, n, updates, w, d, PutDocument(w, key, d));
      NewStoredGrows(t.documents, n, updates, w, d, PutDocument(w, key, d), now);
      NoOthersGrows(t.documents, n, updates, w, d, PutDocument(w, key, d));
    }
  }

  lemma NothingStored(docs: DocumentTable, n: Name, now: nat)
    ensures Stored(docs, n, [], docs, now)
  {
  }
}
