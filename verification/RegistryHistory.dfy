/** What the event log says about the tables: versions, current flags, authority sets, names. */
module RegistryHistory {
  import opened BnsModel
  import opened RegistryTables

  type Records = seq<EventRecord>

  /** The event adds a version of the document. */
  predicate AddsVersion(e: RegistryEvent, n: Name, ty: DocType) {
    (e.DocumentPublished? || e.DocumentRevoked?) && e.name == n && e.docType == ty
  }

  predicate Registers(e: RegistryEvent, n: Name) {
    e.NameRegistered? && e.name == n
  }

  /** The version made current last, unless the name was registered anew since. */
  function LogCurrent(log: Records, n: Name, ty: DocType): nat {
    if log == [] then 0
    else
      var e := log[|log| - 1].event;
      if Registers(e, n) then 0
      else if AddsVersion(e, n, ty) then e.version
      else LogCurrent(log[..|log| - 1], n, ty)
  }

  function LogLatest(log: Records, n: Name, ty: DocType): nat {
    if log == [] then 0
    else
      var e := log[|log| - 1].event;
      if AddsVersion(e, n, ty) then e.version else LogLatest(log[..|log| - 1], n, ty)
  }

  /** The version that was current when version v was added. */
  function LogPrevious(log: Records, n: Name, ty: DocType, v: nat): nat {
    if log == [] then 0
    else
      var e := log[|log| - 1].event;
      if AddsVersion(e, n, ty) && e.version == v then LogCurrent(log[..|log| - 1], n, ty)
      else LogPrevious(log[..|log| - 1], n, ty, v)
  }

  predicate LogHasSet(log: Records, n: Name) {
    log != [] &&
    var e := log[|log| - 1].event;
    if Registers(e, n) then false
    else if e.AuthorityKeysUpdated? && e.name == n then true
    else LogHasSet(log[..|log| - 1], n)
  }

  /** How often the name was registered. */
  function LogRegistrations(log: Records, n: Name): nat {
    if log == [] then 0
    else LogRegistrations(log[..|log| - 1], n) + if Registers(log[|log| - 1].event, n) then 1 else 0
  }

  /** Versions are 1..latest, and only the version the log calls current carries the flag. */
  ghost predicate DocumentsMatch(docs: DocumentTable, log: Records, n: Name, ty: DocType) {
    var latest := LogLatest(log, n, ty);
    var current := LogCurrent(log, n, ty);
    && (current == 0 || current == latest)
    && (forall v: nat :: DocumentKey(n, ty, v) in docs <==> 1 <= v <= latest)
    && forall v: nat | DocumentKey(n, ty, v) in docs ::
      var row := docs[DocumentKey(n, ty, v)];
      && (row.current <==> v == current)
      && row.state.previousVersion == LogPrevious(log, n, ty, v)
  }

  predicate NameMatches(t: Tables, log: Records, n: Name) {
    && (n in t.names <==> LogRegistrations(log, n) > 0)
    && (n in t.sets <==> LogHasSet(log, n))
    && (n in t.names ==>
          && t.names[n].lineageEpoch + 1 == LogRegistrations(log, n)
          && t.names[n].ownerDocumentVersion == LogCurrent(log, n, OWNER_DOC_TYPE))
  }

  /** Every version was added right on top of the one before it. */
  ghost predicate VersionsInOrder(log: Records) {
    forall i: nat, n, ty | i < |log| && AddsVersion(log[i].event, n, ty) ::
      log[i].event.version == LogLatest(log[..i], n, ty) + 1
  }

  /** The payment event rewrites the version that is current after p. */
  predicate PaysCurrent(p: Records, e: RegistryEvent)
    requires e.PaymentTargetUpdated?
  {
    e.version > 0 && e.version == LogCurrent(p, e.name, e.docType)
  }

  ghost predicate PaymentsInOrder(log: Records) {
    forall i: nat | i < |log| && log[i].event.PaymentTargetUpdated? :: PaysCurrent(log[..i], log[i].event)
  }

  lemma OrderStep(log: Records, r: EventRecord)
    requires VersionsInOrder(log) && PaymentsInOrder(log)
    requires forall n, ty | AddsVersion(r.event, n, ty) :: r.event.version == LogLatest(log, n, ty) + 1
    requires r.event.PaymentTargetUpdated? ==> PaysCurrent(log, r.event)
    ensures VersionsInOrder(log + [r]) && PaymentsInOrder(log + [r])
  {
    var longer := log + [r];
    forall i: nat | i < |longer| && longer[i].event.PaymentTargetUpdated?
      ensures PaysCurrent(longer[..i], longer[i].event)
    {
      assert i < |log| ==> longer[..i] == log[..i];
      assert i == |log| ==> longer[..i] == log;
    }
    forall i: nat, n, ty | i < |longer| && AddsVersion(longer[i].event, n, ty)
      ensures longer[i].event.version == LogLatest(longer[..i], n, ty) + 1
    {
      assert longer[..i] == log[..i];
      assert i < |log| ==> AddsVersion(log[i].event, n, ty);
      assert i == |log| ==> longer[..i] == log;
    }
  }

  /** The log determines which rows exist and which of them are current. */
  ghost predicate LogDetermines(t: Tables) {
    && VersionsInOrder(Log(t))
    && PaymentsInOrder(Log(t))
    && (forall n, ty :: DocumentsMatch(t.documents, Log(t), n, ty))
    && (forall n :: NameMatches(t, Log(t), n))
    && (forall k | k in t.documents :: k.name in t.names)
    && (forall n | n in t.sets :: n in t.names)
  }

  // ----- reading the tables -----

  lemma ReadVersions(docs: DocumentTable, log: Records, n: Name, ty: DocType)
    requires DocumentsMatch(docs, log, n, ty)
    ensures LatestVersion(docs, n, ty) == LogLatest(log, n, ty)
    ensures CurrentVersion(docs, n, ty) == LogCurrent(log, n, ty)
  {
    var latest := LogLatest(log, n, ty);
    var current := LogCurrent(log, n, ty);
    assert forall v: nat :: v in Versions(docs, n, ty) <==> DocumentKey(n, ty, v) in docs;
    assert forall v: nat :: v in CurrentVersions(docs, n, ty) <==>
      DocumentKey(n, ty, v) in docs && docs[DocumentKey(n, ty, v)].current;
    if latest > 0 {
      assert DocumentKey(n, ty, latest) in docs;
    }
    if current > 0 {
      assert DocumentKey(n, ty, current) in docs;
    }
  }

  // ----- writing the tables -----

  lemma LogPush(log: Records, r: EventRecord)
    ensures (log + [r])[..|log + [r]| - 1] == log
  {
  }

  /** A new version on top of the latest one becomes the only current one. */
  lemma AddVersionMatches(
    docs: DocumentTable, log: Records, n: Name, ty: DocType, d: DocumentState, r: EventRecord, m: Name, ty2: DocType)
    requires DocumentsMatch(docs, log, n, ty) && DocumentsMatch(docs, log, m, ty2)
    requires AddsVersion(r.event, n, ty) && r.event.version == LogLatest(log, n, ty) + 1
    requires d.previousVersion == LogCurrent(log, n, ty)
    ensures DocumentsMatch(PutDocument(docs, DocumentKey(n, ty, r.event.version), d), log + [r], m, ty2)
  {
    LogPush(log, r);
    if m == n && ty2 == ty {
      AddedVersionMatches(docs, log, n, ty, d, r);
    } else {
      OtherDocumentKept(docs, DocumentKey(n, ty, r.event.version), d, m, ty2);
    }
  }

  lemma AddedVersionMatches(docs: DocumentTable, log: Records, n: Name, ty: DocType, d: DocumentState, r: EventRecord)
    requires DocumentsMatch(docs, log, n, ty)
    requires AddsVersion(r.event, n, ty) && r.event.version == LogLatest(log, n, ty) + 1
    requires d.previousVersion == LogCurrent(log, n, ty)
    ensures DocumentsMatch(PutDocument(docs, DocumentKey(n, ty, r.event.version), d), log + [r], n, ty)
  {
    LogPush(log, r);
    assert forall v: nat :: v in Versions(docs, n, ty) <==> DocumentKey(n, ty, v) in docs;
    assert LogLatest(log + [r], n, ty) == LogCurrent(log + [r], n, ty) == r.event.version;
  }

  /** Storing a version leaves the rows of every other document as they are. */
  lemma OtherDocumentKept(docs: DocumentTable, key: DocumentKey, d: DocumentState, m: Name, ty: DocType)
    requires key.name != m || key.docType != ty
    ensures var after := PutDocument(docs, key, d);
      forall v: nat :: (DocumentKey(m, ty, v) in after <==> DocumentKey(m, ty, v) in docs)
                       && (DocumentKey(m, ty, v) in docs ==> after[DocumentKey(m, ty, v)] == docs[DocumentKey(m, ty, v)])
  {
  }

  /** Rewriting the current version leaves versions and flags as they are. */
  lemma RewriteCurrentMatches(
    docs: DocumentTable, log: Records, key: DocumentKey, d: DocumentState, r: EventRecord, m: Name, ty2: DocType)
    requires DocumentsMatch(docs, log, key.name, key.docType) && DocumentsMatch(docs, log, m, ty2)
    requires key in docs && docs[key].current
    requires d.previousVersion == docs[key].state.previousVersion
    requires r.event.PaymentTargetUpdated?
    ensures DocumentsMatch(PutDocument(docs, key, d), log + [r], m, ty2)
  {
    LogPush(log, r);
    assert key == DocumentKey(key.name, key.docType, key.version);
    assert forall v: nat :: v in Versions(docs, key.name, key.docType) <==>
      DocumentKey(key.name, key.docType, v) in docs;
  }

  /** A registration clears every current flag of the name. */
  lemma RegisterMatches(docs: DocumentTable, log: Records, n: Name, r: EventRecord, m: Name, ty: DocType)
    requires DocumentsMatch(docs, log, m, ty)
    requires Registers(r.event, n)
    ensures DocumentsMatch(ClearCurrentOfName(docs, n), log + [r], m, ty)
  {
    LogPush(log, r);
  }

  /** Any other event says nothing about documents. */
  lemma NeutralMatches(docs: DocumentTable, log: Records, r: EventRecord, m: Name, ty: DocType)
    requires DocumentsMatch(docs, log, m, ty)
    requires !Registers(r.event, m) && !AddsVersion(r.event, m, ty)
    ensures DocumentsMatch(docs, log + [r], m, ty)
  {
    LogPush(log, r);
  }
}
