/** From contract log records to table writes, with every value read once at the end of the window. */
module Projection {
  import opened Wrappers
  import opened BnsModel
  import opened RegistryTables
  import opened Ownership

  /** The calldata of the transaction behind a record, as far as checkpoints need it. */
  datatype DecodedCall = NoCall | CheckpointCall(issuer: Principal, externalAnchor: Hash) | OtherCall

  datatype Input = Input(record: EventRecord, call: DecodedCall)

  datatype ReadKey =
    | NameRead(name: Name)
    | DocumentRead(key: DocumentKey)
    | SetRead(name: Name)
    | AliasRead(name: Name)
    | CheckpointRead

  datatype Snapshot = Snapshot(
    names: map<Name, Option<NameState>>,
    documents: map<DocumentKey, Option<DocumentState>>,
    sets: map<Name, AuthoritySet>,
    aliases: map<Name, AliasState>,
    checkpoint: Option<LogCheckpoint>)

  datatype Write = Write(
    reset: Option<Name>,
    name: Option<(Name, NameState)>,
    document: Option<(DocumentKey, DocumentState)>,
    set_: Option<(Name, AuthoritySet)>,
    alias: Option<(Name, AliasState)>,
    checkpoint: Option<LogCheckpoint>)

  const NO_WRITE := Write(None, None, None, None, None, None)

  datatype ProjectionError = MissingRead | AnchorMismatch

  // ----- the contract's view functions -----

  /** The contract answers with the materialized row; an unregistered name reads as available. */
  function ReadName(c: Tables, n: Name, now: nat): Result<Option<NameState>, Error> {
    if n !in c.names then Success(None)
    else
      var m :- MaterializeNameState(c, n, c.names[n], now);
      Success(Some(m))
  }

  function ReadDocument(c: Tables, k: DocumentKey): Option<DocumentState> {
    if k in c.documents then Some(c.documents[k].state) else None
  }

  function ReadAlias(c: Tables, n: Name): AliasState {
    if n in c.aliases then c.aliases[n] else AliasState(NoAlias, "", ZeroHash, 0, 0)
  }

  function ReadCheckpoint(c: Tables): LogCheckpoint {
    var last := MaxOr0(c.checkpoints.Keys);
    if last in c.checkpoints then c.checkpoints[last] else LogCheckpoint(ZeroHash, 0, 0, Unset, ZeroHash)
  }

  // ----- planning the reads -----

  function ReadsFor(input: Input): set<ReadKey> {
    match input.record.event
    case AuthorityKeysUpdated(n, _, _) => {SetRead(n)}
    case DocumentPublished(n, ty, v, _, _) => {NameRead(n), DocumentRead(DocumentKey(n, ty, v))}
    case PaymentTargetUpdated(n, ty, v, _, _) => {NameRead(n), DocumentRead(DocumentKey(n, ty, v))}
    case DocumentRevoked(n, ty, v, _, _) => {NameRead(n), DocumentRead(DocumentKey(n, ty, v))}
    case DidAliasSet(n, _, _, _, _) => {NameRead(n), AliasRead(n)}
    case LogCheckpointPublished(_, _, _, _) => if input.call.CheckpointCall? then {} else {CheckpointRead}
    case e => {NameRead(e.name)}
  }

  function PlannedReads(inputs: seq<Input>): set<ReadKey> {
    set i, r | 0 <= i < |inputs| && r in ReadsFor(inputs[i]) :: r
  }

  predicate Readable(c: Tables, now: nat, plan: set<ReadKey>) {
    forall r | r in plan && r.NameRead? :: ReadName(c, r.name, now).Success?
  }

  function NamesIn(c: Tables, now: nat, plan: set<ReadKey>): map<Name, Option<NameState>>
    requires Readable(c, now, plan)
  {
    map r | r in plan && r.NameRead? :: r.name := ReadName(c, r.name, now).value
  }

  function DocumentsIn(c: Tables, plan: set<ReadKey>): map<DocumentKey, Option<DocumentState>> {
    map r | r in plan && r.DocumentRead? :: r.key := ReadDocument(c, r.key)
  }

  function SetsIn(c: Tables, plan: set<ReadKey>): map<Name, AuthoritySet> {
    map r | r in plan && r.SetRead? :: r.name := AuthoritySetOf(c, r.name)
  }

  function AliasesIn(c: Tables, plan: set<ReadKey>): map<Name, AliasState> {
    map r | r in plan && r.AliasRead? :: r.name := ReadAlias(c, r.name)
  }

  /** One multicall at the window end; it fails when any of its reads does. */
  function LoadSnapshot(c: Tables, now: nat, plan: set<ReadKey>): Result<Snapshot, Error> {
    if !Readable(c, now, plan) then Failure(NoConcreteSigner)
    else Success(Snapshot(
      NamesIn(c, now, plan), DocumentsIn(c, plan), SetsIn(c, plan), AliasesIn(c, plan),
      if CheckpointRead in plan then Some(ReadCheckpoint(c)) else None))
  }

  /** Everything the snapshot holds was read from c. */
  ghost predicate ReadFrom(snap: Snapshot, c: Tables, now: nat) {
    && (forall n | n in snap.names :: ReadName(c, n, now) == Success(snap.names[n]))
    && (forall k | k in snap.documents :: snap.documents[k] == ReadDocument(c, k))
    && (forall n | n in snap.sets :: snap.sets[n] == AuthoritySetOf(c, n))
    && (forall n | n in snap.aliases :: snap.aliases[n] == ReadAlias(c, n))
    && (snap.checkpoint.Some? ==> snap.checkpoint.value == ReadCheckpoint(c))
  }

  lemma LoadedFrom(c: Tables, now: nat, plan: set<ReadKey>)
    requires LoadSnapshot(c, now, plan).Success?
    ensures ReadFrom(LoadSnapshot(c, now, plan).value, c, now)
  {
  }

  // ----- projecting one record -----

  function PushName(snap: Snapshot, n: Name, w: Write): Result<Write, ProjectionError> {
    if n !in snap.names then Failure(MissingRead)
    else match snap.names[n]
      case None => Success(w)
      case Some(s) => Success(w.(name := Some((n, s))))
  }

  function PushDocument(snap: Snapshot, k: DocumentKey, w: Write): Result<Write, ProjectionError> {
    if k !in snap.documents then Failure(MissingRead)
    else match snap.documents[k]
      case None => Success(w)
      case Some(d) => Success(w.(document := Some((k, d))))
  }

  function PushNameAndDocument(snap: Snapshot, k: DocumentKey): Result<Write, ProjectionError> {
    var w :- PushName(snap, k.name, NO_WRITE);
    PushDocument(snap, k, w)
  }

  function ProjectionFor(snap: Snapshot, input: Input): Result<Write, ProjectionError> {
    match input.record.event
    case NameRegistered(n, _, _, _, _) => PushName(snap, n, NO_WRITE.(reset := Some(n)))
    case DocumentPublished(n, ty, v, _, _) => PushNameAndDocument(snap, DocumentKey(n, ty, v))
    case DocumentRevoked(n, ty, v, _, _) => PushNameAndDocument(snap, DocumentKey(n, ty, v))
    case PaymentTargetUpdated(n, ty, v, _, _) => PushNameAndDocument(snap, DocumentKey(n, ty, v))
    case AuthorityKeysUpdated(n, _, _) =>
      if n !in snap.sets then Failure(MissingRead) else Success(NO_WRITE.(set_ := Some((n, snap.sets[n]))))
    case DidAliasSet(n, _, _, _, _) =>
      var w :- PushName(snap, n, NO_WRITE);
      if n !in snap.aliases then Failure(MissingRead) else Success(w.(alias := Some((n, snap.aliases[n]))))
    case LogCheckpointPublished(root, last, issuedAt, anchor) =>
      if input.call.CheckpointCall? then
        if input.call.externalAnchor != anchor then Failure(AnchorMismatch)
        else Success(NO_WRITE.(checkpoint := Some(LogCheckpoint(root, last, issuedAt, input.call.issuer, anchor))))
      else if snap.checkpoint.None? then Failure(MissingRead)
      else Success(NO_WRITE.(checkpoint := snap.checkpoint))
    case e => PushName(snap, e.name, NO_WRITE)
  }

  /** The snapshot has an answer for the read. */
  predicate Holds(snap: Snapshot, r: ReadKey) {
    match r
    case NameRead(n) => n in snap.names
    case DocumentRead(k) => k in snap.documents
    case SetRead(n) => n in snap.sets
    case AliasRead(n) => n in snap.aliases
    case CheckpointRead => snap.checkpoint.Some?
  }

  /** The reads planned for a record are exactly the lookups its projection makes. */
  lemma MissingExactlyWhen(snap: Snapshot, input: Input)
    ensures ProjectionFor(snap, input) == Failure(MissingRead) <==> exists r | r in ReadsFor(input) :: !Holds(snap, r)
  {
    var e := input.record.event;
    var name := NameRead(PushedName(e));
    if e.DocumentPublished? || e.DocumentRevoked? || e.PaymentTargetUpdated? {
      var document := DocumentRead(DocumentKey(e.name, e.docType, e.version));
      assert ReadsFor(input) == {name, document};
      assert name in ReadsFor(input) && document in ReadsFor(input);
    } else if e.AuthorityKeysUpdated? {
      assert ReadsFor(input) == {SetRead(e.name)};
      assert SetRead(e.name) in ReadsFor(input);
    } else if e.DidAliasSet? {
      assert ReadsFor(input) == {name, AliasRead(e.name)};
      assert name in ReadsFor(input) && AliasRead(e.name) in ReadsFor(input);
    } else if e.LogCheckpointPublished? {
      assert !input.call.CheckpointCall? ==> CheckpointRead in ReadsFor(input);
    } else {
      assert ReadsFor(input) == {name};
      assert name in ReadsFor(input);
    }
  }

  lemma LoadedHolds(c: Tables, now: nat, plan: set<ReadKey>, r: ReadKey)
    requires LoadSnapshot(c, now, plan).Success? && r in plan
    ensures Holds(LoadSnapshot(c, now, plan).value, r)
  {
    hide ReadName;
  }

  /** The reads planned for a list of records cover every lookup made when projecting any of them. */
  lemma PlannedReadsSuffice(c: Tables, now: nat, inputs: seq<Input>, i: nat)
    requires i < |inputs| && LoadSnapshot(c, now, PlannedReads(inputs)).Success?
    ensures ProjectionFor(LoadSnapshot(c, now, PlannedReads(inputs)).value, inputs[i]) != Failure(MissingRead)
  {
    hide LoadSnapshot, ProjectionFor, ReadsFor, Holds;
    var plan := PlannedReads(inputs);
    var snap := LoadSnapshot(c, now, plan).value;
    MissingExactlyWhen(snap, inputs[i]);
    forall r | r in ReadsFor(inputs[i])
      ensures Holds(snap, r)
    {
      LoadedHolds(c, now, plan, r);
    }
  }

  function PushedName(e: RegistryEvent): Name {
    if e.LogCheckpointPublished? then Top("") else e.name
  }

  // ----- applying one record -----

  /** Resets, then names, documents and authority sets, in this order. */
  function ApplyWrite(t: Tables, w: Write): Tables {
    var t1 := if w.reset.Some? then ResetNameLineage(t, w.reset.value) else t;
    t1.(
      names := if w.name.Some? then t1.names[w.name.value.0 := w.name.value.1] else t1.names,
      documents :=
        if w.document.Some? then PutDocument(t1.documents, w.document.value.0, w.document.value.1) else t1.documents,
      sets := if w.set_.Some? then t1.sets[w.set_.value.0 := w.set_.value.1] else t1.sets,
      aliases := if w.alias.Some? then t1.aliases[w.alias.value.0 := w.alias.value.1] else t1.aliases,
      checkpoints :=
        if w.checkpoint.Some? then t1.checkpoints[w.checkpoint.value.lastSeq := w.checkpoint.value]
        else t1.checkpoints)
  }

  /** One transaction of the indexer: the event record and what it implies. */
  function ProjectRecord(t: Tables, snap: Snapshot, input: Input): Result<Tables, ProjectionError> {
    var w :- ProjectionFor(snap, input);
    Success(ApplyWrite(t.(events := t.events[input.record.seq_ := input.record]), w))
  }

  function Replay(t: Tables, snap: Snapshot, inputs: seq<Input>): Result<Tables, ProjectionError> {
    if inputs == [] then Success(t)
    else
      var k := |inputs| - 1;
      var t1 :- Replay(t, snap, inputs[..k]);
      ProjectRecord(t1, snap, inputs[k])
  }
}
