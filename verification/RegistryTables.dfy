/** The SQLite tables of the registry store and the statements that change them. */
module RegistryTables {
  import opened BnsModel

  datatype DocumentRow = DocumentRow(state: DocumentState, current: bool)

  type DocumentTable = map<DocumentKey, DocumentRow>
  type EventTable = map<nat, EventRecord>

  datatype Tables = Tables(
    names: map<Name, NameState>,
    documents: DocumentTable,
    keys: map<Name, map<Kid, AuthorityKey>>,
    sets: map<Name, AuthoritySet>,
    policies: map<Name, ControllerPolicy>,
    aliases: map<Name, AliasState>,
    events: EventTable,
    checkpoints: map<nat, LogCheckpoint>)

  const EMPTY_TABLES := Tables(map[], map[], map[], map[], map[], map[], map[], map[])

  // ----- maxima, as `SELECT MAX(..)` and `ORDER BY .. DESC LIMIT 1` compute them -----

  lemma MaxExists(s: set<nat>)
    requires s != {}
    ensures exists m :: m in s && forall x | x in s :: x <= m
  {
    var m :| m in s;
    if s != {m} {
      var rest := s - {m};
      MaxExists(rest);
      var r :| r in rest && forall x | x in rest :: x <= r;
      var top := if r <= m then m else r;
      assert top in s && forall x | x in s :: x in rest || x == m;
    }
  }

  function MaxOr0(s: set<nat>): (m: nat)
    ensures s == {} ==> m == 0
    ensures s != {} ==> m in s
    ensures forall x | x in s :: x <= m
  {
    if s == {} then 0
    else
      MaxExists(s);
      var m :| m in s && forall x | x in s :: x <= m;
      m
  }

  function Versions(docs: DocumentTable, n: Name, ty: DocType): set<nat> {
    set k | k in docs && k.name == n && k.docType == ty :: k.version
  }

  function CurrentVersions(docs: DocumentTable, n: Name, ty: DocType): set<nat> {
    set k | k in docs && k.name == n && k.docType == ty && docs[k].current :: k.version
  }

  /** The version of `get_latest_document`, 0 when there is no row. */
  function LatestVersion(docs: DocumentTable, n: Name, ty: DocType): nat {
    MaxOr0(Versions(docs, n, ty))
  }

  /** The version of `get_current_document`, 0 when no row is current. */
  function CurrentVersion(docs: DocumentTable, n: Name, ty: DocType): nat {
    MaxOr0(CurrentVersions(docs, n, ty))
  }

  // ----- documents -----

  function ClearCurrent(docs: DocumentTable, n: Name, ty: DocType): DocumentTable {
    map k | k in docs ::
      if k.name == n && k.docType == ty then docs[k].(current := false) else docs[k]
  }

  function ClearCurrentOfName(docs: DocumentTable, n: Name): DocumentTable {
    map k | k in docs :: if k.name == n then docs[k].(current := false) else docs[k]
  }

  /** A row becomes current exactly when no stored version is higher. */
  function PutDocument(docs: DocumentTable, key: DocumentKey, state: DocumentState): DocumentTable {
    var isCurrent := forall v | v in Versions(docs, key.name, key.docType) :: v <= key.version;
    var cleared := if isCurrent then ClearCurrent(docs, key.name, key.docType) else docs;
    cleared[key := DocumentRow(state, isCurrent)]
  }

  // ----- authority sets -----

  function AuthoritySetOf(t: Tables, n: Name): AuthoritySet {
    if n in t.sets then t.sets[n] else EMPTY_AUTHORITY_SET
  }

  function KeysOf(t: Tables, n: Name): map<Kid, AuthorityKey> {
    if n in t.keys then t.keys[n] else map[]
  }

  /** One row per key, so storing no key leaves no row. */
  function StoredKeys(
    table: map<Name, map<Kid, AuthorityKey>>, n: Name, keys: map<Kid, AuthorityKey>): map<Name, map<Kid, AuthorityKey>>
  {
    if keys == map[] then table else table[n := keys]
  }

  /** Re-registration starts a new lineage: no current document, no keys, no policy, no alias. */
  function ResetNameLineage(t: Tables, n: Name): Tables {
    t.(documents := ClearCurrentOfName(t.documents, n),
       keys := t.keys - {n},
       sets := t.sets - {n},
       policies := t.policies - {n},
       aliases := t.aliases - {n})
  }

  // ----- the event log -----

  function LatestSeq(events: EventTable): nat {
    MaxOr0(events.Keys)
  }

  function RootAt(events: EventTable, seq_: nat): Hash {
    if seq_ in events then events[seq_].logRoot else ZeroHash
  }

  function NextRecord(events: EventTable, event: RegistryEvent, now: nat): EventRecord {
    var last := LatestSeq(events);
    var previous := RootAt(events, last);
    var digest := EventHash(last + 1, previous, event);
    EventRecord(last + 1, now, digest, previous, LogRoot(previous, digest), event)
  }

  function AppendEvent(t: Tables, event: RegistryEvent, now: nat): Tables {
    var record := NextRecord(t.events, event, now);
    t.(events := t.events[record.seq_ := record])
  }

  /** The rows of the event table in `seq` order, up to row k. */
  function EventsUpTo(events: EventTable, k: nat): seq<EventRecord> {
    if k == 0 then []
    else EventsUpTo(events, k - 1) + (if k in events then [events[k]] else [])
  }

  function Log(t: Tables): seq<EventRecord> {
    EventsUpTo(t.events, LatestSeq(t.events))
  }
}
