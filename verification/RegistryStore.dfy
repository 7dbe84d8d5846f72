/** The SQLite store: one object holding the tables, changed statement by statement. */
module RegistryStore {
  import opened BnsModel
  import opened RegistryTables

  class Store {
    var names: map<Name, NameState>
    var documents: DocumentTable
    var keys: map<Name, map<Kid, AuthorityKey>>
    var sets: map<Name, AuthoritySet>
    var policies: map<Name, ControllerPolicy>
    var aliases: map<Name, AliasState>
    var events: EventTable
    var checkpoints: map<nat, LogCheckpoint>

    function Contents(): Tables
      reads this
    {
      Tables(names, documents, keys, sets, policies, aliases, events, checkpoints)
    }

    constructor ()
      ensures Contents() == EMPTY_TABLES
    {
      names, documents, keys, sets := map[], map[], map[], map[];
      policies, aliases, events, checkpoints := map[], map[], map[], map[];
    }

    /** What dropping an uncommitted transaction does. */
    method Rollback(saved: Tables)
      modifies this
      ensures Contents() == saved
    {
      names, documents, keys, sets := saved.names, saved.documents, saved.keys, saved.sets;
      policies, aliases, events, checkpoints := saved.policies, saved.aliases, saved.events, saved.checkpoints;
    }

    method PutName(n: Name, s: NameState)
      modifies this
      ensures Contents() == old(Contents()).(names := old(names)[n := s])
    {
      names := names[n := s];
    }

    /** Look up the highest stored version; when the row is not below it, take the flag from its siblings. */
    method PutDocument(key: DocumentKey, state: DocumentState)
      modifies this
      ensures Contents() == old(Contents()).(documents := RegistryTables.PutDocument(old(documents), key, state))
    {
      var versions := Versions(documents, key.name, key.docType);
      var isCurrent := versions == {} || MaxOr0(versions) <= key.version;
      if isCurrent {
        documents := map k | k in documents ::
          if k.name == key.name && k.docType == key.docType then documents[k].(current := false) else documents[k];
      }
      documents := documents[key := DocumentRow(state, isCurrent)];
    }

    method PutAuthorityKey(n: Name, kid: Kid, key: AuthorityKey)
      modifies this
      ensures Contents() == old(Contents()).(keys := old(keys)[n := KeysOf(old(Contents()), n)[kid := key]])
    {
      keys := keys[n := KeysOf(Contents(), n)[kid := key]];
    }

    method PutAuthoritySet(n: Name, set_: AuthoritySet)
      modifies this
      ensures Contents() == old(Contents()).(sets := old(sets)[n := set_])
    {
      sets := sets[n := set_];
    }

    method PutControllerPolicy(n: Name, policy: ControllerPolicy)
      modifies this
      ensures Contents() == old(Contents()).(policies := old(policies)[n := policy])
    {
      policies := policies[n := policy];
    }

    method PutAlias(n: Name, alias: AliasState)
      modifies this
      ensures Contents() == old(Contents()).(aliases := old(aliases)[n := alias])
    {
      aliases := aliases[n := alias];
    }

    method PutCheckpoint(checkpoint: LogCheckpoint)
      modifies this
      ensures Contents() == old(Contents()).(checkpoints := old(checkpoints)[checkpoint.lastSeq := checkpoint])
    {
      checkpoints := checkpoints[checkpoint.lastSeq := checkpoint];
    }

    method ResetNameLineage(n: Name)
      modifies this
      ensures Contents() == RegistryTables.ResetNameLineage(old(Contents()), n)
    {
      documents := map k | k in documents :: if k.name == n then documents[k].(current := false) else documents[k];
      sets := sets - {n};
      keys := keys - {n};
      aliases := aliases - {n};
      policies := policies - {n};
    }

    method PutEventRecord(record: EventRecord)
      modifies this
      ensures Contents() == old(Contents()).(events := old(events)[record.seq_ := record])
    {
      events := events[record.seq_ := record];
    }

    /** The indexer starts over: every projected table is emptied. */
    method ResetProjection()
      modifies this
      ensures Contents() == EMPTY_TABLES
    {
      names, documents, keys, sets := map[], map[], map[], map[];
      policies, aliases, events, checkpoints := map[], map[], map[], map[];
    }

    method AppendEvent(event: RegistryEvent, now: nat)
      modifies this
      ensures Contents() == RegistryTables.AppendEvent(old(Contents()), event, now)
    {
      var last := MaxOr0(events.Keys);
      var previous := if last in events then events[last].logRoot else ZeroHash;
      var digest := EventHash(last + 1, previous, event);
      var record := EventRecord(last + 1, now, digest, previous, LogRoot(previous, digest), event);
      events := events[record.seq_ := record];
    }
  }
}
