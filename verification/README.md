# BNS: registry, indexer and idempotent writes, modelled and proved

This project models the BNS (name registry) part of the gateway and proves what it keeps. Four connected state
machines are modelled.

- **The registry.** Names are registered, renewed, transferred and released. They refer to semantic owners, hold
  authority keys and versioned documents, and every change is written to a hash-chained event log. Each mutation is
  one transaction over several tables that rolls back when it fails. `RegistryTables`, `Ownership`, `OwnerGraph` and
  `RegistrySpec` say what each operation computes. `RegistryStore` and `Registry` are the same operations as objects
  that change in place, with the loops of the original. `RegistryInvariants` to `RegistryRuns`, `DocumentHistory`,
  `OwnerCommits`, `RegistryEffects`, `RowEffects`, `RegistryContents` and `NameLife` prove what holds in every
  reachable state. `Liveness` says what live names, keys and rules are on the stored fields alone; in these terms
  `NameAnswers` says what a query answers, `CommitConditions` and `RegistrationConditions` exactly when each operation
  commits, `Refusals` with which error it is refused, and `DocumentBatches`, `OperationTables`, `BatchTables` and
  `RegistrationTables` what it leaves in every table and in the log.
- **The indexer.** It turns contract logs, one block window at a time, into the read tables. `EventProjector` pairs
  the logs, `Projection` plans the reads and derives the writes, `IndexerSync` is one sync call as a function of the
  state and of the fork it is served, and `Indexer` is the object. `Mirror` and `WindowReplay` prove what replaying a
  window does from clean or half-written tables. `IndexerAgreement` and `IndexerRuns` carry that through runs of calls
  over changing forks, with stops, restarts and changing configurations. `IndexerReorg`, `IndexerGrowth` and
  `IndexerWindows` hold the theorems, and `IndexerFailures` a concrete run for each condition that they cannot do
  without. The registry machine above plays the contract.
- **The idempotent write protocol.** Sign, store, broadcast, recover. `WriteRequests` and `SqliteRequests` are the two
  record stores, `RequestStores` the objects. `WriteProtocol` is the protocol as a step machine: one call at a time
  under the execution lock, receipt waiters beside it, a crash possible between any two steps, a chain that answers
  NotFound, Pending, Succeeded, Reverted or not at all. A step makes at most one store call and goes on with the reply.
  `WriteRuns` says what a run on a store is, `WriteAttempts`, `WriteSafety` and `WriteReplay` prove what every run
  keeps, and `StoreRuns` shows that the in-memory store and SQLite both give such runs. `WriteEvidence` ties every
  stored final state to what the chain said, `WriteOutcomes` every returned value to the stored state, `WriteDamage`
  every replaced or dropped hash to a lookup, and `WritePaths` gives whole calls step by step.
- **Nonces, lookup locks and paging.** `Nonces` and `LookupLocks` are interleaved tasks split where the code awaits.
  `Paging` is keyset paging over the names of one owner.

## How things are modelled

- A transaction reads the clock once. Clocks do not run backwards. Times and sequence numbers are unbounded naturals,
  except in the SQLite columns, where the casts to and from signed 64-bit integers are written out.
- A name is its labels, leftmost first. Hashes are free constructors, so equal hashes have equal arguments.
- A signed transaction is a value with a chain id, a nonce and a body. Stored transaction text is a spelling of one,
  or text that does not decode; hash text likewise.
- Which owner-graph error a rejected change reports depends on the order of a hash map. The specification leaves it
  open (`OwnerGraphRejected`), and `Registry` proves that one of the four possible errors is reported.
- The contract's view functions return materialized rows, so the index holds materialized rows. Agreement is equality
  of all stored fields, of the effective status from the window's time on, and of every answer to a name query.
- An indexer run is a sequence of rounds. Each round has its own fork, confirmations and block span, may begin with a
  restart that loses the cached head, and may stop before it has a head, between caching the head and the reorg check,
  or after any number of records. All rounds start from the same block.
- A round is harmless if it does not stop between caching the head and a check that would find a reorg, if its fork
  still has the blocks that half-written rows were read at, unless the check finds a reorg, and if it does not complete
  below these blocks. `ReorgSafe` needs every round to be harmless; a run without stops always is.
- A request call has a retry limit of its own. Store replies may be anything that `WriteRuns.Decided` allows: decided
  as in memory on the fields that matter, or a compare-and-set left undone.
- A run's trace records every answer of the chain: lookups by a call, replies to a broadcast, and receipts a waiter
  reads.
- A write receipt is determined by its request and its signed transaction, but for the reuse flag.
- `hide` only keeps definitions out of a proof; it assumes nothing.

## Model

| member | source | states |
|---|---|---|
| `OwnerGraph.ValidateOwnerPath` | src/components/bns-indexer/src/registry.rs:2018-2083 | the loop with its visited set accepts exactly the names whose walk visits active names only and reaches a concrete signer within MAX_OWNER_REF_DEPTH references; a cycle error means there is a cycle, a depth error that the walk does not end in time |
| `OwnerGraph.CycleNeverEnds` | src/components/bns-indexer/src/registry.rs:2029-2032 | a walk that comes back to its start never ends within any bound |
| `OwnerGraph.ReplaceKeepsGrounded` | src/components/bns-indexer/src/registry.rs:1995-2016 | replacing one row by a row whose own walk ends keeps every other walk finite, also through inactive names |
| `OwnerCommits.ResolutionIsPlainWalk` | src/components/bns-indexer/src/registry.rs:1799-1885 | the mutually recursive owner resolution of an active name succeeds exactly when a plain walk up the labels does, and returns the same owner, source, root and sequence |
| `OwnerCommits.OwnerCommitGraphOk` | src/components/bns-indexer/src/registry.rs:743-757 | after every commit that sets an owner or releases a name, with its key updates, documents and policy, the whole owner graph passes the check |
| `OwnerCommits.AfterOwnerCommit` | src/components/bns-indexer/src/registry.rs:1995-2083 | in every run, right after an owner-setting commit each active name reaches a concrete signer over at most eight references through active names, and its owner resolves to what the plain walk finds |
| `RegistryRuns.OwnerWalksEnd` | src/components/bns-indexer/src/registry.rs:1995-2083 | in every reachable state, following owner references from any stored name, active or not, stops at a self-owned name or at a top-level name without semantic owner and never comes back |
| `RegistryRuns.ActiveNamesHaveLiveOwners` | src/components/bns-indexer/src/registry.rs:1462-1510 | in every reachable state and at any later time, an active name with an explicit owner names a stored owner that is neither released nor tombstoned and counts at least one key |
| `RegistryRuns.SequenceNeverFalls` | src/components/bns-indexer/src/registry.rs:444-445 | name_seq never decreases over a run, release and re-registration included |
| `RegistryRuns.StaleGuardNeverCommits` | src/components/bns-indexer/src/registry.rs:1747-1756 | of two guarded mutations of one name with the same expected sequence number, other than pure key updates, at most one ever commits |
| `RegistryRuns.LineageCountsRegistrations` | src/components/bns-indexer/src/registry.rs:444-445 | lineage_epoch is the number of registrations in the log minus one, and a name is stored exactly when it was registered |
| `RegistryRuns.CheckpointsStayTrue` | src/components/bns-indexer/src/registry.rs:1413-1448 | the log is contiguous and chained in every reachable state, and a published checkpoint names the root at its last_seq in all later states |
| `RegistryOperations.OperationSound` | src/components/bns-indexer/src/registry.rs:382-1448 | each of the eighteen operations, when it commits, keeps the whole invariant, announces every row it changed by an event, and moves the sequence number of a guarded mutation |
| `RegistryLog.AppendKeepsLog` | src/components/bns-indexer/src/sqlite.rs:625-665 | appending adds exactly one record at the end and keeps numbering and chain |
| `RegistryLog.LastRootCommitsToLog` | src/components/bns-indexer/src/sqlite.rs:625-665 | two logs with equal last roots hold the same events in the same order; only the unhashed observation times may differ |
| `RegistryHistory.AddVersionMatches` | src/components/bns-indexer/src/sqlite.rs:359-403 | storing the next version makes it the only current one and leaves every other document alone, as the log says |
| `RegistryHistory.RegisterMatches` | src/components/bns-indexer/src/sqlite.rs:602-623 | a lineage reset leaves no current version of the name, as the log says |
| `DocumentHistory.DocumentVersionsInOrder` | src/components/bns-indexer/src/registry.rs:1512-1581 | in every reachable state the versions of a document are exactly 1..m, at most one is current and it is the highest, and owner_document_version is the current owner document's version or 0 |
| `DocumentHistory.DocumentVersionsLinked` | src/components/bns-indexer/src/registry.rs:1146-1217 | in every reachable state each version links to its predecessor inside a lineage and to 0 where its lineage opens |
| `RegistryEffects.OwnerCheckMeans` | src/components/bns-indexer/src/registry.rs:1697-1745 | on an active name the owner check passes exactly for a well-formed actor in the owner role that is the owner found by a plain walk up the labels and, if it is a name, signs with a key live for authentication now |
| `RegistryEffects.UpdateCheckMeans` | src/components/bns-indexer/src/registry.rs:1621-1658 | the update check passes exactly for that owner and for controllers with a live key and a rule in force for this document type and permission |
| `RegistryEffects.AllChecksMean` | src/components/bns-indexer/src/registry.rs:1000-1019 | a batch of documents passes exactly when each document would pass alone |
| `RegistryEffects.OnlyOwnerCommits` | src/components/bns-indexer/src/registry.rs:1697-1745 | an owner-only mutation commits only for the owner that the plain walk finds, acting with a key that is live now |
| `RegistryEffects.OnlyAllowedCommits` | src/components/bns-indexer/src/registry.rs:1621-1658 | any other guarded mutation commits only for that owner, or for a controller with a live rule for exactly this document type and permission |
| `RegistryEffects.OnlyAllowedBatchCommits` | src/components/bns-indexer/src/registry.rs:1000-1019 | a batch of documents commits only if each document might have been published alone |
| `RegistryEffects.OnlyParentOwnerRegisters` | src/components/bns-indexer/src/registry.rs:422-431 | a subname is registered only by the owner of its parent |
| `RegistryEffects.StandardTransferNeedsFallback` | src/components/bns-indexer/src/registry.rs:788-825 | a standard transfer commits only for a transferable top-level name without semantic owner |
| `RowEffects.CommittedRow` | src/components/bns-indexer/src/registry.rs:682-1411 | every committed mutation leaves the name row exactly as its parameters call for, changed now: a release leaves Released or, with the tombstone mode, Tombstoned; owner_document_version is the newest owner document if the call added one, else unchanged; a batch of keys alone leaves the row alone; a renewal keeps the length of the grace period; no other stored field moves |
| `RowEffects.RegisteredRow` | src/components/bns-indexer/src/registry.rs:440-473 | a registration, first or repeated, leaves every field of the row as its options call for, one sequence number and, when repeated, one lineage epoch above the old row |
| `RowEffects.BootstrappedRow` | src/components/bns-indexer/src/registry.rs:493-680 | a bootstrap leaves the same fresh row, with the owner it installs after the keys, and one more sequence number for that owner and one for the policy |
| `RowEffects.PublishedContents` | src/components/bns-indexer/src/registry.rs:1512-1581 | a published version is new, current, carries what was published and links to the version the caller expected |
| `RowEffects.PaymentContents` | src/components/bns-indexer/src/registry.rs:1371-1392 | setting the payment target rewrites the payment fields of the expected current version and nothing else of it |
| `RegistryContents.KeysCounted` | src/components/bns-client/src/model.rs:1180-1202 | after a committed key batch the authority set counts exactly the keys live for authentication at that time, its root commits to exactly these, and its sequence moved by one |
| `RegistryContents.BatchLeaves` | src/components/bns-indexer/src/registry.rs:1475-1487 | keys that a batch does not name stay; of the others the last update decides the status (revoked, or as given with a missing status meaning active), and the key itself is that of the last activating update, else the stored one, else the first one given |
| `RegistryContents.LineageStartsOver` | src/components/bns-indexer/src/sqlite.rs:602-623 | a name registered again has no keys, authority set, controller policy or alias; bootstrapped again, it has exactly the keys and policy of that call, no alias, and an authority set at sequence 1 if keys were given |
| `RegistryContents.DocumentsSealed` | src/components/bns-indexer/src/registry.rs:1512-1581 | in every reachable state the state hash of each document version is the hash of what is stored, after payment changes too |
| `NameAnswers.ReadAnswers` | src/components/bns-client/src/model.rs:461-467 | a name query answers nothing exactly when the name was never registered, fails exactly when a row or key on the way to its owner is missing, and else returns the stored row with status Expired exactly if it is stored active with expire_at != 0 and expire_at <= now, the nearest owner up the labels, and standard transfers enabled exactly for a live, transferable top-level name without semantic owner |
| `NameAnswers.ResolvableExactlyWhen` | src/components/bns-indexer/src/registry.rs:1799-1885 | a name can act, every row up to a live and keyed owner being live, exactly when it is live itself and a query for it does not fail |
| `CommitConditions.SingleRowWhen` | src/components/bns-indexer/src/registry.rs:901-1335 | setting the iat floor, the namespace policy or an alias commits if and only if the name is active with expire_at 0 or in the future, so is everything up to its owner, the caller knows name_seq and is the owner, or a controller with a live key and rule where allowed, and the floor does not fall |
| `CommitConditions.StandardTransferWhen` | src/components/bns-indexer/src/registry.rs:788-825 | a standard transfer commits if and only if the new asset owner is not empty and the name is live, top-level, transferable and without semantic owner |
| `CommitConditions.OwnerWhen` | src/components/bns-indexer/src/registry.rs:827-861 | an owner change commits if and only if the owner asks, knows name_seq, the new owner is unset or a live and keyed name, and the owner graph stays sound |
| `CommitConditions.OwnerOnlyWhen` | src/components/bns-indexer/src/registry.rs:943-1280 | a key batch or a controller policy commits if and only if the owner asks, knows name_seq, and the keys leave a signer for the names it owns, or every name controller is live and keyed |
| `CommitConditions.DocumentWhen` | src/components/bns-indexer/src/registry.rs:1106-1411 | publishing, revoking or setting the payment target commits if and only if the caller is allowed for this type, knows name_seq and knows the current version |
| `CommitConditions.MutateWhen` | src/components/bns-indexer/src/registry.rs:964-1072 | a batch of mutations commits if and only if each of its parts would, and no document type comes twice |
| `RegistrationConditions.RegisterWhen` | src/components/bns-indexer/src/registry.rs:382-491 | a registration commits if and only if the name is not stored as active, expired or tombstoned, a top-level one is public, a subname comes from the parent's owner with the parent's name_seq, the parent being live, the initial owner is usable and the owner graph stays sound |
| `RegistrationConditions.BootstrapWhen` | src/components/bns-indexer/src/registry.rs:493-680 | a bootstrap commits if and only if its registration would, its keys may then be set, its owner is usable once they are, and every name controller is live and keyed |
| `RegistrationConditions.CommitsExactlyWhen` | src/components/bns-indexer/src/registry.rs:382-1448 | each of the eighteen operations commits if and only if its condition on the stored rows and its arguments holds |
| `Refusals.GuardedRefusals` | src/components/bns-indexer/src/registry.rs:1747-1797 | a well-formed guarded mutation of a name that is not stored fails with NameNotFound, of one that is not live with InvalidMutation, and with a stale name_seq with StaleNameSeq |
| `Refusals.StrangersRefused` | src/components/bns-indexer/src/registry.rs:1697-1745 | an owner-only mutation by anyone but the owner that the plain walk finds fails with NotEffectiveOwner |
| `Refusals.RegistrationRefusals` | src/components/bns-indexer/src/registry.rs:414-431 | a well-formed registration of a name stored as active, expired or tombstoned fails with NameAlreadyExists; one under a missing, inactive or changed parent fails with NameNotFound, InvalidMutation or StaleParentNameSeq |
| `Refusals.StaleVersionRefused` | src/components/bns-indexer/src/registry.rs:1512-1530 | publishing or revoking without knowing the current version fails with StaleDocumentVersion |
| `DocumentBatches.BatchStored` | src/components/bns-indexer/src/registry.rs:1512-1581 | a batch of documents adds, for each update, one version above all stored ones of its type with what was published, makes the last of each type the only current one, and leaves every other version and document as it was |
| `BatchTables.PolicySettingLeaves` | src/components/bns-indexer/src/registry.rs:1241-1280 | a committed controller policy is stored with exactly the given rules and hash; no other policy, key, alias, document or checkpoint changes, and one event is added |
| `BatchTables.RevokeLeaves` | src/components/bns-indexer/src/registry.rs:1177-1217 | a committed revocation adds one version above all stored ones that is current, has status revoked, revoked_at now, links to the expected version and holds no content; all other versions keep their state, and the event names both versions |
| `BatchTables.MutateLeaves` | src/components/bns-indexer/src/registry.rs:964-1072 | a committed batch leaves the keys, documents and row of its parts, the events of keys, documents and floor in this order, and nothing else |
| `RegistrationTables.BootstrapLeaves` | src/components/bns-indexer/src/registry.rs:493-680 | a committed bootstrap leaves exactly the keys, documents and controller policy of the call in a cleared lineage, and the events of row, documents, keys, owner and policy in this order |
| `RegistrationTables.CheckpointLeaves` | src/components/bns-indexer/src/registry.rs:1413-1448 | a committed checkpoint stores the number and root of the last log record, issued now, and announces it; no row changes |
| `RegistrationTables.OperationLeaves` | src/components/bns-indexer/src/registry.rs:382-1448 | every committed operation leaves all eight tables, the events it adds and its reply as its arguments call for |
| `RegistrationTables.AppendedInOrder` | src/components/bns-indexer/src/sqlite.rs:625-665 | what an operation announces is added to the end of the log, one record per event, in order, and the log stays contiguous and chained |
| `NameLife.CommittedStatus` | src/components/bns-indexer/src/registry.rs:863-899 | a release needs a live name and leaves it Released, or Tombstoned with the tombstone mode; a registration needs a stored name to be neither active, expired nor tombstoned; every other guarded mutation and the standard transfer need a live name and leave it active with the same expiry |
| `NameLife.ReleaseDecidesReuse` | src/components/bns-indexer/src/registry.rs:414-420 | after a committed release to a tombstone every later well-formed registration of the name is refused with NameAlreadyExists; after any other release a top-level name passes the registration check exactly for public callers |
| `NameLife.TombstonesStay` | src/components/bns-indexer/src/registry.rs:414-420 | in every run a tombstoned name keeps its whole row forever, lineage_epoch and name_seq included |
| `NameLife.RowsProper` | src/components/bns-indexer/src/registry.rs:440-473 | in every reachable state every stored row is active, released or tombstoned, has an asset owner, and its semantic owner is unset or a name |
| `RegistryStore.Store.Rollback` | src/components/bns-indexer/src/sqlite.rs:174-193 | restores every table |
| `RegistryStore.Store.PutDocument` | src/components/bns-indexer/src/sqlite.rs:359-403 | the row is current exactly when no stored version is higher, and then no sibling is |
| `RegistryStore.Store.ResetNameLineage` | src/components/bns-indexer/src/sqlite.rs:602-623 | clears the flags, keys, authority set, policy and alias of the name and nothing else |
| `RegistryStore.Store.AppendEvent` | src/components/bns-indexer/src/sqlite.rs:625-665 | adds the record that seals the last root |
| `RegistryStore.Store.ResetProjection` | src/components/bns-indexer/src/sqlite.rs:813-827 | empties every projected table |
| `Registry.ValidateOwnerGraph` | src/components/bns-indexer/src/registry.rs:1995-2016 | passes exactly when every active name passes, whatever the order of the names |
| `Registry.NameIsAuthorityOwner` | src/components/bns-indexer/src/registry.rs:1978-1993 | finds an active name owned by this one exactly when there is one |
| `Registry.BnsRegistry.SaveOwnedName` | src/components/bns-indexer/src/registry.rs:471-473 | checks the graph with the new row, then materializes and stores it |
| `Registry.BnsRegistry.ApplyAuthorityUpdates` | src/components/bns-indexer/src/registry.rs:1462-1510 | the key map built by the loop, the authority set and the event are those of the specification; the last key of a name that owns active names is refused |
| `Registry.BnsRegistry.PutAuthorityKeys` | src/components/bns-indexer/src/registry.rs:1497-1499 | writing one row per key leaves exactly these keys |
| `Registry.BnsRegistry.PublishInternal` | src/components/bns-indexer/src/registry.rs:1512-1581 | refuses a stale expected version, else stores the next version as the only current one and updates the row; the tables are those of the specification |
| `Registry.BnsRegistry.PublishAll` | src/components/bns-indexer/src/registry.rs:485-487 | the loop stops at the first refused document, with its error |
| `Registry.BnsRegistry.RaiseMinDocumentIat` | src/components/bns-indexer/src/registry.rs:1583-1619 | the floor never falls |
| `Registry.BnsRegistry.RegisterName` | src/components/bns-indexer/src/registry.rs:382-491 | a name that is not stored, or stored as neither active, expired nor tombstoned, gets a fresh row, and its documents, in one transaction; anything else is refused (tables, reply and error as specified; exactly when is `RegistrationConditions.RegisterWhen`) |
| `Registry.BnsRegistry.BootstrapName` | src/components/bns-indexer/src/registry.rs:493-680 | registration, documents, keys, owner and policy in one transaction; the owner is checked after the keys are there (tables, reply and error as specified; exactly when is `RegistrationConditions.BootstrapWhen`, the tables are `RegistrationTables.BootstrapLeaves`) |
| `Registry.BnsRegistry.RenewName` | src/components/bns-indexer/src/registry.rs:682-720 | expiry moves to the later of expiry and now, plus the duration; released, tombstoned and non-renewable names are refused (tables, reply and error as specified) |
| `Registry.BnsRegistry.TransferName` | src/components/bns-indexer/src/registry.rs:722-786 | the owner hands the name to a new asset owner and semantic owner, with documents, if the owner graph stays sound (tables, reply and error as specified) |
| `Registry.BnsRegistry.StandardTransferName` | src/components/bns-indexer/src/registry.rs:788-825 | a new asset owner without any authority, only while the asset owner is the effective owner (tables, reply and error as specified) |
| `Registry.BnsRegistry.SetNameOwner` | src/components/bns-indexer/src/registry.rs:827-861 | the owner sets the semantic owner to a name with keys, or unsets it, if the owner graph stays sound (tables, reply and error as specified) |
| `Registry.BnsRegistry.ReleaseName` | src/components/bns-indexer/src/registry.rs:863-899 | the owner releases or tombstones the name, if no active name is left without a signer (tables, reply and error as specified; the status left is `NameLife.CommittedStatus`) |
| `Registry.BnsRegistry.UpdateAuthorityKeys` | src/components/bns-indexer/src/registry.rs:943-962 | the owner updates keys; the last key of a name that owns active names is refused (tables, reply and error as specified) |
| `Registry.BnsRegistry.ApplyMutations` | src/components/bns-indexer/src/registry.rs:964-1072 | keys, then one sequence bump, then documents and iat floor, in one transaction; any owner-only part needs the owner (tables, reply and error as specified) |
| `Registry.BnsRegistry.RotateAuthorityAndOwnerDocument` | src/components/bns-indexer/src/registry.rs:1074-1104 | the owner replaces keys and owner document together (tables, reply and error as specified) |
| `Registry.BnsRegistry.PublishDocument` | src/components/bns-indexer/src/registry.rs:1106-1130 | whoever may publish this type adds the next version, if they know the current one (tables, reply and error as specified) |
| `Registry.BnsRegistry.RevokeDocument` | src/components/bns-indexer/src/registry.rs:1132-1218 | whoever may revoke this type adds a revoked version, if they know the current one (tables, reply and error as specified; the version stored is `BatchTables.RevokeLeaves`) |
| `Registry.BnsRegistry.SetMinDocumentIat` | src/components/bns-indexer/src/registry.rs:1220-1239 | the owner raises the iat floor; it never falls (tables, reply and error as specified) |
| `Registry.BnsRegistry.SetControllerPolicy` | src/components/bns-indexer/src/registry.rs:1241-1280 | the owner replaces the controller policy; every controller must be acceptable (tables, reply and error as specified; the policy stored is `BatchTables.PolicySettingLeaves`) |
| `Registry.BnsRegistry.SetDidAlias` | src/components/bns-indexer/src/registry.rs:1282-1335 | whoever may set aliases replaces the alias, stamped with the new sequence number (tables, reply and error as specified) |
| `Registry.BnsRegistry.SetPaymentTarget` | src/components/bns-indexer/src/registry.rs:1337-1411 | whoever may set payments rewrites the payment fields of the current version in place (tables, reply and error as specified) |
| `Registry.BnsRegistry.SetNamespacePolicy` | src/components/bns-indexer/src/registry.rs:901-941 | whoever may set the namespace policy replaces it and the subname switch (tables, reply and error as specified) |
| `Registry.BnsRegistry.PublishLogCheckpoint` | src/components/bns-indexer/src/registry.rs:1413-1448 | a checkpoint names the last record of the log and its root, and announces itself in the log (tables and reply as specified) |
| `Registry.BnsRegistry.Execute` | src/components/bns-indexer/src/sqlite.rs:174-193 | with writes enabled a mutation succeeds if and only if its condition on the stored rows holds, and then leaves the row, all other tables, the log and the reply that its parameters call for; a failed one leaves every table as it was, however much it had written; with writes disabled every mutation fails; the tables are always those of the run of all transactions so far |
| `RegistryEvolution.RunEvolves` | src/components/bns-indexer/src/registry.rs:382-1448 | between any two states of a run nothing disappears, and every difference in names, documents and authority sets has an event in between |
| `EventProjector.Projector.ProjectEvent` | src/components/bns-indexer/src/evm_projection.rs:54-103 | a protocol event is queued, a registry event takes the oldest queued one, and it fails exactly when the queue is empty |
| `EventProjector.Projector.ProjectLogs` | src/components/bns-indexer/src/sync.rs:247-262 | the k-th registry event gets the k-th protocol event's seq and roots; it fails exactly when some prefix holds more registry events than protocol events |
| `EventProjector.SplitWhereQueueEmpty` | src/components/bns-indexer/src/evm_projection.rs:54-103 | cutting the log where the queue is empty yields the same records |
| `Projection.MissingExactlyWhen` | src/components/bns-indexer/src/sync.rs:572-749 | the reads planned for a record are exactly the lookups its projection makes |
| `Projection.PlannedReadsSuffice` | src/components/bns-indexer/src/sync.rs:442-476 | the reads planned for any list of records cover every lookup made when projecting any of them |
| `Mirror.MirrorsAnswerAlike` | src/components/bns-indexer/src/registry.rs:158-166 | tables that mirror the contract answer every name query as the contract does, at any later time, errors included; what that answer is says `NameAnswers.ReadAnswers` |
| `Mirror.WriteReflects` | src/components/bns-indexer/src/sync.rs:572-693 | the write derived from a record carries the contract's own rows for what the event announces and nothing else |
| `Mirror.WriteReflectsSides` | src/components/bns-indexer/src/sync.rs:632-660 | an alias event writes the contract's alias; a checkpoint event writes the announced checkpoint with the issuer of the decoded call, whose anchor must match, and else the contract's newest checkpoint |
| `WindowReplay.ReplayFlags` | src/components/bns-indexer/src/sqlite.rs:359-403 | after a replay the current flags are those of the contract's log, whatever higher versions an interrupted replay left behind |
| `WindowReplay.ReplayStaysBetween` | src/components/bns-indexer/src/sync.rs:280-288 | stopping after any number of records leaves tables between the window's two ends: every row the window does not announce is as at its start, and nothing is stored that its end does not have |
| `WindowReplay.ReplayMirrors` | src/components/bns-indexer/src/sync.rs:275-288 | replaying a whole window, from clean or half-written tables, makes names, documents, flags, authority sets and event records mirror the contract at the window's end |
| `WindowReplay.ReplayMirrorsExactlyWhen` | src/components/bns-indexer/src/sync.rs:275-288 | replaying the whole window mirrors the contract at its end if and only if the tables were between its two ends before |
| `IndexerRuns.RoundTracked` | src/components/bns-indexer/src/sync.rs:197-313 | a harmless round, restarted or not, stopped anywhere or completed, keeps cursor and head on the fork and the tables between the cursor and the last block read for them; a completed one leaves them in sync with its fork |
| `IndexerGrowth.IndexAgrees` | src/components/bns-indexer/src/sync.rs:197-313 | on a fork that only grows, with restarts, changing configurations and calls stopped anywhere: after every completed call the index agrees with the contract at the cursor block (names, documents, flags, authority sets, and each log record's number, event and roots), as long as no call completes below a block whose rows an earlier call had written |
| `IndexerGrowth.WideningAgrees` | src/components/bns-indexer/src/sync.rs:221-239 | a configuration that is fixed, or only widens the window, never completes below such a block, so there the agreement holds after every completed call, for any span |
| `IndexerReorg.ReorgSafe` | src/components/bns-indexer/src/sync.rs:357-387 | over any forks whose block hashes fix earlier blocks, any restarts and configurations, if every round completes or stops harmlessly: after every completed call the store reflects only the fork that call saw |
| `IndexerReorg.CompleteRunsHarmless` | src/components/bns-indexer/src/sync.rs:197-313 | a run without stops meets that condition, whatever its forks, restarts and configurations |
| `IndexerReorg.ResetsExactlyWhen` | src/components/bns-indexer/src/sync.rs:209-220 | the projection is dropped exactly when the head differs from the cached one and the cursor block lies above the head or carries another hash than the cursor's; the check fails exactly when the fork cannot name the cursor block; otherwise tables and cursor stay and a missing hash is filled in |
| `IndexerReorg.StopBeforeCheckExactlyWhen` | src/components/bns-evm/src/chain_client.rs:173-196 | from an index that reflects its fork, a call that stops between caching a new head and the check leaves one that reflects the new fork if and only if the cursor block was not replaced |
| `IndexerReorg.CompletedWindowExactlyWhen` | src/components/bns-indexer/src/sync.rs:275-300 | a completed window leaves an index that reflects its fork if and only if the tables it started from lay between the window's two ends on that fork; rows that a stopped call read on a later or replaced block are what can fail this |
| `IndexerFailures.StoppedCheckHidesReorg` | src/components/bns-evm/src/chain_client.rs:173-196 | a concrete run, from the empty index: complete on block a, stop before the check on block b, complete on b; the cursor then names a on a fork whose block 0 is b |
| `IndexerFailures.HalfWrittenWindowOutlivesFork` | src/components/bns-indexer/src/sync.rs:280-300 | a concrete run: a call stops inside a window, the next fork keeps the cursor block and replaces the window, and the next call completes with the name of the replaced window still stored |
| `IndexerFailures.ShrunkWindowRunsAhead` | src/components/bns-indexer/src/sync.rs:239-288 | a concrete run on one fork: a call stops inside a window of two blocks, the span is set to one, and the next call completes at the first block with a name stored that only the second registers |
| `IndexerWindows.WindowsTile` | src/components/bns-indexer/src/sync.rs:221-239 | on a growing fork, across stops, restarts and configurations, completed windows tile start_block..cursor without gap or overlap; each ends at head minus confirmations, or max_block_span blocks after its start if that is earlier, with head, confirmations and span those then in force |
| `IndexerWindows.BacklogDrains` | src/components/bns-indexer/src/sync.rs:315-350 | with a fixed head, as many backlog calls as there are spans between cursor and goal bring the cursor to the block with cursor plus confirmations equal to the head |
| `Indexer.PlanReads` | src/components/bns-indexer/src/sync.rs:447-455 | the loop plans the reads of all records, each once |
| `Indexer.LoadSnapshot` | src/components/bns-indexer/src/sync.rs:456-475 | every planned read is answered from the window's last block, and one failing read fails the batch |
| `Indexer.BnsIndexer.Reopen` | src/components/bns-indexer/src/sync.rs:148-186 | a restarted indexer goes on from the stored tables and cursor with an empty head cache |
| `Indexer.BnsIndexer.LatestBlock` | src/components/bns-evm/src/chain_client.rs:173-196 | reuses the cached head when told to, else fetches it, and reports whether it changed |
| `Indexer.BnsIndexer.ResetProjectionIfReorged` | src/components/bns-indexer/src/sync.rs:357-387 | drops tables and cursor exactly when the cursor block is above the head or has another hash; fills in a missing hash |
| `Indexer.BnsIndexer.WriteAll` | src/components/bns-indexer/src/sync.rs:280-288 | one transaction per record, up to the first that cannot be projected |
| `Indexer.BnsIndexer.SyncOnce` | src/components/bns-indexer/src/sync.rs:197-313 | one call in agreement with the step that the theorems about runs are proved for; a backlog is reported exactly when the window's end plus the confirmations is below the head |
| `Indexer.BnsIndexer.RunPolling` | src/components/bns-indexer/src/sync.rs:315-342 | the head is fetched for the first call and after every call that left no backlog, and only then |
| `WriteRequests.FinalRecordsStay` | src/components/bns-client/src/sn_bns_controller.rs:381-583 | over every sequence of store calls a succeeded or reverted record never changes or disappears |
| `WriteRequests.SurvivorsMoveForward` | src/components/bns-client/src/sn_bns_controller.rs:381-583 | while a record survives, its payload hash, creation time and transaction bytes are fixed and it never returns to sending |
| `WriteRequests.ChangesExactlyWhenAccepted` | src/components/bns-client/src/sn_bns_controller.rs:381-583 | a call on the in-memory store changes it, and says so, if and only if the stored record and the arguments have the fields it asks for, and then changes that one record as given |
| `SqliteRequests.StoresDecideAlike` | src/components/bns-client/src/sn_bns_store.rs:402-619 | on every sequence of lease-free calls the SQLite statements and the in-memory store take the same decisions |
| `SqliteRequests.RowReadsBack` | src/components/bns-client/src/sn_bns_store.rs:139-311 | a record is read back as written, except that numbers from 2^63 on are read as 0 |
| `SqliteRequests.ContentsStayEqualExactlyWhen` | src/components/bns-client/src/sn_bns_store.rs:515-564 | from equal contents, a call keeps the two stores equal in every column exactly when it does not resolve a quarantined record with other columns, because SQLite updates only the state there |
| `SqliteRequests.StoresHoldTheSame` | src/components/bns-client/src/sn_bns_store.rs:402-619 | call sequences that meet this condition keep all columns and all replies equal |
| `SqliteRequests.MigrationRunsOnce` | src/components/bns-client/src/sn_bns_store.rs:80-121 | opening the store again changes nothing; the first time exactly the unsigned pending rows are lost, signed rows called succeeded become pending, failures with the revert code become reverted, and no other column changes |
| `RequestStores.MemoryStore.TryBegin` | src/components/bns-client/src/sn_bns_controller.rs:394-423 | stores only a fully signed sending record, and only under a free request id |
| `RequestStores.MemoryStore.UpdateInflight` | src/components/bns-client/src/sn_bns_controller.rs:442-467 | compare-and-set on state, payload hash, transaction hash and raw transaction; the creation time stays |
| `RequestStores.MemoryStore.Repair` | src/components/bns-client/src/sn_bns_controller.rs:469-500 | replaces hash, raw transaction, chain id and nonce of an unchanged in-flight record |
| `RequestStores.MemoryStore.ResolveFailed` | src/components/bns-client/src/sn_bns_controller.rs:502-534 | moves only a quarantined record, and only to a chain-derived state |
| `RequestStores.MemoryStore.RemoveFailed` | src/components/bns-client/src/sn_bns_controller.rs:536-558 | removes only a quarantined record that is unchanged |
| `RequestStores.MemoryStore.RemoveUnprepared` | src/components/bns-client/src/sn_bns_controller.rs:560-583 | removes only an in-flight record without hash and raw transaction |
| `RequestStores.MemoryStore.ListInflight` | src/components/bns-client/src/sn_bns_controller.rs:425-440 | lists every in-flight record and no other |
| `RequestStores.SqliteStore.constructor` | src/components/bns-client/src/sn_bns_store.rs:80-121 | opening runs the three migration statements in order, once |
| `RequestStores.SqliteStore.TryBegin` | src/components/bns-client/src/sn_bns_store.rs:233-311 | inserts unless the request id is taken, else returns the stored row |
| `RequestStores.SqliteStore.UpdateInflight` | src/components/bns-client/src/sn_bns_store.rs:402-471 | the WHERE clause decides, lease owner included, and the listed columns change |
| `RequestStores.SqliteStore.ResolveFailed` | src/components/bns-client/src/sn_bns_store.rs:515-564 | changes state, error and time of a quarantined row and no other column |
| `RequestStores.SqliteStore.RemoveFailed` | src/components/bns-client/src/sn_bns_store.rs:566-596 | deletes only a quarantined row that is unchanged |
| `WriteAttempts.PreparedExactlyWhenStored` | src/components/bns-client/src/sn_bns_controller.rs:893-976 | in every run from any store, and whatever the store replies, a call is marked as prepared exactly when it has stored a signed transaction since it started |
| `WriteAttempts.OneStoredPerCall` | src/components/bns-client/src/sn_bns_controller.rs:1295-1321 | in every run from any store, one call stores at most one signed transaction: a stale guard met after that is not tried again, whatever the retry limit |
| `WriteAttempts.SigningsBounded` | src/components/bns-client/src/sn_bns_controller.rs:1295-1321 | a call signs at most one transaction more than its retry limit |
| `WriteSafety.StepSafe` | src/components/bns-client/src/sn_bns_controller.rs:2248-2541 | every step, crash and waiter write keeps, on any store that decides as the in-memory one: each broadcast is still held by the store or was looked up since and not found |
| `WriteSafety.BroadcastsAreStored` | src/components/bns-client/src/sn_bns_controller.rs:935-1024 | in every run from any store, at the moment a transaction is broadcast, first time or in recovery, the store holds exactly that transaction under the request id |
| `WriteSafety.SecondTransactionNeedsNotFound` | src/components/bns-client/src/sn_bns_controller.rs:2248-2458 | in every run from any store, two different signed transactions are broadcast for one request id only if the chain answered NotFound for the first one's hash in between |
| `WriteSafety.ProtocolMovesForward` | src/components/bns-client/src/sn_bns_controller.rs:2141-2458 | in every run, with crashes and waiters, a surviving record keeps its payload hash and transaction bytes through metadata repair and never returns to sending, and a finished record stays as it is; which final state it has is settled by `WriteEvidence.FinalStatesAreTold` |
| `WriteReplay.ReplayReturnsFirstResult` | src/components/bns-client/src/sn_bns_controller.rs:2460-2513 | if at the start every stored result is the receipt of the transaction stored with it: after a call returned a value and while its record is not removed, nothing is signed for that request, and any later value is the first one with the reuse flag set, for the same payload |
| `StoreRuns.MemoryRuns` | src/components/bns-client/src/sn_bns_controller.rs:381-583 | the protocol on the in-memory store is such a run, from any contents |
| `WriteEvidence.FinalStatesAreTold` | src/components/bns-client/src/sn_bns_controller.rs:2141-2163 | in every run from any store, a record stored as succeeded or reverted was so from the start, or the chain said exactly that of its transaction hash: in a lookup, in a receipt, or in reply to a broadcast; the error code is the revert code exactly for reverted ones |
| `WriteOutcomes.ValuesAreSettled` | src/components/bns-client/src/sn_bns_controller.rs:2460-2513 | at the step where a call gets its value the store holds its request as pending or succeeded |
| `WriteOutcomes.RevertedNeverReturns` | src/components/bns-client/src/sn_bns_controller.rs:2460-2513 | in every run, once a request is stored as reverted no call that starts after that returns a value for it |
| `WriteDamage.DamageOnlyWhenUnknown` | src/components/bns-client/src/sn_bns_controller.rs:2199-2458 | in every step of every run, a stored hash is replaced only by the hash of the transaction stored with it, a record is quarantined or removed only as damaged or never signed, and unless the hash is the transaction's own or missing the chain answered NotFound for it before |
| `WritePaths.SettledCall` | src/components/bns-client/src/sn_bns_controller.rs:2460-2513 | a repeated request for a finished record returns the stored result with the reuse flag, the previous failure if it was reverted, or a conflict for another payload, and changes nothing |
| `WritePaths.FreshCall` | src/components/bns-client/src/sn_bns_controller.rs:935-1041 | a new request is signed, stored, sent and settled in this order, and returns the receipt of its own transaction, or fails if that was reverted |
| `WritePaths.KnownCall` | src/components/bns-client/src/sn_bns_controller.rs:2383-2419 | an interrupted request that the chain knows is stored as the chain says, and nothing is sent |
| `WritePaths.LostCall` | src/components/bns-client/src/sn_bns_controller.rs:2383-2419 | an interrupted request that the chain does not know is sent again with the same bytes and stored as the reply says |
| `WritePaths.RejectedCall` | src/components/bns-client/src/sn_bns_controller.rs:2383-2419 | if the chain does not take it either, the call fails and the record stays as it was |
| `WritePaths.DamagedCall` | src/components/bns-client/src/sn_bns_controller.rs:2248-2286 | a stored transaction that does not decode and has no hash is quarantined; the call fails and nothing is removed or signed |
| `WritePaths.RetriedCall` | src/components/bns-client/src/sn_bns_controller.rs:2421-2458 | a quarantined request whose hash the chain does not know is removed and executed anew |
| `StoreRuns.SqlRuns` | src/components/bns-client/src/sn_bns_store.rs:233-620 | the protocol on SQLite is such a run, from any table: leased rows, negative columns and damaged transactions included, and whatever columns a statement leaves alone |
| `StoreRuns.SqlBroadcastsAreStored` | src/components/bns-client/src/sn_bns_controller.rs:935-1024 | on SQLite, the table holds exactly the transaction that is broadcast, with its hash, at that moment |
| `StoreRuns.SqlSecondTransactionNeedsNotFound` | src/components/bns-client/src/sn_bns_controller.rs:2248-2458 | on SQLite, a second transaction for a request needs a NotFound answer about the first one's hash in between |
| `StoreRuns.SqlOneStoredPerCall` | src/components/bns-client/src/sn_bns_controller.rs:1295-1321 | on SQLite, one call stores at most one signed transaction |
| `StoreRuns.SqlReplayReturnsFirstResult` | src/components/bns-client/src/sn_bns_controller.rs:2460-2513 | on SQLite, from a table whose stored results are the receipts of their transactions, a repeated request returns the first value with the reuse flag set, or fails, and signs nothing |
| `Nonces.NoncesIncrease` | src/components/bns-client/src/evm.rs:1085-1130 | in every interleaving without a reset the nonces of one signer strictly increase, and a reserved nonce is never below its suggestion |
| `Nonces.NextLeavesNoGap` | src/components/bns-client/src/evm.rs:1085-1110 | next_nonce gives out the successor of the signer's previous nonce |
| `Nonces.FirstNonceIsGiven` | src/components/bns-client/src/evm.rs:1085-1124 | the first nonce of a signer, and the first after a reset, is the one the chain answered, or the suggestion when it is reserved |
| `Nonces.SignersIndependent` | src/components/bns-client/src/evm.rs:1085-1130 | what a signer is given in any run is what it is given when only its own steps are made |
| `Nonces.NonceCache.TakeCached` | src/components/bns-client/src/evm.rs:1085-1095 | the critical section before the chain read: gives out and raises a cached nonce, else records the call as waiting for the chain; both are the step that the theorems about interleavings are proved for |
| `Nonces.NonceCache.TakeAfterRead` | src/components/bns-client/src/evm.rs:1103-1110 | the critical section of a waiting call after the chain read prefers what another call cached meanwhile, and the call no longer waits |
| `Nonces.NonceCache.ReserveNonce` | src/components/bns-client/src/evm.rs:1112-1124 | the larger of cache and suggestion |
| `Nonces.NonceCache.ResetNonce` | src/components/bns-client/src/evm.rs:1126-1130 | forgets the signer |
| `LookupLocks.SingleFlight` | src/components/bns-evm/src/chain_client.rs:202-276 | in every interleaving, failing tasks included, at most one task per hash is doing RPC work |
| `LookupLocks.SweptLockUnused` | src/components/bns-evm/src/chain_client.rs:271-276 | a lock is removed from the table only when no other task holds it |
| `LookupLocks.SweepsExactlyWhenUnused` | src/components/bns-evm/src/chain_client.rs:271-276 | in every interleaving a returning task removes the lock of its hash from the table exactly when no other task holds it, and no other lock |
| `LookupLocks.WorkBeginsUncached` | src/components/bns-evm/src/chain_client.rs:202-240 | a task begins RPC work only under a free lock and only if the cache had nothing for it by then |
| `Paging.ListNamesByAssetOwner` | src/components/bns-indexer/src/sqlite.rs:247-286 | the first names above the cursor, in ascending order, up to the limit |
| `Paging.QueryNamesByAddress` | src/components/bns-indexer/src/registry.rs:168-197 | refuses illegal limits; the page and whether there is another one, with the cursor to ask for it |
| `Paging.FollowCursors` | src/components/bns-indexer/src/registry.rs:168-197 | following next_cursor from the start ends and returns every name of the owner exactly once in ascending order |

## Left out

- `RegistryRuns.OwnerWalksEnd`: does not bound the length of a walk, because renewal does not look at the owner graph; the bound is `OwnerCommits.AfterOwnerCommit`.
- `IndexerGrowth.IndexAgrees`: covers names, documents, current flags, authority sets and event records; authority-key rows, controller policies and undecodable checkpoint calls depend on calldata, and alias and checkpoint rows are covered write by write (`Mirror.WriteReflectsSides`), not over runs.
- `IndexerReorg.ReorgSafe`: start_block is the same in all rounds; the other settings may change.
- `Registry.BnsRegistry.Execute`: replies are reduced to one number per operation.
- `SqliteRequests.StoresDecideAlike`: is about lease-free records, the only ones the controller makes.
- Syntax checks of names, document types, hashes, DIDs and documents, and the checks repeated on every stored row.
- Document bodies and the owner assertions found in them, document resolution, purchase contexts and payment lookups.
- ABI encoding, transaction signing and encoding, JSON text, SHA-256, JSON-RPC and kRPC transport.
- Fee suggestions, receipt polling delays, expiry of cached lookups and which cached receipts a reorg invalidates.
- The chain-id and address checks of the indexer, logs flagged as removed, and the cursor's log index and time.
- The order in which in-flight records are listed, and the reports of startup recovery.
- DNS propagation, the read cache, the web interface, deployment and build files.
