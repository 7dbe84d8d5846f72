/** Every table after a registration, a bootstrap or a checkpoint, and the theorem for all operations. */
module RegistrationTables {
  import opened Wrappers
  import opened BnsModel
  import opened RegistryTables
  import opened RegistryLog
  import opened OwnerGraph
  import opened Ownership
  import opened RegistrySpec
  import opened RowEffects
  import opened DocumentBatches
  import opened RegistryContents
  import opened OperationTables
  import opened BatchTables
  import opened RegistrationConditions

  /** The number of the fresh row: one above the old one. */
  function FirstSeq(t: Tables, n: Name): nat {
    (if n in t.names then t.names[n].nameSeq else 0) + 1
  }

  function Registered(t: Tables, op: Operation, m: NameState): RegistryEvent
    requires op.Register? || op.Bootstrap?
  {
    NameRegistered(op.name, op.assetOwner, m.expireAt, m.lineageEpoch, FirstSeq(t, op.name))
  }

  lemma RegisterRowLeaves(t: Tables, op: Operation, now: nat)
    requires (op.Register? || op.Bootstrap?) && op.options.duration > 0
    requires RegisterRow(t, op.name, op.assetOwner, op.options, now).Success?
    ensures var u := RegisterRow(t, op.name, op.assetOwner, op.options, now).value;
      && op.name in u.names && OnlyRow(Cleared(t, op.name), u, op.name, [Registered(t, op, u.names[op.name])], now)
      && u.names[op.name].updatedAt == now && u.names[op.name].nameSeq == FirstSeq(t, op.name)
  {
    hide SaveName, OnlyRow, OwnerGraphOk, ValidateSemanticOwnerTarget, ResetNameLineage;
    var n := op.name;
    var s := FreshState(t, n, op.assetOwner, op.options, now);
    SavedActiveRow(Cleared(t, n), n, s, s, now);
    SaveThenAppend(Cleared(t, n), n, s, NameRegistered(n, op.assetOwner, s.expireAt, s.lineageEpoch, s.nameSeq), now);
  }

  lemma RegisterTxLeaves(t: Tables, op: Operation, now: nat, r: Attempt)
    requires (op.Register? || op.Bootstrap?) && op.options.duration > 0 && r.Success?
    requires r == RegisterTx(t, op.name, op.assetOwner, op.options, op.documents, op.authority, op.guard, now)
    ensures var n, u, base := op.name, r.value.tables, Cleared(t, op.name);
      && n in u.names && u.names[n].nameSeq == FirstSeq(t, n) == r.value.reply
      && Stored(base.documents, n, op.documents, u.documents, now) && AllIn(base.documents, n, op.documents, u.documents)
      && RowAndDocuments(base, u, n, [Registered(t, op, u.names[n])]
                                       + DocumentsAnnounced(base.documents, n, op.documents, u.documents), now)
  {
    hide CheckRegistration, RegisterRow, PublishAll, Stored, Appended, DocumentsAnnounced, Cleared, LatestVersion;
    hide HasOwnerDocument;
    var n := op.name;
    RegisterRowLeaves(t, op, now);
    var t1 := RegisterRow(t, n, op.assetOwner, op.options, now).value;
    PublishAllLeaves(t1, n, op.documents, now);
    PublishAllRow(t1, n, op.documents, now);
    var u := r.value.tables;
    RowsCompose(Cleared(t, n), t1, u, n, [Registered(t, op, t1.names[n])],
                DocumentsAnnounced(Cleared(t, n).documents, n, op.documents, u.documents), now);
  }

  ghost predicate RegistrationLeft(t: Tables, op: Operation, o: Outcome, now: nat)
    requires op.Register?
  {
    var n, u, base := op.name, o.tables, Cleared(t, op.name);
    && n in u.names && o.reply == u.names[n].nameSeq
    && AllIn(base.documents, n, op.documents, u.documents)
    && TablesLeft(base, u, n, None, op.documents, base.policies, base.aliases,
                  [Registered(t, op, u.names[n])] + DocumentsAnnounced(base.documents, n, op.documents, u.documents), now)
  }

  lemma RegistrationLeaves(t: Tables, op: Operation, now: nat)
    requires op.Register? && Apply(t, op, now).Success?
    ensures RegistrationLeft(t, op, Apply(t, op, now).value, now)
  {
    hide RegisterTx, Stored, Appended, DocumentsAnnounced, Cleared;
    RegisterTxLeaves(t, op, now, Apply(t, op, now));
  }

  /** Keys, owner and policy of a bootstrap, in this order. */
  function TailAnnounced(t: Tables, op: Operation, u: Tables): seq<RegistryEvent>
    requires op.Bootstrap? && op.name in u.names
  {
    var n, m := op.name, u.names[op.name];
    (if op.keyUpdates == [] then [] else [KeysAnnounced(u, n)])
    + (if op.ownerAfter.None? then []
       else [OwnerAnnounced(n, op.ownerAfter.value, m.(nameSeq := FirstSeq(t, n) + 1))])
    + [ControllerPolicyUpdated(n, op.policyHash, m.nameSeq)]
  }

  ghost predicate BootstrapLeft(t: Tables, op: Operation, o: Outcome, now: nat)
    requires op.Bootstrap?
  {
    var n, u, base := op.name, o.tables, Cleared(t, op.name);
    && n in u.names && o.reply == u.names[n].nameSeq
    && AllIn(base.documents, n, op.documents, u.documents)
    && TablesLeft(base, u, n, KeyBatch(op), op.documents,
                  base.policies[n := ControllerPolicy(op.rules, op.policyHash)], base.aliases,
                  [Registered(t, op, u.names[n])] + DocumentsAnnounced(base.documents, n, op.documents, u.documents)
                    + TailAnnounced(t, op, u), now)
  }

  lemma OwnerStepLeaves(t: Tables, n: Name, ownerAfter: Option<Principal>, now: nat)
    requires BootstrapOwner(t, n, ownerAfter, now).Success? && n in t.names
    ensures var u := BootstrapOwner(t, n, ownerAfter, now).value;
      && n in u.names
      && OnlyRow(t, u, n, if ownerAfter.None? then [] else [OwnerAnnounced(n, ownerAfter.value, u.names[n])], now)
      && u.names[n].nameSeq == t.names[n].nameSeq + (if ownerAfter.None? then 0 else 1)
      && u.names[n].transferable == t.names[n].transferable && u.names[n].expireAt == t.names[n].expireAt
      && u.names[n].lineageEpoch == t.names[n].lineageEpoch
  {
    hide AssignOwner, NextRecord, Appended, OwnerEvent, OwnerAnnounced;
    NothingAppended(t.events, now);
    if ownerAfter.Some? {
      AssignLeaves(t, n, None, ownerAfter.value, now);
      AssignedRow(t, n, None, ownerAfter.value, now);
      var u := AssignOwner(t, n, None, ownerAfter.value, now).value;
      AppendedOne(u, OwnerEvent(n, u.names[n]), now);
    }
  }

  /** The row after a policy was installed: only its number moved. */
  lemma PolicyRow(t: Tables, n: Name, rules: seq<ControllerRule>, policyHash: Hash, now: nat)
    requires InstallPolicy(t, n, rules, policyHash, now).Success?
    ensures var u := InstallPolicy(t, n, rules, policyHash, now).value.tables;
      && n in t.names && n in u.names && u.names[n].nameSeq == t.names[n].nameSeq + 1
      && u.names[n].transferable == t.names[n].transferable && u.names[n].expireAt == t.names[n].expireAt
      && u.names[n].lineageEpoch == t.names[n].lineageEpoch
  {
    hide BumpName, CheckControllers;
    BumpedRow(t.(policies := t.policies[n := ControllerPolicy(rules, policyHash)]), n, now);
  }

  /** Owner and policy, once the keys are there. */
  lemma OwnerAndPolicyLeave(t: Tables, op: Operation, now: nat)
    requires op.Bootstrap? && op.name in t.names && BootstrapOwner(t, op.name, op.ownerAfter, now).Success?
    requires InstallPolicy(BootstrapOwner(t, op.name, op.ownerAfter, now).value, op.name, op.rules, op.policyHash, now).Success?
    ensures var n := op.name;
      var o := InstallPolicy(BootstrapOwner(t, n, op.ownerAfter, now).value, n, op.rules, op.policyHash, now).value;
      var u := o.tables;
      && n in u.names && o.reply == u.names[n].nameSeq
      && RowAndDocuments(
           t.(policies := t.policies[n := ControllerPolicy(op.rules, op.policyHash)]), u, n,
           (if op.ownerAfter.None? then []
            else [OwnerAnnounced(n, op.ownerAfter.value, u.names[n].(nameSeq := t.names[n].nameSeq + 1))])
           + [ControllerPolicyUpdated(n, op.policyHash, u.names[n].nameSeq)], now)
      && u.documents == t.documents
      && u.names[n].expireAt == t.names[n].expireAt && u.names[n].lineageEpoch == t.names[n].lineageEpoch
  {
    hide BootstrapOwner, InstallPolicy, Appended;
    var n := op.name;
    OwnerStepLeaves(t, n, op.ownerAfter, now);
    var t2 := BootstrapOwner(t, n, op.ownerAfter, now).value;
    PolicyLeaves(t2, n, op.rules, op.policyHash, now);
    PolicyRow(t2, n, op.rules, op.policyHash, now);
    var u := InstallPolicy(t2, n, op.rules, op.policyHash, now).value.tables;
    var a: seq<RegistryEvent> :=
      if op.ownerAfter.None? then [] else [OwnerAnnounced(n, op.ownerAfter.value, t2.names[n])];
    AppendedTwice(t.events, a, [ControllerPolicyUpdated(n, op.policyHash, u.names[n].nameSeq)], now);
  }

  lemma BootstrapLeaves(t: Tables, op: Operation, now: nat)
    requires op.Bootstrap? && Apply(t, op, now).Success?
    ensures BootstrapLeft(t, op, Apply(t, op, now).value, now)
  {
    hide RegisterTx, ApplyAuthorityUpdates, BootstrapOwner, InstallPolicy, Stored, Appended, DocumentsAnnounced, Cleared;
    hide KeysLeft, KeyStep, OwnerAnnounced;
    var n, base := op.name, Cleared(t, op.name);
    var r := RegisterTx(t, n, op.assetOwner, op.options, op.documents, op.authority, op.guard, now);
    RegisterTxLeaves(t, op, now, r);
    var t0 := r.value.tables;
    var t1 := ApplyKeyBatch(t0, n, op.keyUpdates, now).value;
    KeyBatchStep(t0, n, op.keyUpdates, now);
    KeyBatchKeepsRows(t0, n, op.keyUpdates, now);
    OwnerAndPolicyLeave(t1, op, now);
    var u := Apply(t, op, now).value.tables;
    var m := u.names[n];
    var after := (if op.ownerAfter.None? then []
                  else [OwnerAnnounced(n, op.ownerAfter.value, m.(nameSeq := FirstSeq(t, n) + 1))])
                 + [ControllerPolicyUpdated(n, op.policyHash, m.nameSeq)];
    KeysThenRows(t0, t1, u, n, KeyBatch(op), after, now);
    BootstrapKeys(base, t0, u, n, KeyBatch(op), now);
    var before := [Registered(t, op, m)] + DocumentsAnnounced(base.documents, n, op.documents, u.documents);
    TailIs(t, op, u, after);
    AppendedTwice(base.events, before, TailAnnounced(t, op, u), now);
  }

  lemma TailIs(t: Tables, op: Operation, u: Tables, after: seq<RegistryEvent>)
    requires op.Bootstrap? && op.name in u.names
    requires var n, m := op.name, u.names[op.name];
      after == (if op.ownerAfter.None? then []
                else [OwnerAnnounced(n, op.ownerAfter.value, m.(nameSeq := FirstSeq(t, n) + 1))])
               + [ControllerPolicyUpdated(n, op.policyHash, m.nameSeq)]
    ensures TailAnnounced(t, op, u) == (if KeyBatch(op).None? then [] else [KeysAnnounced(u, op.name)]) + after
  {
    hide OwnerAnnounced, KeysAnnounced;
  }

  /** The registration left keys and sets alone, so the batch starts from the cleared ones. */
  lemma BootstrapKeys(base: Tables, t0: Tables, u: Tables, n: Name, keys: Option<seq<KeyUpdate>>, now: nat)
    requires SameSides(base, t0)
    ensures keys.Some? && KeysLeft(t0, u, n, keys.value, now) ==> KeysLeft(base, u, n, keys.value, now)
  {
    hide ApplyKeyUpdates, Counts;
  }

  // ----- checkpoints -----

  /** The checkpoint names the last record of the log and its root; no row changes. */
  predicate CheckpointLeft(t: Tables, op: Operation, o: Outcome, now: nat)
    requires op.PublishCheckpoint?
  {
    var last := |Log(t)|;
    var root := if last == 0 then ZeroHash else Log(t)[last - 1].logRoot;
    && o.reply == last
    && o.tables == t.(
         checkpoints := t.checkpoints[last := LogCheckpoint(root, last, now, op.issuer, op.externalAnchor)],
         events := Appended(t.events, [LogCheckpointPublished(root, last, now, op.externalAnchor)], now))
  }

  lemma CheckpointLeaves(t: Tables, op: Operation, now: nat)
    requires op.PublishCheckpoint? && Apply(t, op, now).Success? && LogOk(t.events)
    ensures CheckpointLeft(t, op, Apply(t, op, now).value, now)
  {
    hide Appended, NextRecord;
    LastRecord(t);
    var last := LatestSeq(t.events);
    var checkpoint := LogCheckpoint(RootAt(t.events, last), last, now, op.issuer, op.externalAnchor);
    AppendedOne(t.(checkpoints := t.checkpoints[last := checkpoint]),
                LogCheckpointPublished(checkpoint.logRoot, last, now, op.externalAnchor), now);
  }

  lemma LastRecord(t: Tables)
    requires LogOk(t.events)
    ensures var last := LatestSeq(t.events);
      |Log(t)| == last && RootAt(t.events, last) == if last == 0 then ZeroHash else Log(t)[last - 1].logRoot
  {
    LogLength(t.events, LatestSeq(t.events));
  }

  // ----- all operations -----

  /** Every table after the operation, what it announced, and its reply. */
  ghost predicate Leaves(t: Tables, op: Operation, o: Outcome, now: nat) {
    if op.Register? then RegistrationLeft(t, op, o, now)
    else if op.Bootstrap? then BootstrapLeft(t, op, o, now)
    else if op.PublishCheckpoint? then CheckpointLeft(t, op, o, now)
    else if RowOperation(op) then RowLeft(t, op, o, now)
    else if Setting(op) then SettingLeft(t, op, o, now)
    else if DocumentOperation(op) then DocumentLeft(t, op, o, now)
    else BatchLeft(t, op, o, now)
  }

  /** Every committed operation leaves all tables, the log and the reply as its arguments call for. */
  lemma OperationLeaves(t: Tables, op: Operation, now: nat)
    requires Apply(t, op, now).Success? && LogOk(t.events)
    ensures Leaves(t, op, Apply(t, op, now).value, now)
  {
    hide Apply, RegistrationLeft, BootstrapLeft, CheckpointLeft, RowLeft, SettingLeft, DocumentLeft, BatchLeft;
    match op
    case Register(_, _, _, _, _, _) => RegistrationLeaves(t, op, now);
    case Bootstrap(_, _, _, _, _, _, _, _, _, _) => BootstrapLeaves(t, op, now);
    case Renew(_, _) => RenewLeaves(t, op, now);
    case Transfer(_, _, _, _, _, _) => TransferLeaves(t, op, now);
    case StandardTransfer(_, _) => PlainRowLeaves(t, op, now);
    case SetOwner(_, _, _, _) => OwnerLeaves(t, op, now);
    case Release(_, _, _, _, _) => ReleaseLeaves(t, op, now);
    case UpdateKeys(_, _, _, _) => KeySettingLeaves(t, op, now);
    case Mutate(_, _, _, _, _, _) => MutateLeaves(t, op, now);
    case Rotate(_, _, _, _, _) => RotateLeaves(t, op, now);
    case Publish(_, _, _, _) => PublishDocumentLeaves(t, op, now);
    case Revoke(_, _, _, _, _, _) => RevokeLeaves(t, op, now);
    case SetMinIat(_, _, _, _, _) => PlainRowLeaves(t, op, now);
    case SetPayment(_, _, _, _, _, _, _, _, _, _, _) => PaymentLeaves(t, op, now);
    case SetNamespace(_, _, _, _, _) => PlainRowLeaves(t, op, now);
    case SetPolicy(_, _, _, _, _) => PolicySettingLeaves(t, op, now);
    case SetAlias(_, _, _, _, _, _) => AliasSettingLeaves(t, op, now);
    case PublishCheckpoint(_, _) => CheckpointLeaves(t, op, now);
  }

  /** The records after a are these events, in order, observed now. */
  predicate Continues(a: seq<EventRecord>, b: seq<EventRecord>, list: seq<RegistryEvent>, now: nat) {
    && |b| == |a| + |list| && b[..|a|] == a
    && forall i | |a| <= i < |b| :: b[i].event == list[i - |a|] && b[i].observedAt == now
  }

  lemma ContinuesByOne(a: seq<EventRecord>, b: seq<EventRecord>, list: seq<RegistryEvent>, r: EventRecord, now: nat)
    requires list != [] && Continues(a, b, list[..|list| - 1], now)
    requires r.event == list[|list| - 1] && r.observedAt == now
    ensures Continues(a, b + [r], list, now)
  {
    var k := |list| - 1;
    var c := b + [r];
    assert c[..|a|] == a;
    forall i | |a| <= i < |c|
      ensures c[i].event == list[i - |a|] && c[i].observedAt == now
    {
      if i < |b| {
        assert c[i] == b[i] && list[..k][i - |a|] == list[i - |a|];
      }
    }
  }

  lemma AppendedLast(t: Tables, list: seq<RegistryEvent>, now: nat)
    requires list != []
    ensures var k := |list| - 1;
      Appended(t.events, list, now) ==
      AppendEvent(t.(events := Appended(t.events, list[..k], now)), list[k], now).events
  {
  }

  /** Appending events adds exactly these events, in order, at the end of the log. */
  lemma {:induction false} AppendedInOrder(t: Tables, u: Tables, list: seq<RegistryEvent>, now: nat)
    requires LogOk(t.events) && u.events == Appended(t.events, list, now)
    ensures LogOk(u.events) && Continues(Log(t), Log(u), list, now)
    decreases |list|
  {
    hide NextRecord, Log, LogOk, Continues, AppendEvent, Appended;
    if list == [] {
      NothingAppended(t.events, now);
      SameLog(t, u);
      NothingContinues(Log(t), now);
    } else {
      var k := |list| - 1;
      var t1 := t.(events := Appended(t.events, list[..k], now));
      AppendedInOrder(t, t1, list[..k], now);
      AppendKeepsLog(t1, list[k], now);
      AppendedLast(t, list, now);
      SameLog(AppendEvent(t1, list[k], now), u);
      NextCarries(t1.events, list[k], now);
      ContinuesByOne(Log(t), Log(t1), list, NextRecord(t1.events, list[k], now), now);
    }
  }

  lemma NothingContinues(a: seq<EventRecord>, now: nat)
    ensures Continues(a, a, [], now)
  {
  }

  lemma SameLog(t: Tables, u: Tables)
    requires u.events == t.events
    ensures Log(u) == Log(t)
  {
  }

  lemma NextCarries(events: EventTable, e: RegistryEvent, now: nat)
    ensures NextRecord(events, e, now).event == e && NextRecord(events, e, now).observedAt == now
  {
  }
}
