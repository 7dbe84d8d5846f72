/** The life of a name over runs: how its status moves, and that a tombstone is final. */
module NameLife {
  import opened Wrappers
  import opened BnsModel
  import opened RegistryTables
  import opened RegistrySpec
  import opened RegistryLog
  import opened RegistryInvariants
  import opened RegistryRuns
  import opened Liveness
  import opened OwnerCommits
  import opened RegistryEffects
  import opened DocumentBatches
  import opened CommitConditions
  import opened RegistrationConditions
  import opened RowEffects
  import opened Refusals
  import opened OperationTables
  import opened BatchTables
  import opened RegistrationTables

  /** How an operation on a stored name moves its status. */
  predicate StatusMoves(t: Tables, op: Operation, u: Tables, now: nat)
    requires !op.PublishCheckpoint? && op.name in t.names && op.name in u.names
  {
    var before, after := t.names[op.name].status, u.names[op.name].status;
    match op
    case Register(_, _, _, _, _, _) => before !in {Active, Expired, Tombstoned} && after == Active
    case Bootstrap(_, _, _, _, _, _, _, _, _, _) => before !in {Active, Expired, Tombstoned} && after == Active
    case Renew(_, _) => before !in {Released, Tombstoned} && (before != Available ==> after == Active)
    case Release(_, mode, _, _, _) =>
      Live(t, op.name, now) && after == if mode == TombstoneForever then Tombstoned else Released
    case _ => Live(t, op.name, now) && after == Active && u.names[op.name].expireAt == t.names[op.name].expireAt
  }

  lemma RegisteredStatus(t: Tables, op: Operation, now: nat)
    requires (op.Register? || op.Bootstrap?) && Apply(t, op, now).Success?
    ensures op.name in t.names ==> t.names[op.name].status !in {Active, Expired, Tombstoned}
    ensures var u := Apply(t, op, now).value.tables;
      op.name in u.names && u.names[op.name].status == Active && u.names[op.name].assetOwner == op.assetOwner != ""
      && !u.names[op.name].semanticOwner.ChainAccount?
  {
    hide Apply, Resolvable, OwnerUsable, ActsAsOwner, GraphAllows, VersionsKnown, HasOwnerDocument, KeysStay, Cleared;
    hide LatestVersion, ControllersKeyed;
    CommitsExactlyWhen(t, op, now);
    assert CommitsRegistration(t, op, now);
    if op.Register? {
      RegisteredRow(t, op, now);
    } else {
      BootstrappedRow(t, op, now);
    }
  }

  /** Only live names change, but for a renewal of one that ran out and a registration of one that was released. */
  lemma CommittedStatus(t: Tables, op: Operation, now: nat)
    requires !op.PublishCheckpoint? && op.name in t.names && Apply(t, op, now).Success?
    ensures op.name in Apply(t, op, now).value.tables.names
    ensures StatusMoves(t, op, Apply(t, op, now).value.tables, now)
  {
    hide Apply, OwnerUsable, OwnerKnown, ActsAsOwner, Allowed, GraphAllows, VersionsKnown, KeysStay, HasOwnerDocument;
    hide LatestVersion, CurrentVersion, CommitsRegistration, CommitsBootstrap;
    if op.Register? || op.Bootstrap? {
      RegisteredStatus(t, op, now);
    } else {
      CommitsExactlyWhen(t, op, now);
      CommittedRow(t, op, now);
    }
  }

  /**
   * A tombstone ends the name: whoever registers it later is told that it exists. After any other release its status
   * stands in no one's way, so that a later registration of a top-level name passes for any public caller.
   */
  lemma ReleaseDecidesReuse(t: Tables, release: Operation, now: nat, register: Operation, later: nat)
    requires release.Release? && Apply(t, release, now).Success?
    requires (register.Register? || register.Bootstrap?) && ProperRegistration(register) && register.name == release.name
    ensures var u := Apply(t, release, now).value.tables;
      && (release.mode == TombstoneForever ==> Apply(u, register, later) == Failure(NameAlreadyExists))
      && (release.mode == ReleaseAfterGrace && release.name.Top? ==>
            (CheckRegistration(u, release.name, register.authority, register.guard, later).Pass? <==>
             register.authority.role == PublicRole))
  {
    hide Apply, CheckRegistration, ProperRegistration, Resolvable, ActsAsOwner;
    assert release.name in t.names by {
      ReleasedIsStored(t, release, now);
    }
    CommittedStatus(t, release, now);
    var u := Apply(t, release, now).value.tables;
    RegistrationRefusals(u, register, later);
    RegistrationPassesWhen(u, release.name, register.authority, register.guard, later);
  }

  lemma ReleasedIsStored(t: Tables, op: Operation, now: nat)
    requires op.Release? && Apply(t, op, now).Success?
    ensures op.name in t.names
  {
    hide SaveOwnedName;
  }

  /** The row of n may differ, no other does. */
  predicate OneRow(t: Tables, u: Tables, n: Name) {
    n in u.names && u.names == t.names[n := u.names[n]]
  }

  lemma RegistrationTouches(t: Tables, op: Operation, o: Outcome, now: nat)
    requires (op.Register? || op.Bootstrap?) && Leaves(t, op, o, now)
    ensures OneRow(t, o.tables, op.name)
  {
    hide Stored, KeysLeft, Appended, DocumentsAnnounced, Registered, TailAnnounced, AllIn;
  }

  lemma SettingTouches(t: Tables, op: Operation, o: Outcome, now: nat)
    requires (RowOperation(op) || Setting(op)) && Leaves(t, op, o, now)
    ensures OneRow(t, o.tables, op.name)
  {
    hide Stored, KeysLeft, Appended, RowAnnounced;
  }

  lemma DocumentTouches(t: Tables, op: Operation, o: Outcome, now: nat)
    requires DocumentOperation(op) && Leaves(t, op, o, now)
    ensures OneRow(t, o.tables, op.name)
  {
    hide Stored, KeysLeft, Appended, PutAbove, RevokedAs, LatestVersion, Newest;
  }

  lemma BatchTouches(t: Tables, op: Operation, o: Outcome, now: nat)
    requires BatchOperation(op) && Leaves(t, op, o, now)
    ensures OneRow(t, o.tables, op.name)
  {
    hide Stored, KeysLeft, Appended, DocumentsAnnounced, AnnouncedBefore, AnnouncedAfter, AllIn;
  }

  /** An operation touches the row of its name only. */
  lemma OtherRowsStay(t: Tables, op: Operation, now: nat, n: Name)
    requires Apply(t, op, now).Success? && LogOk(t.events) && (op.PublishCheckpoint? || n != op.name)
    ensures SameName(t, Apply(t, op, now).value.tables, n)
  {
    hide Apply, Leaves, LogOk;
    OperationLeaves(t, op, now);
    var o := Apply(t, op, now).value;
    if op.PublishCheckpoint? {
      CheckpointTouches(t, op, o, now);
    } else if op.Register? || op.Bootstrap? {
      RegistrationTouches(t, op, o, now);
    } else if RowOperation(op) || Setting(op) {
      SettingTouches(t, op, o, now);
    } else if DocumentOperation(op) {
      DocumentTouches(t, op, o, now);
    } else {
      BatchTouches(t, op, o, now);
    }
  }

  lemma CheckpointTouches(t: Tables, op: Operation, o: Outcome, now: nat)
    requires op.PublishCheckpoint? && Leaves(t, op, o, now)
    ensures o.tables.names == t.names
  {
    hide Appended, Log;
  }

  /** A tombstoned name is never changed, renewed or registered again: its row stays as it is in every later state. */
  lemma {:induction false} TombstonesStay(txs: seq<Tx>, i: nat, n: Name)
    requires ClockOk(txs) && i <= |txs| && n in Run(txs[..i]).names && Run(txs[..i]).names[n].status == Tombstoned
    ensures n in Run(txs).names && Run(txs).names[n] == Run(txs[..i]).names[n]
    decreases |txs|
  {
    hide Inv, Apply, StatusMoves;
    if i == |txs| {
      assert txs[..i] == txs;
    } else {
      var k := |txs| - 1;
      assert txs[..k][..i] == txs[..i];
      TombstonesStay(txs[..k], i, n);
      var t, op, now := Run(txs[..k]), txs[k].op, txs[k].now;
      if Apply(t, op, now).Success? {
        TombstoneKept(txs[..k], op, now, n);
      }
    }
  }

  lemma TombstoneKept(txs: seq<Tx>, op: Operation, now: nat, n: Name)
    requires ClockOk(txs) && n in Run(txs).names && Run(txs).names[n].status == Tombstoned
    requires Apply(Run(txs), op, now).Success?
    ensures SameName(Run(txs), Apply(Run(txs), op, now).value.tables, n)
  {
    hide Apply, Run;
    var t := Run(txs);
    RunLogOk(txs);
    if !op.PublishCheckpoint? && op.name == n {
      CommittedStatus(t, op, now);
    } else {
      OtherRowsStay(t, op, now, n);
    }
  }

  /** What every stored row keeps: it was registered and perhaps released, and its owner is a name or unset. */
  predicate Proper(s: NameState) {
    s.status in {Active, Released, Tombstoned} && !s.semanticOwner.ChainAccount? && s.assetOwner != ""
  }

  lemma {:induction false} RowsProper(txs: seq<Tx>, n: Name)
    requires ClockOk(txs) && n in Run(txs).names
    ensures Proper(Run(txs).names[n])
    decreases |txs|
  {
    hide Inv, Apply, Proper;
    var k := |txs| - 1;
    var t, op, now := Run(txs[..k]), txs[k].op, txs[k].now;
    RunLogOk(txs[..k]);
    if n in t.names {
      RowsProper(txs[..k], n);
    }
    if Apply(t, op, now).Success? {
      if op.PublishCheckpoint? || n != op.name {
        OtherRowsStay(t, op, now, n);
      } else {
        CommittedProper(t, op, now);
      }
    }
  }

  lemma CommittedProper(t: Tables, op: Operation, now: nat)
    requires !op.PublishCheckpoint? && Apply(t, op, now).Success?
    requires op.name in t.names ==> Proper(t.names[op.name])
    ensures op.name in Apply(t, op, now).value.tables.names && Proper(Apply(t, op, now).value.tables.names[op.name])
  {
    hide Apply, OwnerUsable, OwnerKnown, ActsAsOwner, Allowed, GraphAllows, VersionsKnown, KeysStay, HasOwnerDocument;
    hide LatestVersion, CurrentVersion, CommitsRegistration, CommitsBootstrap;
    if op.Register? || op.Bootstrap? {
      RegisteredStatus(t, op, now);
    } else {
      CommitsExactlyWhen(t, op, now);
      CommittedRow(t, op, now);
    }
  }

  lemma RunLogOk(txs: seq<Tx>)
    requires ClockOk(txs)
    ensures LogOk(Run(txs).events)
  {
    hide Run;
    RunKeepsInv(txs);
  }
}
