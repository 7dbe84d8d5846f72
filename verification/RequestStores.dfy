/** The two write-request stores as objects that change in place. */
module RequestStores {
  import opened Wrappers
  import opened WriteRequests
  import opened SqliteRequests

  /** The in-memory store. */
  class MemoryStore {
    var records: Records

    constructor ()
      ensures records == map[]
    {
      records := map[];
    }

    /** The call was decided as specified, and nothing but the entry of its request changed. */
    twostate predicate Did(call: StoreCall, reply: Reply)
      reads this
    {
      Stepped(records, reply) == MemoryStep(old(records), call)
    }

    method TryBegin(id: RequestId, record: Record) returns (reply: Reply)
      modifies this
      ensures Did(StoreCall.TryBegin(id, record), reply)
    {
      if record.state != Sending || record.result.None? || record.chainId.None? || record.nonce.None?
         || record.txHash.None? || record.rawTx.None? {
        return Refused;
      }
      if id in records {
        return Existing(records[id]);
      }
      records := records[id := record];
      return Acquired;
    }

    method UpdateInflight(id: RequestId, record: Record) returns (reply: Reply)
      modifies this
      ensures Did(StoreCall.UpdateInflight(id, record), reply)
    {
      if record.state == Sending {
        return Refused;
      }
      if id !in records {
        return Changed(false);
      }
      var current := records[id];
      if !current.Inflight() || current.payloadHash != record.payloadHash || current.txHash != record.txHash
         || current.rawTx != record.rawTx {
        return Changed(false);
      }
      records := records[id := record.(createdAt := current.createdAt)];
      return Changed(true);
    }

    method Repair(
      id: RequestId, payloadHash: string, expectedRaw: RawTx, expectedHash: Option<TxHash>,
      prepared: PreparedTx, updatedAt: U64) returns (reply: Reply)
      modifies this
      ensures Did(StoreCall.Repair(id, payloadHash, expectedRaw, expectedHash, prepared, updatedAt), reply)
    {
      if id !in records {
        return Changed(false);
      }
      var record := records[id];
      if !record.Inflight() || record.payloadHash != payloadHash || record.rawTx != Some(expectedRaw)
         || record.txHash != expectedHash {
        return Changed(false);
      }
      record := record.(txHash := Some(prepared.Hash()));
      record := record.(rawTx := Some(prepared.Raw()));
      record := record.(chainId := Some(prepared.tx.chainId));
      record := record.(nonce := Some(prepared.tx.nonce));
      record := record.(updatedAt := updatedAt);
      records := records[id := record];
      return Changed(true);
    }

    method ResolveFailed(id: RequestId, record: Record) returns (reply: Reply)
      modifies this
      ensures Did(StoreCall.ResolveFailed(id, record), reply)
    {
      if record.state != Pending && record.state != Succeeded && record.state != Reverted {
        return Refused;
      }
      if id !in records {
        return Changed(false);
      }
      var current := records[id];
      if current.state != Failed || current.errorCode != Some(RECOVERY_DATA_INVALID)
         || current.payloadHash != record.payloadHash || current.txHash != record.txHash
         || current.rawTx != record.rawTx {
        return Changed(false);
      }
      records := records[id := record.(createdAt := current.createdAt)];
      return Changed(true);
    }

    method RemoveFailed(id: RequestId, payloadHash: string, txHash: Option<TxHash>, rawTx: Option<RawTx>)
      returns (reply: Reply)
      modifies this
      ensures Did(StoreCall.RemoveFailed(id, payloadHash, txHash, rawTx), reply)
    {
      var removable := id in records && records[id].Quarantined() && records[id].payloadHash == payloadHash
                       && records[id].txHash == txHash && records[id].rawTx == rawTx;
      if removable {
        records := records - {id};
      }
      return Changed(removable);
    }

    method RemoveUnprepared(id: RequestId, payloadHash: string) returns (reply: Reply)
      modifies this
      ensures Did(StoreCall.RemoveUnprepared(id, payloadHash), reply)
    {
      var removable := id in records && records[id].payloadHash == payloadHash && records[id].Inflight()
                       && records[id].txHash.None? && records[id].rawTx.None?;
      if removable {
        records := records - {id};
      }
      return Changed(removable);
    }

    /** Every record that recovery still has to look at, and no other. */
    method ListInflight() returns (reply: Reply)
      ensures Stepped(records, reply) == MemoryStep(records, StoreCall.ListInflight)
    {
      var found: Records := map[];
      var todo := records.Keys;
      while todo != {}
        invariant todo <= records.Keys
        invariant found == map id | id in records.Keys - todo && records[id].Inflight() :: records[id]
        decreases |todo|
      {
        var id :| id in todo;
        if records[id].Inflight() {
          found := found[id := records[id]];
        }
        todo := todo - {id};
      }
      assert found == map id | id in records && records[id].Inflight() :: records[id];
      return Listed(found);
    }
  }

  /** The SQLite store: the row table and the marker of the state migration. */
  class SqliteStore {
    var rows: Rows
    var migrated: bool

    /** Opening the store migrates rows of the first state model, once. */
    constructor (rows: Rows, migrated: bool)
      ensures Migrating(this.rows, this.migrated) == Migrate(Migrating(rows, migrated))
    {
      this.rows := rows;
      this.migrated := migrated;
      new;
      if !migrated {
        this.rows := map id | id in this.rows ::
          if this.rows[id].state == Succeeded && this.rows[id].txHash.Some? && this.rows[id].rawTx.Some?
          then this.rows[id].(state := Pending) else this.rows[id];
        this.rows := map id | id in this.rows ::
          if this.rows[id].state == Failed && this.rows[id].errorCode == Some(TX_REVERTED)
          then this.rows[id].(state := Reverted) else this.rows[id];
        this.rows := map id | id in this.rows &&
          !(this.rows[id].state == Pending && this.rows[id].txHash.None? && this.rows[id].rawTx.None?) :: this.rows[id];
        this.migrated := true;
      }
    }

    twostate predicate Did(call: StoreCall, reply: Reply)
      reads this
    {
      SqlStepped(rows, reply) == SqlStep(old(rows), call) && migrated == old(migrated)
    }

    /** INSERT .. ON CONFLICT DO NOTHING, then a reload when nothing was inserted. */
    method TryBegin(id: RequestId, record: Record) returns (reply: Reply)
      modifies this
      ensures Did(StoreCall.TryBegin(id, record), reply)
    {
      if !record.FullyPrepared() {
        return Refused;
      }
      var inserted := id !in rows;
      if inserted {
        rows := rows[id := ToRow(record)];
        return Acquired;
      }
      return Existing(FromRow(rows[id]));
    }

    method UpdateInflight(id: RequestId, record: Record) returns (reply: Reply)
      modifies this
      ensures Did(StoreCall.UpdateInflight(id, record), reply)
    {
      if record.state == Sending {
        return Refused;
      }
      var matches := id in rows && rows[id].payloadHash == record.payloadHash && rows[id].Inflight()
                     && rows[id].txHash == record.txHash && rows[id].rawTx == record.rawTx
                     && rows[id].leaseOwner == record.leaseOwner;
      if matches {
        rows := rows[id := Updated(rows[id], record)];
      }
      return Changed(matches);
    }

    method Repair(
      id: RequestId, payloadHash: string, expectedRaw: RawTx, expectedHash: Option<TxHash>,
      prepared: PreparedTx, updatedAt: U64) returns (reply: Reply)
      modifies this
      ensures Did(StoreCall.Repair(id, payloadHash, expectedRaw, expectedHash, prepared, updatedAt), reply)
    {
      var matches := id in rows && rows[id].payloadHash == payloadHash && rows[id].Inflight()
                     && rows[id].rawTx == Some(expectedRaw) && rows[id].txHash == expectedHash;
      if matches {
        rows := rows[id := RepairedRow(rows[id], prepared, updatedAt)];
      }
      return Changed(matches);
    }

    method ResolveFailed(id: RequestId, record: Record) returns (reply: Reply)
      modifies this
      ensures Did(StoreCall.ResolveFailed(id, record), reply)
    {
      if record.state == Sending || record.state == Failed {
        return Refused;
      }
      var matches := id in rows && rows[id].state == Failed && rows[id].errorCode == Some(RECOVERY_DATA_INVALID)
                     && rows[id].payloadHash == record.payloadHash && rows[id].txHash == record.txHash
                     && rows[id].rawTx == record.rawTx;
      if matches {
        rows := rows[id := Resolved(rows[id], record)];
      }
      return Changed(matches);
    }

    method RemoveFailed(id: RequestId, payloadHash: string, txHash: Option<TxHash>, rawTx: Option<RawTx>)
      returns (reply: Reply)
      modifies this
      ensures Did(StoreCall.RemoveFailed(id, payloadHash, txHash, rawTx), reply)
    {
      var matches := id in rows && rows[id].payloadHash == payloadHash && rows[id].state == Failed
                     && rows[id].errorCode == Some(RECOVERY_DATA_INVALID)
                     && rows[id].txHash == txHash && rows[id].rawTx == rawTx;
      if matches {
        rows := rows - {id};
      }
      return Changed(matches);
    }

    method RemoveUnprepared(id: RequestId, payloadHash: string) returns (reply: Reply)
      modifies this
      ensures Did(StoreCall.RemoveUnprepared(id, payloadHash), reply)
    {
      var matches := id in rows && rows[id].payloadHash == payloadHash && rows[id].Inflight()
                     && rows[id].txHash.None? && rows[id].rawTx.None?;
      if matches {
        rows := rows - {id};
      }
      return Changed(matches);
    }
  }
}
