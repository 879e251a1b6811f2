/** The capture hooks of one connection, and the replay loop, as objects and loops. */
module CaptureObject {
  import opened Prelude
  import opened Capture
  import opened CaptureRuns

  class Connection {
    var db: Db
    var holder: Option<Tx>
    var next: Tx

    constructor (db: Db, next: Tx)
      ensures this.db == db && holder == None && this.next == next
    {
      this.db, holder, this.next := db, None, next;
    }

    /** `lg_migration_txid`: one fresh name for the whole transaction. */
    method TransactionId() returns (tx: Tx)
      modifies this`holder, this`next
      ensures tx == (if old(holder).Some? then old(holder).value else old(next)) && holder == Some(tx)
      ensures next == if old(holder).Some? then old(next) else old(next) + 1
    {
      if holder.None? { holder, next := Some(next), next + 1; }
      return holder.value;
    }

    /** The triggers of one statement, in order: each checks the fence, then journals its image. */
    method Fire(images: seq<Image>)
      requires !db.sealed && images != []
      modifies this
      ensures holder.Some? && (old(holder).Some? ==> holder == old(holder)) && (old(holder).None? ==> holder == Some(old(next)))
      ensures db == old(db).(rows := old(db).rows + Logged(holder.value, images))
      ensures next == if old(holder).Some? then old(next) else old(next) + 1
    {
      var tx := TransactionId();
      for k := 0 to |images|
        invariant holder == Some(tx) && next == if old(holder).Some? then old(next) else old(next) + 1
        invariant db == old(db).(rows := old(db).rows + Logged(tx, images[..k]))
      {
        var again := TransactionId();
        db := db.(rows := db.rows + [LogRow(again, images[k])]);
        assert Logged(tx, images[..k + 1]) == Logged(tx, images[..k]) + [LogRow(tx, images[k])];
      }
      assert images[..|images|] == images;
    }

    method Statement(op: Op)
      modifies this
      ensures var tx := if old(holder).Some? then old(holder).value else old(next);
              if old(db).sealed || Execute(old(db).tables, op).1 == []
              then db == old(db) && holder == old(holder) && next == old(next)
              else db == Append(old(db), tx, op) && holder == Some(tx)
    {
      var (ts, images) := Execute(db.tables, op);
      if images == [] || db.sealed { return; }
      Fire(images);
      db := db.(tables := ts);
    }

    /** The commit hook gives the name up even when its insert fails. */
    method OnCommit(journaled: bool) returns (ok: bool)
      modifies this`db, this`holder
      ensures holder == None && (ok <==> old(holder).None? || journaled)
      ensures db == if old(holder).Some? && journaled then Journal(old(db), old(holder).value) else old(db)
    {
      ok := true;
      if holder.Some? {
        if journaled {
          db := db.(commits := db.commits + [holder.value], cuts := db.cuts + [|db.rows|]);
        } else {
          ok := false;
        }
        holder := None;
      }
    }

    method OnRollback(durable: Db)
      modifies this`db, this`holder
      ensures db == durable && holder == None
    {
      db, holder := durable, None;
    }
  }

  /** The replay of a batch of journal rows, one command after the other. */
  method ReplayChanges(ts: Tables, changes: seq<Image>) returns (out: Tables)
    ensures out == Replay(ts, changes)
  {
    out := ts;
    for k := 0 to |changes|
      invariant out == Replay(ts, changes[..k])
    {
      assert changes[..k + 1] == changes[..k] + [changes[k]];
      ReplayConcat(ts, changes[..k], [changes[k]]);
      out := ReplayImage(out, changes[k]);
      assert Replay(Replay(ts, changes[..k]), [changes[k]]) == Replay(out, []);
    }
    assert changes[..|changes|] == changes;
  }

  /** Catching up in bounded batches of commits ends where one replay of the whole journal ends. */
  method CatchUpInBatches(ts: Tables, db: Db, position: nat, limit: nat) returns (out: Tables)
    requires position <= |db.commits| && limit > 0
    ensures out == Replay(ts, Joined(db.rows, db.commits, position, |db.commits|))
  {
    out := ts;
    var at := position;
    while at < |db.commits|
      invariant position <= at <= |db.commits|
      invariant out == Replay(ts, Joined(db.rows, db.commits, position, at))
    {
      var high := Min(at + limit, |db.commits|);
      JoinSplits(db.rows, db.commits, position, at, high);
      ReplayConcat(ts, Joined(db.rows, db.commits, position, at), Joined(db.rows, db.commits, at, high));
      out := ReplayChanges(out, Joined(db.rows, db.commits, at, high));
      at := high;
    }
  }
}
