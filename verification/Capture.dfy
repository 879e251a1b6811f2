/** Change capture of backend/app/core/sqlite_capture.py and its replay in
    backend/app/services/database_migration.py: triggers write row images in the same SQLite
    transaction as the change, a commit hook names the transaction, and the driver replays the
    images by commit order and, within a transaction, by row order. */
module Capture {
  import opened Prelude

  type Tx = nat

  datatype Row = Row(key: string, data: string)

  /** A table with a primary key, or an archive without one, which is a bag of rows. */
  datatype Table = Keyed(rows: map<string, Row>) | Bag(bag: multiset<Row>)

  type Tables = map<string, Table>

  datatype Op =
    | Insert(table: string, row: Row)
    | Replace(table: string, row: Row)
    | Update(table: string, was: Row, row: Row)
    | Delete(table: string, was: Row)

  /** One fired trigger: the old row of a DELETE or UPDATE, the new row of an INSERT or UPDATE. */
  datatype Image = Image(table: string, before: Option<Row>, after: Option<Row>)

  /* ---- The source: a statement and the triggers it fires ---- */

  function Has(t: Table, row: Row): bool {
    match t
    case Keyed(rows) => row.key in rows && rows[row.key] == row
    case Bag(bag) => row in bag
  }

  function Add(t: Table, row: Row): Table {
    match t
    case Keyed(rows) => Keyed(rows[row.key := row])
    case Bag(bag) => Bag(bag + multiset{row})
  }

  function Remove(t: Table, row: Row): Table {
    match t
    case Keyed(rows) => Keyed(rows - {row.key})
    case Bag(bag) => Bag(bag - multiset{row})
  }

  predicate Taken(t: Table, key: string) { t.Keyed? && key in t.rows }

  /** The effect on the tables, and the images in the order in which the triggers fire. A statement
      that finds no row or breaks the primary key has no effect. A REPLACE of an existing row
      fires the DELETE trigger first, because recursive triggers are on. */
  function Execute(ts: Tables, op: Op): (Tables, seq<Image>) {
    if op.table !in ts then (ts, [])
    else
      var t := ts[op.table];
      match op
      case Insert(n, row) => if Taken(t, row.key) then (ts, []) else (ts[n := Add(t, row)], [Image(n, None, Some(row))])
      case Replace(n, row) =>
        if Taken(t, row.key)
        then (ts[n := Add(Remove(t, t.rows[row.key]), row)], [Image(n, Some(t.rows[row.key]), None), Image(n, None, Some(row))])
        else (ts[n := Add(t, row)], [Image(n, None, Some(row))])
      case Update(n, was, row) =>
        if !Has(t, was) || (row.key != was.key && Taken(t, row.key)) then (ts, [])
        else (ts[n := Add(Remove(t, was), row)], [Image(n, Some(was), Some(row))])
      case Delete(n, was) => if Has(t, was) then (ts[n := Remove(t, was)], [Image(n, Some(was), None)]) else (ts, [])
  }

  /* ---- The target: replay of one image ---- */

  /** Delete the old row unless an update kept its primary key, then upsert the new row. */
  function ReplayImage(ts: Tables, im: Image): Tables {
    if im.table !in ts then ts
    else
      var t := ts[im.table];
      var t1 := if im.before.Some? && (im.after.None? || t.Bag? || im.before.value.key != im.after.value.key)
                then Remove(t, im.before.value) else t;
      var t2 := if im.after.Some? then Add(t1, im.after.value) else t1;
      ts[im.table := t2]
  }

  function Replay(ts: Tables, images: seq<Image>): Tables
    decreases |images|
  {
    if images == [] then ts else Replay(ReplayImage(ts, images[0]), images[1..])
  }

  lemma {:induction false} ReplayConcat(ts: Tables, a: seq<Image>, b: seq<Image>)
    ensures Replay(ts, a + b) == Replay(Replay(ts, a), b)
    decreases |a|
  {
    if a == [] {
      assert a + b == b;
    } else {
      assert (a + b)[0] == a[0] && (a + b)[1..] == a[1..] + b;
      ReplayConcat(ReplayImage(ts, a[0]), a[1..], b);
    }
  }

  /** The images of a statement carry exactly its effect, upserts and key changes included. */
  lemma ImagesCarryTheEffect(ts: Tables, op: Op)
    ensures Replay(ts, Execute(ts, op).1) == Execute(ts, op).0
  {
    var (ts', images) := Execute(ts, op);
    if |images| == 1 {
      assert Replay(ts, images) == Replay(ReplayImage(ts, images[0]), []);
      OneImage(ts, op);
    } else if |images| == 2 {
      var mid := ReplayImage(ts, images[0]);
      assert Replay(ts, images) == Replay(mid, images[1..]) == Replay(ReplayImage(mid, images[1]), images[1..][1..]);
    }
  }

  lemma OneImage(ts: Tables, op: Op)
    requires |Execute(ts, op).1| == 1
    ensures ReplayImage(ts, Execute(ts, op).1[0]) == Execute(ts, op).0
  {
    if op.Update? && ts[op.table].Keyed? {
      var rows := ts[op.table].rows;
      assert op.was.key == op.row.key ==> (rows - {op.was.key})[op.row.key := op.row] == rows[op.row.key := op.row];
    }
  }

  /* ---- The database file ---- */

  datatype LogRow = LogRow(tx: Tx, image: Image)

  /** `cuts[k]` is the length of the row journal when the commit row `k` was inserted. */
  datatype Db = Db(tables: Tables, rows: seq<LogRow>, commits: seq<Tx>, cuts: seq<nat>, sealed: bool)

  function Logged(tx: Tx, images: seq<Image>): seq<LogRow> {
    seq(|images|, i requires 0 <= i < |images| => LogRow(tx, images[i]))
  }

  function Images(rows: seq<LogRow>): seq<Image> {
    seq(|rows|, i requires 0 <= i < |rows| => rows[i].image)
  }

  /** The row images of one transaction in row order. */
  function Filter(rows: seq<LogRow>, tx: Tx): seq<Image>
    decreases |rows|
  {
    if rows == [] then []
    else (if rows[0].tx == tx then [rows[0].image] else []) + Filter(rows[1..], tx)
  }

  /** The journal join: commit rows `from..to` in commit order, and row order within each. */
  function Joined(rows: seq<LogRow>, commits: seq<Tx>, from: nat, to: nat): seq<Image>
    requires from <= to <= |commits|
    decreases |commits| - from
  {
    if from == to then [] else Filter(rows, commits[from]) + Joined(rows, commits, from + 1, to)
  }

  function Cut(db: Db, k: nat): nat
    requires k <= |db.cuts|
  {
    if k == 0 then 0 else db.cuts[k - 1]
  }

  /** Every transaction's rows lie between its predecessor's cut and its own. */
  ghost predicate Located(db: Db) {
    && |db.cuts| == |db.commits|
    && (forall k :: 0 <= k < |db.cuts| ==> Cut(db, k) <= db.cuts[k] <= |db.rows|)
    && (forall i, k :: 0 <= i < |db.rows| && 0 <= k < |db.commits| && db.rows[i].tx == db.commits[k] ==>
          Cut(db, k) <= i < db.cuts[k])
  }

  /** The driver's final check: no row from `base` on lacks its commit row. */
  ghost predicate Tracked(db: Db, base: nat) {
    forall i :: base <= i < |db.rows| ==> db.rows[i].tx in db.commits
  }

  lemma {:induction false} FilterNothing(rows: seq<LogRow>, tx: Tx)
    requires forall i :: 0 <= i < |rows| ==> rows[i].tx != tx
    ensures Filter(rows, tx) == []
    decreases |rows|
  {
    if rows != [] { FilterNothing(rows[1..], tx); }
  }

  lemma {:induction false} FilterAll(rows: seq<LogRow>, tx: Tx)
    requires forall i :: 0 <= i < |rows| ==> rows[i].tx == tx
    ensures Filter(rows, tx) == Images(rows)
    decreases |rows|
  {
    if rows != [] {
      FilterAll(rows[1..], tx);
      assert Images(rows) == [rows[0].image] + Images(rows[1..]);
    }
  }

  lemma {:induction false} FilterConcat(a: seq<LogRow>, b: seq<LogRow>, tx: Tx)
    ensures Filter(a + b, tx) == Filter(a, tx) + Filter(b, tx)
    decreases |a|
  {
    if a == [] {
      assert a + b == b;
    } else {
      var head := if a[0].tx == tx then [a[0].image] else [];
      assert (a + b)[0] == a[0] && (a + b)[1..] == a[1..] + b;
      assert Filter(a, tx) == head + Filter(a[1..], tx) && Filter(a + b, tx) == head + Filter(a[1..] + b, tx);
      FilterConcat(a[1..], b, tx);
      hide Filter;
    }
  }

  lemma FilterRange(rows: seq<LogRow>, tx: Tx, lo: nat, hi: nat)
    requires lo <= hi <= |rows|
    requires forall i :: 0 <= i < |rows| ==> (rows[i].tx == tx <==> lo <= i < hi)
    ensures Filter(rows, tx) == Images(rows[lo..hi])
  {
    assert rows == rows[..lo] + (rows[lo..hi] + rows[hi..]);
    FilterConcat(rows[..lo], rows[lo..hi] + rows[hi..], tx);
    FilterConcat(rows[lo..hi], rows[hi..], tx);
    FilterNothing(rows[..lo], tx);
    FilterAll(rows[lo..hi], tx);
    FilterNothing(rows[hi..], tx);
  }

  lemma {:induction false} CutsAscend(db: Db, j: nat, k: nat)
    requires Located(db) && j <= k <= |db.cuts|
    ensures Cut(db, j) <= Cut(db, k) <= |db.rows|
    decreases k - j
  {
    if j < k {
      assert Cut(db, j) <= db.cuts[j] <= |db.rows|;
      CutsAscend(db, j + 1, k);
    } else if k > 0 {
      assert db.cuts[k - 1] <= |db.rows|;
    }
  }

  function Max(a: nat, b: nat): nat { if a < b then b else a }

  /** No commit row from `from` on names a row before `base`. */
  ghost predicate Based(db: Db, base: nat, from: nat) {
    && base <= |db.rows| && from <= |db.commits|
    && (forall i, k :: 0 <= i < base && from <= k < |db.commits| ==> db.rows[i].tx != db.commits[k])
  }

  /** A tracked row lies in the stretch of exactly one commit row. */
  lemma RowBelongs(db: Db, base: nat, from: nat, k: nat, i: nat)
    requires Located(db) && Based(db, base, from) && Tracked(db, base) && from <= k < |db.commits| && i < |db.rows|
    ensures db.rows[i].tx == db.commits[k] <==> base <= i && Cut(db, k) <= i < db.cuts[k]
  {
    if db.rows[i].tx == db.commits[k] {
    } else if base <= i && Cut(db, k) <= i < db.cuts[k] {
      var m := CommitOf(db, base, i);
      hide Based, Tracked;
      if m < k { CutsAscend(db, m + 1, k); } else { CutsAscend(db, k + 1, m); }
      assert false;
    }
  }

  lemma CommitOf(db: Db, base: nat, i: nat) returns (m: nat)
    requires Located(db) && Tracked(db, base) && base <= i < |db.rows|
    ensures m < |db.commits| && db.commits[m] == db.rows[i].tx && Cut(db, m) <= i < db.cuts[m] == Cut(db, m + 1)
  {
    assert db.rows[i].tx in db.commits;
    m :| 0 <= m < |db.commits| && db.commits[m] == db.rows[i].tx;
  }

  lemma OneCommit(db: Db, base: nat, from: nat, k: nat)
    requires Located(db) && Based(db, base, from) && Tracked(db, base) && from <= k < |db.commits|
    ensures var lo := Max(base, Cut(db, k)); var hi := Max(base, Cut(db, k + 1));
            lo <= hi <= |db.rows| && Filter(db.rows, db.commits[k]) == Images(db.rows[lo..hi])
  {
    var lo, hi := Max(base, Cut(db, k)), Max(base, Cut(db, k + 1));
    CutsAscend(db, k, k + 1);
    forall i | 0 <= i < |db.rows| ensures db.rows[i].tx == db.commits[k] <==> lo <= i < hi {
      RowBelongs(db, base, from, k, i);
    }
    hide Located, Tracked, Based;
    FilterRange(db.rows, db.commits[k], lo, hi);
  }

  lemma NothingAfterTheLastCut(db: Db, base: nat)
    requires Located(db) && Tracked(db, base)
    ensures Max(base, Cut(db, |db.commits|)) >= |db.rows|
  {
    var lo := Max(base, Cut(db, |db.commits|));
    if lo < |db.rows| {
      var m := CommitOf(db, base, lo);
      CutsAscend(db, m + 1, |db.commits|);
      assert false;
    }
  }

  lemma SplitImages(rows: seq<LogRow>, lo: nat, hi: nat)
    requires lo <= hi <= |rows|
    ensures Images(rows[lo..]) == Images(rows[lo..hi]) + Images(rows[hi..])
  {
    assert rows[lo..] == rows[lo..hi] + rows[hi..];
  }

  lemma {:induction false} JoinIsRowOrder(db: Db, base: nat, from: nat, k: nat)
    requires Located(db) && Based(db, base, from) && Tracked(db, base) && from <= k <= |db.commits|
    ensures Max(base, Cut(db, k)) <= |db.rows|
    ensures Joined(db.rows, db.commits, k, |db.commits|) == Images(db.rows[Max(base, Cut(db, k))..])
    decreases |db.commits| - k
  {
    hide Located, Based, Tracked, Images, Filter, Cut;
    assert |db.cuts| == |db.commits| && base <= |db.rows| by { Shape(db, base, from); }
    CutsAscend(db, k, |db.commits|);
    var lo := Max(base, Cut(db, k));
    if k == |db.commits| {
      NothingAfterTheLastCut(db, base);
      NoImages(db.rows, lo);
    } else {
      OneCommit(db, base, from, k);
      JoinIsRowOrder(db, base, from, k + 1);
      SplitImages(db.rows, lo, Max(base, Cut(db, k + 1)));
    }
  }

  lemma Shape(db: Db, base: nat, from: nat)
    requires Located(db) && Based(db, base, from)
    ensures |db.cuts| == |db.commits| && base <= |db.rows|
  {
  }

  lemma NoImages(rows: seq<LogRow>, lo: nat)
    requires lo == |rows|
    ensures Images(rows[lo..]) == []
  {
  }
}
