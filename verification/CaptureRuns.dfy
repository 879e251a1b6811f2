/** Whole runs of captured transactions: commits whose journal row or whose COMMIT may fail,
    rollbacks, savepoints, crashes, the final fence, and the driver's snapshot and catch-up. */
module CaptureRuns {
  import opened Prelude
  import opened Capture

  /** A write transaction in progress. `holder` is the connection's transaction name, drawn when the
      first trigger fires and given up by the commit hook whether or not its insert succeeds. */
  datatype Writing = Writing(db: Db, saves: seq<Db>, holder: Option<Tx>)

  /** The target: replayed up to `position`. `base`, `from` and `snap` remember the snapshot. */
  datatype Target = Target(tables: Tables, position: nat, base: nat, from: nat, snap: Tables)

  datatype State = State(start: Tables, durable: Db, writing: Option<Writing>, next: Tx, target: Option<Target>)

  datatype Action =
    | Begin
    | Exec(op: Op)
    | Savepoint
    | RollbackTo(k: nat)
    | Commit(journaled: bool, lands: bool)
    | Rollback
    | Crash
    | Seal
    | Snapshot
    | CatchUp(limit: nat)

  function Append(db: Db, tx: Tx, op: Op): Db {
    var (ts, images) := Execute(db.tables, op);
    db.(tables := ts, rows := db.rows + Logged(tx, images))
  }

  function Journal(db: Db, tx: Tx): Db {
    db.(commits := db.commits + [tx], cuts := db.cuts + [|db.rows|])
  }

  /** A sealed fence aborts the statement before its trigger writes anything. */
  function ExecStep(s: State, w: Writing, op: Op): State {
    if w.db.sealed || Execute(w.db.tables, op).1 == [] then s
    else if w.holder.Some? then s.(writing := Some(w.(db := Append(w.db, w.holder.value, op))))
    else s.(writing := Some(w.(db := Append(w.db, s.next, op), holder := Some(s.next))), next := s.next + 1)
  }

  function CommitStep(s: State, w: Writing, journaled: bool, lands: bool): State {
    if w.holder.Some? && !journaled then s.(writing := Some(w.(holder := None)))
    else
      var db := if w.holder.Some? then Journal(w.db, w.holder.value) else w.db;
      if lands then s.(durable := db, writing := None) else s.(writing := Some(w.(db := db, holder := None)))
  }

  function Min(a: nat, b: nat): nat { if a < b then a else b }

  function Step(s: State, a: Action): State {
    match a
    case Begin => if s.writing.None? then s.(writing := Some(Writing(s.durable, [], None))) else s
    case Exec(op) => if s.writing.Some? then ExecStep(s, s.writing.value, op) else s
    case Savepoint =>
      if s.writing.Some? then s.(writing := Some(s.writing.value.(saves := s.writing.value.saves + [s.writing.value.db]))) else s
    case RollbackTo(k) =>
      if s.writing.Some? && k < |s.writing.value.saves|
      then s.(writing := Some(s.writing.value.(db := s.writing.value.saves[k], saves := s.writing.value.saves[..k + 1]))) else s
    case Commit(journaled, lands) => if s.writing.Some? then CommitStep(s, s.writing.value, journaled, lands) else s
    case Rollback => s.(writing := None)
    case Crash => s.(writing := None)
    case Seal => if s.writing.None? then s.(durable := s.durable.(sealed := true)) else s
    case Snapshot =>
      s.(target := Some(Target(s.durable.tables, |s.durable.commits|, |s.durable.rows|, |s.durable.commits|, s.durable.tables)))
    case CatchUp(limit) =>
      if s.target.None? || s.target.value.position > |s.durable.commits| then s
      else
        var t := s.target.value;
        var high := Min(t.position + limit, |s.durable.commits|);
        s.(target := Some(t.(tables := Replay(t.tables, Joined(s.durable.rows, s.durable.commits, t.position, high)),
                             position := high)))
  }

  function Run(s: State, run: seq<Action>): State
    decreases |run|
  {
    if run == [] then s else Run(Step(s, run[0]), run[1..])
  }

  function Initial(tables: Tables): State {
    State(tables, Db(tables, [], [], [], false), None, 0, None)
  }

  /* ---- The invariant ---- */

  ghost predicate Named(db: Db, next: Tx) {
    && (forall i :: 0 <= i < |db.rows| ==> db.rows[i].tx < next)
    && (forall k :: 0 <= k < |db.commits| ==> db.commits[k] < next)
  }

  ghost predicate DbOk(start: Tables, db: Db, next: Tx) {
    Located(db) && Named(db, next) && Replay(start, Images(db.rows)) == db.tables
  }

  /** The name in use has no commit row yet, and its rows follow every commit row. */
  ghost predicate HolderOk(db: Db, durable: Db, h: Option<Tx>, next: Tx) {
    h.Some? ==>
      && h.value < next
      && (forall k :: 0 <= k < |db.commits| ==> db.commits[k] != h.value)
      && (forall i :: 0 <= i < |db.rows| && db.rows[i].tx == h.value ==>
            |durable.rows| <= i && |db.cuts| == |db.commits| && Cut(db, |db.cuts|) <= i)
  }

  predicate Extends(durable: Db, db: Db) {
    durable.rows <= db.rows && durable.commits <= db.commits && durable.cuts <= db.cuts && db.sealed == durable.sealed
  }

  ghost predicate DraftOk(start: Tables, durable: Db, db: Db, h: Option<Tx>, next: Tx) {
    && DbOk(start, db, next) && HolderOk(db, durable, h, next) && Extends(durable, db)
    && Based(db, |durable.rows|, |durable.commits|)
    && (durable.sealed ==> db == durable && h.None?)
  }

  ghost predicate WritingOk(start: Tables, durable: Db, w: Writing, next: Tx) {
    && DraftOk(start, durable, w.db, w.holder, next)
    && (forall k :: 0 <= k < |w.saves| ==> DraftOk(start, durable, w.saves[k], w.holder, next))
  }

  ghost predicate TargetOk(start: Tables, db: Db, t: Target) {
    && Based(db, t.base, t.from) && |db.cuts| == |db.commits| && Cut(db, t.from) <= t.base
    && t.from <= t.position <= |db.commits|
    && t.snap == Replay(start, Images(db.rows[..t.base]))
    && t.tables == Replay(t.snap, Joined(db.rows, db.commits, t.from, t.position))
  }

  ghost predicate Inv(s: State) {
    && DbOk(s.start, s.durable, s.next)
    && (s.writing.Some? ==> WritingOk(s.start, s.durable, s.writing.value, s.next))
    && (s.target.Some? ==> TargetOk(s.start, s.durable, s.target.value))
  }

  /* ---- One draft of the database ---- */

  lemma AppendKeeps(start: Tables, durable: Db, db: Db, tx: Tx, next: Tx, op: Op)
    requires DraftOk(start, durable, db, Some(tx), next) && !db.sealed
    ensures DraftOk(start, durable, Append(db, tx, op), Some(tx), next)
  {
    var (ts, images) := Execute(db.tables, op);
    var db' := Append(db, tx, op);
    assert Images(db'.rows) == Images(db.rows) + images;
    ReplayConcat(start, Images(db.rows), images);
    ImagesCarryTheEffect(db.tables, op);
    AppendShape(durable, db, tx, next, Logged(tx, images), ts);
  }

  lemma AppendShape(durable: Db, db: Db, tx: Tx, next: Tx, more: seq<LogRow>, ts: Tables)
    requires Located(db) && Named(db, next) && HolderOk(db, durable, Some(tx), next) && Extends(durable, db)
    requires Based(db, |durable.rows|, |durable.commits|)
    requires forall i :: 0 <= i < |more| ==> more[i].tx == tx
    ensures var db' := db.(tables := ts, rows := db.rows + more);
            && Located(db') && Named(db', next) && HolderOk(db', durable, Some(tx), next) && Extends(durable, db')
            && Based(db', |durable.rows|, |durable.commits|)
  {
    hide Replay, Execute;
    var db' := db.(tables := ts, rows := db.rows + more);
    CutsAscend(db, 0, |db.cuts|);
    assert forall i :: 0 <= i < |db'.rows| ==> db'.rows[i] == (if i < |db.rows| then db.rows[i] else more[i - |db.rows|]);
    assert forall k :: 0 <= k <= |db.cuts| ==> Cut(db', k) == Cut(db, k);
  }

  lemma JournalLocatesRow(durable: Db, db: Db, tx: Tx, next: Tx, i: nat, k: nat)
    requires Located(db) && HolderOk(db, durable, Some(tx), next) && i < |db.rows| && k <= |db.commits|
    requires db.rows[i].tx == Journal(db, tx).commits[k]
    ensures Cut(Journal(db, tx), k) <= i < Journal(db, tx).cuts[k]
  {
    if k < |db.commits| { assert db.rows[i].tx == db.commits[k]; }
  }

  lemma JournalLocates(durable: Db, db: Db, tx: Tx, next: Tx)
    requires Located(db) && HolderOk(db, durable, Some(tx), next)
    ensures Located(Journal(db, tx))
  {
    var db' := Journal(db, tx);
    CutsAscend(db, 0, |db.cuts|);
    assert forall k :: 0 <= k <= |db.cuts| ==> Cut(db', k) == Cut(db, k);
    forall i, k | 0 <= i < |db'.rows| && 0 <= k < |db'.commits| && db'.rows[i].tx == db'.commits[k]
      ensures Cut(db', k) <= i < db'.cuts[k]
    {
      JournalLocatesRow(durable, db, tx, next, i, k);
    }
    hide Cut;
    forall k | 0 <= k < |db'.cuts| ensures Cut(db', k) <= db'.cuts[k] <= |db'.rows| {
      if k < |db.cuts| { assert Cut(db, k) <= db.cuts[k] <= |db.rows|; }
    }
  }

  lemma JournalBases(durable: Db, db: Db, tx: Tx, next: Tx)
    requires Based(db, |durable.rows|, |durable.commits|) && HolderOk(db, durable, Some(tx), next)
    ensures Based(Journal(db, tx), |durable.rows|, |durable.commits|)
  {
  }

  lemma JournalKeeps(start: Tables, durable: Db, db: Db, tx: Tx, next: Tx)
    requires DraftOk(start, durable, db, Some(tx), next)
    ensures DraftOk(start, durable, Journal(db, tx), None, next)
  {
    JournalLocates(durable, db, tx, next);
    JournalBases(durable, db, tx, next);
    hide Replay, Located, Based;
  }

  /** A fresh name touches nothing that was written before. */
  lemma FreshName(start: Tables, durable: Db, db: Db, next: Tx)
    requires DraftOk(start, durable, db, None, next) && !durable.sealed
    ensures DraftOk(start, durable, db, Some(next), next + 1)
  {
    hide Replay, Located, Based;
  }

  lemma NameDropped(start: Tables, durable: Db, db: Db, h: Option<Tx>, next: Tx)
    requires DraftOk(start, durable, db, h, next)
    ensures DraftOk(start, durable, db, None, next)
  {
    hide Replay, Located, Based;
  }

  lemma ExecKeeps(s: State, op: Op)
    requires Inv(s) && s.writing.Some?
    ensures Inv(ExecStep(s, s.writing.value, op))
  {
    hide DbOk, TargetOk, Append;
    var w := s.writing.value;
    if !w.db.sealed && Execute(w.db.tables, op).1 != [] {
      assert !s.durable.sealed;
      if w.holder.Some? {
        AppendKeeps(s.start, s.durable, w.db, w.holder.value, s.next, op);
      } else {
        FreshName(s.start, s.durable, w.db, s.next);
        AppendKeeps(s.start, s.durable, w.db, s.next, s.next + 1, op);
        forall k | 0 <= k < |w.saves| ensures DraftOk(s.start, s.durable, w.saves[k], Some(s.next), s.next + 1) {
          FreshName(s.start, s.durable, w.saves[k], s.next);
        }
        NameDurable(s.start, s.durable, s.next);
      }
    }
  }

  lemma NameDurable(start: Tables, db: Db, next: Tx)
    requires DbOk(start, db, next)
    ensures DbOk(start, db, next + 1)
  {
    hide Replay, Located;
  }

  /* ---- The target ---- */

  lemma LaterRowsAreOthers(d: Db, db: Db, k: nat, i: nat)
    requires Located(d) && Located(db) && Extends(d, db) && k < |d.commits| && |d.rows| <= i < |db.rows|
    ensures db.rows[i].tx != d.commits[k]
  {
    assert db.commits[k] == d.commits[k] && db.cuts[k] == d.cuts[k] && d.cuts[k] <= |d.rows|;
  }

  lemma FilterStable(d: Db, db: Db, k: nat)
    requires Located(d) && Located(db) && Extends(d, db) && k < |d.commits|
    ensures Filter(d.rows, d.commits[k]) == Filter(db.rows, d.commits[k])
  {
    var rest := db.rows[|d.rows|..];
    forall i | 0 <= i < |rest| ensures rest[i].tx != d.commits[k] { LaterRowsAreOthers(d, db, k, |d.rows| + i); }
    hide Located;
    assert db.rows == d.rows + rest;
    FilterConcat(d.rows, rest, d.commits[k]);
    FilterNothing(rest, d.commits[k]);
  }

  lemma {:induction false} JoinStable(d: Db, db: Db, from: nat, to: nat)
    requires Located(d) && Located(db) && Extends(d, db) && from <= to <= |d.commits|
    ensures Joined(d.rows, d.commits, from, to) == Joined(db.rows, db.commits, from, to)
    decreases |d.commits| - from
  {
    hide Located, Filter;
    if from < to {
      assert db.commits[from] == d.commits[from];
      FilterStable(d, db, from);
      JoinStable(d, db, from + 1, to);
    }
  }

  lemma {:induction false} JoinSplits(rows: seq<LogRow>, commits: seq<Tx>, from: nat, mid: nat, to: nat)
    requires from <= mid <= to <= |commits|
    ensures Joined(rows, commits, from, to) == Joined(rows, commits, from, mid) + Joined(rows, commits, mid, to)
    decreases mid - from
  {
    if from < mid { JoinSplits(rows, commits, from + 1, mid, to); }
  }

  lemma TargetStays(start: Tables, d: Db, db: Db, t: Target)
    requires TargetOk(start, d, t) && Located(d) && Located(db) && Extends(d, db)
    requires Based(db, |d.rows|, |d.commits|)
    ensures TargetOk(start, db, t)
  {
    hide Replay;
    JoinStable(d, db, t.from, t.position);
    assert db.rows[..t.base] == d.rows[..t.base];
    assert Cut(db, t.from) == Cut(d, t.from);
    forall i, k | 0 <= i < t.base && t.from <= k < |db.commits| ensures db.rows[i].tx != db.commits[k] {
      assert db.rows[i] == d.rows[i];
      if k < |d.commits| { assert db.commits[k] == d.commits[k]; }
    }
  }

  lemma CatchUpKeeps(start: Tables, db: Db, t: Target, limit: nat)
    requires TargetOk(start, db, t)
    ensures var high := Min(t.position + limit, |db.commits|);
            TargetOk(start, db, t.(tables := Replay(t.tables, Joined(db.rows, db.commits, t.position, high)), position := high))
  {
    var high := Min(t.position + limit, |db.commits|);
    JoinSplits(db.rows, db.commits, t.from, t.position, high);
    ReplayConcat(t.snap, Joined(db.rows, db.commits, t.from, t.position), Joined(db.rows, db.commits, t.position, high));
    hide Replay, Joined;
  }

  lemma SnapshotOk(start: Tables, db: Db, next: Tx)
    requires DbOk(start, db, next)
    ensures TargetOk(start, db, Target(db.tables, |db.commits|, |db.rows|, |db.commits|, db.tables))
  {
    CutsAscend(db, |db.cuts|, |db.cuts|);
    assert db.rows[..|db.rows|] == db.rows;
  }

  /* ---- Steps ---- */

  lemma LandKeeps(s: State, db: Db)
    requires Inv(s) && DraftOk(s.start, s.durable, db, None, s.next)
    ensures Inv(s.(durable := db, writing := None))
  {
    hide Replay, Named, HolderOk;
    if s.target.Some? { TargetStays(s.start, s.durable, db, s.target.value); }
  }

  lemma CommitKeeps(s: State, journaled: bool, lands: bool)
    requires Inv(s) && s.writing.Some?
    ensures Inv(CommitStep(s, s.writing.value, journaled, lands))
  {
    hide DbOk, TargetOk, DraftOk, Journal;
    var w := s.writing.value;
    forall k | 0 <= k < |w.saves| ensures DraftOk(s.start, s.durable, w.saves[k], None, s.next) {
      NameDropped(s.start, s.durable, w.saves[k], w.holder, s.next);
    }
    if w.holder.Some? && !journaled {
      NameDropped(s.start, s.durable, w.db, w.holder, s.next);
    } else {
      if w.holder.Some? { JournalKeeps(s.start, s.durable, w.db, w.holder.value, s.next); }
      var db := if w.holder.Some? then Journal(w.db, w.holder.value) else w.db;
      if lands { LandKeeps(s, db); }
    }
  }

  lemma BeginKeeps(s: State)
    requires Inv(s)
    ensures DraftOk(s.start, s.durable, s.durable, None, s.next)
  {
  }

  lemma SealKeeps(s: State)
    requires Inv(s) && s.writing.None?
    ensures Inv(Step(s, Seal))
  {
    hide Replay;
    var db := s.durable.(sealed := true);
    assert forall k :: 0 <= k <= |db.cuts| ==> Cut(db, k) == Cut(s.durable, k);
  }

  lemma StepKeeps(s: State, a: Action)
    requires Inv(s)
    ensures Inv(Step(s, a))
  {
    hide DbOk, DraftOk, TargetOk, ExecStep, CommitStep;
    match a
    case Begin => BeginKeeps(s);
    case Exec(op) => if s.writing.Some? { ExecKeeps(s, op); }
    case Commit(journaled, lands) => if s.writing.Some? { CommitKeeps(s, journaled, lands); }
    case Seal => if s.writing.None? { SealKeeps(s); }
    case Snapshot => SnapshotOk(s.start, s.durable, s.next);
    case CatchUp(limit) => if s.target.Some? { CatchUpKeeps(s.start, s.durable, s.target.value, limit); }
    case _ =>
  }

  lemma {:induction false} RunKeeps(s: State, run: seq<Action>)
    requires Inv(s)
    ensures Inv(Run(s, run))
    decreases |run|
  {
    hide Step, Inv;
    if run != [] {
      StepKeeps(s, run[0]);
      RunKeeps(Step(s, run[0]), run[1..]);
    }
  }

  lemma InitialInv(tables: Tables)
    ensures Inv(Initial(tables))
  {
    assert Images([]) == [];
  }

  /* ---- The results ---- */

  lemma CaughtUp(start: Tables, db: Db, next: Tx, t: Target)
    requires DbOk(start, db, next) && TargetOk(start, db, t) && t.position == |db.commits| && Tracked(db, t.base)
    ensures t.tables == db.tables
  {
    hide Replay, Joined;
    JoinIsRowOrder(db, t.base, t.from, t.from);
    SplitImages(db.rows, 0, t.base);
    assert db.rows[0..] == db.rows && db.rows[0..t.base] == db.rows[..t.base];
    ReplayConcat(start, Images(db.rows[..t.base]), Images(db.rows[t.base..]));
  }

  /** Main result 1. Take any run of transactions with failing commits, rollbacks, savepoints and
      crashes, any snapshot during it, and any batches of catch-up. When the target's position is
      the last commit row and the driver's check finds no untracked row since the snapshot, the
      target holds exactly the source tables. */
  lemma ReplayRebuildsTheSource(tables: Tables, run: seq<Action>)
    ensures var s := Run(Initial(tables), run);
            s.target.Some? && s.target.value.position == |s.durable.commits| && Tracked(s.durable, s.target.value.base) ==>
              s.target.value.tables == s.durable.tables
  {
    hide Run;
    InitialInv(tables);
    RunKeeps(Initial(tables), run);
    var s := Run(Initial(tables), run);
    if s.target.Some? && s.target.value.position == |s.durable.commits| && Tracked(s.durable, s.target.value.base) {
      CaughtUp(s.start, s.durable, s.next, s.target.value);
    }
  }

  predicate SameFile(d: Db, d': Db) {
    d'.tables == d.tables && d'.rows == d.rows && d'.commits == d.commits && d'.sealed
  }

  lemma StepFrozen(s: State, a: Action)
    requires Inv(s) && s.durable.sealed
    ensures SameFile(s.durable, Step(s, a).durable)
  {
    hide Execute, Replay, DbOk, HolderOk, Based, TargetOk, Joined;
  }

  lemma {:induction false} FrozenRun(s: State, more: seq<Action>)
    requires Inv(s) && s.durable.sealed
    ensures SameFile(s.durable, Run(s, more).durable)
    decreases |more|
  {
    hide Step, Inv;
    if more != [] {
      StepKeeps(s, more[0]);
      StepFrozen(s, more[0]);
      FrozenRun(Step(s, more[0]), more[1..]);
    }
  }

  /** Main result 2. Once the fence is sealed, the tables, the row journal and the commit rows stay as
      they are in everything that can happen later. */
  lemma SealedIsFrozen(tables: Tables, run: seq<Action>, more: seq<Action>)
    requires Run(Initial(tables), run).durable.sealed
    ensures SameFile(Run(Initial(tables), run).durable, Run(Run(Initial(tables), run), more).durable)
  {
    hide Run;
    InitialInv(tables);
    RunKeeps(Initial(tables), run);
    FrozenRun(Run(Initial(tables), run), more);
  }

  /* ---- When the driver's check passes ---- */

  /** A commit that fails: its journal row is not inserted, or the COMMIT itself is refused. */
  predicate Refuses(s: State, a: Action) {
    a.Commit? && s.writing.Some? && ((s.writing.value.holder.Some? && !a.journaled) || !a.lands)
  }

  predicate ByWriter(a: Action) { !a.Seal? && !a.Snapshot? && !a.CatchUp? }

  predicate Undoes(a: Action) { a.Rollback? || a.Crash? }

  /** After a commit that failed, the writer's next action is a rollback, or a crash. */
  predicate Careful(s: State, failed: bool, run: seq<Action>)
    decreases |run|
  {
    run == [] ||
    (&& (failed && ByWriter(run[0]) ==> Undoes(run[0]))
     && Careful(Step(s, run[0]), Refuses(s, run[0]) || (failed && !Undoes(run[0])), run[1..]))
  }

  predicate RowTracked(db: Db, h: Option<Tx>, i: nat)
    requires i < |db.rows|
  {
    db.rows[i].tx in db.commits || h == Some(db.rows[i].tx)
  }

  ghost predicate AllTracked(db: Db, h: Option<Tx>) { forall i :: 0 <= i < |db.rows| ==> RowTracked(db, h, i) }

  /** Every journaled row has its commit row, or is the open transaction's. */
  ghost predicate Neat(s: State) {
    && AllTracked(s.durable, None)
    && (s.writing.Some? ==>
          && AllTracked(s.writing.value.db, s.writing.value.holder)
          && (forall k :: 0 <= k < |s.writing.value.saves| ==> AllTracked(s.writing.value.saves[k], s.writing.value.holder)))
  }

  lemma ExecIsNeat(s: State, w: Writing, op: Op)
    requires Neat(s) && s.writing == Some(w)
    ensures Neat(ExecStep(s, w, op))
  {
    hide Execute;
    var s' := ExecStep(s, w, op);
    var w' := s'.writing.value;
    forall i | 0 <= i < |w'.db.rows| ensures RowTracked(w'.db, w'.holder, i) {
      if i < |w.db.rows| { assert RowTracked(w.db, w.holder, i); }
    }
    forall k | 0 <= k < |w'.saves| ensures AllTracked(w'.saves[k], w'.holder) {
      forall i | 0 <= i < |w.saves[k].rows| ensures RowTracked(w.saves[k], w'.holder, i) {
        assert RowTracked(w.saves[k], w.holder, i);
      }
    }
  }

  lemma CommitIsNeat(s: State, w: Writing)
    requires Neat(s) && s.writing == Some(w)
    ensures Neat(CommitStep(s, w, true, true))
  {
    var db := CommitStep(s, w, true, true).durable;
    forall i | 0 <= i < |db.rows| ensures RowTracked(db, None, i) {
      assert RowTracked(w.db, w.holder, i);
      if w.holder.Some? { assert db.commits[|w.db.commits|] == w.holder.value; }
    }
  }

  lemma StepIsNeat(s: State, a: Action)
    requires Neat(s) && !Refuses(s, a)
    ensures Neat(Step(s, a))
  {
    hide ExecStep, CommitStep, Replay, Joined;
    match a
    case Exec(op) => if s.writing.Some? { ExecIsNeat(s, s.writing.value, op); }
    case Commit(journaled, lands) => if s.writing.Some? { LandingIsNeat(s, s.writing.value, journaled); }
    case Seal => if s.writing.None? { SealTracks(s); }
    case _ =>
  }

  lemma LandingIsNeat(s: State, w: Writing, journaled: bool)
    requires Neat(s) && s.writing == Some(w) && (w.holder.Some? ==> journaled)
    ensures Neat(CommitStep(s, w, journaled, true))
  {
    CommitIsNeat(s, w);
    assert CommitStep(s, w, journaled, true) == CommitStep(s, w, true, true);
  }

  lemma SealTracks(s: State)
    requires AllTracked(s.durable, None)
    ensures AllTracked(s.durable.(sealed := true), None)
  {
    forall i | 0 <= i < |s.durable.rows| ensures RowTracked(s.durable.(sealed := true), None, i) {
      assert RowTracked(s.durable, None, i);
    }
  }

  /** The durable file is always in order, and after a failed commit so is nothing else. */
  lemma {:induction false} CarefulRun(s: State, failed: bool, run: seq<Action>)
    requires AllTracked(s.durable, None) && (!failed ==> Neat(s)) && Careful(s, failed, run)
    ensures AllTracked(Run(s, run).durable, None)
    decreases |run|
  {
    hide Step;
    if run != [] {
      var a := run[0];
      if failed || Refuses(s, a) {
        FailedStep(s, a, failed);
      } else {
        StepIsNeat(s, a);
      }
      CarefulRun(Step(s, a), Refuses(s, a) || (failed && !Undoes(a)), run[1..]);
    }
  }

  lemma FailedStep(s: State, a: Action, failed: bool)
    requires AllTracked(s.durable, None) && (failed && ByWriter(a) ==> Undoes(a)) && (failed || Refuses(s, a))
    ensures AllTracked(Step(s, a).durable, None)
    ensures Undoes(a) ==> Neat(Step(s, a))
  {
    if a.Seal? && s.writing.None? { SealTracks(s); }
    hide Replay, Joined, RowTracked;
  }

  /** Main result 3. When every failed commit is rolled back before anything else of that writer, or
      cut by a crash, the check can never fail: the target is exact whenever its position is the
      last commit row. */
  lemma CarefulReplayIsExact(tables: Tables, run: seq<Action>)
    requires Careful(Initial(tables), false, run)
    ensures var s := Run(Initial(tables), run);
            s.target.Some? && s.target.value.position == |s.durable.commits| ==> s.target.value.tables == s.durable.tables
  {
    hide Run, Careful;
    CarefulRun(Initial(tables), false, run);
    var s := Run(Initial(tables), run);
    if s.target.Some? {
      forall i | s.target.value.base <= i < |s.durable.rows| ensures s.durable.rows[i].tx in s.durable.commits {
        assert RowTracked(s.durable, None, i);
      }
    }
    ReplayRebuildsTheSource(tables, run);
  }

  /* ---- The exact condition ---- */

  /** The name whose commit this action sees refused. */
  function RefusedName(s: State, a: Action): set<Tx> {
    if Refuses(s, a) && s.writing.value.holder.Some? then {s.writing.value.holder.value} else {}
  }

  function RefusedBy(s: State, run: seq<Action>): set<Tx>
    decreases |run|
  {
    if run == [] then {} else RefusedName(s, run[0]) + RefusedBy(Step(s, run[0]), run[1..])
  }

  /** The transaction lands with a row from before a refused commit, which was neither rolled back nor
      committed again together with its commit row. */
  ghost predicate Smuggles(s: State, a: Action, refused: set<Tx>) {
    && a.Commit? && s.writing.Some? && !Refuses(s, a)
    && exists i :: |s.durable.rows| <= i < |s.writing.value.db.rows| && s.writing.value.db.rows[i].tx in refused
                   && s.writing.value.db.rows[i].tx !in s.writing.value.db.commits
  }

  ghost predicate Honest(s: State, run: seq<Action>, refused: set<Tx>)
    decreases |run|
  {
    run == [] ||
    (!Smuggles(s, run[0], refused) && Honest(Step(s, run[0]), run[1..], refused + RefusedName(s, run[0])))
  }

  /** Every row has its commit row, or carries the name in use or a refused one. */
  ghost predicate RowsKnown(db: Db, h: Option<Tx>, refused: set<Tx>) {
    forall i :: 0 <= i < |db.rows| ==> RowTracked(db, h, i) || db.rows[i].tx in refused
  }

  ghost predicate Known(s: State, refused: set<Tx>) {
    && RowsKnown(s.durable, None, refused) && (forall tx :: tx in refused ==> tx < s.next)
    && (s.writing.Some? ==>
          var w := s.writing.value;
          && RowsKnown(w.db, w.holder, refused) && (w.holder.Some? ==> w.holder.value !in refused)
          && (forall k :: 0 <= k < |w.saves| ==> RowsKnown(w.saves[k], w.holder, refused)))
  }

  /** Dropping a name for the set of refused ones, or for its commit row, loses no knowledge. */
  lemma KnownWithout(db: Db, h: Option<Tx>, refused: set<Tx>)
    requires RowsKnown(db, h, refused)
    ensures RowsKnown(db, None, refused + if h.Some? then {h.value} else {})
  {
    forall i | 0 <= i < |db.rows|
      ensures RowTracked(db, None, i) || db.rows[i].tx in refused + (if h.Some? then {h.value} else {})
    {
      assert RowTracked(db, h, i) || db.rows[i].tx in refused;
    }
  }

  lemma KnownJournaled(db: Db, tx: Tx, refused: set<Tx>)
    requires RowsKnown(db, Some(tx), refused)
    ensures RowsKnown(Journal(db, tx), None, refused)
  {
    var db' := Journal(db, tx);
    assert db'.commits[|db.commits|] == tx;
    forall i | 0 <= i < |db'.rows| ensures RowTracked(db', None, i) || db'.rows[i].tx in refused {
      assert RowTracked(db, Some(tx), i) || db.rows[i].tx in refused;
    }
  }

  lemma KnownMore(db: Db, h: Option<Tx>, refused: set<Tx>, more: set<Tx>)
    requires RowsKnown(db, h, refused) && refused <= more
    ensures RowsKnown(db, h, more)
  {
    forall i | 0 <= i < |db.rows| ensures RowTracked(db, h, i) || db.rows[i].tx in more {
      assert RowTracked(db, h, i) || db.rows[i].tx in refused;
    }
  }

  lemma KnownNamed(db: Db, refused: set<Tx>, tx: Tx)
    requires RowsKnown(db, None, refused)
    ensures RowsKnown(db, Some(tx), refused)
  {
    forall i | 0 <= i < |db.rows| ensures RowTracked(db, Some(tx), i) || db.rows[i].tx in refused {
      assert RowTracked(db, None, i) || db.rows[i].tx in refused;
    }
  }

  lemma KnownAppended(db: Db, tx: Tx, op: Op, refused: set<Tx>)
    requires RowsKnown(db, Some(tx), refused)
    ensures RowsKnown(Append(db, tx, op), Some(tx), refused)
  {
    hide Execute;
    var db' := Append(db, tx, op);
    forall i | 0 <= i < |db'.rows| ensures RowTracked(db', Some(tx), i) || db'.rows[i].tx in refused {
      if i < |db.rows| { assert RowTracked(db, Some(tx), i) || db.rows[i].tx in refused; }
    }
  }

  lemma ExecKnows(s: State, op: Op, refused: set<Tx>)
    requires Known(s, refused) && s.writing.Some?
    ensures Known(ExecStep(s, s.writing.value, op), refused)
  {
    hide RowsKnown, Append, Execute;
    var w := s.writing.value;
    if !w.db.sealed && Execute(w.db.tables, op).1 != [] {
      if w.holder.Some? {
        KnownAppended(w.db, w.holder.value, op, refused);
      } else {
        KnownNamed(w.db, refused, s.next);
        KnownAppended(w.db, s.next, op, refused);
        forall k | 0 <= k < |w.saves| ensures RowsKnown(w.saves[k], Some(s.next), refused) {
          KnownNamed(w.saves[k], refused, s.next);
        }
      }
    }
  }

  lemma CommitKnows(s: State, a: Action, refused: set<Tx>)
    requires Inv(s) && Known(s, refused) && s.writing.Some? && a.Commit?
    ensures Known(Step(s, a), refused + RefusedName(s, a))
  {
    var w := s.writing.value;
    var more := refused + RefusedName(s, a);
    assert w.holder.Some? ==> w.holder.value < s.next by { assert HolderOk(w.db, s.durable, w.holder, s.next); }
    hide RowsKnown, Journal, Inv;
    KnownMore(s.durable, None, refused, more);
    if w.holder.Some? {
      KnownJournaled(w.db, w.holder.value, refused);
      KnownMore(Journal(w.db, w.holder.value), None, refused, more);
    }
    if Refuses(s, a) {
      KnownWithout(w.db, w.holder, refused);
      forall k | 0 <= k < |w.saves| ensures RowsKnown(w.saves[k], None, more) {
        KnownWithout(w.saves[k], w.holder, refused);
      }
    }
  }

  lemma StepKnows(s: State, a: Action, refused: set<Tx>)
    requires Inv(s) && Known(s, refused)
    ensures Known(Step(s, a), refused + RefusedName(s, a))
  {
    hide ExecStep, CommitStep, Replay, Joined, Inv, RowsKnown;
    if a.Commit? && s.writing.Some? {
      CommitKnows(s, a, refused);
    } else {
      assert refused + RefusedName(s, a) == refused;
      match a
      case Exec(op) => if s.writing.Some? { ExecKnows(s, op, refused); }
      case Seal => if s.writing.None? { SealKnows(s.durable, refused); }
      case _ =>
    }
  }

  lemma SealKnows(db: Db, refused: set<Tx>)
    requires RowsKnown(db, None, refused)
    ensures RowsKnown(db.(sealed := true), None, refused)
  {
    forall i | 0 <= i < |db.rows| ensures RowTracked(db.(sealed := true), None, i) || db.rows[i].tx in refused {
      assert RowTracked(db, None, i) || db.rows[i].tx in refused;
    }
  }

  /** A row that was durable before a landing is as tracked after it as it was. */
  lemma OldRowsStay(durable: Db, db: Db, h: Option<Tx>, next: Tx, start: Tables, i: nat)
    requires DraftOk(start, durable, db, h, next) && i < |durable.rows|
    ensures var landed := if h.Some? then Journal(db, h.value) else db;
            |landed.rows| == |db.rows| && i < |db.rows| && landed.rows[i] == durable.rows[i]
            && (landed.rows[i].tx in landed.commits <==> durable.rows[i].tx in durable.commits)
  {
    hide Replay, Located, Named;
    var landed := if h.Some? then Journal(db, h.value) else db;
    assert landed.rows[i] == durable.rows[i];
    if landed.rows[i].tx in landed.commits {
      var k :| 0 <= k < |landed.commits| && landed.commits[k] == landed.rows[i].tx;
      assert k < |durable.commits|;
      assert durable.commits[k] == db.commits[k];
    }
    if durable.rows[i].tx in durable.commits {
      var k :| 0 <= k < |durable.commits| && durable.commits[k] == durable.rows[i].tx;
      assert landed.commits[k] == durable.commits[k];
    }
  }

  lemma NewRowsTracked(s: State, w: Writing, refused: set<Tx>, i: nat)
    requires s.writing == Some(w) && Known(s, refused) && i < |w.db.rows|
    ensures var landed := if w.holder.Some? then Journal(w.db, w.holder.value) else w.db;
            landed.rows[i].tx !in landed.commits <==> w.db.rows[i].tx in refused && w.db.rows[i].tx !in w.db.commits
  {
    assert RowTracked(w.db, w.holder, i) || w.db.rows[i].tx in refused;
    var landed := if w.holder.Some? then Journal(w.db, w.holder.value) else w.db;
    if w.holder.Some? { assert landed.commits[|w.db.commits|] == w.holder.value; }
    assert forall k :: 0 <= k < |w.db.commits| ==> landed.commits[k] == w.db.commits[k];
  }

  lemma LandingTracksIff(s: State, a: Action, refused: set<Tx>, base: nat)
    requires Inv(s) && Known(s, refused) && s.writing.Some? && a.Commit? && !Refuses(s, a) && base <= |s.durable.rows|
    ensures |s.durable.rows| <= |Step(s, a).durable.rows|
    ensures Tracked(Step(s, a).durable, base) <==> Tracked(s.durable, base) && !Smuggles(s, a, refused)
  {
    var w := s.writing.value;
    var landed := if w.holder.Some? then Journal(w.db, w.holder.value) else w.db;
    assert Step(s, a).durable == landed && landed.rows == w.db.rows;
    forall i | 0 <= i < |s.durable.rows|
      ensures i < |landed.rows| && (landed.rows[i].tx in landed.commits <==> s.durable.rows[i].tx in s.durable.commits)
    {
      OldRowsStay(s.durable, w.db, w.holder, s.next, s.start, i);
    }
    forall i | 0 <= i < |w.db.rows|
      ensures landed.rows[i].tx !in landed.commits <==> w.db.rows[i].tx in refused && w.db.rows[i].tx !in w.db.commits
    {
      NewRowsTracked(s, w, refused, i);
    }
    assert |s.durable.rows| <= |w.db.rows| by { assert DraftOk(s.start, s.durable, w.db, w.holder, s.next); }
    hide Inv, Known, Journal, Step;
    if Smuggles(s, a, refused) {
      var i :| |s.durable.rows| <= i < |w.db.rows| && w.db.rows[i].tx in refused && w.db.rows[i].tx !in w.db.commits;
      assert landed.rows[i].tx !in landed.commits;
    }
  }

  lemma StepTracksIff(s: State, a: Action, refused: set<Tx>, base: nat)
    requires Inv(s) && Known(s, refused) && base <= |s.durable.rows|
    ensures base <= |Step(s, a).durable.rows|
    ensures Tracked(Step(s, a).durable, base) <==> Tracked(s.durable, base) && !Smuggles(s, a, refused)
  {
    if a.Commit? && s.writing.Some? && !Refuses(s, a) {
      LandingTracksIff(s, a, refused, base);
    } else {
      hide ExecStep, Replay, Joined, Inv, Known;
      assert Step(s, a).durable.rows == s.durable.rows && Step(s, a).durable.commits == s.durable.commits by {
        DurableStays(s, a);
      }
    }
  }

  lemma DurableStays(s: State, a: Action)
    requires !(a.Commit? && s.writing.Some? && !Refuses(s, a))
    ensures Step(s, a).durable.rows == s.durable.rows && Step(s, a).durable.commits == s.durable.commits
  {
    hide Execute, Replay, Joined, Append;
  }

  lemma {:induction false} TracksIff(s: State, run: seq<Action>, refused: set<Tx>, base: nat)
    requires Inv(s) && Known(s, refused) && base <= |s.durable.rows|
    ensures Tracked(Run(s, run).durable, base) <==> Tracked(s.durable, base) && Honest(s, run, refused)
    decreases |run|
  {
    hide Step, Inv, Known, Smuggles, RefusedName, Tracked;
    if run != [] {
      StepKeeps(s, run[0]);
      StepKnows(s, run[0], refused);
      StepTracksIff(s, run[0], refused, base);
      TracksIff(Step(s, run[0]), run[1..], refused + RefusedName(s, run[0]), base);
    }
  }

  lemma {:induction false} RunKnows(s: State, run: seq<Action>, refused: set<Tx>)
    requires Inv(s) && Known(s, refused)
    ensures Known(Run(s, run), refused + RefusedBy(s, run))
    decreases |run|
  {
    hide Step, Inv, Known, RefusedName;
    if run == [] {
      assert refused + {} == refused;
    } else {
      var more := refused + RefusedName(s, run[0]);
      StepKeeps(s, run[0]);
      StepKnows(s, run[0], refused);
      RunKnows(Step(s, run[0]), run[1..], more);
      assert refused + RefusedBy(s, run) == more + RefusedBy(Step(s, run[0]), run[1..]);
    }
  }

  predicate NoSnapshot(run: seq<Action>) { forall k :: 0 <= k < |run| ==> !run[k].Snapshot? }

  lemma {:induction false} BaseStays(s: State, run: seq<Action>)
    requires s.target.Some? && NoSnapshot(run)
    ensures Run(s, run).target.Some? && Run(s, run).target.value.base == s.target.value.base
    decreases |run|
  {
    hide Execute, Replay, Joined;
    if run != [] {
      assert !run[0].Snapshot?;
      forall k | 0 <= k < |run[1..]| ensures run[1..][k] == run[k + 1] {}
      BaseStays(Step(s, run[0]), run[1..]);
    }
  }

  /** Main result 4. For every run that takes its last snapshot after `before`: the driver's check
      passes at the end if and only if no transaction landed since then with a row from before a
      refused commit that was not rolled back. */
  lemma CheckPassesIff(tables: Tables, before: seq<Action>, after: seq<Action>)
    requires NoSnapshot(after)
    ensures var s0 := Step(Run(Initial(tables), before), Snapshot);
            var s := Run(s0, after);
            && s.target.Some?
            && (Tracked(s.durable, s.target.value.base) <==> Honest(s0, after, RefusedBy(Initial(tables), before)))
  {
    hide Run, Honest, Smuggles, Known, RefusedBy;
    var s := Run(Initial(tables), before);
    InitialInv(tables);
    RunKeeps(Initial(tables), before);
    InitialKnown(tables);
    RunKnows(Initial(tables), before, {});
    var refused := RefusedBy(Initial(tables), before);
    assert {} + refused == refused;
    var s0 := Step(s, Snapshot);
    StepKeeps(s, Snapshot);
    StepKnows(s, Snapshot, refused);
    assert refused + RefusedName(s, Snapshot) == refused;
    TracksIff(s0, after, refused, |s0.durable.rows|);
    BaseStays(s0, after);
  }

  lemma InitialKnown(tables: Tables)
    ensures Known(Initial(tables), {})
  {
  }

  lemma OneInsert(t: Tables, row: Row)
    requires t == map["t" := Keyed(map[])]
    ensures Execute(t, Insert("t", row)) == (map["t" := Keyed(map[row.key := row])], [Image("t", None, Some(row))])
  {
    var rows: map<string, Row> := map[];
    assert t["t"] == Keyed(rows) && rows[row.key := row] == map[row.key := row];
    assert t["t" := Keyed(map[row.key := row])] == map["t" := Keyed(map[row.key := row])];
  }

  /** The shortest such landing: a commit tried again after its journal row failed lands a row that
      the replay never sees. */
  lemma RetriedCommitIsMissed()
    ensures var t := map["t" := Keyed(map[])];
            var s := Run(Initial(t), [Snapshot, Begin, Exec(Insert("t", Row("k", "v"))), Commit(false, true), Commit(true, true)]);
            && s.target.Some? && s.target.value.position == |s.durable.commits|
            && s.target.value.tables == t && s.durable.tables == map["t" := Keyed(map["k" := Row("k", "v")])]
  {
    var t: Tables := map["t" := Keyed(map[])];
    var op := Insert("t", Row("k", "v"));
    var run := [Snapshot, Begin, Exec(op), Commit(false, true), Commit(true, true)];
    OneInsert(t, Row("k", "v"));
    hide Execute;
    var s1 := Step(Initial(t), run[0]);
    var s2 := Step(s1, run[1]);
    var s3 := Step(s2, run[2]);
    var s4 := Step(s3, run[3]);
    var s5 := Step(s4, run[4]);
    assert s5.target.value.tables == t && s5.durable.commits == [];
    RunOfFive(Initial(t), run);
  }

  lemma RunOfFive(s: State, r: seq<Action>)
    requires |r| == 5
    ensures Run(s, r) == Step(Step(Step(Step(Step(s, r[0]), r[1]), r[2]), r[3]), r[4])
  {
    hide Step;
    var s1 := Step(s, r[0]);
    var s2 := Step(s1, r[1]);
    var s3 := Step(s2, r[2]);
    var s4 := Step(s3, r[3]);
    assert Run(s, r) == Run(s1, r[1..]) && Run(s1, r[1..]) == Run(s2, r[1..][1..]);
    assert r[1..][1..] == r[2..] && Run(s2, r[2..]) == Run(s3, r[2..][1..]);
    assert r[2..][1..] == r[3..] && Run(s3, r[3..]) == Run(s4, r[3..][1..]);
    assert r[3..][1..] == r[4..] && Run(s4, r[4..]) == Run(Step(s4, r[4]), r[4..][1..]);
    assert r[4..][1..] == [];
  }
}
