/** Borrowed connections of backend/app/core/database_routing.py, record by record: a connect marks the
    pool record and attaches the shared lease it took, and a check-in or an invalidation gives both
    back. The pools of all processes follow the counts of the cutover machine. */
module ConnectionPools {
  import opened Prelude
  import opened Cutover

  type RecordId = nat

  /** `before` is the engine when the connect took its lease, `after` the one that handed out the
      connection: the route may be refreshed in between. */
  datatype Event = Lent(r: RecordId, before: Engine, after: Engine) | Release(r: RecordId)

  /** `marked` and `leased` are the pool records whose info holds the borrowed mark and a lease, and
      `sqlite` those whose connection is a SQLite one. */
  datatype Pool = Pool(borrowed: int, marked: set<RecordId>, leased: set<RecordId>, sqlite: set<RecordId>)

  const EMPTY: Pool := Pool(0, {}, {}, {})

  /** A check-in and an invalidation both release; the second of them finds no mark and no lease. */
  function After(p: Pool, ev: Event): Pool {
    match ev
    case Lent(r, before, after) =>
      Pool(p.borrowed + 1, p.marked + {r}, if before.OnSqlite? then p.leased + {r} else p.leased,
           if after.OnSqlite? then p.sqlite + {r} else p.sqlite)
    case Release(r) =>
      Pool(if r in p.marked then p.borrowed - 1 else p.borrowed, p.marked - {r}, p.leased - {r}, p.sqlite - {r})
  }

  function AfterAll(p: Pool, evs: seq<Event>): Pool
    decreases |evs|
  {
    if evs == [] then p else AfterAll(After(p, evs[0]), evs[1..])
  }

  /** How many connects hit a record that was still marked. */
  function Doubles(p: Pool, evs: seq<Event>): nat
    decreases |evs|
  {
    if evs == [] then 0
    else (if evs[0].Lent? && evs[0].r in p.marked then 1 else 0) + Doubles(After(p, evs[0]), evs[1..])
  }

  /** Main result 1. Over every sequence of connects, check-ins and invalidations, repeated or not, the
      counter runs ahead of the marked records by exactly the connects that hit a marked record. */
  lemma {:induction false} CounterCountsMarks(p: Pool, evs: seq<Event>)
    ensures AfterAll(p, evs).borrowed - |AfterAll(p, evs).marked| == p.borrowed - |p.marked| + Doubles(p, evs)
    decreases |evs|
  {
    if evs != [] {
      var p' := After(p, evs[0]);
      CounterCountsMarks(p', evs[1..]);
      match evs[0]
      case Lent(r, _, _) => if r in p.marked { assert p'.marked == p.marked; }
      case Release(r) => if r !in p.marked { assert p'.marked == p.marked; }
    }
  }

  /** So with a pool that never hands out a record twice, a zero counter means nothing is out. */
  lemma ZeroMeansNothingBorrowed(evs: seq<Event>)
    ensures var p := AfterAll(EMPTY, evs);
            Doubles(EMPTY, evs) == 0 ==> (p.borrowed == 0 <==> p.marked == {})
  {
    CounterCountsMarks(EMPTY, evs);
  }

  predicate Unreleased(evs: seq<Event>, r: RecordId) { forall k :: 0 <= k < |evs| ==> evs[k] != Release(r) }

  /** The record was connected under a lease, and not released since. */
  predicate ConnectedSince(evs: seq<Event>, r: RecordId) {
    exists k :: 0 <= k < |evs| && evs[k].Lent? && evs[k].r == r && evs[k].before.OnSqlite? && Unreleased(evs[k + 1..], r)
  }

  lemma SinceStep(evs: seq<Event>, r: RecordId)
    requires evs != []
    ensures ConnectedSince(evs, r) <==>
              || ConnectedSince(evs[1..], r)
              || (evs[0].Lent? && evs[0].r == r && evs[0].before.OnSqlite? && Unreleased(evs[1..], r))
    ensures Unreleased(evs, r) <==> evs[0] != Release(r) && Unreleased(evs[1..], r)
  {
    var rest := evs[1..];
    forall k | 0 <= k < |rest| ensures rest[k] == evs[k + 1] && rest[k + 1..] == evs[k + 2..] {}
    if ConnectedSince(evs, r) {
      var k :| 0 <= k < |evs| && evs[k].Lent? && evs[k].r == r && evs[k].before.OnSqlite? && Unreleased(evs[k + 1..], r);
      if k > 0 { assert rest[k - 1] == evs[k] && rest[k..] == evs[k + 1..]; }
    }
    if ConnectedSince(rest, r) {
      var k :| 0 <= k < |rest| && rest[k].Lent? && rest[k].r == r && rest[k].before.OnSqlite? && Unreleased(rest[k + 1..], r);
      assert evs[k + 1] == rest[k] && evs[k + 2..] == rest[k + 1..];
    }
  }

  lemma {:induction false} LeasedFrom(p: Pool, evs: seq<Event>, r: RecordId)
    ensures r in AfterAll(p, evs).leased <==> ConnectedSince(evs, r) || (r in p.leased && Unreleased(evs, r))
    decreases |evs|
  {
    if evs != [] {
      LeasedFrom(After(p, evs[0]), evs[1..], r);
      SinceStep(evs, r);
      hide ConnectedSince, Unreleased;
    }
  }

  /** The engine never goes back from PostgreSQL to SQLite inside a connect. */
  predicate OneWay(evs: seq<Event>) {
    forall k :: 0 <= k < |evs| && evs[k].Lent? && evs[k].after.OnSqlite? ==> evs[k].before.OnSqlite?
  }

  lemma {:induction false} SqliteIsLeased(p: Pool, evs: seq<Event>)
    requires OneWay(evs) && p.sqlite <= p.leased
    ensures AfterAll(p, evs).sqlite <= AfterAll(p, evs).leased
    decreases |evs|
  {
    if evs != [] {
      forall k | 0 <= k < |evs[1..]| ensures evs[1..][k] == evs[k + 1] {}
      SqliteIsLeased(After(p, evs[0]), evs[1..]);
    }
  }

  /** Main result 2. Over every sequence of events a record carries a lease exactly from a connect that
      took one to its first release, and every SQLite connection that is out carries one. */
  lemma LeaseLastsFromConnectToRelease(evs: seq<Event>, r: RecordId)
    ensures r in AfterAll(EMPTY, evs).leased <==> ConnectedSince(evs, r)
    ensures OneWay(evs) && r in AfterAll(EMPTY, evs).sqlite ==> r in AfterAll(EMPTY, evs).leased
  {
    LeasedFrom(EMPTY, evs, r);
    if OneWay(evs) { SqliteIsLeased(EMPTY, evs); }
  }

  /* ---- The pools of all processes, beside the cutover machine ---- */

  /** The machine counts what the pool names. */
  predicate Matches(p: Pool, q: Proc) {
    && p.borrowed == |p.marked| && p.sqlite <= p.leased <= p.marked
    && q.sqlite == |p.sqlite| && q.postgres == |p.leased - p.sqlite|
  }

  datatype Joint = Joint(s: State, pools: seq<Pool>)

  /** `Lend` is the last step of a connect that took a lease, `LendPlain` a connect on PostgreSQL, which
      takes none; `Return` is a check-in or an invalidation; the rest is the machine's. */
  datatype JointAction =
    | Machine(a: Action)
    | Lend(i: nat, r: RecordId)
    | LendPlain(i: nat, r: RecordId)
    | Return(i: nat, r: RecordId)

  predicate Hands(s: State, a: Action) {
    a.UserTick? && a.i < |s.procs| && s.procs[a.i].user.Opening? && !a.fails
  }

  ghost function JointStep(j: Joint, ja: JointAction): Joint
    requires |j.pools| == |j.s.procs|
    ensures |JointStep(j, ja).pools| == |JointStep(j, ja).s.procs|
  {
    match ja
    case Machine(a) =>
      if Hands(j.s, a) || a.Checkin? then j
      else
        StepCounts(j.s, a);
        Joint(Step(j.s, a), if a.Crash? && a.i < |j.pools| then j.pools[a.i := EMPTY] else j.pools)
    case Lend(i, r) =>
      if i < |j.pools| && j.s.procs[i].user.Opening? && j.s.procs[i].engine.Some? && r !in j.pools[i].marked
      then
        StepCounts(j.s, UserTick(i, false));
        Joint(Step(j.s, UserTick(i, false)),
              j.pools[i := After(j.pools[i], Lent(r, OnSqlite, j.s.procs[i].engine.value))])
      else j
    case LendPlain(i, r) =>
      if i < |j.pools| && j.s.procs[i].engine.Some? && j.s.procs[i].engine.value.OnPostgres? && r !in j.pools[i].marked
      then j.(pools := j.pools[i := After(j.pools[i], Lent(r, j.s.procs[i].engine.value, j.s.procs[i].engine.value))])
      else j
    case Return(i, r) =>
      if i >= |j.pools| then j
      else
        var pools := j.pools[i := After(j.pools[i], Release(r))];
        if r in j.pools[i].leased
        then
          StepCounts(j.s, Checkin(i, r in j.pools[i].sqlite));
          Joint(Step(j.s, Checkin(i, r in j.pools[i].sqlite)), pools)
        else Joint(j.s, pools)
  }

  ghost function JointRun(j: Joint, run: seq<JointAction>): (r: Joint)
    requires |j.pools| == |j.s.procs|
    ensures |r.pools| == |r.s.procs|
    decreases |run|
  {
    if run == [] then j else JointRun(JointStep(j, run[0]), run[1..])
  }

  function JointInitial(n: nat): Joint { Joint(Initial(n), seq(n, i => EMPTY)) }

  ghost predicate JointOk(j: Joint) {
    && Inv(j.s) && |j.pools| == |j.s.procs|
    && forall i :: 0 <= i < |j.pools| ==> Matches(j.pools[i], j.s.procs[i])
  }

  predicate SameCounts(q: Proc, q': Proc) { q'.sqlite == q.sqlite && q'.postgres == q.postgres }

  /** Only handing out, checking in and dying change what a process has out. */
  lemma MachineKeepsCounts(s: State, a: Action, i: nat)
    requires i < |s.procs| == |Step(s, a).procs| && !Hands(s, a) && !a.Checkin?
    ensures if a.Crash? && a.i == i then Step(s, a).procs[i] == FRESH else SameCounts(s.procs[i], Step(s, a).procs[i])
  {
    hide Think, DriveTurn, SharedFree, ExclusiveFree, ExecutorFree;
    if a.i == i {
      match a
      case UserTick(_, fails) => UserKeepsCounts(s, i, fails);
      case Advance(_, lost) => DriveKeepsCounts(s.disk, s.procs[i], lost);
      case _ =>
    }
  }

  lemma UserKeepsCounts(s: State, i: nat, fails: bool)
    requires i < |s.procs| && (s.procs[i].user.Opening? ==> fails)
    ensures SameCounts(s.procs[i], UserStep(s, i, fails).procs[i])
  {
  }

  lemma DriveKeepsCounts(d: Disk, p: Proc, lost: bool)
    ensures SameCounts(p, DriveTurn(d, p, lost).1)
  {
  }

  lemma HandingCounts(s: State, i: nat)
    requires i < |s.procs| && s.procs[i].user.Opening? && s.procs[i].engine.Some?
    ensures var q, q' := s.procs[i], Step(s, UserTick(i, false)).procs[i];
            && q'.sqlite == q.sqlite + (if q.engine.value.OnSqlite? then 1 else 0)
            && q'.postgres == q.postgres + (if q.engine.value.OnSqlite? then 0 else 1)
  {
  }

  lemma ConnectMatches(p: Pool, r: RecordId, before: Engine, after: Engine, q: Proc)
    requires Matches(p, q) && r !in p.marked && (after.OnSqlite? ==> before.OnSqlite?)
    ensures var p' := After(p, Lent(r, before, after));
            && p'.borrowed == |p'.marked| && p'.sqlite <= p'.leased <= p'.marked
            && |p'.sqlite| == q.sqlite + (if after.OnSqlite? then 1 else 0)
            && |p'.leased - p'.sqlite| == q.postgres + if before.OnSqlite? && !after.OnSqlite? then 1 else 0
  {
    AddedSize(p.marked, r);
    LentSizes(p.leased, p.sqlite, r, before.OnSqlite?, after.OnSqlite?);
  }

  /** The sizes of the lease sets after lending a record that neither of them holds. */
  lemma LentSizes(leased: set<RecordId>, sqlite: set<RecordId>, r: RecordId, takes: bool, isSqlite: bool)
    requires sqlite <= leased && r !in leased && (isSqlite ==> takes)
    ensures var leased' := if takes then leased + {r} else leased;
            var sqlite' := if isSqlite then sqlite + {r} else sqlite;
            && sqlite' <= leased' && |sqlite'| == |sqlite| + (if isSqlite then 1 else 0)
            && |leased' - sqlite'| == |leased - sqlite| + if takes && !isSqlite then 1 else 0
  {
    if isSqlite {
      AddedSize(sqlite, r);
      assert (leased + {r}) - (sqlite + {r}) == leased - sqlite;
    } else if takes {
      AddedSize(leased - sqlite, r);
      assert (leased + {r}) - sqlite == (leased - sqlite) + {r};
    }
  }

  lemma AddedSize(records: set<RecordId>, r: RecordId)
    ensures |records + {r}| == |records| + if r in records then 0 else 1
  {
    if r in records { assert records + {r} == records; }
  }

  lemma ReleaseMatches(p: Pool, r: RecordId, q: Proc)
    requires Matches(p, q)
    ensures var p' := After(p, Release(r));
            && p'.borrowed == |p'.marked| && p'.sqlite <= p'.leased <= p'.marked
            && |p'.sqlite| == q.sqlite - (if r in p.sqlite then 1 else 0)
            && |p'.leased - p'.sqlite| == q.postgres - (if r in p.leased && r !in p.sqlite then 1 else 0)
    ensures r in p.sqlite ==> q.sqlite > 0
    ensures r in p.leased && r !in p.sqlite ==> q.postgres > 0
  {
    RemovedSize(p.marked, r);
    RemovedSize(p.sqlite, r);
    RemovedSize(p.leased - p.sqlite, r);
    assert (p.leased - {r}) - (p.sqlite - {r}) == (p.leased - p.sqlite) - {r};
  }

  lemma RemovedSize(records: set<RecordId>, r: RecordId)
    ensures |records - {r}| == |records| - if r in records then 1 else 0
    ensures r in records ==> |records| > 0
  {
    if r !in records { assert records - {r} == records; }
  }

  lemma OthersUnmoved(s: State, a: Action, i: nat)
    requires i < |s.procs| == |Step(s, a).procs| && a.i != i
    ensures Step(s, a).procs[i] == s.procs[i]
  {
    hide Think, DriveTurn, SharedFree, ExclusiveFree, ExecutorFree;
  }

  lemma CheckinCounts(s: State, i: nat, sqlite: bool)
    requires i < |s.procs| && (if sqlite then s.procs[i].sqlite > 0 else s.procs[i].postgres > 0)
    ensures var q, q' := s.procs[i], Step(s, Checkin(i, sqlite)).procs[i];
            q'.sqlite == q.sqlite - (if sqlite then 1 else 0) && q'.postgres == q.postgres - if sqlite then 0 else 1
  {
  }

  lemma LendKeeps(j: Joint, i: nat, r: RecordId)
    requires JointOk(j) && i < |j.pools| && j.s.procs[i].user.Opening? && j.s.procs[i].engine.Some? && r !in j.pools[i].marked
    ensures JointOk(JointStep(j, Lend(i, r)))
  {
    var a := UserTick(i, false);
    StepKeeps(j.s, a);
    StepCounts(j.s, a);
    HandingCounts(j.s, i);
    ConnectMatches(j.pools[i], r, OnSqlite, j.s.procs[i].engine.value, j.s.procs[i]);
    hide Step, Inv, After;
    forall k | 0 <= k < |j.pools| && k != i ensures Step(j.s, a).procs[k] == j.s.procs[k] { OthersUnmoved(j.s, a, k); }
  }

  lemma ReturnKeeps(j: Joint, i: nat, r: RecordId)
    requires JointOk(j) && i < |j.pools|
    ensures JointOk(JointStep(j, Return(i, r)))
  {
    ReleaseMatches(j.pools[i], r, j.s.procs[i]);
    hide Step, Inv, After;
    if r in j.pools[i].leased {
      var a := Checkin(i, r in j.pools[i].sqlite);
      StepKeeps(j.s, a);
      StepCounts(j.s, a);
      CheckinCounts(j.s, i, r in j.pools[i].sqlite);
      forall k | 0 <= k < |j.pools| && k != i ensures Step(j.s, a).procs[k] == j.s.procs[k] { OthersUnmoved(j.s, a, k); }
    }
  }

  lemma MachineKeeps(j: Joint, a: Action)
    requires JointOk(j)
    ensures JointOk(JointStep(j, Machine(a)))
  {
    if !Hands(j.s, a) && !a.Checkin? {
      StepKeeps(j.s, a);
      StepCounts(j.s, a);
      forall k | 0 <= k < |j.pools| ensures Matches(JointStep(j, Machine(a)).pools[k], Step(j.s, a).procs[k]) {
        MachineKeepsCounts(j.s, a, k);
        assert EMPTY.leased - EMPTY.sqlite == {};
      }
    }
  }

  lemma PlainKeepsJoint(j: Joint, i: nat, r: RecordId)
    requires JointOk(j) && i < |j.pools| && j.s.procs[i].engine.Some? && j.s.procs[i].engine.value.OnPostgres?
    requires r !in j.pools[i].marked
    ensures JointOk(JointStep(j, LendPlain(i, r)))
  {
    ConnectMatches(j.pools[i], r, j.s.procs[i].engine.value, j.s.procs[i].engine.value, j.s.procs[i]);
  }

  lemma JointStepKeeps(j: Joint, ja: JointAction)
    requires JointOk(j)
    ensures JointOk(JointStep(j, ja))
  {
    hide Step, Inv, After;
    match ja
    case Machine(a) => MachineKeeps(j, a);
    case Lend(i, r) =>
      if i < |j.pools| && j.s.procs[i].user.Opening? && j.s.procs[i].engine.Some? && r !in j.pools[i].marked {
        LendKeeps(j, i, r);
      }
    case LendPlain(i, r) =>
      if i < |j.pools| && j.s.procs[i].engine.Some? && j.s.procs[i].engine.value.OnPostgres? && r !in j.pools[i].marked {
        PlainKeepsJoint(j, i, r);
      }
    case Return(i, r) => if i < |j.pools| { ReturnKeeps(j, i, r); }
  }

  lemma {:induction false} JointRunKeeps(j: Joint, run: seq<JointAction>)
    requires JointOk(j)
    ensures JointOk(JointRun(j, run)) && |JointRun(j, run).pools| == |j.pools|
    decreases |run|
  {
    hide JointOk, Step;
    if run != [] {
      assert |j.pools| == |j.s.procs| by { PoolsCount(j); }
      JointStepKeeps(j, run[0]);
      JointRunKeeps(JointStep(j, run[0]), run[1..]);
    }
  }

  lemma PoolsCount(j: Joint)
    requires JointOk(j)
    ensures |j.pools| == |j.s.procs|
  {
  }

  lemma JointInitialOk(n: nat)
    ensures JointOk(JointInitial(n))
  {
    InitialInv(n);
    assert EMPTY.leased - EMPTY.sqlite == {};
  }

  /** Main result 3. In every run of all processes and their pools: while the cutover body runs, no
      record of any process carries a lease or a SQLite connection, and a SQLite connection is out
      in some process only while the fence is not sealed. */
  lemma DrainedMeansNothingOut(n: nat, run: seq<JointAction>, i: nat, k: nat)
    requires i < n && k < n && |JointRun(JointInitial(n), run).pools| == n
    ensures var j := JointRun(JointInitial(n), run);
            && (Exclusive(j.s.procs[i].drive) ==> j.pools[k].leased == {} && j.pools[k].sqlite == {})
            && (j.pools[k].sqlite != {} ==> !j.s.disk.sealed)
  {
    hide JointRun;
    JointInitialOk(n);
    JointRunKeeps(JointInitial(n), run);
    var j := JointRun(JointInitial(n), run);
    assert Matches(j.pools[k], j.s.procs[k]) && ProcOk(j.s.disk, j.s.procs[k]) && LeasesOk(j.s);
    if Exclusive(j.s.procs[i].drive) {
      assert Quiet(j.s.procs[k]);
      assert j.pools[k].leased == (j.pools[k].leased - j.pools[k].sqlite) + j.pools[k].sqlite;
    }
  }
}
