/** The one-way cutover from SQLite to PostgreSQL: startup and connection routing of
    backend/app/core/database_routing.py, and the driver's order of durable writes in
    backend/app/services/database_migration.py, under shared and exclusive file leases. */
module Cutover {
  import opened Prelude

  type Job = nat

  datatype Manifest = NoManifest | Pending(job: Job) | Active(job: Job)

  /** What survives a crash: the fence in the SQLite file, active.json, and PostgreSQL's marker. */
  datatype Disk = Disk(sealed: bool, fenceJob: Option<Job>, manifest: Manifest, marker: Option<Job>)

  datatype Engine = OnSqlite | OnPostgres(job: Job)

  datatype Role = Starting | Connecting | Repairing

  /** Where a thread stands between two reads or writes of durable facts. */
  datatype Pc =
    | Idle
    | Reading(role: Role)
    | Fencing(role: Role, job: Job)
    | Unlinking(role: Role)
    | Marking(role: Role, job: Job)
    | Publishing(role: Role, job: Job)
    | Rereading(role: Role)
    | Checking(job: Job)
    | SealCheck
    | Activating(role: Role, job: Job)
    | Opening

  datatype Drive =
    | Resting
    | Draining(job: Job)
    | Holding(job: Job)
    | Pended(job: Job)
    | Doubted(job: Job)
    | Marked(job: Job)
    | Sealed(job: Job)
    | Routed(job: Job)

  /** One process: its engine once started, its connecting thread, its repairing executor and its
      driver. `sqlite` and `postgres` count the borrowed connections that carry a shared lease. */
  datatype Proc = Proc(engine: Option<Engine>, uncertain: bool, user: Pc, fix: Pc, drive: Drive, sqlite: nat, postgres: nat)

  datatype State = State(disk: Disk, procs: seq<Proc>)

  datatype Action =
    | Start(i: nat)
    | Connect(i: nat)
    | Checkin(i: nat, sqlite: bool)
    | Repair(i: nat)
    | UserTick(i: nat, fails: bool)
    | FixTick(i: nat, fails: bool)
    | Install(i: nat, job: Job)
    | Drain(i: nat, job: Job)
    | Enter(i: nat)
    | Advance(i: nat, lost: bool)
    | GiveUp(i: nat)
    | Crash(i: nat)

  const FRESH: Proc := Proc(None, false, Idle, Idle, Resting, 0, 0)

  /* ---- One thread's step on the durable facts ---- */

  /** `handed` says that a physical connection was handed out. */
  datatype Turn = Turn(disk: Disk, engine: Option<Engine>, uncertain: bool, pc: Pc, handed: bool)

  function Halt(d: Disk, e: Option<Engine>, u: bool): Turn { Turn(d, e, u, Idle, false) }

  function Think(d: Disk, e: Option<Engine>, u: bool, pc: Pc, fails: bool): Turn {
    match pc
    case Idle => Turn(d, e, u, Idle, false)
    case Reading(role) =>
      (match d.manifest
       case NoManifest =>
         Turn(d, e, u, if role.Starting? then SealCheck else if role.Connecting? then Opening else Idle, false)
       case Pending(j) => Turn(d, e, u, Fencing(role, j), false)
       case Active(j) =>
         Turn(d, e, u, if role.Starting? then Checking(j)
                       else if role.Connecting? then Activating(role, j) else Fencing(role, j), false))
    case Fencing(role, j) =>
      if fails || d.fenceJob != Some(j) then Halt(d, e, u)
      else Turn(d, e, u, if d.sealed then Marking(role, j) else Unlinking(role), false)
    case Unlinking(role) =>
      var d' := d.(manifest := NoManifest);
      if role.Starting? then Turn(d', Some(OnSqlite), u, Idle, false) else Turn(d', e, u, Rereading(role), false)
    case Marking(role, j) =>
      if fails || d.marker != Some(j) then Halt(d, e, u) else Turn(d, e, u, Publishing(role, j), false)
    case Publishing(role, j) =>
      var d' := d.(manifest := Active(j));
      if fails then Halt(d, e, u)
      else if role.Starting? then Turn(d', Some(OnPostgres(j)), u, Idle, false)
      else Turn(d', e, u, Rereading(role), false)
    case Rereading(role) =>
      if d.manifest.Active? then Turn(d, e, u, Activating(role, d.manifest.job), false)
      else if role.Connecting? then Turn(d, e, u, Opening, false)
      else Turn(d, e, u && !d.manifest.NoManifest?, Idle, false)
    case Checking(j) =>
      if fails || d.marker != Some(j) then Halt(d, e, u) else Turn(d, Some(OnPostgres(j)), u, Idle, false)
    case SealCheck => if d.sealed then Halt(d, e, u) else Turn(d, Some(OnSqlite), u, Idle, false)
    case Activating(role, j) =>
      if fails || (e.Some? && e.value.OnPostgres? && e.value.job != j) then Halt(d, e, u)
      else Turn(d, Some(OnPostgres(j)), false, if role.Connecting? then Opening else Idle, false)
    case Opening => Turn(d, e, u, Idle, !fails)
  }

  /* ---- The machine ---- */

  predicate Exclusive(drive: Drive) { !drive.Resting? && !drive.Draining? }

  /** Holds no shared lease. */
  predicate Quiet(p: Proc) { p.user.Idle? && p.sqlite == 0 && p.postgres == 0 }

  /** Holds the executor lease, of which there is one. */
  predicate Busy(p: Proc) { !p.drive.Resting? || !p.fix.Idle? }

  ghost predicate SharedFree(s: State) { forall j :: 0 <= j < |s.procs| ==> !Exclusive(s.procs[j].drive) }

  ghost predicate ExclusiveFree(s: State) { forall j :: 0 <= j < |s.procs| ==> Quiet(s.procs[j]) }

  ghost predicate ExecutorFree(s: State) { forall j :: 0 <= j < |s.procs| ==> !Busy(s.procs[j]) }

  function Put(s: State, i: nat, d: Disk, p: Proc): State
    requires i < |s.procs|
  {
    State(d, s.procs[i := p])
  }

  function UserStep(s: State, i: nat, fails: bool): State
    requires i < |s.procs|
  {
    var p := s.procs[i];
    var t := Think(s.disk, p.engine, p.uncertain, p.user, fails);
    var onSqlite := p.engine == Some(OnSqlite);
    Put(s, i, t.disk, p.(engine := t.engine, uncertain := t.uncertain, user := t.pc,
                         sqlite := p.sqlite + if t.handed && onSqlite then 1 else 0,
                         postgres := p.postgres + if t.handed && !onSqlite then 1 else 0))
  }

  /** The executor's recovery takes no file lease; activating waits for the connecting thread. */
  function FixStep(s: State, i: nat, fails: bool): State
    requires i < |s.procs|
  {
    var p := s.procs[i];
    if p.fix.Activating? && !p.user.Idle? then s
    else
      var t := Think(s.disk, p.engine, p.uncertain, p.fix, fails);
      Put(s, i, t.disk, p.(engine := t.engine, uncertain := t.uncertain, fix := t.pc))
  }

  /** The driver's next durable write. `lost` is a fence commit whose success is not reported. */
  function DriveTurn(d: Disk, p: Proc, lost: bool): (Disk, Proc) {
    match p.drive
    case Holding(j) => (d.(manifest := Pending(j)), p.(drive := Pended(j)))
    case Pended(j) => (d, p.(uncertain := true, drive := Doubted(j)))
    case Doubted(j) =>
      if d.marker.Some? && d.marker != Some(j) then (d, p.(drive := Resting))
      else (d.(marker := Some(j)), p.(drive := Marked(j)))
    case Marked(j) => (d.(sealed := true, fenceJob := Some(j)), p.(drive := if lost then Resting else Sealed(j)))
    case Sealed(j) =>
      if p.engine.Some? && p.engine.value.OnPostgres? && p.engine.value.job != j then (d, p.(drive := Resting))
      else (d, p.(engine := Some(OnPostgres(j)), uncertain := false, drive := Routed(j)))
    case Routed(j) => (d.(manifest := Active(j)), p.(drive := Resting))
    case _ => (d, p)
  }

  ghost function Step(s: State, a: Action): State {
    if a.i >= |s.procs| then s
    else
      var p := s.procs[a.i];
      match a
      case Start(i) =>
        if p.engine.None? && p.user.Idle? && SharedFree(s) then Put(s, i, s.disk, p.(user := Reading(Starting))) else s
      case Connect(i) =>
        if p.engine == Some(OnSqlite) && p.user.Idle? && p.drive.Resting? && !p.uncertain && SharedFree(s)
        then Put(s, i, s.disk, p.(user := Reading(Connecting))) else s
      case Checkin(i, sqlite) =>
        if sqlite && p.sqlite > 0 then Put(s, i, s.disk, p.(sqlite := p.sqlite - 1))
        else if !sqlite && p.postgres > 0 then Put(s, i, s.disk, p.(postgres := p.postgres - 1))
        else s
      case Repair(i) =>
        if p.engine.Some? && ExecutorFree(s) then Put(s, i, s.disk, p.(fix := Reading(Repairing))) else s
      case UserTick(i, fails) => UserStep(s, i, fails)
      case FixTick(i, fails) => FixStep(s, i, fails)
      case Install(i, job) =>
        if p.engine.Some? && ExecutorFree(s) && !s.disk.sealed && s.disk.manifest.NoManifest?
        then s.(disk := s.disk.(fenceJob := Some(job))) else s
      case Drain(i, job) =>
        if p.engine.Some? && p.user.Idle? && ExecutorFree(s) && s.disk.fenceJob == Some(job)
        then Put(s, i, s.disk, p.(drive := Draining(job))) else s
      case Enter(i) =>
        if p.drive.Draining? && ExclusiveFree(s) then Put(s, i, s.disk, p.(drive := Holding(p.drive.job))) else s
      case Advance(i, lost) =>
        var (d, q) := DriveTurn(s.disk, p, lost);
        Put(s, i, d, q)
      case GiveUp(i) =>
        Put(s, i, s.disk, p.(drive := Resting, uncertain := p.uncertain || (p.drive.Sealed? && p.engine == Some(OnSqlite))))
      case Crash(i) => Put(s, i, s.disk, FRESH)
  }

  ghost function Run(s: State, run: seq<Action>): State
    decreases |run|
  {
    if run == [] then s else Run(Step(s, run[0]), run[1..])
  }

  function Initial(n: nat): State {
    State(Disk(false, None, NoManifest, None), seq(n, i => FRESH))
  }

  /* ---- Facts about the durable state and what each thread knows of it ---- */

  predicate DiskOk(d: Disk) {
    && (d.sealed ==> d.fenceJob.Some? && d.marker == d.fenceJob && !d.manifest.NoManifest?)
    && (!d.manifest.NoManifest? ==> d.fenceJob == Some(d.manifest.job))
    && (d.manifest.Active? ==> d.sealed)
  }

  predicate SealedBy(d: Disk, j: Job) { d.sealed && d.fenceJob == Some(j) }

  predicate EngineOk(d: Disk, e: Option<Engine>) {
    e.Some? && e.value.OnPostgres? ==> SealedBy(d, e.value.job)
  }

  predicate PcOk(d: Disk, e: Option<Engine>, pc: Pc) {
    match pc
    case Unlinking(_) => !d.sealed
    case Marking(_, j) => SealedBy(d, j)
    case Publishing(_, j) => SealedBy(d, j) && d.marker == Some(j)
    case Rereading(_) => d.sealed ==> d.manifest.Active?
    case Checking(j) => SealedBy(d, j)
    case Activating(_, j) => SealedBy(d, j)
    case Opening => e == Some(OnSqlite) ==> !d.sealed
    case _ => true
  }

  predicate DriveOk(d: Disk, drive: Drive) {
    match drive
    case Resting => true
    case Draining(j) => d.fenceJob == Some(j)
    case Holding(j) => d.fenceJob == Some(j)
    case Pended(j) => d.fenceJob == Some(j) && !d.manifest.NoManifest?
    case Doubted(j) => d.fenceJob == Some(j) && !d.manifest.NoManifest?
    case Marked(j) => d.fenceJob == Some(j) && !d.manifest.NoManifest? && d.marker == Some(j)
    case Sealed(j) => SealedBy(d, j)
    case Routed(j) => SealedBy(d, j)
  }

  predicate RoleOf(pc: Pc, role: Role) {
    match pc
    case Idle => true
    case Checking(_) => role.Starting?
    case SealCheck => role.Starting?
    case Opening => role.Connecting?
    case _ => pc.role == role
  }

  predicate ProcOk(d: Disk, p: Proc) {
    && EngineOk(d, p.engine) && PcOk(d, p.engine, p.user) && PcOk(d, p.engine, p.fix) && DriveOk(d, p.drive)
    && (p.sqlite > 0 ==> !d.sealed)
    && RoleOf(p.user, if p.engine.None? then Starting else Connecting) && RoleOf(p.fix, Repairing)
    && (p.engine.None? ==> !Busy(p) && p.sqlite == 0 && p.postgres == 0)
    && (!p.drive.Resting? ==> p.fix.Idle? && p.user.Idle?)
  }

  /** What a recovering thread may do to the durable facts. */
  predicate Mended(d: Disk, d': Disk) {
    && d'.sealed == d.sealed && d'.fenceJob == d.fenceJob && d'.marker == d.marker
    && (d'.manifest == d.manifest || (!d.sealed && d'.manifest.NoManifest?)
        || (d.fenceJob.Some? && d.sealed && d'.manifest == Active(d.fenceJob.value)))
  }

  lemma ThinkKeeps(d: Disk, e: Option<Engine>, u: bool, pc: Pc, fails: bool, role: Role)
    requires DiskOk(d) && EngineOk(d, e) && PcOk(d, e, pc) && RoleOf(pc, role) && (role.Starting? <==> e.None?)
    ensures var t := Think(d, e, u, pc, fails);
            && DiskOk(t.disk) && EngineOk(t.disk, t.engine) && PcOk(t.disk, t.engine, t.pc) && Mended(d, t.disk)
            && (t.engine.None? ==> RoleOf(t.pc, Starting)) && (e.None? && t.engine.Some? ==> t.pc.Idle?)
            && (e.Some? ==> t.engine.Some? && RoleOf(t.pc, role))
            && (t.engine != e ==> t.engine == Some(OnSqlite) ==> !d.sealed)
            && (t.handed ==> role.Connecting? && t.engine == e && (e == Some(OnSqlite) ==> !d.sealed))
  {
  }

  /** Other processes are not disturbed by a recovery, unless they are cutting over. */
  lemma MendedKeeps(d: Disk, d': Disk, p: Proc)
    requires ProcOk(d, p) && Mended(d, d') && (Exclusive(p.drive) ==> d' == d)
    ensures ProcOk(d', p)
  {
  }

  /* ---- The invariant of the machine ---- */

  ghost predicate ProcsOk(s: State) { forall j :: 0 <= j < |s.procs| ==> ProcOk(s.disk, s.procs[j]) }

  /** Whoever holds the exclusive lease holds it against every shared lease. */
  ghost predicate LeasesOk(s: State) { !SharedFree(s) ==> ExclusiveFree(s) }

  ghost predicate OneExecutor(s: State) {
    forall j, k :: 0 <= j < k < |s.procs| ==> !Busy(s.procs[j]) || !Busy(s.procs[k])
  }

  ghost predicate Inv(s: State) { DiskOk(s.disk) && ProcsOk(s) && LeasesOk(s) && OneExecutor(s) }

  lemma PutKeeps(s: State, i: nat, d: Disk, p: Proc)
    requires Inv(s) && i < |s.procs| && DiskOk(d) && ProcOk(d, p)
    requires forall j :: 0 <= j < |s.procs| && j != i ==> ProcOk(d, s.procs[j])
    requires Exclusive(p.drive) ==> Quiet(p) && ExclusiveFree(s)
    requires Quiet(p) || SharedFree(s)
    requires Busy(p) ==> Busy(s.procs[i]) || ExecutorFree(s)
    ensures Inv(Put(s, i, d, p))
  {
    var s' := Put(s, i, d, p);
    assert LeasesOk(s') by {
      if !SharedFree(s') {
        var j :| 0 <= j < |s'.procs| && Exclusive(s'.procs[j].drive);
        if j != i {
          assert Exclusive(s.procs[j].drive);
        }
        forall k | 0 <= k < |s'.procs| ensures Quiet(s'.procs[k]) {
          assert Quiet(s.procs[k]);
        }
      }
    }
    forall j, k | 0 <= j < k < |s'.procs| ensures !Busy(s'.procs[j]) || !Busy(s'.procs[k]) {
      assert !Busy(s.procs[j]) || !Busy(s.procs[k]);
    }
  }

  lemma UserTickKeeps(s: State, i: nat, fails: bool)
    requires Inv(s) && i < |s.procs|
    ensures Inv(UserStep(s, i, fails))
  {
    hide Think;
    var p := s.procs[i];
    if p.user.Idle? {
      IdleThinks(s.disk, p.engine, p.uncertain, fails);
      assert s.procs[i := p] == s.procs;
    } else {
      var role := if p.engine.None? then Starting else Connecting;
      assert ProcOk(s.disk, p) && SharedFree(s) by { assert !Quiet(p); }
      ThinkKeeps(s.disk, p.engine, p.uncertain, p.user, fails, role);
      var s' := UserStep(s, i, fails);
      forall j | 0 <= j < |s.procs| && j != i ensures ProcOk(s'.disk, s.procs[j]) { MendedKeeps(s.disk, s'.disk, s.procs[j]); }
      PutKeeps(s, i, s'.disk, s'.procs[i]);
    }
  }

  lemma IdleThinks(d: Disk, e: Option<Engine>, u: bool, fails: bool)
    ensures Think(d, e, u, Idle, fails) == Turn(d, e, u, Idle, false)
  {
  }

  lemma FixTickKeeps(s: State, i: nat, fails: bool)
    requires Inv(s) && i < |s.procs|
    ensures Inv(FixStep(s, i, fails))
  {
    hide Think;
    var p := s.procs[i];
    if p.fix.Idle? {
      IdleThinks(s.disk, p.engine, p.uncertain, fails);
      assert s.procs[i := p] == s.procs;
    } else if !p.fix.Activating? || p.user.Idle? {
      assert ProcOk(s.disk, p);
      ThinkKeeps(s.disk, p.engine, p.uncertain, p.fix, fails, Repairing);
      var s' := FixStep(s, i, fails);
      forall j | 0 <= j < |s.procs| && j != i ensures ProcOk(s'.disk, s.procs[j]) {
        assert !Busy(s.procs[j]);
        MendedKeeps(s.disk, s'.disk, s.procs[j]);
      }
      if !p.fix.Activating? { FixKeepsEngine(s.disk, p, fails); }
      MendedKeeps(s.disk, s'.disk, p);
      PutKeeps(s, i, s'.disk, s'.procs[i]);
    }
  }

  lemma FixKeepsEngine(d: Disk, p: Proc, fails: bool)
    requires ProcOk(d, p) && !p.fix.Activating?
    ensures Think(d, p.engine, p.uncertain, p.fix, fails).engine == p.engine
  {
  }

  lemma DriveTurnKeeps(d: Disk, p: Proc, lost: bool)
    requires DiskOk(d) && ProcOk(d, p) && (Exclusive(p.drive) ==> Quiet(p))
    ensures var (d', q) := DriveTurn(d, p, lost);
            && DiskOk(d') && ProcOk(d', q) && (d.sealed ==> d'.sealed && d'.fenceJob == d.fenceJob)
            && (!Exclusive(p.drive) ==> d' == d && q == p)
            && (Quiet(p) ==> Quiet(q)) && (Busy(q) ==> Busy(p)) && (Exclusive(q.drive) ==> Exclusive(p.drive))
            && (q.engine == Some(OnSqlite) ==> p.engine == q.engine) && q.sqlite == p.sqlite
  {
  }

  /** A process that holds no lease only remembers that the fence was sealed. */
  lemma QuietKeeps(d: Disk, d': Disk, p: Proc)
    requires ProcOk(d, p) && Quiet(p) && !Busy(p) && (d.sealed ==> d'.sealed && d'.fenceJob == d.fenceJob)
    ensures ProcOk(d', p)
  {
  }

  lemma AdvanceKeeps(s: State, i: nat, lost: bool)
    requires Inv(s) && i < |s.procs|
    ensures Inv(Step(s, Advance(i, lost)))
  {
    hide DriveTurn;
    var p := s.procs[i];
    var (d, q) := DriveTurn(s.disk, p, lost);
    assert ProcOk(s.disk, p);
    if Exclusive(p.drive) {
      assert ExclusiveFree(s);
      DriveTurnKeeps(s.disk, p, lost);
      forall j | 0 <= j < |s.procs| && j != i ensures ProcOk(d, s.procs[j]) {
        assert Quiet(s.procs[j]) && !Busy(s.procs[j]);
        QuietKeeps(s.disk, d, s.procs[j]);
      }
      PutKeeps(s, i, d, q);
    } else {
      DriveTurnKeeps(s.disk, p, lost);
      assert s.procs[i := p] == s.procs;
    }
  }

  /** A step that touches no durable fact. */
  lemma PlainKeeps(s: State, i: nat, p: Proc)
    requires Inv(s) && i < |s.procs| && ProcOk(s.disk, p)
    requires Exclusive(p.drive) ==> Quiet(p) && ExclusiveFree(s)
    requires Quiet(p) || SharedFree(s)
    requires Busy(p) ==> Busy(s.procs[i]) || ExecutorFree(s)
    ensures Inv(Put(s, i, s.disk, p))
  {
    PutKeeps(s, i, s.disk, p);
  }

  lemma CallsKeep(s: State, a: Action)
    requires Inv(s) && a.i < |s.procs| && (a.Start? || a.Connect? || a.Repair? || a.Crash?)
    ensures Inv(Step(s, a))
  {
    var p := s.procs[a.i];
    assert ProcOk(s.disk, p);
    match a
    case Start(i) =>
      if p.engine.None? && p.user.Idle? && SharedFree(s) { PlainKeeps(s, i, p.(user := Reading(Starting))); }
    case Connect(i) =>
      if p.engine == Some(OnSqlite) && p.user.Idle? && p.drive.Resting? && !p.uncertain && SharedFree(s) {
        PlainKeeps(s, i, p.(user := Reading(Connecting)));
      }
    case Repair(i) =>
      if p.engine.Some? && ExecutorFree(s) {
        assert !Busy(p) && SharedFree(s);
        PlainKeeps(s, i, p.(fix := Reading(Repairing)));
      }
    case Crash(i) => PlainKeeps(s, i, FRESH);
  }

  lemma CheckinKeeps(s: State, i: nat, sqlite: bool)
    requires Inv(s) && i < |s.procs|
    ensures Inv(Step(s, Checkin(i, sqlite)))
  {
    var p := s.procs[i];
    assert ProcOk(s.disk, p);
    if sqlite && p.sqlite > 0 {
      assert !Quiet(p) && SharedFree(s);
      PlainKeeps(s, i, p.(sqlite := p.sqlite - 1));
    } else if !sqlite && p.postgres > 0 {
      assert !Quiet(p) && SharedFree(s);
      PlainKeeps(s, i, p.(postgres := p.postgres - 1));
    }
  }

  lemma DrainingKeeps(s: State, a: Action)
    requires Inv(s) && a.i < |s.procs| && (a.Drain? || a.Enter? || a.GiveUp?)
    ensures Inv(Step(s, a))
  {
    var p := s.procs[a.i];
    assert ProcOk(s.disk, p);
    match a
    case Drain(i, job) =>
      if p.engine.Some? && p.user.Idle? && ExecutorFree(s) && s.disk.fenceJob == Some(job) {
        assert !Busy(p) && SharedFree(s);
        PlainKeeps(s, i, p.(drive := Draining(job)));
      }
    case Enter(i) =>
      if p.drive.Draining? && ExclusiveFree(s) { PlainKeeps(s, i, p.(drive := Holding(p.drive.job))); }
    case GiveUp(i) =>
      var q := p.(drive := Resting, uncertain := p.uncertain || (p.drive.Sealed? && p.engine == Some(OnSqlite)));
      if !Quiet(p) { assert SharedFree(s); }
      PlainKeeps(s, i, q);
  }

  lemma InstallKeeps(s: State, i: nat, job: Job)
    requires Inv(s) && i < |s.procs|
    ensures Inv(Step(s, Install(i, job)))
  {
    var s' := Step(s, Install(i, job));
    if s' != s {
      forall j | 0 <= j < |s'.procs| ensures ProcOk(s'.disk, s'.procs[j]) {
        assert ProcOk(s.disk, s.procs[j]) && !Busy(s.procs[j]);
      }
    }
  }

  lemma StepKeeps(s: State, a: Action)
    requires Inv(s)
    ensures Inv(Step(s, a))
  {
    if a.i < |s.procs| {
      hide Inv, SharedFree, ExclusiveFree, ExecutorFree, FixStep, UserStep, DriveTurn;
      match a
      case UserTick(i, fails) => UserTickKeeps(s, i, fails);
      case FixTick(i, fails) => FixTickKeeps(s, i, fails);
      case Advance(i, lost) => AdvanceKeeps(s, i, lost);
      case Checkin(i, sqlite) => CheckinKeeps(s, i, sqlite);
      case Install(i, job) => InstallKeeps(s, i, job);
      case Drain(_, _) => DrainingKeeps(s, a);
      case Enter(_) => DrainingKeeps(s, a);
      case GiveUp(_) => DrainingKeeps(s, a);
      case _ => CallsKeep(s, a);
    }
  }

  lemma {:induction false} RunKeeps(s: State, run: seq<Action>)
    requires Inv(s)
    ensures Inv(Run(s, run)) && |Run(s, run).procs| == |s.procs|
    decreases |run|
  {
    hide Step, Inv;
    if run != [] {
      StepKeeps(s, run[0]);
      StepCounts(s, run[0]);
      RunKeeps(Step(s, run[0]), run[1..]);
    }
  }

  lemma StepCounts(s: State, a: Action)
    ensures |Step(s, a).procs| == |s.procs|
  {
    hide Think, DriveTurn, SharedFree, ExclusiveFree, ExecutorFree;
  }

  lemma InitialInv(n: nat)
    ensures Inv(Initial(n))
  {
  }

  /* ---- The results ---- */

  /** Main result 1. At no time does a process hold a SQLite connection while an engine, in any
      process, is on PostgreSQL: the fence lies between the two, and it names the engine's job. */
  lemma NeverBothDatabases(n: nat, run: seq<Action>, i: nat, j: nat)
    requires i < n && j < n
    ensures var s := Run(Initial(n), run);
            && |s.procs| == n
            && (s.procs[i].sqlite > 0 ==> !s.disk.sealed)
            && (s.procs[j].engine.Some? && s.procs[j].engine.value.OnPostgres? ==> SealedBy(s.disk, s.procs[j].engine.value.job))
  {
    hide Run;
    InitialInv(n);
    RunKeeps(Initial(n), run);
    var s := Run(Initial(n), run);
    assert ProcOk(s.disk, s.procs[i]) && ProcOk(s.disk, s.procs[j]);
  }

  /** The step from `s` to `s'` sends process `i` to SQLite, by starting it or by a connection. */
  predicate RoutesToSqlite(s: State, s': State, i: nat)
    requires i < |s.procs| == |s'.procs|
  {
    || (s'.procs[i].engine == Some(OnSqlite) && s.procs[i].engine != Some(OnSqlite))
    || s'.procs[i].sqlite > s.procs[i].sqlite
  }

  lemma UserRoutes(s: State, i: nat, fails: bool)
    requires Inv(s) && i < |s.procs| && RoutesToSqlite(s, UserStep(s, i, fails), i)
    ensures !s.disk.sealed
  {
    hide Think;
    var p := s.procs[i];
    assert ProcOk(s.disk, p);
    ThinkKeeps(s.disk, p.engine, p.uncertain, p.user, fails, if p.engine.None? then Starting else Connecting);
  }

  lemma FixNeverRoutes(s: State, i: nat, fails: bool)
    requires Inv(s) && i < |s.procs|
    ensures !RoutesToSqlite(s, FixStep(s, i, fails), i)
  {
    hide Think;
    var p := s.procs[i];
    assert ProcOk(s.disk, p);
    if p.fix.Idle? { IdleThinks(s.disk, p.engine, p.uncertain, fails); }
    else { ThinkKeeps(s.disk, p.engine, p.uncertain, p.fix, fails, Repairing); }
  }

  lemma StepRoutes(s: State, a: Action, i: nat)
    requires Inv(s) && i < |s.procs| == |Step(s, a).procs| && RoutesToSqlite(s, Step(s, a), i)
    ensures !s.disk.sealed
  {
    hide Think, DriveTurn, SharedFree, ExclusiveFree, ExecutorFree;
    if a.i == i {
      match a
      case UserTick(_, fails) => UserRoutes(s, i, fails);
      case FixTick(_, fails) => FixNeverRoutes(s, i, fails);
      case Advance(_, lost) =>
        assert ProcOk(s.disk, s.procs[i]) && LeasesOk(s);
        AdvanceNeverRoutes(s.disk, s.procs[i], lost);
      case _ =>
    }
  }

  lemma AdvanceNeverRoutes(d: Disk, p: Proc, lost: bool)
    ensures var q := DriveTurn(d, p, lost).1;
            q.sqlite == p.sqlite && (q.engine == Some(OnSqlite) ==> p.engine == q.engine)
  {
  }

  /** Main result 2. Whatever crashes and however processes interleave, a process is sent to
      SQLite only at a moment when the fence is not sealed. */
  lemma SqliteOnlyWhileUnsealed(n: nat, run: seq<Action>, a: Action, i: nat)
    requires i < n == |Run(Initial(n), run).procs| == |Step(Run(Initial(n), run), a).procs|
    requires RoutesToSqlite(Run(Initial(n), run), Step(Run(Initial(n), run), a), i)
    ensures !Run(Initial(n), run).disk.sealed
  {
    hide Run, Step;
    InitialInv(n);
    RunKeeps(Initial(n), run);
    StepRoutes(Run(Initial(n), run), a, i);
  }

  lemma ExclusiveIsQuiet(s: State, i: nat)
    requires LeasesOk(s) && i < |s.procs| && Exclusive(s.procs[i].drive)
    ensures Quiet(s.procs[i])
  {
  }

  lemma StepStaysSealed(s: State, a: Action)
    requires Inv(s) && s.disk.sealed
    ensures Step(s, a).disk.sealed && Step(s, a).disk.fenceJob == s.disk.fenceJob
  {
    hide Think, DriveTurn, SharedFree, ExclusiveFree, ExecutorFree;
    if a.i < |s.procs| {
      var p := s.procs[a.i];
      assert ProcOk(s.disk, p) && LeasesOk(s);
      match a
      case UserTick(_, fails) =>
        if p.user.Idle? { IdleThinks(s.disk, p.engine, p.uncertain, fails); }
        else { ThinkKeeps(s.disk, p.engine, p.uncertain, p.user, fails, if p.engine.None? then Starting else Connecting); }
      case FixTick(_, fails) =>
        if p.fix.Idle? { IdleThinks(s.disk, p.engine, p.uncertain, fails); }
        else { ThinkKeeps(s.disk, p.engine, p.uncertain, p.fix, fails, Repairing); }
      case Advance(_, lost) =>
        if Exclusive(p.drive) { ExclusiveIsQuiet(s, a.i); }
        DriveTurnKeeps(s.disk, p, lost);
      case _ =>
    }
  }

  /** No engine of the process is on SQLite, now or after a restart. */
  predicate OffSqlite(s: State, i: nat) { i < |s.procs| && s.procs[i].engine != Some(OnSqlite) }

  lemma {:induction false} SealedRun(s: State, more: seq<Action>, i: nat)
    requires Inv(s) && s.disk.sealed && OffSqlite(s, i)
    ensures var later := Run(s, more);
            Inv(later) && later.disk.sealed && later.disk.fenceJob == s.disk.fenceJob && OffSqlite(later, i)
    decreases |more|
  {
    hide Step, Inv;
    if more != [] {
      var s' := Step(s, more[0]);
      StepKeeps(s, more[0]);
      StepCounts(s, more[0]);
      StepStaysSealed(s, more[0]);
      if !OffSqlite(s', i) { StepRoutes(s, more[0], i); }
      SealedRun(s', more[1..], i);
    }
  }

  /** Main result 3. An engine on PostgreSQL never goes back. In everything that can happen later,
      crashes and restarts included, the fence stays sealed by the same job, and the process is
      either down or on that job's PostgreSQL, with no SQLite connection. */
  lemma ActivatedNeverReturns(n: nat, run: seq<Action>, more: seq<Action>, i: nat, j: Job)
    requires i < n == |Run(Initial(n), run).procs|
    requires Run(Initial(n), run).procs[i].engine == Some(OnPostgres(j))
    ensures var later := Run(Run(Initial(n), run), more);
            && |later.procs| == n && SealedBy(later.disk, j)
            && (later.procs[i].engine.None? || later.procs[i].engine == Some(OnPostgres(j)))
            && later.procs[i].sqlite == 0
  {
    hide Run;
    InitialInv(n);
    RunKeeps(Initial(n), run);
    var s := Run(Initial(n), run);
    assert ProcOk(s.disk, s.procs[i]);
    SealedRun(s, more, i);
    RunKeeps(s, more);
    var later := Run(s, more);
    assert ProcOk(later.disk, later.procs[i]);
  }

  /** Main result 4. While the cutover body runs, no process holds any leased connection, none is
      deciding its route, and there is no second executor. */
  lemma CutoverRunsAlone(n: nat, run: seq<Action>, i: nat, j: nat)
    requires i < n == |Run(Initial(n), run).procs| && j < n && Exclusive(Run(Initial(n), run).procs[i].drive)
    ensures var p := Run(Initial(n), run).procs[j];
            p.sqlite == 0 && p.postgres == 0 && p.user.Idle? && p.fix.Idle? && (j != i ==> p.drive.Resting?)
  {
    hide Run;
    InitialInv(n);
    RunKeeps(Initial(n), run);
    var s := Run(Initial(n), run);
    assert ProcOk(s.disk, s.procs[i]) && ProcOk(s.disk, s.procs[j]) && LeasesOk(s) && OneExecutor(s);
  }

  function Startup(i: nat): seq<Action> {
    [Start(i), UserTick(i, false), UserTick(i, false), UserTick(i, false), UserTick(i, false)]
  }

  /** The route that the durable facts stand for. */
  function Route(d: Disk): Engine
    requires DiskOk(d)
  {
    if d.sealed then OnPostgres(d.fenceJob.value) else OnSqlite
  }

  function Again(t: Turn): Turn { Think(t.disk, t.engine, t.uncertain, t.pc, false) }

  lemma FourThoughts(d: Disk, u: bool)
    requires DiskOk(d)
    ensures var t := Again(Again(Again(Think(d, None, u, Reading(Starting), false))));
            t.engine == Some(Route(d)) && t.disk.sealed == d.sealed && t.pc.Idle?
  {
  }

  lemma UserTickIsAThought(s: State, i: nat)
    requires i < |s.procs|
    ensures var p := s.procs[i];
            var t := Think(s.disk, p.engine, p.uncertain, p.user, false);
            var s' := Step(s, UserTick(i, false));
            && |s'.procs| == |s.procs| && s'.disk == t.disk
            && s'.procs[i].engine == t.engine && s'.procs[i].uncertain == t.uncertain && s'.procs[i].user == t.pc
  {
    hide Think;
  }

  /** Main result 5. The cutover is crash-safe at every point: from every reachable state in which
      nobody holds the exclusive lease, a fresh process that finds PostgreSQL and the proofs intact
      starts, and it starts on PostgreSQL if and only if the fence is sealed. */
  lemma StartupResolves(n: nat, run: seq<Action>, i: nat)
    requires i < n == |Run(Initial(n), run).procs|
    requires Run(Initial(n), run).procs[i].engine.None? && Run(Initial(n), run).procs[i].user.Idle?
    requires SharedFree(Run(Initial(n), run))
    ensures var s := Run(Initial(n), run);
            var s' := Run(s, Startup(i));
            && DiskOk(s.disk) && |s'.procs| == n && s'.disk.sealed == s.disk.sealed
            && s'.procs[i].engine == Some(Route(s.disk))
  {
    hide Step, Run, Think;
    InitialInv(n);
    RunKeeps(Initial(n), run);
    var s := Run(Initial(n), run);
    StartupRuns(s, i);
  }

  lemma StartupRuns(s: State, i: nat)
    requires Inv(s) && i < |s.procs| && s.procs[i].engine.None? && s.procs[i].user.Idle? && SharedFree(s)
    ensures var s' := Run(s, Startup(i));
            |s'.procs| == |s.procs| && s'.disk.sealed == s.disk.sealed && s'.procs[i].engine == Some(Route(s.disk))
  {
    var s0 := Step(s, Start(i));
    assert s0.disk == s.disk && s0.procs[i] == s.procs[i].(user := Reading(Starting));
    hide Think, Step;
    var tick := UserTick(i, false);
    UserTickIsAThought(s0, i);
    var s1 := Step(s0, tick);
    UserTickIsAThought(s1, i);
    var s2 := Step(s1, tick);
    UserTickIsAThought(s2, i);
    var s3 := Step(s2, tick);
    UserTickIsAThought(s3, i);
    FourThoughts(s.disk, s.procs[i].uncertain);
    RunOfFive(s, Startup(i));
  }

  lemma RunOfFive(s: State, r: seq<Action>)
    requires |r| == 5
    ensures Run(s, r) == Step(Step(Step(Step(Step(s, r[0]), r[1]), r[2]), r[3]), r[4])
  {
    hide Step;
    var s1 := Step(s, r[0]);
    assert Run(s, r) == Run(s1, r[1..]);
    var s2 := Step(s1, r[1]);
    assert r[1..][1..] == r[2..] && Run(s1, r[1..]) == Run(s2, r[2..]);
    var s3 := Step(s2, r[2]);
    assert r[2..][1..] == r[3..] && Run(s2, r[2..]) == Run(s3, r[3..]);
    var s4 := Step(s3, r[3]);
    assert r[3..][1..] == r[4..] && Run(s3, r[3..]) == Run(s4, r[4..]);
    assert Run(s4, r[4..]) == Run(Step(s4, r[4]), r[4..][1..]) && r[4..][1..] == [];
  }

  /* ---- A cutover that nobody disturbs ---- */

  function Writes(i: nat): seq<Action> {
    [Advance(i, false), Advance(i, false), Advance(i, false), Advance(i, false), Advance(i, false), Advance(i, false)]
  }

  function Next(d: Disk, p: Proc): (Disk, Proc) { DriveTurn(d, p, false) }

  function SixWrites(d: Disk, p: Proc): (Disk, Proc) {
    var t1 := Next(d, p);
    var t2 := Next(t1.0, t1.1);
    var t3 := Next(t2.0, t2.1);
    var t4 := Next(t3.0, t3.1);
    var t5 := Next(t4.0, t4.1);
    Next(t5.0, t5.1)
  }

  lemma WritesInOrder(d: Disk, p: Proc, j: Job)
    requires p.drive == Holding(j) && p.engine == Some(OnSqlite)
    ensures SixWrites(d, p) == if d.marker.None? || d.marker == Some(j)
                               then (Disk(true, Some(j), Active(j), Some(j)),
                                     p.(engine := Some(OnPostgres(j)), uncertain := false, drive := Resting))
                               else (d.(manifest := Pending(j)), p.(uncertain := true, drive := Resting))
  {
  }

  lemma AdvanceIsATurn(s: State, i: nat)
    requires i < |s.procs|
    ensures var (d, p) := Next(s.disk, s.procs[i]); Step(s, Advance(i, false)) == Put(s, i, d, p)
  {
    hide DriveTurn;
  }

  /** The writes of one process leave every other one as it is. */
  lemma {:induction false} WritesRun(s: State, i: nat)
    requires i < |s.procs|
    ensures var (d, p) := SixWrites(s.disk, s.procs[i]); Run(s, Writes(i)) == Put(s, i, d, p)
  {
    hide Step, Next;
    var a := Advance(i, false);
    var r := Writes(i);
    AdvanceIsATurn(s, i);
    var s1 := Step(s, a);
    AdvanceIsATurn(s1, i);
    var s2 := Step(s1, a);
    AdvanceIsATurn(s2, i);
    var s3 := Step(s2, a);
    AdvanceIsATurn(s3, i);
    var s4 := Step(s3, a);
    AdvanceIsATurn(s4, i);
    var s5 := Step(s4, a);
    AdvanceIsATurn(s5, i);
    assert r[1..] == [a, a, a, a, a];
    RunOfFive(s1, r[1..]);
  }

  /** Main result 6. From every reachable state in which a process may drain, no connection is lent and
      no thread is connecting, an undisturbed cutover of the fenced job ends with the fence sealed, the
      manifest active and that process on the job's PostgreSQL, if and only if the marker of the target
      is missing or the job's own; otherwise the fence stays as it was and the process is in doubt. */
  lemma UndisturbedCutoverIff(n: nat, run: seq<Action>, i: nat, job: Job)
    requires i < |Run(Initial(n), run).procs|
    requires var s := Run(Initial(n), run);
             s.procs[i].engine == Some(OnSqlite) && ExecutorFree(s) && ExclusiveFree(s) && s.disk.fenceJob == Some(job)
    ensures var s := Run(Initial(n), run);
            var t := Run(Step(Step(s, Drain(i, job)), Enter(i)), Writes(i));
            && |t.procs| == |s.procs| && t.procs[i].drive.Resting?
            && (forall k :: 0 <= k < |s.procs| && k != i ==> t.procs[k] == s.procs[k])
            && if s.disk.marker.None? || s.disk.marker == Some(job)
               then t.disk == Disk(true, Some(job), Active(job), Some(job))
                    && t.procs[i].engine == Some(OnPostgres(job)) && !t.procs[i].uncertain
               else t.disk == s.disk.(manifest := Pending(job)) && t.procs[i].engine == Some(OnSqlite) && t.procs[i].uncertain
  {
    hide Run, Think, DriveTurn, SixWrites;
    var s := Run(Initial(n), run);
    var s1 := Step(s, Drain(i, job));
    assert s1 == Put(s, i, s.disk, s.procs[i].(drive := Draining(job)));
    assert ExclusiveFree(s1) by {
      forall k | 0 <= k < |s1.procs| ensures Quiet(s1.procs[k]) { assert Quiet(s.procs[k]); }
    }
    var s2 := Step(s1, Enter(i));
    assert s2 == Put(s, i, s.disk, s.procs[i].(drive := Holding(job)));
    WritesRun(s2, i);
    WritesInOrder(s2.disk, s2.procs[i], job);
  }
}
