/** The deployment updater of updater/agent.py: a journaled job moves through phases while
    Docker commands fail, apply partially, or are cut by a crash, and `recover` resumes from
    the journal on disk. */
module UpdateAgent {
  import opened Prelude
  import opened Texts

  /* ---- Versions ---- */

  predicate Numeral(s: string) { s != "" && AllDigits(s) && (s[0] == '0' ==> |s| == 1) }

  datatype Version = Version(major: nat, minor: nat, patch: nat)

  /** `v?A.B` or `v?A.B.C` without leading zeros; a missing third part is 0. */
  function ParseVersion(text: string): Option<Version> {
    var parts := Split(if text != "" && text[0] == 'v' then text[1..] else text, '.');
    if 2 <= |parts| <= 3 && Numeral(parts[0]) && Numeral(parts[1]) && (|parts| == 3 ==> Numeral(parts[2]))
    then Some(Version(Number(parts[0]), Number(parts[1]), if |parts| == 3 then Number(parts[2]) else 0))
    else None
  }

  predicate Below(a: Version, b: Version) {
    a.major < b.major || (a.major == b.major && (a.minor < b.minor || (a.minor == b.minor && a.patch < b.patch)))
  }

  /** Both texts are versions and the first is lower. */
  predicate Older(a: string, b: string) {
    ParseVersion(a).Some? && ParseVersion(b).Some? && Below(ParseVersion(a).value, ParseVersion(b).value)
  }

  predicate NotNewer(a: string, b: string) {
    ParseVersion(a).Some? && ParseVersion(b).Some? && !Below(ParseVersion(b).value, ParseVersion(a).value)
  }

  /* ---- Data ---- */

  datatype Service = App | Preview | EgressProxy

  /** An image is named by its content, so its labels are part of it. */
  datatype Image = Image(id: string, version: string, compat: string, database: bool, combined: bool, official: bool)

  type Images = map<Service, Image>

  datatype Database = Database(postgres: bool, capable: bool, identity: string)

  datatype Status = Queued | Preparing | Pulling | BackingUp | Applying | RollingBack
                  | Succeeded | Failed | RolledBack | RollbackFailed

  /** A rollback names the succeeded job whose previous images it restores. */
  datatype Kind = Update | Rollback(of: nat)

  datatype Job = Job(requestId: Option<string>, kind: Kind, target: string, status: Status, previous: Option<Images>,
                     targets: Option<Images>, previousVersion: string, database: Option<Database>,
                     reserved: bool, cleanup: bool)

  datatype Journal = Journal(jobs: seq<Job>, failed: set<string>, autoInstall: bool, releases: set<string>)

  /** Where the thread that executes or recovers a job stands. */
  datatype Pc =
    | Quiet | Triage
    | Begin | Inspect | Choose(prev: Images) | PullPhase(prev: Images) | Pull(prev: Images)
    | Check(prev: Images, images: Images) | Pin(prev: Images, images: Images)
    | Reserve(prev: Images, images: Images) | ReserveCall(prev: Images, images: Images)
    | BackupPhase(prev: Images, images: Images) | Backup(images: Images) | ApplyPhase(images: Images)
    | WriteTarget(images: Images) | UpTarget(images: Images) | VerifyTarget(images: Images) | SucceedPhase
    | Except | RollPhase | WritePrevious | UpPrevious | VerifyPrevious | RolledBackPhase | RollFailPhase
    | FailPhase | Release

  datatype Control = Down | Up(recovering: bool, job: nat, pc: Pc)

  /** What a job did to the deployment. `Verified` records the images all checks passed on. */
  datatype Event = Wrote(job: nat, images: Images) | Placed(job: nat, service: Service, image: Image)
                 | Verified(job: nat, observed: Images)

  datatype State = State(disk: Journal, mem: Journal, ctl: Control, override: Option<Images>, containers: Images,
                         events: seq<Event>)

  /** The outside world's answer to one step. */
  datatype Reply = Refused | Done | Reported(database: Database) | Pulled(image: Image) | Recreated(service: Service)

  datatype Action =
    | Submit(target: string, rollback: Option<nat>, requestId: Option<string>)
    | Policy(enabled: bool)
    | Checked(releases: set<string>)
    | Work(reply: Reply)
    | Crash
    | Start

  predicate Terminal(st: Status) { st.Succeeded? || st.Failed? || st.RolledBack? || st.RollbackFailed? }

  predicate Touching(st: Status) {
    st.Applying? || st.RollingBack? || st.Succeeded? || st.RolledBack? || st.RollbackFailed?
  }

  predicate Cutting(st: Status) { st.Applying? || st.RollingBack? }

  predicate Active(j: Journal) {
    exists i :: 0 <= i < |j.jobs| && (!Terminal(j.jobs[i].status) || j.jobs[i].reserved)
  }

  /** The one non-empty compatibility label the images share. */
  function Compatibility(images: Images): Option<string> {
    if App in images && images[App].compat != "" && forall svc :: svc in images ==> images[svc].compat == images[App].compat
    then Some(images[App].compat) else None
  }

  /* ---- The steps ---- */

  /** What a step does to the deployment. */
  datatype Effect = Nothing | Write(images: Images) | Place(service: Service, image: Image) | Verify

  /** A step of the thread at a job: the job afterwards, whether the journal is saved, whether
      `failed_versions` gains the target of an update, the effect, and where control goes;
      `None` ends the thread's work on this job. */
  datatype Move = Move(job: Job, save: bool, mark: bool, effect: Effect, next: Option<Pc>)

  function Go(job: Job, pc: Pc): Move { Move(job, false, false, Nothing, Some(pc)) }

  /** `phase`: the job is updated and the journal saved as one step. */
  function Phase(job: Job, pc: Pc): Move { Move(job, true, false, Nothing, Some(pc)) }

  /** A final phase, followed by the release of the maintenance reservation if there is one. */
  function FinalPhase(job: Job): Move { Move(job, true, false, Nothing, if job.reserved then Some(Release) else None) }

  /** `recover` looks at one job of the journal. */
  function Triaged(job: Job): Move {
    if Terminal(job.status) then Move(job, false, false, Nothing, if job.reserved then Some(Release) else None)
    else if Cutting(job.status) && job.previous.Some? then Move(job, false, true, Nothing, Some(RollPhase))
    else Go(job, FailPhase)
  }

  /** `source` is the previous deployment of the job a rollback names. */
  function Chosen(job: Job, prev: Images, source: Option<Images>, r: Reply): Move {
    if r != Done || Compatibility(prev) == None then Go(job, Except)
    else match job.kind
      case Rollback(_) => if source.Some? then Go(job, Check(prev, source.value)) else Go(job, Except)
      case Update => if Older(prev[App].version, job.target) then Go(job, PullPhase(prev)) else Go(job, Except)
  }

  predicate Admitted(job: Job, prev: Images, images: Images) {
    && App in images
    && (Preview !in prev ==> images[App].combined)
    && Compatibility(images) == Compatibility(prev)
    && (job.database.Some? && job.database.value.postgres ==> forall svc :: svc in images ==> images[svc].database)
    && images != prev
  }

  function Uniform(services: set<Service>, image: Image): Images {
    map svc | svc in services :: image
  }

  function Prepare(job: Job, pc: Pc, containers: Images, source: Option<Images>, r: Reply): Move {
    match pc
    case Begin => Phase(job.(status := Preparing), Inspect)
    case Inspect =>
      if r.Reported? then Phase(job.(database := Some(r.database)), Choose(containers)) else Go(job, Except)
    case Choose(prev) => Chosen(job, prev, source, r)
    case PullPhase(prev) => Phase(job.(status := Pulling), Pull(prev))
    case Pull(prev) =>
      if r.Pulled? && r.image.version == job.target && r.image.official
      then Go(job, Check(prev, Uniform(prev.Keys, r.image))) else Go(job, Except)
    case Check(prev, images) => Go(job, if r == Done && Admitted(job, prev, images) then Pin(prev, images) else Except)
    case Pin(prev, images) =>
      if r != Done then Go(job, Except)
      else if job.database.Some? && job.database.value.capable then Go(job, Reserve(prev, images))
      else Go(job, BackupPhase(prev, images))
    case Reserve(prev, images) => Phase(job.(reserved := true), ReserveCall(prev, images))
    case ReserveCall(prev, images) => Go(job, if r == Done then BackupPhase(prev, images) else Except)
    case BackupPhase(prev, images) =>
      Phase(job.(status := BackingUp, previous := Some(prev), targets := Some(images),
                 previousVersion := if App in prev then prev[App].version else "unknown"), Backup(images))
    case Backup(images) => Go(job, if r == Done then ApplyPhase(images) else Except)
    case _ => Go(job, pc)
  }

  /** The override is written only when the images cover exactly the declared services. */
  function WriteMove(job: Job, containers: Images, images: Images, r: Reply, next: Pc, error: Pc): Move {
    if r != Done || images.Keys != containers.Keys then Go(job, error)
    else Move(job, false, false, Write(images), Some(next))
  }

  /** `compose up`: services are recreated one at a time, and it may fail after any of them. */
  function UpMove(job: Job, pc: Pc, images: Images, r: Reply, next: Pc, error: Pc): Move {
    if r.Recreated? && r.service in images then Move(job, false, false, Place(r.service, images[r.service]), Some(pc))
    else Go(job, if r == Done then next else error)
  }

  /** All checks after `compose up`; none passes while a container runs another image. */
  function VerifyMove(job: Job, containers: Images, images: Images, r: Reply, next: Pc, error: Pc): Move {
    if r != Done || containers != images then Go(job, error)
    else Move(job, false, false, Verify, Some(next))
  }

  function Apply(job: Job, pc: Pc, containers: Images, r: Reply): Move {
    match pc
    case ApplyPhase(images) => Phase(job.(status := Applying), WriteTarget(images))
    case WriteTarget(images) => WriteMove(job, containers, images, r, UpTarget(images), Except)
    case UpTarget(images) => UpMove(job, pc, images, r, VerifyTarget(images), Except)
    case VerifyTarget(images) => VerifyMove(job, containers, images, r, SucceedPhase, Except)
    case SucceedPhase => FinalPhase(job.(status := Succeeded))
    case _ => Go(job, pc)
  }

  function Restore(job: Job, pc: Pc, containers: Images, recovering: bool, r: Reply): Move {
    var previous := if job.previous.Some? then job.previous.value else map[];
    match pc
    case Except => Move(job, true, true, Nothing, Some(if Cutting(job.status) then RollPhase else FailPhase))
    case RollPhase => Phase(job.(status := RollingBack), WritePrevious)
    case WritePrevious => WriteMove(job, containers, previous, r, UpPrevious, RollFailPhase)
    case UpPrevious => UpMove(job, pc, previous, r, VerifyPrevious, RollFailPhase)
    case VerifyPrevious => VerifyMove(job, containers, previous, r, RolledBackPhase, RollFailPhase)
    case RolledBackPhase => FinalPhase(job.(status := RolledBack))
    case RollFailPhase => FinalPhase(job.(status := RollbackFailed))
    case FailPhase => FinalPhase(job.(status := Failed))
    case Release =>
      if r == Done then Move(job.(reserved := false, cleanup := false), true, false, Nothing, None)
      else if recovering then Move(job, false, false, Nothing, None)
      else Move(job.(cleanup := true), true, false, Nothing, None)
    case _ => Go(job, pc)
  }

  /** The move at one program counter, a function of what the step can see. */
  function Decide(job: Job, pc: Pc, containers: Images, recovering: bool, source: Option<Images>, r: Reply): Move {
    match pc
    case Triage => Triaged(job)
    case ApplyPhase(_) | WriteTarget(_) | UpTarget(_) | VerifyTarget(_) | SucceedPhase => Apply(job, pc, containers, r)
    case Except | RollPhase | WritePrevious | UpPrevious | VerifyPrevious | RolledBackPhase | RollFailPhase
       | FailPhase | Release => Restore(job, pc, containers, recovering, r)
    case _ => Prepare(job, pc, containers, source, r)
  }

  predicate AtJob(s: State) { s.ctl.Up? && s.ctl.job < |s.mem.jobs| }

  function SourceOf(jobs: seq<Job>, job: Job): Option<Images> {
    if job.kind.Rollback? && job.kind.of < |jobs| then jobs[job.kind.of].previous else None
  }

  function MoveAt(s: State, r: Reply): Move
    requires AtJob(s)
  {
    var job := s.mem.jobs[s.ctl.job];
    Decide(job, s.ctl.pc, s.containers, s.ctl.recovering, SourceOf(s.mem.jobs, job), r)
  }

  function Journaled(mem: Journal, j: nat, m: Move): Journal
    requires j < |mem.jobs|
  {
    mem.(jobs := mem.jobs[j := m.job],
         failed := if m.mark && m.job.kind == Update then mem.failed + {m.job.target} else mem.failed)
  }

  function Happened(j: nat, containers: Images, effect: Effect): seq<Event> {
    match effect
    case Nothing => []
    case Write(images) => [Wrote(j, images)]
    case Place(service, image) => [Placed(j, service, image)]
    case Verify => [Verified(j, containers)]
  }

  function Perform(s: State, m: Move): State
    requires AtJob(s)
  {
    var j := s.ctl.job;
    var mem := Journaled(s.mem, j, m);
    State(if m.save then mem else s.disk,
          mem,
          if m.next.Some? then Up(s.ctl.recovering, j, m.next.value)
          else if s.ctl.recovering then Up(true, j + 1, Triage) else Up(false, 0, Quiet),
          if m.effect.Write? then Some(m.effect.images) else s.override,
          if m.effect.Place? then s.containers[m.effect.service := m.effect.image] else s.containers,
          s.events + Happened(j, s.containers, m.effect))
  }

  function WorkStep(s: State, r: Reply): State
    requires s.ctl.Up?
  {
    if s.ctl.pc == Quiet then s
    else if AtJob(s) then Perform(s, MoveAt(s, r))
    else if s.ctl.pc == Triage then s.(ctl := Up(false, 0, Quiet))
    else s
  }

  function Save(s: State): State { s.(disk := s.mem) }

  function Enqueue(s: State, job: Job): State {
    Save(s.(mem := s.mem.(jobs := s.mem.jobs + [job]), ctl := Up(false, |s.mem.jobs|, Begin)))
  }

  function NewJob(requestId: Option<string>, kind: Kind, target: string): Job {
    Job(requestId, kind, target, Queued, None, None, "unknown", None, false, false)
  }

  /** `submit`: a repeated request, a busy updater or an unknown target queue nothing. */
  function SubmitStep(s: State, target: string, rollback: Option<nat>, requestId: Option<string>): State {
    if requestId.Some? && exists i :: 0 <= i < |s.mem.jobs| && s.mem.jobs[i].requestId == requestId then s
    else if Active(s.mem) then s
    else match rollback
      case Some(k) =>
        if k < |s.mem.jobs| && s.mem.jobs[k].status == Succeeded
        then Enqueue(s.(mem := s.mem.(autoInstall := false)), NewJob(requestId, Rollback(k), s.mem.jobs[k].previousVersion))
        else s
      case None => if target in s.mem.releases then Enqueue(s, NewJob(requestId, Update, target)) else s
  }

  function Step(s: State, a: Action): State {
    match a
    case Submit(target, rollback, requestId) =>
      if s.ctl.Up? && !s.ctl.recovering then SubmitStep(s, target, rollback, requestId) else s
    case Policy(enabled) =>
      if s.ctl.Up? && !s.ctl.recovering then Save(s.(mem := s.mem.(autoInstall := enabled))) else s
    case Checked(releases) =>
      if s.ctl.Up? && !s.ctl.recovering then Save(s.(mem := s.mem.(releases := releases))) else s
    case Work(r) => if s.ctl.Up? then WorkStep(s, r) else s
    case Crash => s.(mem := s.disk, ctl := Down)
    case Start => if s.ctl.Down? then s.(mem := s.disk, ctl := Up(true, 0, Triage)) else s
  }

  function Run(s: State, run: seq<Action>): State
    decreases |run|
  {
    if run == [] then s else Run(Step(s, run[0]), run[1..])
  }

  const NewJournal := Journal([], {}, false, {})

  /** A deployment the updater has never touched. */
  function Initial(containers: Images): State {
    State(NewJournal, NewJournal, Down, None, containers, [])
  }
}
