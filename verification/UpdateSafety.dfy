/** What every run of the updater keeps, whatever Docker answers and wherever it crashes. */
module UpdateSafety {
  import opened Prelude
  import opened UpdateAgent

  /* ---- The journal and the control point ---- */

  predicate Recorded(job: Job, services: set<Service>) {
    && job.previous.Some? && job.targets.Some?
    && job.previous.value.Keys == services && job.targets.value.Keys == services
  }

  predicate Early(st: Status) { st.Queued? || st.Preparing? || st.Pulling? }

  predicate JobOk(jobs: seq<Job>, i: nat, services: set<Service>)
    requires i < |jobs|
  {
    && (i < |jobs| - 1 ==> Terminal(jobs[i].status))
    && (jobs[i].status == BackingUp || Touching(jobs[i].status) ==> Recorded(jobs[i], services))
    && (jobs[i].kind.Rollback? ==> jobs[i].kind.of < i && jobs[jobs[i].kind.of].status == Succeeded)
  }

  /** The status a job has while its thread stands at `pc`. */
  predicate PcOk(job: Job, pc: Pc, containers: Images) {
    match pc
    case Quiet | Triage => true
    case Begin => job.status == Queued
    case Inspect => job.status == Preparing
    case Choose(prev) => job.status == Preparing && prev == containers
    case PullPhase(prev) => job.status == Preparing && prev == containers && job.kind == Update && App in prev
                            && Older(prev[App].version, job.target) && Compatibility(prev) != None
    case Pull(prev) => job.status == Pulling && prev == containers && job.kind == Update && App in prev
                       && Older(prev[App].version, job.target) && Compatibility(prev) != None
    case Check(prev, images) => Selected(job, prev, images, containers)
    case Pin(prev, images) => Selected(job, prev, images, containers) && Admitted(job, prev, images)
    case Reserve(prev, images) => Selected(job, prev, images, containers) && Admitted(job, prev, images)
    case ReserveCall(prev, images) => Selected(job, prev, images, containers) && Admitted(job, prev, images)
    case BackupPhase(prev, images) => Selected(job, prev, images, containers) && Admitted(job, prev, images)
    case Backup(images) => job.status == BackingUp && job.targets == Some(images)
    case ApplyPhase(images) => job.status == BackingUp && job.targets == Some(images)
    case WriteTarget(images) => job.status == Applying && job.targets == Some(images)
    case UpTarget(images) => job.status == Applying && job.targets == Some(images)
    case VerifyTarget(images) => job.status == Applying && job.targets == Some(images)
    case SucceedPhase => job.status == Applying && job.targets == Some(containers)
    case Except => !Terminal(job.status)
    case RollPhase => Cutting(job.status)
    case WritePrevious => job.status == RollingBack
    case UpPrevious => job.status == RollingBack
    case VerifyPrevious => job.status == RollingBack
    case RolledBackPhase => job.status == RollingBack && job.previous == Some(containers)
    case RollFailPhase => job.status == RollingBack
    case FailPhase => Early(job.status) || job.status == BackingUp
    case Release => Terminal(job.status) && job.reserved
  }

  predicate Selected(job: Job, prev: Images, images: Images, containers: Images) {
    && (job.status.Preparing? || job.status.Pulling?) && prev == containers && images.Keys == prev.Keys && App in prev
    && (job.kind == Update ==> Older(prev[App].version, job.target) && images[App].version == job.target)
    && Compatibility(prev) != None
  }

  /** Both journals agree but for failed versions not saved yet; jobs before the last are final. */
  ghost predicate Sane(s: State) {
    && s.disk == s.mem.(failed := s.disk.failed) && s.disk.failed <= s.mem.failed
    && (forall i :: 0 <= i < |s.mem.jobs| ==> JobOk(s.mem.jobs, i, s.containers.Keys))
    && (s.ctl.Up? ==> ControlOk(s))
    && App in s.containers
  }

  predicate RecoverPc(pc: Pc) {
    pc.Triage? || pc.RollPhase? || pc.WritePrevious? || pc.UpPrevious? || pc.VerifyPrevious? || pc.RolledBackPhase?
    || pc.RollFailPhase? || pc.FailPhase? || pc.Release?
  }

  ghost predicate ControlOk(s: State)
    requires s.ctl.Up?
  {
    var jobs := s.mem.jobs;
    var j, pc := s.ctl.job, s.ctl.pc;
    && (s.ctl.recovering ==> j <= |jobs| && RecoverPc(pc) && forall i :: 0 <= i < j ==> Terminal(jobs[i].status))
    && (pc == Triage ==> s.ctl.recovering)
    && (pc == Quiet ==> forall i :: 0 <= i < |jobs| ==> Terminal(jobs[i].status))
    && (pc != Quiet && pc != Triage ==> j < |jobs| && PcOk(jobs[j], pc, s.containers))
    && (pc != Quiet && !s.ctl.recovering ==> j == |jobs| - 1)
  }

  /* ---- Preservation ---- */

  /** Replacing one job by one that keeps its place in the journal. */
  lemma ReplaceJob(jobs: seq<Job>, j: nat, jobs': seq<Job>, services: set<Service>)
    requires j < |jobs| == |jobs'| && jobs' == jobs[j := jobs'[j]]
    requires forall i :: 0 <= i < |jobs| ==> JobOk(jobs, i, services)
    requires j < |jobs| - 1 ==> Terminal(jobs'[j].status)
    requires jobs'[j].status == BackingUp || Touching(jobs'[j].status) ==> Recorded(jobs'[j], services)
    requires jobs'[j].kind == jobs[j].kind && (jobs[j].status == Succeeded ==> jobs'[j].status == Succeeded)
    ensures forall i :: 0 <= i < |jobs'| ==> JobOk(jobs', i, services)
  {
    forall i | 0 <= i < |jobs'| ensures JobOk(jobs', i, services) {
      assert JobOk(jobs, i, services);
    }
  }

  /** A move that keeps the job's place in the journal and lands where its status fits. */
  predicate MoveOk(job: Job, containers: Images, recovering: bool, m: Move) {
    var containers' := if m.effect.Place? then containers[m.effect.service := m.effect.image] else containers;
    && m.job.kind == job.kind && m.job.target == job.target
    && (!m.save ==> m.job == job)
    && (Terminal(job.status) ==> m.job.status == job.status)
    && (Touching(job.status) ==> Touching(m.job.status))
    && (m.job.status == BackingUp || Touching(m.job.status) ==> Recorded(m.job, containers.Keys))
    && (m.effect.Place? ==> m.effect.service in containers)
    && (m.effect != Nothing ==> Cutting(job.status))
    && (m.next == None ==> Terminal(m.job.status))
    && (m.next != None ==> m.next.value != Quiet && m.next.value != Triage
                           && PcOk(m.job, m.next.value, containers') && (recovering ==> RecoverPc(m.next.value)))
  }

  /** What a step may rely on. */
  predicate Ready(job: Job, pc: Pc, containers: Images, recovering: bool) {
    && PcOk(job, pc, containers) && pc != Quiet && (recovering ==> RecoverPc(pc))
    && (job.status == BackingUp || Touching(job.status) ==> Recorded(job, containers.Keys))
    && App in containers
  }

  predicate Preparatory(pc: Pc) {
    pc.Begin? || pc.Inspect? || pc.Choose? || pc.PullPhase? || pc.Pull? || pc.Check? || pc.Pin? || pc.Reserve?
    || pc.ReserveCall? || pc.BackupPhase? || pc.Backup?
  }

  predicate Applicative(pc: Pc) {
    pc.ApplyPhase? || pc.WriteTarget? || pc.UpTarget? || pc.VerifyTarget? || pc.SucceedPhase?
  }

  /* One lemma for each program counter with a choice in it, one for each group without. */

  lemma PhaseOk(job: Job, pc: Pc, containers: Images, source: Option<Images>, r: Reply)
    requires Ready(job, pc, containers, false) && (pc.Begin? || pc.Inspect? || pc.PullPhase?)
    ensures MoveOk(job, containers, false, Prepare(job, pc, containers, source, r))
  {
    hide Older, Compatibility, Admitted;
  }

  lemma ChooseOk(job: Job, prev: Images, containers: Images, source: Option<Images>, r: Reply)
    requires Ready(job, Choose(prev), containers, false)
    requires source.Some? ==> source.value.Keys == containers.Keys
    ensures MoveOk(job, containers, false, Prepare(job, Choose(prev), containers, source, r))
  {
    hide Compatibility, Admitted;
  }

  lemma PullOk(job: Job, prev: Images, containers: Images, source: Option<Images>, r: Reply)
    requires Ready(job, Pull(prev), containers, false)
    ensures MoveOk(job, containers, false, Prepare(job, Pull(prev), containers, source, r))
  {
    hide Compatibility, Admitted;
  }

  lemma CheckOk(job: Job, prev: Images, images: Images, containers: Images, source: Option<Images>, r: Reply)
    requires Ready(job, Check(prev, images), containers, false)
    ensures MoveOk(job, containers, false, Prepare(job, Check(prev, images), containers, source, r))
  {
    hide Older, Compatibility;
  }

  lemma ReserveOk(job: Job, pc: Pc, containers: Images, source: Option<Images>, r: Reply)
    requires Ready(job, pc, containers, false) && (pc.Pin? || pc.Reserve? || pc.ReserveCall?)
    ensures MoveOk(job, containers, false, Prepare(job, pc, containers, source, r))
  {
    hide Older, Compatibility;
  }

  lemma BackupOk(job: Job, pc: Pc, containers: Images, source: Option<Images>, r: Reply)
    requires Ready(job, pc, containers, false) && (pc.BackupPhase? || pc.Backup?)
    ensures MoveOk(job, containers, false, Prepare(job, pc, containers, source, r))
  {
    hide Older, Compatibility, Admitted;
  }

  lemma ApplyEndsOk(job: Job, pc: Pc, containers: Images, r: Reply)
    requires Ready(job, pc, containers, false) && (pc.ApplyPhase? || pc.SucceedPhase?)
    ensures MoveOk(job, containers, false, Apply(job, pc, containers, r))
  {
    hide Older, Compatibility, Admitted, Selected;
  }

  lemma WriteTargetOk(job: Job, images: Images, containers: Images, r: Reply)
    requires Ready(job, WriteTarget(images), containers, false)
    ensures MoveOk(job, containers, false, Apply(job, WriteTarget(images), containers, r))
  {
    hide Older, Compatibility, Admitted, Selected;
  }

  lemma UpTargetOk(job: Job, images: Images, containers: Images, r: Reply)
    requires Ready(job, UpTarget(images), containers, false)
    ensures MoveOk(job, containers, false, Apply(job, UpTarget(images), containers, r))
  {
    hide Older, Compatibility, Admitted, Selected;
  }

  lemma VerifyTargetOk(job: Job, images: Images, containers: Images, r: Reply)
    requires Ready(job, VerifyTarget(images), containers, false)
    ensures MoveOk(job, containers, false, Apply(job, VerifyTarget(images), containers, r))
  {
    hide Older, Compatibility, Admitted, Selected;
  }

  lemma WritePreviousOk(job: Job, containers: Images, recovering: bool, r: Reply)
    requires Ready(job, WritePrevious, containers, recovering)
    ensures MoveOk(job, containers, recovering, Restore(job, WritePrevious, containers, recovering, r))
  {
    hide Older, Compatibility, Admitted, Selected;
  }

  lemma UpPreviousOk(job: Job, containers: Images, recovering: bool, r: Reply)
    requires Ready(job, UpPrevious, containers, recovering)
    ensures MoveOk(job, containers, recovering, Restore(job, UpPrevious, containers, recovering, r))
  {
    hide Older, Compatibility, Admitted, Selected;
  }

  lemma VerifyPreviousOk(job: Job, containers: Images, recovering: bool, r: Reply)
    requires Ready(job, VerifyPrevious, containers, recovering)
    ensures MoveOk(job, containers, recovering, Restore(job, VerifyPrevious, containers, recovering, r))
  {
    hide Older, Compatibility, Admitted, Selected;
  }

  lemma ExceptOk(job: Job, containers: Images, recovering: bool, r: Reply)
    requires Ready(job, Except, containers, recovering)
    ensures MoveOk(job, containers, recovering, Restore(job, Except, containers, recovering, r))
  {
    hide Older, Compatibility, Admitted, Selected;
  }

  lemma RestoreEndsOk(job: Job, pc: Pc, containers: Images, recovering: bool, r: Reply)
    requires Ready(job, pc, containers, recovering)
    requires pc.RollPhase? || pc.RolledBackPhase? || pc.RollFailPhase? || pc.FailPhase?
    ensures MoveOk(job, containers, recovering, Restore(job, pc, containers, recovering, r))
  {
    hide Older, Compatibility, Admitted, Selected;
  }

  lemma ReleaseOk(job: Job, containers: Images, recovering: bool, r: Reply)
    requires Ready(job, Release, containers, recovering)
    ensures MoveOk(job, containers, recovering, Restore(job, Release, containers, recovering, r))
  {
    hide Older, Compatibility, Admitted, Selected;
  }

  lemma TriageOk(job: Job, containers: Images, recovering: bool)
    requires Ready(job, Triage, containers, recovering)
    ensures MoveOk(job, containers, recovering, Triaged(job))
  {
  }

  lemma PrepareOk(job: Job, pc: Pc, containers: Images, source: Option<Images>, r: Reply)
    requires Ready(job, pc, containers, false) && Preparatory(pc)
    requires source.Some? ==> source.value.Keys == containers.Keys
    ensures MoveOk(job, containers, false, Prepare(job, pc, containers, source, r))
  {
    hide Ready, MoveOk, Prepare;
    match pc
    case Choose(prev) => ChooseOk(job, prev, containers, source, r);
    case Pull(prev) => PullOk(job, prev, containers, source, r);
    case Check(prev, images) => CheckOk(job, prev, images, containers, source, r);
    case Pin(_, _) | Reserve(_, _) | ReserveCall(_, _) => ReserveOk(job, pc, containers, source, r);
    case BackupPhase(_, _) | Backup(_) => BackupOk(job, pc, containers, source, r);
    case _ => PhaseOk(job, pc, containers, source, r);
  }

  lemma ApplyOk(job: Job, pc: Pc, containers: Images, r: Reply)
    requires Ready(job, pc, containers, false) && Applicative(pc)
    ensures MoveOk(job, containers, false, Apply(job, pc, containers, r))
  {
    hide Ready, MoveOk, Apply;
    match pc
    case WriteTarget(images) => WriteTargetOk(job, images, containers, r);
    case UpTarget(images) => UpTargetOk(job, images, containers, r);
    case VerifyTarget(images) => VerifyTargetOk(job, images, containers, r);
    case _ => ApplyEndsOk(job, pc, containers, r);
  }

  lemma RestoreOk(job: Job, pc: Pc, containers: Images, recovering: bool, r: Reply)
    requires Ready(job, pc, containers, recovering) && !Preparatory(pc) && !Applicative(pc) && pc != Triage
    ensures MoveOk(job, containers, recovering, Restore(job, pc, containers, recovering, r))
  {
    hide PcOk, MoveOk, Restore;
    match pc
    case WritePrevious => WritePreviousOk(job, containers, recovering, r);
    case UpPrevious => UpPreviousOk(job, containers, recovering, r);
    case VerifyPrevious => VerifyPreviousOk(job, containers, recovering, r);
    case Except => ExceptOk(job, containers, recovering, r);
    case Release => ReleaseOk(job, containers, recovering, r);
    case _ => RestoreEndsOk(job, pc, containers, recovering, r);
  }

  lemma DecideOk(job: Job, pc: Pc, containers: Images, recovering: bool, source: Option<Images>, r: Reply)
    requires Ready(job, pc, containers, recovering)
    requires source.Some? ==> source.value.Keys == containers.Keys
    ensures MoveOk(job, containers, recovering, Decide(job, pc, containers, recovering, source, r))
  {
    hide PcOk, MoveOk, Prepare, Apply, Restore, Triaged;
    if pc == Triage {
      TriageOk(job, containers, recovering);
    } else if Preparatory(pc) {
      PrepareOk(job, pc, containers, source, r);
    } else if Applicative(pc) {
      ApplyOk(job, pc, containers, r);
    } else {
      RestoreOk(job, pc, containers, recovering, r);
    }
  }

  lemma WorkSane(s: State, r: Reply)
    requires Sane(s) && s.ctl.Up?
    ensures Sane(WorkStep(s, r))
  {
    hide Older, Compatibility, Admitted, Selected, Decide;
    if AtJob(s) && s.ctl.pc != Quiet {
      var job, j, keys := s.mem.jobs[s.ctl.job], s.ctl.job, s.containers.Keys;
      var m, s' := MoveAt(s, r), WorkStep(s, r);
      assert JobOk(s.mem.jobs, j, keys);
      if job.kind.Rollback? { assert JobOk(s.mem.jobs, job.kind.of, keys); }
      DecideOk(job, s.ctl.pc, s.containers, s.ctl.recovering, SourceOf(s.mem.jobs, job), r);
      ReplaceJob(s.mem.jobs, j, s'.mem.jobs, keys);
      forall i | 0 <= i < |s.mem.jobs| - 1 ensures Terminal(s'.mem.jobs[i].status) {
        assert JobOk(s'.mem.jobs, i, keys);
      }
      assert ControlOk(s');
      assert !m.save ==> s'.mem.jobs == s.mem.jobs;
      assert s'.containers.Keys == keys;
    }
  }

  /** An idle updater has nothing unfinished, so a submit that passes `active` finds no thread. */
  lemma NotActiveMeansQuiet(s: State)
    requires Sane(s) && s.ctl.Up? && !s.ctl.recovering && !Active(s.mem)
    ensures s.ctl.pc == Quiet
  {
    if s.ctl.pc != Quiet {
      assert false;
    }
  }

  lemma EnqueueSane(s: State, s': State, job: Job)
    requires Sane(s) && s.ctl.Up? && s.ctl.pc == Quiet && s'.mem.jobs == s.mem.jobs + [job]
    requires s' == Enqueue(s.(mem := s.mem.(autoInstall := s'.mem.autoInstall)), job)
    requires job.status == Queued && job.previous == None && job.targets == None
    requires job.kind.Rollback? ==> job.kind.of < |s.mem.jobs| && s.mem.jobs[job.kind.of].status == Succeeded
    ensures Sane(s')
  {
    forall i | 0 <= i < |s'.mem.jobs| ensures JobOk(s'.mem.jobs, i, s'.containers.Keys) {
      if i < |s.mem.jobs| { assert JobOk(s.mem.jobs, i, s.containers.Keys); }
    }
  }

  lemma SubmitSane(s: State, target: string, rollback: Option<nat>, requestId: Option<string>)
    requires Sane(s) && s.ctl.Up? && !s.ctl.recovering
    ensures Sane(SubmitStep(s, target, rollback, requestId))
    ensures var s' := SubmitStep(s, target, rollback, requestId);
            s' == s || (s.ctl.pc == Quiet && |s'.mem.jobs| == |s.mem.jobs| + 1
                        && s' == Enqueue(s.(mem := s.mem.(autoInstall := s'.mem.autoInstall)), s'.mem.jobs[|s.mem.jobs|]))
    ensures var s' := SubmitStep(s, target, rollback, requestId);
            s' != s ==> var job := s'.mem.jobs[|s.mem.jobs|];
              job == NewJob(requestId, job.kind, job.target)
  {
    var s' := SubmitStep(s, target, rollback, requestId);
    if !Active(s.mem) { NotActiveMeansQuiet(s); }
    if s' != s {
      EnqueueSane(s, s', s'.mem.jobs[|s.mem.jobs|]);
    }
  }

  lemma StepSane(s: State, a: Action)
    requires Sane(s)
    ensures Sane(Step(s, a))
  {
    match a
    case Submit(target, rollback, requestId) =>
      if s.ctl.Up? && !s.ctl.recovering { SubmitSane(s, target, rollback, requestId); }
    case Work(r) => if s.ctl.Up? { WorkSane(s, r); }
    case _ =>
      forall i | 0 <= i < |s.mem.jobs| ensures JobOk(s.mem.jobs, i, s.containers.Keys) {}
  }

  /* ---- What a move does, told by the record of its job ---- */

  predicate Late(st: Status) { st == BackingUp || Touching(st) }

  /** What held of a job's record when it entered the backup phase, and stays. */
  predicate Accepted(job: Job) {
    && job.previous.Some? && job.targets.Some? && App in job.previous.value
    && Admitted(job, job.previous.value, job.targets.value)
    && Compatibility(job.previous.value) != None
    && job.previousVersion == job.previous.value[App].version
    && (job.kind == Update ==>
          Older(job.previous.value[App].version, job.target) && job.targets.value[App].version == job.target)
  }

  predicate OnRecord(job: Job, service: Service, image: Image) {
    || (job.previous.Some? && service in job.previous.value && image == job.previous.value[service])
    || (job.targets.Some? && service in job.targets.value && image == job.targets.value[service])
  }

  predicate EffectOk(job: Job, pc: Pc, containers: Images, m: Move) {
    && (Late(job.status) && Late(m.job.status) ==>
          m.job == job.(status := m.job.status, reserved := m.job.reserved, cleanup := m.job.cleanup))
    && (!Late(job.status) && Late(m.job.status) ==>
          m.job.status == BackingUp && m.job.previous == Some(containers) && Accepted(m.job) && m.effect == Nothing)
    && (m.effect.Write? ==> job.previous == Some(m.effect.images) || job.targets == Some(m.effect.images))
    && (m.effect.Place? ==> OnRecord(job, m.effect.service, m.effect.image))
    && (m.effect == Verify ==> m.next == Some(SucceedPhase) || m.next == Some(RolledBackPhase))
    && (m.next == Some(SucceedPhase) || m.next == Some(RolledBackPhase) ==> m.effect == Verify)
    && (m.next == Some(RollPhase) ==> m.mark)
    && (m.job.status != job.status ==> Turn(job.status, pc, m.job.status))
    && (m.job.status != job.status ==> m.save && m.effect == Nothing)
  }

  /** The program counter at which a job takes a new status. */
  predicate Turn(before: Status, pc: Pc, after: Status) {
    match after
    case Applying => before == BackingUp
    case RollingBack => Cutting(before) && pc == RollPhase
    case Succeeded => before == Applying && pc == SucceedPhase
    case RolledBack => before == RollingBack && pc == RolledBackPhase
    case RollbackFailed => before == RollingBack
    case Failed => !Touching(before)
    case _ => !Touching(before)
  }

  lemma BackupPhaseEffect(job: Job, prev: Images, images: Images, containers: Images, source: Option<Images>, r: Reply)
    requires Ready(job, BackupPhase(prev, images), containers, false)
    ensures EffectOk(job, BackupPhase(prev, images), containers, Prepare(job, BackupPhase(prev, images), containers, source, r))
  {
    hide Older, Compatibility;
  }

  lemma EarlyEffect(job: Job, pc: Pc, containers: Images, source: Option<Images>, r: Reply)
    requires Ready(job, pc, containers, false) && Preparatory(pc) && !pc.BackupPhase?
    ensures EffectOk(job, pc, containers, Prepare(job, pc, containers, source, r))
  {
    hide Older, Compatibility, Admitted, Accepted, Selected, OnRecord;
  }

  lemma ApplyEffect(job: Job, pc: Pc, containers: Images, r: Reply)
    requires Ready(job, pc, containers, false) && Applicative(pc)
    ensures EffectOk(job, pc, containers, Apply(job, pc, containers, r))
  {
    hide Older, Compatibility, Admitted, Accepted;
  }

  lemma RollEffect(job: Job, pc: Pc, containers: Images, recovering: bool, r: Reply)
    requires Ready(job, pc, containers, recovering)
    requires pc.RollPhase? || pc.WritePrevious? || pc.UpPrevious? || pc.VerifyPrevious?
    ensures EffectOk(job, pc, containers, Restore(job, pc, containers, recovering, r))
  {
    hide Older, Compatibility, Admitted, Accepted, Selected;
  }

  lemma FinalEffect(job: Job, pc: Pc, containers: Images, recovering: bool, r: Reply)
    requires Ready(job, pc, containers, recovering)
    requires pc.RolledBackPhase? || pc.RollFailPhase? || pc.FailPhase?
    ensures EffectOk(job, pc, containers, Restore(job, pc, containers, recovering, r))
  {
    hide Older, Compatibility, Admitted, Accepted, Selected;
  }

  lemma EndEffect(job: Job, pc: Pc, containers: Images, recovering: bool, r: Reply)
    requires Ready(job, pc, containers, recovering)
    requires pc.Except? || pc.RolledBackPhase? || pc.RollFailPhase? || pc.FailPhase? || pc.Release?
    ensures EffectOk(job, pc, containers, Restore(job, pc, containers, recovering, r))
  {
    if pc.Except? || pc.Release? {
      hide PcOk, Older, Compatibility, Admitted, Accepted, Selected, Recorded;
    } else {
      hide Restore, EffectOk, Ready;
      FinalEffect(job, pc, containers, recovering, r);
    }
  }

  lemma TriageEffect(job: Job, containers: Images, recovering: bool)
    requires Ready(job, Triage, containers, recovering)
    ensures EffectOk(job, Triage, containers, Triaged(job))
  {
  }

  lemma DecideEffect(job: Job, pc: Pc, containers: Images, recovering: bool, source: Option<Images>, r: Reply)
    requires Ready(job, pc, containers, recovering)
    ensures EffectOk(job, pc, containers, Decide(job, pc, containers, recovering, source, r))
  {
    hide PcOk, EffectOk, Prepare, Apply, Restore, Triaged;
    if pc == Triage {
      TriageEffect(job, containers, recovering);
    } else if pc.BackupPhase? {
      BackupPhaseEffect(job, pc.prev, pc.images, containers, source, r);
    } else if Preparatory(pc) {
      EarlyEffect(job, pc, containers, source, r);
    } else if Applicative(pc) {
      ApplyEffect(job, pc, containers, r);
    } else if pc.RollPhase? || pc.WritePrevious? || pc.UpPrevious? || pc.VerifyPrevious? {
      RollEffect(job, pc, containers, recovering, r);
    } else {
      EndEffect(job, pc, containers, recovering, r);
    }
  }

  /** Both readings of the move at a sane state. */
  lemma MoveFacts(s: State, r: Reply)
    requires Sane(s) && AtJob(s) && s.ctl.pc != Quiet
    ensures var job, m := s.mem.jobs[s.ctl.job], MoveAt(s, r);
            && PcOk(job, s.ctl.pc, s.containers)
            && (Late(job.status) ==> Recorded(job, s.containers.Keys))
            && MoveOk(job, s.containers, s.ctl.recovering, m) && EffectOk(job, s.ctl.pc, s.containers, m)
  {
    hide MoveOk, EffectOk, Decide;
    var job := s.mem.jobs[s.ctl.job];
    assert JobOk(s.mem.jobs, s.ctl.job, s.containers.Keys);
    if job.kind.Rollback? { assert JobOk(s.mem.jobs, job.kind.of, s.containers.Keys); }
    DecideOk(job, s.ctl.pc, s.containers, s.ctl.recovering, SourceOf(s.mem.jobs, job), r);
    DecideEffect(job, s.ctl.pc, s.containers, s.ctl.recovering, SourceOf(s.mem.jobs, job), r);
  }
}
