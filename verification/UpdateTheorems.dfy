/** The results about whole runs of the updater. */
module UpdateTheorems {
  import opened Prelude
  import opened UpdateAgent
  import opened UpdateSafety

  /* ---- The invariant ---- */

  function LastEvent(s: State): Option<Event> {
    if s.events == [] then None else Some(s.events[|s.events| - 1])
  }

  /** A change in progress has left every container at its old or its new image. */
  ghost predicate Mixed(containers: Images, job: Job) {
    forall svc :: svc in containers ==> OnRecord(job, svc, containers[svc])
  }

  ghost predicate EventOk(s: State, e: Event) {
    e.job < |s.mem.jobs| && Touching(s.mem.jobs[e.job].status)
  }

  /** A final status has its evidence in the history. */
  ghost predicate Evidence(events: seq<Event>, j: nat, job: Job) {
    && (job.status == Succeeded ==> job.targets.Some? && Verified(j, job.targets.value) in events)
    && (job.status == RolledBack ==> job.previous.Some? && Verified(j, job.previous.value) in events)
  }

  ghost predicate Truthful(s: State) {
    && (forall e :: e in s.events ==> EventOk(s, e))
    && (forall j :: 0 <= j < |s.mem.jobs| ==> Evidence(s.events, j, s.mem.jobs[j]))
    && (s.ctl.Up? && (s.ctl.pc == SucceedPhase || s.ctl.pc == RolledBackPhase) ==>
          LastEvent(s) == Some(Verified(s.ctl.job, s.containers)))
  }

  /** What runs now, told from the record of one job that is unfinished or acted last. */
  ghost predicate Running(containers: Images, job: Job) {
    && (job.status == BackingUp ==> job.previous == Some(containers))
    && (Cutting(job.status) ==> Mixed(containers, job))
  }

  ghost predicate Outcome(containers: Images, job: Job) {
    && (job.status == Succeeded ==> job.targets == Some(containers))
    && (job.status == RolledBack ==> job.previous == Some(containers))
    && (job.status == RollbackFailed ==> Mixed(containers, job))
  }

  ghost predicate Settled(s: State, base: Images) {
    && (s.events == [] ==> s.containers == base)
    && (forall j :: 0 <= j < |s.mem.jobs| ==> Running(s.containers, s.mem.jobs[j]))
    && (LastEvent(s).Some? ==>
          LastEvent(s).value.job < |s.mem.jobs| && Outcome(s.containers, s.mem.jobs[LastEvent(s).value.job]))
  }

  ghost predicate Acceptance(s: State) {
    forall j :: 0 <= j < |s.mem.jobs| && Late(s.mem.jobs[j].status) ==> Accepted(s.mem.jobs[j])
  }

  predicate AllLabelled(images: Images, tag: string) {
    forall svc :: svc in images ==> images[svc].compat == tag
  }

  predicate JobLabelled(job: Job, tag: string) {
    job.previous.Some? && job.targets.Some? && AllLabelled(job.previous.value, tag) && AllLabelled(job.targets.value, tag)
  }

  predicate EventLabelled(e: Event, tag: string) {
    match e
    case Wrote(_, images) => AllLabelled(images, tag)
    case Placed(_, _, image) => image.compat == tag
    case Verified(_, observed) => AllLabelled(observed, tag)
  }

  ghost predicate Labelled(s: State, tag: string) {
    && AllLabelled(s.containers, tag)
    && (s.override.Some? ==> AllLabelled(s.override.value, tag))
    && (forall j :: 0 <= j < |s.mem.jobs| && Late(s.mem.jobs[j].status) ==> JobLabelled(s.mem.jobs[j], tag))
    && (forall e :: e in s.events ==> EventLabelled(e, tag))
  }

  predicate Undone(st: Status) { st.RollingBack? || st.RolledBack? || st.RollbackFailed? }

  predicate IsListed(job: Job, failed: set<string>) {
    job.kind == Update && Undone(job.status) ==> job.target in failed
  }

  ghost predicate Listed(s: State) {
    && (forall j :: 0 <= j < |s.mem.jobs| ==> IsListed(s.mem.jobs[j], s.disk.failed))
    && (s.ctl.Up? && s.ctl.pc == RollPhase && s.ctl.job < |s.mem.jobs| && s.mem.jobs[s.ctl.job].kind == Update ==>
          s.mem.jobs[s.ctl.job].target in s.mem.failed)
  }

  ghost predicate OnlyUpdates(jobs: seq<Job>) {
    forall j :: 0 <= j < |jobs| ==> jobs[j].kind == Update
  }

  predicate Reached(job: Job, version: string) { job.status == Succeeded ==> NotNewer(job.target, version) }

  /** No deployment runs behind a version that an earlier update installed. */
  ghost predicate Ascending(s: State) {
    OnlyUpdates(s.mem.jobs) && App in s.containers ==>
      && (forall i :: 0 <= i < |s.mem.jobs| ==> Reached(s.mem.jobs[i], s.containers[App].version))
      && (forall i, j :: 0 <= i < j < |s.mem.jobs| && Late(s.mem.jobs[j].status) && s.mem.jobs[j].previous.Some? &&
                         App in s.mem.jobs[j].previous.value ==>
            Reached(s.mem.jobs[i], s.mem.jobs[j].previous.value[App].version))
  }

  /* ---- Preservation by a step of the thread ---- */

  lemma JobsOfStep(s: State, r: Reply)
    requires Sane(s) && AtJob(s) && s.ctl.pc != Quiet
    ensures var s', m := WorkStep(s, r), MoveAt(s, r);
            && s' == Perform(s, m)
            && |s'.mem.jobs| == |s.mem.jobs| && s'.mem.jobs[s.ctl.job] == m.job
            && (forall i :: 0 <= i < |s.mem.jobs| && i != s.ctl.job ==> s'.mem.jobs[i] == s.mem.jobs[i])
            && (m.effect != Nothing ==> s.ctl.job == |s.mem.jobs| - 1)
            && (forall i :: 0 <= i < |s.mem.jobs| - 1 ==> Terminal(s.mem.jobs[i].status))
  {
    hide Decide;
    MoveFacts(s, r);
    forall i | 0 <= i < |s.mem.jobs| - 1 ensures Terminal(s.mem.jobs[i].status) {
      assert JobOk(s.mem.jobs, i, s.containers.Keys);
    }
  }

  lemma WorkEvents(s: State, r: Reply)
    requires Sane(s) && s.ctl.Up? && Truthful(s) && AtJob(s) && s.ctl.pc != Quiet
    ensures forall e :: e in WorkStep(s, r).events ==> EventOk(WorkStep(s, r), e)
  {
    hide Decide, Accepted, PcOk;
    MoveFacts(s, r);
    JobsOfStep(s, r);
    var s' := WorkStep(s, r);
    forall e | e in s'.events ensures EventOk(s', e) {
      if e in s.events { assert EventOk(s, e); }
    }
  }

  lemma WorkEvidence(s: State, r: Reply)
    requires Sane(s) && s.ctl.Up? && Truthful(s) && AtJob(s) && s.ctl.pc != Quiet
    ensures var s' := WorkStep(s, r);
            forall i :: 0 <= i < |s'.mem.jobs| ==> Evidence(s'.events, i, s'.mem.jobs[i])
  {
    hide Decide, Accepted, EventOk;
    MoveFacts(s, r);
    JobsOfStep(s, r);
    var s', j := WorkStep(s, r), s.ctl.job;
    assert Evidence(s.events, j, s.mem.jobs[j]);
    forall i | 0 <= i < |s'.mem.jobs| ensures Evidence(s'.events, i, s'.mem.jobs[i]) {
      assert Evidence(s.events, i, s.mem.jobs[i]);
      forall e | e in s.events ensures e in s'.events {}
    }
  }

  lemma WorkVerifies(s: State, r: Reply)
    requires Sane(s) && s.ctl.Up? && Truthful(s) && AtJob(s) && s.ctl.pc != Quiet
    ensures var s' := WorkStep(s, r);
            s'.ctl.Up? && (s'.ctl.pc == SucceedPhase || s'.ctl.pc == RolledBackPhase) ==>
              LastEvent(s') == Some(Verified(s'.ctl.job, s'.containers))
  {
    hide Decide, Accepted, EventOk, Evidence, PcOk;
    MoveFacts(s, r);
    JobsOfStep(s, r);
  }

  lemma WorkTruthful(s: State, r: Reply)
    requires Sane(s) && s.ctl.Up? && Truthful(s)
    ensures Truthful(WorkStep(s, r))
  {
    hide Decide, Accepted, PcOk, Evidence, Sane;
    if AtJob(s) && s.ctl.pc != Quiet {
      WorkEvents(s, r);
      WorkEvidence(s, r);
      WorkVerifies(s, r);
    }
  }

  function After(containers: Images, m: Move): Images {
    if m.effect.Place? then containers[m.effect.service := m.effect.image] else containers
  }

  lemma MoveRunning(job: Job, pc: Pc, containers: Images, recovering: bool, m: Move)
    requires PcOk(job, pc, containers) && MoveOk(job, containers, recovering, m) && EffectOk(job, pc, containers, m)
    requires Late(job.status) ==> Recorded(job, containers.Keys)
    requires Running(containers, job)
    ensures Running(After(containers, m), m.job)
    ensures !Touching(job.status) || m.job.status == job.status || Outcome(After(containers, m), m.job)
  {
    hide MoveOk, EffectOk, PcOk, Running, Outcome;
    MoveStaysRunning(job, pc, containers, recovering, m);
    MoveOutcome(job, pc, containers, recovering, m);
  }

  lemma MoveStaysRunning(job: Job, pc: Pc, containers: Images, recovering: bool, m: Move)
    requires PcOk(job, pc, containers) && MoveOk(job, containers, recovering, m) && EffectOk(job, pc, containers, m)
    requires Late(job.status) ==> Recorded(job, containers.Keys)
    requires Running(containers, job)
    ensures Running(After(containers, m), m.job)
  {
    hide Accepted, Selected, Older, Admitted, Compatibility, PcOk;
  }

  lemma MoveOutcome(job: Job, pc: Pc, containers: Images, recovering: bool, m: Move)
    requires PcOk(job, pc, containers) && MoveOk(job, containers, recovering, m) && EffectOk(job, pc, containers, m)
    requires Late(job.status) ==> Recorded(job, containers.Keys)
    requires Running(containers, job)
    ensures !Touching(job.status) || m.job.status == job.status || Outcome(After(containers, m), m.job)
  {
    hide Accepted, Selected, Older, Admitted, Compatibility;
  }

  lemma WorkSettled(s: State, r: Reply, base: Images)
    requires Sane(s) && s.ctl.Up? && Truthful(s) && Settled(s, base)
    ensures Settled(WorkStep(s, r), base)
  {
    hide Decide, Accepted, PcOk, Running, Outcome;
    if AtJob(s) && s.ctl.pc != Quiet {
      MoveFacts(s, r);
      JobsOfStep(s, r);
      var s', j, m := WorkStep(s, r), s.ctl.job, MoveAt(s, r);
      MoveRunning(s.mem.jobs[j], s.ctl.pc, s.containers, s.ctl.recovering, m);
      forall i | 0 <= i < |s'.mem.jobs| ensures Running(s'.containers, s'.mem.jobs[i]) {
        assert Running(s.containers, s.mem.jobs[i]);
        if i != j && m.effect != Nothing { TerminalRuns(s'.containers, s.mem.jobs[i]); }
      }
      SettledOutcome(s, m, base);
    }
  }

  lemma TerminalRuns(containers: Images, job: Job)
    requires Terminal(job.status)
    ensures Running(containers, job)
  {
  }

  lemma UnfinishedOutcome(containers: Images, job: Job)
    requires !Terminal(job.status)
    ensures Outcome(containers, job)
  {
  }

  lemma SettledOutcome(s: State, m: Move, base: Images)
    requires AtJob(s) && Truthful(s) && Settled(s, base)
    requires MoveOk(s.mem.jobs[s.ctl.job], s.containers, s.ctl.recovering, m)
    requires EffectOk(s.mem.jobs[s.ctl.job], s.ctl.pc, s.containers, m)
    requires var job := s.mem.jobs[s.ctl.job];
             !Touching(job.status) || m.job.status == job.status || Outcome(After(s.containers, m), m.job)
    ensures var s' := Perform(s, m);
            LastEvent(s').Some? ==>
              LastEvent(s').value.job < |s'.mem.jobs| && Outcome(s'.containers, s'.mem.jobs[LastEvent(s').value.job])
  {
    hide Accepted, PcOk;
    var s' := Perform(s, m);
    if m.effect == Nothing {
      assert s'.events == s.events;
      if LastEvent(s).Some? { assert EventOk(s, LastEvent(s).value); }
    } else {
      UnfinishedOutcome(s'.containers, m.job);
    }
  }

  lemma WorkAcceptance(s: State, r: Reply)
    requires Sane(s) && s.ctl.Up? && Acceptance(s)
    ensures Acceptance(WorkStep(s, r))
  {
    hide Decide;
    if AtJob(s) && s.ctl.pc != Quiet {
      MoveFacts(s, r);
      JobsOfStep(s, r);
    }
  }

  lemma WorkLabelled(s: State, r: Reply, tag: string)
    requires Sane(s) && s.ctl.Up? && Acceptance(s) && Labelled(s, tag)
    ensures Labelled(WorkStep(s, r), tag)
  {
    hide Decide, PcOk;
    if AtJob(s) && s.ctl.pc != Quiet {
      MoveFacts(s, r);
      JobsOfStep(s, r);
      var s', j, m := WorkStep(s, r), s.ctl.job, MoveAt(s, r);
      assert Late(m.job.status) ==> JobLabelled(m.job, tag);
      forall e | e in s'.events ensures EventLabelled(e, tag) {
        if e in s.events { assert EventLabelled(e, tag); }
      }
    }
  }

  lemma WorkListed(s: State, r: Reply)
    requires Sane(s) && s.ctl.Up? && Listed(s)
    ensures Listed(WorkStep(s, r))
  {
    hide Decide, Accepted;
    if AtJob(s) && s.ctl.pc != Quiet {
      MoveFacts(s, r);
      JobsOfStep(s, r);
      var s' := WorkStep(s, r);
      assert s.disk.failed <= s'.disk.failed;
      forall i | 0 <= i < |s'.mem.jobs| ensures IsListed(s'.mem.jobs[i], s'.disk.failed) {
        assert IsListed(s.mem.jobs[i], s.disk.failed);
      }
    }
  }

  /* Version order: `NotNewer` is transitive and `Older` absorbs it. */

  lemma OlderChain(a: string, b: string, c: string)
    ensures NotNewer(a, b) && Older(b, c) ==> Older(a, c) && NotNewer(a, c)
    ensures Older(a, b) ==> NotNewer(b, b)
  {
    hide ParseVersion;
  }

  lemma MoveAscending(job: Job, pc: Pc, containers: Images, recovering: bool, m: Move, other: Job)
    requires PcOk(job, pc, containers) && MoveOk(job, containers, recovering, m) && EffectOk(job, pc, containers, m)
    requires App in containers && job.kind == Update && Running(containers, job)
    requires Late(job.status) ==> Accepted(job)
    requires Reached(other, containers[App].version)
    requires Late(job.status) ==> Reached(other, job.previous.value[App].version)
    ensures App in After(containers, m) && Reached(other, After(containers, m)[App].version)
    ensures Late(m.job.status) && m.job.previous.Some? && App in m.job.previous.value ==>
              Reached(other, m.job.previous.value[App].version)
  {
    hide Older, NotNewer, Compatibility, Admitted, Selected;
    if Late(job.status) {
      OlderChain(other.target, job.previous.value[App].version, job.target);
    }
  }

  lemma MoveReaches(job: Job, pc: Pc, containers: Images, recovering: bool, m: Move)
    requires PcOk(job, pc, containers) && MoveOk(job, containers, recovering, m) && EffectOk(job, pc, containers, m)
    requires App in containers && job.kind == Update
    requires Late(job.status) ==> Accepted(job)
    requires Reached(job, containers[App].version)
    requires m.effect != Nothing ==> !Terminal(job.status)
    ensures App in After(containers, m) && Reached(m.job, After(containers, m)[App].version)
  {
    hide Older, NotNewer, Compatibility, Admitted, Selected;
    if Late(job.status) {
      OlderChain(job.previous.value[App].version, job.target, job.target);
    }
  }

  lemma WorkAscending(s: State, r: Reply, base: Images)
    requires Sane(s) && s.ctl.Up? && Settled(s, base) && Acceptance(s) && Ascending(s)
    ensures Ascending(WorkStep(s, r))
  {
    hide Decide, PcOk, Accepted, Running, MoveOk, EffectOk, Reached;
    var s' := WorkStep(s, r);
    if AtJob(s) && s.ctl.pc != Quiet && OnlyUpdates(s'.mem.jobs) {
      MoveFacts(s, r);
      JobsOfStep(s, r);
      var j, m := s.ctl.job, MoveAt(s, r);
      MoveKind(s.mem.jobs[j], s.containers, s.ctl.recovering, m);
      forall i | 0 <= i < |s.mem.jobs| ensures s.mem.jobs[i].kind == Update {
        assert s'.mem.jobs[i].kind == Update;
      }
      AscendingStep(s, m, base);
    }
  }

  lemma MoveKind(job: Job, containers: Images, recovering: bool, m: Move)
    requires MoveOk(job, containers, recovering, m)
    ensures m.job.kind == job.kind && (m.effect != Nothing ==> !Terminal(job.status))
  {
  }

  lemma AscendingStep(s: State, m: Move, base: Images)
    requires Sane(s) && AtJob(s) && Settled(s, base) && Acceptance(s) && Ascending(s) && OnlyUpdates(s.mem.jobs)
    requires var job := s.mem.jobs[s.ctl.job];
             && PcOk(job, s.ctl.pc, s.containers) && MoveOk(job, s.containers, s.ctl.recovering, m)
             && EffectOk(job, s.ctl.pc, s.containers, m)
    requires m.effect != Nothing ==> s.ctl.job == |s.mem.jobs| - 1
    requires forall i :: 0 <= i < |s.mem.jobs| - 1 ==> Terminal(s.mem.jobs[i].status)
    ensures Ascending(Perform(s, m))
  {
    hide PcOk, Accepted, Running, MoveOk, EffectOk, Reached, Outcome;
    var j, jobs := s.ctl.job, s.mem.jobs;
    var s' := Perform(s, m);
    var jobs' := s'.mem.jobs;
    MoveKind(jobs[j], s.containers, s.ctl.recovering, m);
    MoveReaches(jobs[j], s.ctl.pc, s.containers, s.ctl.recovering, m);
    assert Running(s.containers, jobs[j]);
    forall i | 0 <= i < j
      ensures Reached(jobs[i], s'.containers[App].version)
      ensures Late(m.job.status) && m.job.previous.Some? && App in m.job.previous.value ==>
                Reached(jobs[i], m.job.previous.value[App].version)
    {
      LateRecord(jobs[j]);
      MoveAscending(jobs[j], s.ctl.pc, s.containers, s.ctl.recovering, m, jobs[i]);
    }
    assert m.effect == Nothing ==> s'.containers == s.containers;
    forall i | j < i < |jobs| ensures Reached(jobs'[i], s'.containers[App].version) {}
    forall i, k | 0 <= i < k < |jobs'| && Late(jobs'[k].status) && jobs'[k].previous.Some? && App in jobs'[k].previous.value
      ensures Reached(jobs'[i], jobs'[k].previous.value[App].version)
    {
      if i == j { SameTarget(jobs[j], s.containers, s.ctl.recovering, m, jobs[k].previous.value[App].version); }
    }
  }

  lemma LateRecord(job: Job)
    ensures Accepted(job) ==> job.previous.Some? && App in job.previous.value
  {
    hide Older, Compatibility, Admitted;
  }

  /** A job with a later one after it is final and keeps its status. */
  lemma SameTarget(job: Job, containers: Images, recovering: bool, m: Move, version: string)
    requires MoveOk(job, containers, recovering, m) && Terminal(job.status)
    requires Reached(job, version)
    ensures Reached(m.job, version)
  {
  }

  /* ---- Every action, every run ---- */

  ghost predicate Good(s: State, base: Images, tag: string) {
    && Sane(s) && Truthful(s) && Settled(s, base) && Acceptance(s) && Listed(s) && Ascending(s)
    && (AllLabelled(base, tag) ==> Labelled(s, tag))
  }

  lemma WorkGood(s: State, r: Reply, base: Images, tag: string)
    requires Good(s, base, tag) && s.ctl.Up?
    ensures Good(WorkStep(s, r), base, tag)
  {
    hide WorkStep, Sane, Truthful, Settled, Acceptance, Listed, Ascending, Labelled;
    WorkSane(s, r);
    WorkTruthful(s, r);
    WorkSettled(s, r, base);
    WorkAcceptance(s, r);
    WorkListed(s, r);
    WorkAscending(s, r, base);
    if AllLabelled(base, tag) { WorkLabelled(s, r, tag); }
  }

  /** A queued job adds nothing to check. */
  lemma EnqueueGood(s: State, s': State, base: Images, tag: string)
    requires Good(s, base, tag) && s.ctl.Up? && s.ctl.pc == Quiet && Sane(s')
    requires |s'.mem.jobs| == |s.mem.jobs| + 1
    requires s' == Enqueue(s.(mem := s.mem.(autoInstall := s'.mem.autoInstall)), s'.mem.jobs[|s.mem.jobs|])
    requires s'.mem.jobs[|s.mem.jobs|].status == Queued && s'.mem.jobs[|s.mem.jobs|].previous == None
    ensures Good(s', base, tag)
  {
    hide Sane, Accepted, NotNewer;
    var n := |s.mem.jobs|;
    assert forall i :: 0 <= i < n ==> s'.mem.jobs[i] == s.mem.jobs[i];
    assert s.disk.failed <= s'.disk.failed by { assert Sane(s) ==> s.disk.failed <= s.mem.failed by { SaneDisk(s); } }
    forall e | e in s'.events ensures EventOk(s', e) { assert EventOk(s, e); }
    forall i | 0 <= i < n + 1 ensures Evidence(s'.events, i, s'.mem.jobs[i]) {
      if i < n { assert Evidence(s.events, i, s.mem.jobs[i]); }
    }
    forall i | 0 <= i < n + 1 ensures IsListed(s'.mem.jobs[i], s'.disk.failed) {
      if i < n { assert IsListed(s.mem.jobs[i], s.disk.failed); }
    }
    EnqueueAscending(s, s');
    forall i | 0 <= i < n + 1 ensures Running(s'.containers, s'.mem.jobs[i]) {
      if i < n { assert Running(s.containers, s.mem.jobs[i]); }
    }
  }

  lemma SaneDisk(s: State)
    ensures Sane(s) ==> s.disk.failed <= s.mem.failed && s.disk.jobs == s.mem.jobs
  {
  }

  lemma EnqueueAscending(s: State, s': State)
    requires Ascending(s) && |s'.mem.jobs| == |s.mem.jobs| + 1 && s'.containers == s.containers
    requires forall i :: 0 <= i < |s.mem.jobs| ==> s'.mem.jobs[i] == s.mem.jobs[i]
    requires s'.mem.jobs[|s.mem.jobs|].status == Queued
    ensures Ascending(s')
  {
    hide NotNewer;
    if OnlyUpdates(s'.mem.jobs) {
      forall i | 0 <= i < |s.mem.jobs| ensures s.mem.jobs[i].kind == Update { assert s'.mem.jobs[i].kind == Update; }
    }
  }

  /** The actions that change no job: policy, release check, crash and restart. */
  lemma QuietActionGood(s: State, s': State, base: Images, tag: string)
    requires Good(s, base, tag) && Sane(s')
    requires s'.mem.jobs == s.mem.jobs && s'.containers == s.containers && s'.events == s.events && s'.override == s.override
    requires s.disk.failed <= s'.disk.failed && (s'.ctl == s.ctl && s.ctl.Up? ==> s'.mem.failed == s.mem.failed)
    requires s'.ctl == s.ctl || s'.ctl == Down || s'.ctl == Up(true, 0, Triage)
    ensures Good(s', base, tag)
  {
    hide Sane, Accepted, NotNewer, JobLabelled, EventLabelled;
    forall e | e in s'.events ensures EventOk(s', e) { assert EventOk(s, e); }
    forall i | 0 <= i < |s'.mem.jobs| ensures IsListed(s'.mem.jobs[i], s'.disk.failed) {
      assert IsListed(s.mem.jobs[i], s.disk.failed);
    }
  }

  lemma StepGood(s: State, a: Action, base: Images, tag: string)
    requires Good(s, base, tag)
    ensures Good(Step(s, a), base, tag)
  {
    hide Sane, Truthful, Settled, Acceptance, Listed, Ascending, Labelled, WorkStep, SubmitStep;
    StepSane(s, a);
    SaneDisk(s);
    match a
    case Work(r) => if s.ctl.Up? { WorkGood(s, r, base, tag); }
    case Submit(target, rollback, requestId) =>
      if s.ctl.Up? && !s.ctl.recovering {
        SubmitSane(s, target, rollback, requestId);
        var s' := SubmitStep(s, target, rollback, requestId);
        if s' != s { EnqueueGood(s, s', base, tag); }
      }
    case _ => QuietActionGood(s, Step(s, a), base, tag);
  }

  lemma {:induction false} RunGood(s: State, run: seq<Action>, base: Images, tag: string)
    requires Good(s, base, tag)
    ensures Good(Run(s, run), base, tag)
    decreases |run|
  {
    hide Good, Step;
    if run != [] {
      StepGood(s, run[0], base, tag);
      RunGood(Step(s, run[0]), run[1..], base, tag);
    }
  }

  lemma EveryRunIsGood(base: Images, run: seq<Action>, tag: string)
    requires App in base
    ensures Good(Run(Initial(base), run), base, tag)
  {
    RunGood(Initial(base), run, base, tag);
  }

  /* ---- The results ---- */

  predicate ActedIn(events: seq<Event>, j: nat) { exists e :: e in events && e.job == j }

  /** Main result 1. On the disk of every reachable state, crashes included: a job that failed,
      or has not reached `applying`, never touched the override or a container; a succeeded job
      passed every check with each service on its target image; a rolled back job passed every
      check with each service on its previous image; and a job in the middle of a change has
      its previous images on disk. */
  lemma StatusesAreTrue(base: Images, run: seq<Action>, j: nat)
    requires App in base && j < |Run(Initial(base), run).disk.jobs|
    ensures var s := Run(Initial(base), run);
            var job := s.disk.jobs[j];
            && (!Touching(job.status) ==> !ActedIn(s.events, j))
            && (job.status == Succeeded ==> job.targets.Some? && Verified(j, job.targets.value) in s.events)
            && (job.status == RolledBack ==> job.previous.Some? && Verified(j, job.previous.value) in s.events)
            && (Cutting(job.status) ==> job.previous.Some? && job.previous.value.Keys == s.containers.Keys)
  {
    hide Run, Settled, Acceptance, Listed, Ascending, Labelled;
    EveryRunIsGood(base, run, "");
    var s := Run(Initial(base), run);
    SaneDisk(s);
    assert Evidence(s.events, j, s.mem.jobs[j]);
    assert JobOk(s.mem.jobs, j, s.containers.Keys);
    if ActedIn(s.events, j) {
      var e :| e in s.events && e.job == j;
      assert EventOk(s, e);
    }
  }

  /** Main result 2. At most one job is unfinished, on disk and in memory, and none while the
      updater is idle. */
  lemma OneJobAtATime(base: Images, run: seq<Action>, i: nat, j: nat)
    requires App in base && i < |Run(Initial(base), run).disk.jobs| && j < |Run(Initial(base), run).disk.jobs|
    ensures var s := Run(Initial(base), run);
            && (!Terminal(s.disk.jobs[i].status) && !Terminal(s.disk.jobs[j].status) ==> i == j)
            && (s.ctl.Up? && s.ctl.pc == Quiet ==> Terminal(s.disk.jobs[i].status))
            && s.mem.jobs == s.disk.jobs
  {
    hide Run, Truthful, Settled, Acceptance, Listed, Ascending, Labelled;
    EveryRunIsGood(base, run, "");
    var s := Run(Initial(base), run);
    SaneDisk(s);
    assert JobOk(s.mem.jobs, i, s.containers.Keys) && JobOk(s.mem.jobs, j, s.containers.Keys);
  }

  /** Main result 3. While the updater is idle, what runs is known from the journal: the base
      deployment if no job ever acted, else exactly the target images or exactly the previous
      images of the job that acted last, and only a failed rollback leaves a mixture of the two. */
  lemma IdleDeploymentIsKnown(base: Images, run: seq<Action>)
    requires App in base
    requires var s := Run(Initial(base), run); s.ctl.Up? && s.ctl.pc == Quiet
    ensures var s := Run(Initial(base), run);
            && (s.events == [] ==> s.containers == base)
            && (s.events != [] ==>
                  var j := s.events[|s.events| - 1].job;
                  j < |s.disk.jobs| &&
                  var job := s.disk.jobs[j];
                  || (job.status == Succeeded && job.targets == Some(s.containers))
                  || (job.status == RolledBack && job.previous == Some(s.containers))
                  || (job.status == RollbackFailed && Mixed(s.containers, job)))
  {
    hide Run, Acceptance, Listed, Ascending, Labelled, Mixed;
    EveryRunIsGood(base, run, "");
    var s := Run(Initial(base), run);
    SaneDisk(s);
    if s.events != [] {
      var e := s.events[|s.events| - 1];
      assert e in s.events && EventOk(s, e);
    }
  }

  /** Main result 4. Every image a job ever wrote to the override or put in a container carries
      the compatibility label of the base deployment. */
  lemma CompatibilityNeverChanges(base: Images, run: seq<Action>, tag: string)
    requires App in base && AllLabelled(base, tag)
    ensures var s := Run(Initial(base), run);
            && AllLabelled(s.containers, tag)
            && (s.override.Some? ==> AllLabelled(s.override.value, tag))
            && forall e :: e in s.events ==> EventLabelled(e, tag)
  {
    hide Run, Sane, Truthful, Settled, Acceptance, Listed, Ascending;
    EveryRunIsGood(base, run, tag);
  }

  /** Main result 5. A job that saw PostgreSQL as the primary database and got as far as its
      backup has only targets that support it. */
  lemma PostgresTargetsAreCapable(base: Images, run: seq<Action>, j: nat)
    requires App in base && j < |Run(Initial(base), run).disk.jobs|
    ensures var job := Run(Initial(base), run).disk.jobs[j];
            Late(job.status) && job.database.Some? && job.database.value.postgres ==>
              job.targets.Some? && forall svc :: svc in job.targets.value ==> job.targets.value[svc].database
  {
    hide Run, Truthful, Settled, Listed, Ascending, Labelled, Compatibility, Older;
    EveryRunIsGood(base, run, "");
    SaneDisk(Run(Initial(base), run));
  }

  /** Main result 6. A version whose update was undone, or could not be, is in the durable list
      of failed versions that `poll` consults before it installs anything. */
  lemma UndoneVersionsAreListed(base: Images, run: seq<Action>, j: nat)
    requires App in base && j < |Run(Initial(base), run).disk.jobs|
    ensures var s := Run(Initial(base), run);
            s.disk.jobs[j].kind == Update && Undone(s.disk.jobs[j].status) ==> s.disk.jobs[j].target in s.disk.failed
  {
    hide Run, Truthful, Settled, Acceptance, Ascending, Labelled;
    EveryRunIsGood(base, run, "");
    var s := Run(Initial(base), run);
    SaneDisk(s);
    assert IsListed(s.mem.jobs[j], s.disk.failed);
  }

  /** Main result 7. In a journal without rollback jobs the versions of succeeded updates
      strictly increase, and no container of the application runs behind them. */
  lemma VersionsIncrease(base: Images, run: seq<Action>, i: nat, j: nat)
    requires App in base && i < |Run(Initial(base), run).disk.jobs|
    requires OnlyUpdates(Run(Initial(base), run).disk.jobs)
    ensures var s := Run(Initial(base), run);
            s.disk.jobs[i].status == Succeeded ==>
              && App in s.containers && NotNewer(s.disk.jobs[i].target, s.containers[App].version)
              && (i < j < |s.disk.jobs| && s.disk.jobs[j].status == Succeeded ==>
                    Older(s.disk.jobs[i].target, s.disk.jobs[j].target))
  {
    hide Run, Truthful, Settled, Listed, Labelled, NotNewer, Older, Compatibility, Admitted;
    EveryRunIsGood(base, run, "");
    var s := Run(Initial(base), run);
    SaneDisk(s);
    assert Reached(s.mem.jobs[i], s.containers[App].version);
    if i < j < |s.mem.jobs| && s.mem.jobs[i].status == Succeeded && s.mem.jobs[j].status == Succeeded {
      var job := s.mem.jobs[j];
      assert Accepted(job);
      assert Reached(s.mem.jobs[i], job.previous.value[App].version);
      OlderChain(s.mem.jobs[i].target, job.previous.value[App].version, job.target);
    }
  }

  /* ---- Recovery ends ---- */

  function PcRank(pc: Pc): nat {
    match pc
    case Triage => 8
    case RollPhase => 7
    case WritePrevious => 6
    case UpPrevious => 5
    case VerifyPrevious => 4
    case Release => 2
    case _ => 3
  }

  function Rank(s: State): nat {
    if s.ctl.Up? && s.ctl.recovering && s.ctl.job <= |s.mem.jobs| then 9 * (|s.mem.jobs| - s.ctl.job) + PcRank(s.ctl.pc) else 0
  }

  /** Every answer but the recreation of one more container brings recovery nearer to its end. */
  lemma RecoveryProgress(s: State, r: Reply)
    requires Sane(s) && s.ctl.Up? && s.ctl.recovering
    ensures var s' := WorkStep(s, r);
            && |s'.mem.jobs| == |s.mem.jobs|
            && (s'.ctl == Up(false, 0, Quiet)
                || (s'.ctl.Up? && s'.ctl.recovering && Rank(s') <= Rank(s) - Answers([r])))
  {
    hide PcOk, Decide, Compatibility, Older, Admitted, PcRank;
    if AtJob(s) {
      var job := s.mem.jobs[s.ctl.job];
      assert RecoverPc(s.ctl.pc);
      RecoveryMoves(job, s.ctl.pc, s.containers, SourceOf(s.mem.jobs, job), r);
    }
    PcRankBounds();
  }

  lemma PcRankBounds()
    ensures PcRank(Triage) == 8 && forall pc :: 2 <= PcRank(pc) <= 8
  {
  }

  lemma RecoveryMoves(job: Job, pc: Pc, containers: Images, source: Option<Images>, r: Reply)
    requires RecoverPc(pc)
    ensures var m := Decide(job, pc, containers, true, source, r);
            m.next.Some? ==> RecoverPc(m.next.value) && PcRank(m.next.value) <= PcRank(pc) - if r.Recreated? then 0 else 1
  {
    hide Prepare, Apply, Compatibility, Older, Admitted;
  }

  /** How many of the replies are not the recreation of a container. */
  function Answers(replies: seq<Reply>): nat
    decreases |replies|
  {
    if replies == [] then 0 else (if replies[0].Recreated? then 0 else 1) + Answers(replies[1..])
  }

  function WorkAll(s: State, replies: seq<Reply>): State
    decreases |replies|
  {
    if replies == [] then s else WorkAll(Step(s, Work(replies[0])), replies[1..])
  }

  lemma {:induction false} WorkAllEnds(s: State, replies: seq<Reply>)
    requires Sane(s) && (s.ctl == Up(false, 0, Quiet) || (s.ctl.Up? && s.ctl.recovering))
    requires Answers(replies) >= Rank(s)
    ensures WorkAll(s, replies).ctl == Up(false, 0, Quiet) && Sane(WorkAll(s, replies))
    decreases |replies|
  {
    hide Sane, WorkStep, PcRank;
    if replies != [] {
      assert Answers(replies) == Answers([replies[0]]) + Answers(replies[1..]);
      StepSane(s, Work(replies[0]));
      if s.ctl.recovering {
        RecoveryProgress(s, replies[0]);
      } else {
        QuietStays(s, replies[0]);
      }
      WorkAllEnds(Step(s, Work(replies[0])), replies[1..]);
    } else if s.ctl.recovering {
      RankPositive(s);
    }
  }

  lemma QuietStays(s: State, r: Reply)
    requires s.ctl == Up(false, 0, Quiet)
    ensures WorkStep(s, r) == s
  {
  }

  lemma RankPositive(s: State)
    requires Sane(s) && s.ctl.Up? && s.ctl.recovering
    ensures Rank(s) > 0
  {
  }

  /** Main result 8. From every reachable crash, a restart that is not interrupted reaches an
      idle updater with every job in a final status, however Docker answers: it needs at most nine
      answers per journaled job and eight more, besides the containers that `compose up`
      recreates on the way, of which there may be any number, before a success or a failure. */
  lemma RecoveryFinishesEveryJob(base: Images, run: seq<Action>, replies: seq<Reply>, j: nat)
    requires App in base && Run(Initial(base), run).ctl == Down
    requires Answers(replies) >= 9 * |Run(Initial(base), run).disk.jobs| + 8
    ensures var s := WorkAll(Step(Run(Initial(base), run), Start), replies);
            s.ctl == Up(false, 0, Quiet) && (j < |s.disk.jobs| ==> Terminal(s.disk.jobs[j].status))
  {
    hide Run, Truthful, Settled, Acceptance, Listed, Ascending, Labelled, WorkAll;
    EveryRunIsGood(base, run, "");
    var s := Run(Initial(base), run);
    StepSane(s, Start);
    WorkAllEnds(Step(s, Start), replies);
    SaneDisk(WorkAll(Step(s, Start), replies));
  }

  /* ---- A rollback restores what ran before the job it names ---- */

  /** The images a thread has chosen but not recorded yet. */
  function ChosenImages(pc: Pc): Option<Images> {
    match pc
    case Check(_, images) => Some(images)
    case Pin(_, images) => Some(images)
    case Reserve(_, images) => Some(images)
    case ReserveCall(_, images) => Some(images)
    case BackupPhase(_, images) => Some(images)
    case _ => None
  }

  lemma RollbackMove(job: Job, pc: Pc, containers: Images, source: Option<Images>, r: Reply)
    requires Ready(job, pc, containers, false) && Preparatory(pc) && job.kind.Rollback?
    requires ChosenImages(pc).Some? ==> ChosenImages(pc) == source
    ensures var m := Prepare(job, pc, containers, source, r);
            && (m.next.Some? && ChosenImages(m.next.value).Some? ==> ChosenImages(m.next.value) == source)
            && (!Late(job.status) && Late(m.job.status) ==> m.job.targets == source)
  {
    hide Older, Compatibility, Admitted, Selected;
  }

  lemma ApplyMoves(job: Job, pc: Pc, containers: Images, r: Reply)
    requires PcOk(job, pc, containers) && Applicative(pc)
    ensures var m := Apply(job, pc, containers, r);
            && (m.next.Some? ==> ChosenImages(m.next.value) == None)
            && (!Late(job.status) ==> !Late(m.job.status))
  {
    hide Older, Compatibility, Admitted, Selected;
  }

  lemma RestoreMoves(job: Job, pc: Pc, containers: Images, recovering: bool, r: Reply)
    requires PcOk(job, pc, containers) && pc != Quiet && pc != Triage && !Preparatory(pc) && !Applicative(pc)
    ensures var m := Restore(job, pc, containers, recovering, r);
            && (m.next.Some? ==> ChosenImages(m.next.value) == None)
            && (!Late(job.status) ==> !Late(m.job.status))
  {
    hide Older, Compatibility, Admitted, Selected;
  }

  lemma OtherMoves(job: Job, pc: Pc, containers: Images, recovering: bool, source: Option<Images>, r: Reply)
    requires Ready(job, pc, containers, recovering) && !Preparatory(pc)
    ensures var m := Decide(job, pc, containers, recovering, source, r);
            && (m.next.Some? ==> ChosenImages(m.next.value) == None)
            && (!Late(job.status) ==> !Late(m.job.status))
  {
    hide Older, Compatibility, Admitted, Selected, Prepare, Apply, Restore, PcOk;
    if pc != Triage && Applicative(pc) {
      ApplyMoves(job, pc, containers, r);
    } else if pc != Triage {
      RestoreMoves(job, pc, containers, recovering, r);
    }
  }

  ghost predicate Faithful(jobs: seq<Job>, j: nat)
    requires j < |jobs|
  {
    jobs[j].kind.Rollback? && jobs[j].kind.of < |jobs| && Late(jobs[j].status) ==>
      jobs[j].targets == jobs[jobs[j].kind.of].previous
  }

  ghost predicate Sourced(s: State) {
    && (forall j :: 0 <= j < |s.mem.jobs| ==> Faithful(s.mem.jobs, j))
    && (AtJob(s) && s.mem.jobs[s.ctl.job].kind.Rollback? && ChosenImages(s.ctl.pc).Some? ==>
          ChosenImages(s.ctl.pc) == SourceOf(s.mem.jobs, s.mem.jobs[s.ctl.job]))
  }

  lemma MoveSourced(job: Job, pc: Pc, containers: Images, recovering: bool, source: Option<Images>, r: Reply)
    requires Ready(job, pc, containers, recovering) && job.kind.Rollback?
    requires ChosenImages(pc).Some? ==> ChosenImages(pc) == source
    ensures var m := Decide(job, pc, containers, recovering, source, r);
            && (m.next.Some? && ChosenImages(m.next.value).Some? ==> ChosenImages(m.next.value) == source)
            && (!Late(job.status) && Late(m.job.status) ==> m.job.targets == source)
  {
    hide Decide, Prepare, PcOk;
    if Preparatory(pc) {
      RollbackMove(job, pc, containers, source, r);
      DecidePrepares(job, pc, containers, source, r);
    } else {
      OtherMoves(job, pc, containers, recovering, source, r);
    }
  }

  lemma WorkSourced(s: State, r: Reply)
    requires Sane(s) && s.ctl.Up? && Sourced(s)
    ensures Sourced(WorkStep(s, r))
  {
    hide Decide, PcOk, Accepted, MoveOk, EffectOk;
    if AtJob(s) && s.ctl.pc != Quiet {
      var j, m, s' := s.ctl.job, MoveAt(s, r), WorkStep(s, r);
      var job := s.mem.jobs[j];
      MoveFacts(s, r);
      JobsOfStep(s, r);
      MoveKind(job, s.containers, s.ctl.recovering, m);
      MoveStays(job, s.ctl.pc, s.containers, s.ctl.recovering, m);
      forall i | 0 <= i < |s.mem.jobs| ensures JobOk(s.mem.jobs, i, s.containers.Keys) {}
      if job.kind.Rollback? {
        MoveSourced(job, s.ctl.pc, s.containers, s.ctl.recovering, SourceOf(s.mem.jobs, job), r);
        assert JobOk(s.mem.jobs, j, s.containers.Keys);
        assert SourceOf(s'.mem.jobs, m.job) == SourceOf(s.mem.jobs, job);
      }
      forall i | 0 <= i < |s'.mem.jobs| ensures Faithful(s'.mem.jobs, i) {
        assert Faithful(s.mem.jobs, i) && JobOk(s.mem.jobs, i, s.containers.Keys);
      }
    }
  }

  /** The record of a job that got to its backup no longer changes, and a final status stays. */
  lemma MoveStays(job: Job, pc: Pc, containers: Images, recovering: bool, m: Move)
    requires MoveOk(job, containers, recovering, m) && EffectOk(job, pc, containers, m)
    ensures Terminal(job.status) ==> m.job.status == job.status
    ensures Late(job.status) && Late(m.job.status) ==> m.job.previous == job.previous && m.job.targets == job.targets
  {
  }

  lemma DecidePrepares(job: Job, pc: Pc, containers: Images, source: Option<Images>, r: Reply)
    requires Preparatory(pc)
    ensures Decide(job, pc, containers, false, source, r) == Prepare(job, pc, containers, source, r)
  {
    hide Prepare;
  }

  lemma StepSourced(s: State, a: Action)
    requires Sane(s) && Sourced(s)
    ensures Sourced(Step(s, a))
  {
    hide WorkStep, PcOk;
    forall i | 0 <= i < |s.mem.jobs| ensures Faithful(s.mem.jobs, i) && JobOk(s.mem.jobs, i, s.containers.Keys) {}
    match a
    case Work(r) => if s.ctl.Up? { WorkSourced(s, r); }
    case Submit(target, rollback, requestId) =>
      var s' := Step(s, a);
      forall i | 0 <= i < |s'.mem.jobs| ensures Faithful(s'.mem.jobs, i) {
        if i < |s.mem.jobs| { assert Faithful(s.mem.jobs, i); }
      }
    case _ =>
  }

  lemma {:induction false} RunSourced(s: State, run: seq<Action>)
    requires Sane(s) && Sourced(s)
    ensures Sourced(Run(s, run)) && Sane(Run(s, run))
    decreases |run|
  {
    hide Sane, Sourced, Step;
    if run != [] {
      StepSane(s, run[0]);
      StepSourced(s, run[0]);
      RunSourced(Step(s, run[0]), run[1..]);
    }
  }

  /** Main result 9. A rollback job that got as far as its backup names an earlier succeeded job,
      and its target images are exactly the deployment that job replaced. */
  lemma RollbackRestoresThePast(base: Images, run: seq<Action>, j: nat)
    requires App in base && j < |Run(Initial(base), run).disk.jobs|
    ensures var jobs := Run(Initial(base), run).disk.jobs;
            jobs[j].kind.Rollback? && Late(jobs[j].status) ==>
              var k := jobs[j].kind.of;
              k < j && jobs[k].status == Succeeded && jobs[k].previous.Some? && jobs[j].targets == jobs[k].previous
  {
    hide Run;
    RunSourced(Initial(base), run);
    var s := Run(Initial(base), run);
    assert JobOk(s.mem.jobs, j, s.containers.Keys) && Faithful(s.mem.jobs, j);
    if s.mem.jobs[j].kind.Rollback? { assert JobOk(s.mem.jobs, s.mem.jobs[j].kind.of, s.containers.Keys); }
  }
}
