/** Which answers of the outside world make a job of the updater end in which status. */
module UpdateOutcome {
  import opened Prelude
  import opened UpdateAgent
  import opened UpdateSafety
  import opened UpdateTheorems

  /* ---- The checks that passed in a run ---- */

  /** The checks after `compose up` passed for a job, with these images in the containers; `forward`
      distinguishes the check of an installation from the check of a restoration. */
  datatype Pass = Pass(job: nat, forward: bool, images: Images)

  /** The answer "done" to a thread that stands at the checks of its job. */
  function CheckPassed(s: State, a: Action): set<Pass> {
    if a == Work(Done) && s.ctl.Up? && (s.ctl.pc.VerifyTarget? || s.ctl.pc.VerifyPrevious?)
    then {Pass(s.ctl.job, s.ctl.pc.VerifyTarget?, s.containers)} else {}
  }

  function ChecksPassed(s: State, run: seq<Action>): set<Pass>
    decreases |run|
  {
    if run == [] then {} else CheckPassed(s, run[0]) + ChecksPassed(Step(s, run[0]), run[1..])
  }

  predicate IsProven(passed: set<Pass>, j: nat, job: Job) {
    && (job.status == Succeeded ==> job.targets.Some? && Pass(j, true, job.targets.value) in passed)
    && (job.status == RolledBack ==> job.previous.Some? && Pass(j, false, job.previous.value) in passed)
  }

  ghost predicate Proven(s: State, passed: set<Pass>) {
    && (forall j :: 0 <= j < |s.mem.jobs| ==> IsProven(passed, j, s.mem.jobs[j]))
    && (s.ctl.Up? && s.ctl.pc == SucceedPhase ==> Pass(s.ctl.job, true, s.containers) in passed)
    && (s.ctl.Up? && s.ctl.pc == RolledBackPhase ==> Pass(s.ctl.job, false, s.containers) in passed)
  }

  /** The two final phases are entered from the checks alone, and only on the answer "done". */
  predicate EntersOnDone(pc: Pc, r: Reply, m: Move) {
    && (m.next == Some(SucceedPhase) ==> r == Done && pc.VerifyTarget? && m.effect == Verify)
    && (m.next == Some(RolledBackPhase) ==> r == Done && pc.VerifyPrevious? && m.effect == Verify)
  }

  lemma PrepareEnters(job: Job, pc: Pc, containers: Images, source: Option<Images>, r: Reply)
    requires Preparatory(pc)
    ensures EntersOnDone(pc, r, Prepare(job, pc, containers, source, r))
  {
    hide Older, Compatibility, Admitted;
  }

  lemma ApplyEnters(job: Job, pc: Pc, containers: Images, r: Reply)
    requires Applicative(pc)
    ensures EntersOnDone(pc, r, Apply(job, pc, containers, r))
  {
  }

  lemma RestoreEnters(job: Job, pc: Pc, containers: Images, recovering: bool, r: Reply)
    requires !Preparatory(pc) && !Applicative(pc)
    ensures EntersOnDone(pc, r, Restore(job, pc, containers, recovering, r))
  {
  }

  lemma FinalPhasesFollowChecks(job: Job, pc: Pc, containers: Images, recovering: bool, source: Option<Images>, r: Reply)
    requires pc != Quiet
    ensures EntersOnDone(pc, r, Decide(job, pc, containers, recovering, source, r))
  {
    hide Prepare, Apply, Restore;
    if Preparatory(pc) {
      PrepareEnters(job, pc, containers, source, r);
    } else if Applicative(pc) {
      ApplyEnters(job, pc, containers, r);
    } else {
      RestoreEnters(job, pc, containers, recovering, r);
    }
  }

  lemma MoveProven(job: Job, pc: Pc, containers: Images, m: Move, passed: set<Pass>, j: nat)
    requires PcOk(job, pc, containers) && EffectOk(job, pc, containers, m)
    requires Late(job.status) ==> Recorded(job, containers.Keys)
    requires IsProven(passed, j, job)
    requires pc == SucceedPhase ==> Pass(j, true, containers) in passed
    requires pc == RolledBackPhase ==> Pass(j, false, containers) in passed
    ensures IsProven(passed, j, m.job)
  {
    hide Accepted, Selected, Older, Admitted, Compatibility;
  }

  lemma WorkProven(s: State, r: Reply, passed: set<Pass>)
    requires Sane(s) && s.ctl.Up? && Proven(s, passed)
    ensures Proven(WorkStep(s, r), passed + CheckPassed(s, Work(r)))
  {
    hide Decide, PcOk, MoveOk, EffectOk, Sane, IsProven;
    if AtJob(s) && s.ctl.pc != Quiet {
      var j, job, m, s' := s.ctl.job, s.mem.jobs[s.ctl.job], MoveAt(s, r), WorkStep(s, r);
      var passed' := passed + CheckPassed(s, Work(r));
      MoveFacts(s, r);
      JobsOfStep(s, r);
      FinalPhasesFollowChecks(job, s.ctl.pc, s.containers, s.ctl.recovering, SourceOf(s.mem.jobs, job), r);
      assert IsProven(passed, j, job);
      MoveProven(job, s.ctl.pc, s.containers, m, passed, j);
      forall i | 0 <= i < |s'.mem.jobs| ensures IsProven(passed', i, s'.mem.jobs[i]) {
        StillProven(passed, passed', i, s'.mem.jobs[i]);
      }
    } else {
      forall i | 0 <= i < |s.mem.jobs| ensures IsProven(passed + CheckPassed(s, Work(r)), i, s.mem.jobs[i]) {
        StillProven(passed, passed + CheckPassed(s, Work(r)), i, s.mem.jobs[i]);
      }
    }
  }

  lemma StillProven(passed: set<Pass>, passed': set<Pass>, j: nat, job: Job)
    requires passed <= passed'
    ensures IsProven(passed, j, job) ==> IsProven(passed', j, job)
  {
  }

  lemma StepProven(s: State, a: Action, passed: set<Pass>)
    requires Sane(s) && Proven(s, passed)
    ensures Proven(Step(s, a), passed + CheckPassed(s, a))
  {
    hide WorkStep, Sane;
    match a
    case Work(r) => if s.ctl.Up? { WorkProven(s, r, passed); }
    case Submit(target, rollback, requestId) =>
    case _ => SaneDisk(s);
  }

  lemma {:induction false} RunProven(s: State, run: seq<Action>, passed: set<Pass>)
    requires Sane(s) && Proven(s, passed)
    ensures Sane(Run(s, run)) && Proven(Run(s, run), passed + ChecksPassed(s, run))
    decreases |run|
  {
    hide Sane, Proven, Step, CheckPassed;
    if run == [] {
      assert passed + {} == passed;
    } else {
      StepSane(s, run[0]);
      StepProven(s, run[0], passed);
      RunProven(Step(s, run[0]), run[1..], passed + CheckPassed(s, run[0]));
      assert passed + CheckPassed(s, run[0]) + ChecksPassed(Step(s, run[0]), run[1..]) == passed + ChecksPassed(s, run);
    }
  }

  /** Main result 1. In every run: a job that is recorded as succeeded, or as rolled back, was
      answered "done" when its thread stood at the checks with every container running exactly its
      target images, or its previous images. */
  lemma FinalStatusesWereChecked(base: Images, run: seq<Action>, j: nat)
    requires App in base && j < |Run(Initial(base), run).disk.jobs|
    ensures var job := Run(Initial(base), run).disk.jobs[j];
            var passed := ChecksPassed(Initial(base), run);
            && (job.status == Succeeded ==> job.targets.Some? && Pass(j, true, job.targets.value) in passed)
            && (job.status == RolledBack ==> job.previous.Some? && Pass(j, false, job.previous.value) in passed)
  {
    hide Run, ChecksPassed, Sane;
    InitialSane(base);
    RunProven(Initial(base), run, {});
    var s := Run(Initial(base), run);
    SaneDisk(s);
    assert {} + ChecksPassed(Initial(base), run) == ChecksPassed(Initial(base), run);
    assert IsProven(ChecksPassed(Initial(base), run), j, s.mem.jobs[j]);
  }

  lemma InitialSane(base: Images)
    requires App in base
    ensures Sane(Initial(base)) && Proven(Initial(base), {})
  {
  }

  /* ---- The answers on which an uninterrupted job succeeds ---- */

  /** The checks of a chosen deployment against the one that runs. */
  predicate Fits(db: Database, prev: Images, images: Images) {
    && App in images && (Preview in prev || images[App].combined)
    && Compatibility(images) == Compatibility(prev)
    && (db.postgres ==> forall svc :: svc in images ==> images[svc].database)
    && images != prev
  }

  /** The first `n` answers recreate containers of these images. */
  predicate Recreates(images: Images, answers: seq<Reply>, n: nat) {
    n <= |answers| && forall k :: 0 <= k < n ==> answers[k].Recreated? && answers[k].service in images
  }

  predicate Covered(containers: Images, images: Images, answers: seq<Reply>, n: nat)
    requires n <= |answers|
  {
    containers.Keys == images.Keys
    && forall svc :: svc in images ==> containers[svc] == images[svc] || Recreated(svc) in answers[..n]
  }

  /** `compose up` recreates every container that differs and succeeds, all checks pass, and the
      status is saved. */
  predicate Replaces(containers: Images, images: Images, answers: seq<Reply>) {
    exists n: nat :: n <= |answers| && ReplacesAfter(containers, images, answers, n)
  }

  predicate ReplacesAfter(containers: Images, images: Images, answers: seq<Reply>, n: nat) {
    && n + 3 <= |answers| && Recreates(images, answers, n) && Covered(containers, images, answers, n)
    && answers[n] == Done && answers[n + 1] == Done
  }

  /** The backup, the override, the replacement: two steps save a phase and ask nothing. */
  predicate BacksUpAndReplaces(prev: Images, images: Images, answers: seq<Reply>) {
    && |answers| >= 4 && answers[1] == Done && answers[3] == Done
    && images.Keys == prev.Keys && Replaces(prev, images, answers[4..])
  }

  predicate Installs(db: Database, prev: Images, images: Images, answers: seq<Reply>) {
    && |answers| >= 2 && answers[0] == Done && Fits(db, prev, images) && answers[1] == Done
    && if db.capable
       then |answers| >= 4 && answers[3] == Done && BacksUpAndReplaces(prev, images, answers[4..])
       else BacksUpAndReplaces(prev, images, answers[2..])
  }

  /** From the choice of images on. */
  predicate Selects(job: Job, source: Option<Images>, prev: Images, db: Database, answers: seq<Reply>) {
    && |answers| >= 1 && answers[0] == Done && Compatibility(prev) != None
    && match job.kind
       case Rollback(_) => source.Some? && Installs(db, prev, source.value, answers[1..])
       case Update =>
         && App in prev && Older(prev[App].version, job.target)
         && |answers| >= 3 && answers[2].Pulled? && answers[2].image.version == job.target && answers[2].image.official
         && Installs(db, prev, map svc | svc in prev :: answers[2].image, answers[3..])
  }

  /** The answers that a job needs, in their order, from `preparing` to `succeeded`. */
  predicate Favourable(job: Job, source: Option<Images>, prev: Images, answers: seq<Reply>) {
    |answers| >= 2 && answers[1].Reported? && Selects(job, source, prev, answers[1].database, answers[2..])
  }

  predicate Ends(s: State, answers: seq<Reply>, j: nat, status: Status) {
    var t := WorkAll(s, answers);
    j < |t.mem.jobs| && t.mem.jobs[j].status == status
  }

  /* ---- Off the way to success there is no way back ---- */

  predicate Lost(s: State, j: nat) {
    && j < |s.mem.jobs| && s.mem.jobs[j].status != Succeeded
    && (s.ctl.Up? && s.ctl.job == j ==> !Preparatory(s.ctl.pc) && !Applicative(s.ctl.pc))
  }

  lemma LosingMove(job: Job, pc: Pc, containers: Images, recovering: bool, source: Option<Images>, r: Reply)
    requires !Preparatory(pc) && !Applicative(pc)
    ensures var m := Decide(job, pc, containers, recovering, source, r);
            && (m.next.Some? ==> !Preparatory(m.next.value) && !Applicative(m.next.value))
            && (job.status != Succeeded ==> m.job.status != Succeeded)
  {
  }

  /** One step of the thread on a job, told by its move. */
  lemma StepIsMove(s: State, r: Reply)
    requires AtJob(s) && s.ctl.pc != Quiet
    ensures var j, m, s' := s.ctl.job, MoveAt(s, r), Step(s, Work(r));
            && s'.containers == After(s.containers, m) && s'.mem.jobs == s.mem.jobs[j := m.job]
            && s'.ctl == if m.next.Some? then Up(s.ctl.recovering, j, m.next.value)
                         else if s.ctl.recovering then Up(true, j + 1, Triage) else Up(false, 0, Quiet)
  {
    hide Decide;
  }

  lemma LostStays(s: State, r: Reply, j: nat)
    requires Lost(s, j)
    ensures Lost(Step(s, Work(r)), j)
  {
    hide Decide;
    if AtJob(s) && s.ctl.pc != Quiet {
      StepIsMove(s, r);
      var job := s.mem.jobs[s.ctl.job];
      if s.ctl.job == j {
        LosingMove(job, s.ctl.pc, s.containers, s.ctl.recovering, SourceOf(s.mem.jobs, job), r);
      }
    }
  }

  lemma {:induction false} LostForEver(s: State, answers: seq<Reply>, j: nat)
    requires Lost(s, j)
    ensures !Ends(s, answers, j, Succeeded)
    decreases |answers|
  {
    hide Step;
    if answers != [] {
      LostStays(s, answers[0], j);
      LostForEver(Step(s, Work(answers[0])), answers[1..], j);
    }
  }

  /** Job `j` has its final status and the thread is done with it, but for the release. */
  predicate Rests(s: State, j: nat, status: Status) {
    && j < |s.mem.jobs| && s.mem.jobs[j].status == status && s.ctl.Up?
    && (s.ctl.pc == Quiet || s.ctl.job > j || (s.ctl.job == j && s.ctl.pc == Release))
  }

  lemma RestsOn(s: State, r: Reply, j: nat, status: Status)
    requires Rests(s, j, status)
    ensures Rests(Step(s, Work(r)), j, status)
  {
    hide Prepare, Apply, Triaged;
    if AtJob(s) && s.ctl.pc != Quiet { StepIsMove(s, r); }
  }

  lemma {:induction false} RestsForEver(s: State, answers: seq<Reply>, j: nat, status: Status)
    requires Rests(s, j, status)
    ensures Rests(WorkAll(s, answers), j, status)
    decreases |answers|
  {
    if answers != [] {
      RestsOn(s, answers[0], j, status);
      hide Step;
      RestsForEver(Step(s, Work(answers[0])), answers[1..], j, status);
    }
  }

  /* ---- One lemma for each stage ---- */

  /** The thread of job `j` stands at `pc`, no container has changed, and the database has been seen. */
  predicate Stands(s: State, j: nat, pc: Pc, prev: Images, db: Database) {
    && s.ctl == Up(false, j, pc) && j < |s.mem.jobs| && s.mem.jobs[j].status != Succeeded
    && s.containers == prev && s.mem.jobs[j].database == Some(db)
  }

  lemma EndsNext(s: State, answers: seq<Reply>, j: nat, status: Status)
    requires answers != []
    ensures Ends(s, answers, j, status) <==> Ends(Step(s, Work(answers[0])), answers[1..], j, status)
  {
  }

  lemma NothingEnds(s: State, j: nat, status: Status)
    requires j < |s.mem.jobs| && s.mem.jobs[j].status != status
    ensures !Ends(s, [], j, status)
  {
  }

  /** One step of a job that has not succeeded yet: it ends as the state after the step ends. */
  lemma Stage(s: State, j: nat, answers: seq<Reply>)
    requires AtJob(s) && s.ctl.job == j && s.ctl.pc != Quiet && !s.ctl.recovering && s.mem.jobs[j].status != Succeeded
    ensures answers == [] ==> !Ends(s, answers, j, Succeeded)
    ensures answers != [] ==>
              var m, s' := MoveAt(s, answers[0]), Step(s, Work(answers[0]));
              && s'.containers == After(s.containers, m) && s'.mem.jobs == s.mem.jobs[j := m.job]
              && s'.ctl == (if m.next.Some? then Up(false, j, m.next.value) else Up(false, 0, Quiet))
              && (Ends(s, answers, j, Succeeded) <==> Ends(s', answers[1..], j, Succeeded))
              && (Lost(s', j) ==> !Ends(s, answers, j, Succeeded))
  {
    hide Decide, Ends;
    if answers == [] {
      NothingEnds(s, j, Succeeded);
    } else {
      StepIsMove(s, answers[0]);
      EndsNext(s, answers, j, Succeeded);
      if Lost(Step(s, Work(answers[0])), j) { LostForEver(Step(s, Work(answers[0])), answers[1..], j); }
    }
  }

  lemma SuccessPhaseWins(s: State, j: nat, answers: seq<Reply>)
    requires s.ctl == Up(false, j, SucceedPhase) && j < |s.mem.jobs| && s.mem.jobs[j].status != Succeeded
    ensures Ends(s, answers, j, Succeeded) <==> answers != []
  {
    Stage(s, j, answers);
    if answers != [] {
      RestsForEver(Step(s, Work(answers[0])), answers[1..], j, Succeeded);
    }
  }

  lemma VerifyWins(s: State, j: nat, images: Images, answers: seq<Reply>)
    requires s.ctl == Up(false, j, VerifyTarget(images)) && j < |s.mem.jobs| && s.mem.jobs[j].status != Succeeded
    ensures Ends(s, answers, j, Succeeded) <==> |answers| >= 2 && answers[0] == Done && s.containers == images
  {
    hide Ends, Prepare, Restore;
    Stage(s, j, answers);
    if answers != [] && answers[0] == Done && s.containers == images {
      SuccessPhaseWins(Step(s, Work(answers[0])), j, answers[1..]);
    }
  }

  lemma FullyCovered(containers: Images, images: Images, answers: seq<Reply>)
    requires containers.Keys == images.Keys
    ensures Covered(containers, images, answers, 0) <==> containers == images
  {
    if Covered(containers, images, answers, 0) {
      forall svc | svc in images ensures containers[svc] == images[svc] {}
    }
  }

  /** One recreation first, the rest afterwards. */
  lemma RecreationShifts(containers: Images, images: Images, answers: seq<Reply>, n: nat)
    requires answers != [] && answers[0].Recreated? && answers[0].service in images
    ensures var svc := answers[0].service;
            svc in containers ==>
              (ReplacesAfter(containers[svc := images[svc]], images, answers[1..], n) <==>
               ReplacesAfter(containers, images, answers, n + 1))
  {
    var svc := answers[0].service;
    var containers' := containers[svc := images[svc]];
    var rest := answers[1..];
    if n + 1 <= |answers| {
      assert answers[..n + 1] == [Recreated(svc)] + rest[..n];
      assert Recreates(images, answers, n + 1) <==> Recreates(images, rest, n) by {
        if Recreates(images, rest, n) {
          forall k | 0 <= k < n + 1 ensures answers[k].Recreated? && answers[k].service in images {
            if k > 0 { assert answers[k] == rest[k - 1]; }
          }
        }
        if Recreates(images, answers, n + 1) {
          forall k | 0 <= k < n ensures rest[k].Recreated? && rest[k].service in images { assert rest[k] == answers[k + 1]; }
        }
      }
      if svc in containers {
        assert containers'.Keys == containers.Keys;
        assert Covered(containers', images, rest, n) <==> Covered(containers, images, answers, n + 1);
      }
    }
  }

  lemma ReplacesNext(containers: Images, images: Images, answers: seq<Reply>)
    requires containers.Keys == images.Keys && answers != [] && answers[0].Recreated? && answers[0].service in images
    ensures var svc := answers[0].service;
            Replaces(containers, images, answers) <==> Replaces(containers[svc := images[svc]], images, answers[1..])
  {
    hide ReplacesAfter;
    var svc := answers[0].service;
    var containers' := containers[svc := images[svc]];
    if Replaces(containers, images, answers) {
      var n: nat :| n <= |answers| && ReplacesAfter(containers, images, answers, n);
      NeverAtOnce(containers, images, answers, n);
      RecreationShifts(containers, images, answers, n - 1);
      assert ReplacesAfter(containers', images, answers[1..], n - 1);
    }
    if Replaces(containers', images, answers[1..]) {
      var n: nat :| n <= |answers[1..]| && ReplacesAfter(containers', images, answers[1..], n);
      RecreationShifts(containers, images, answers, n);
      assert ReplacesAfter(containers, images, answers, n + 1);
    }
  }

  lemma NeverAtOnce(containers: Images, images: Images, answers: seq<Reply>, n: nat)
    requires answers != [] && answers[0].Recreated? && ReplacesAfter(containers, images, answers, n)
    ensures 0 < n <= |answers|
  {
  }

  lemma ReplacesAtOnce(containers: Images, images: Images, answers: seq<Reply>)
    requires containers.Keys == images.Keys
    requires answers == [] || !answers[0].Recreated? || answers[0].service !in images
    ensures Replaces(containers, images, answers) <==>
              |answers| >= 3 && answers[0] == Done && answers[1] == Done && containers == images
  {
    FullyCovered(containers, images, answers);
    if Replaces(containers, images, answers) {
      var n: nat :| n <= |answers| && ReplacesAfter(containers, images, answers, n);
      assert n == 0;
    }
    if |answers| >= 3 && answers[0] == Done && answers[1] == Done && containers == images {
      assert ReplacesAfter(containers, images, answers, 0);
    }
  }

  lemma {:induction false} UpWins(s: State, j: nat, images: Images, answers: seq<Reply>)
    requires s.ctl == Up(false, j, UpTarget(images)) && j < |s.mem.jobs| && s.mem.jobs[j].status != Succeeded
    requires s.containers.Keys == images.Keys
    ensures Ends(s, answers, j, Succeeded) <==> Replaces(s.containers, images, answers)
    decreases |answers|
  {
    hide Ends, Replaces;
    if answers != [] && answers[0].Recreated? && answers[0].service in images {
      var svc := answers[0].service;
      var s' := Step(s, Work(answers[0]));
      StepIsMove(s, answers[0]);
      assert s'.containers == s.containers[svc := images[svc]] && s'.containers.Keys == images.Keys;
      EndsNext(s, answers, j, Succeeded);
      ReplacesNext(s.containers, images, answers);
      UpWins(s', j, images, answers[1..]);
    } else {
      ReplacesAtOnce(s.containers, images, answers);
      UpEnds(s, j, images, answers);
    }
  }

  lemma UpEnds(s: State, j: nat, images: Images, answers: seq<Reply>)
    requires s.ctl == Up(false, j, UpTarget(images)) && j < |s.mem.jobs| && s.mem.jobs[j].status != Succeeded
    requires answers == [] || !answers[0].Recreated? || answers[0].service !in images
    ensures Ends(s, answers, j, Succeeded) <==>
              |answers| >= 3 && answers[0] == Done && answers[1] == Done && s.containers == images
  {
    hide Ends;
    Stage(s, j, answers);
    if answers != [] && answers[0] == Done {
      VerifyWins(Step(s, Work(answers[0])), j, images, answers[1..]);
    }
  }

  lemma WriteWins(s: State, j: nat, images: Images, answers: seq<Reply>)
    requires s.ctl == Up(false, j, WriteTarget(images)) && j < |s.mem.jobs| && s.mem.jobs[j].status != Succeeded
    ensures Ends(s, answers, j, Succeeded) <==>
              |answers| >= 1 && answers[0] == Done && images.Keys == s.containers.Keys
              && Replaces(s.containers, images, answers[1..])
  {
    hide Ends, Replaces;
    Stage(s, j, answers);
    if answers != [] && answers[0] == Done && images.Keys == s.containers.Keys {
      UpWins(Step(s, Work(answers[0])), j, images, answers[1..]);
    }
  }

  lemma ApplyWins(s: State, j: nat, images: Images, answers: seq<Reply>)
    requires s.ctl == Up(false, j, ApplyPhase(images)) && j < |s.mem.jobs| && s.mem.jobs[j].status != Succeeded
    ensures Ends(s, answers, j, Succeeded) <==>
              |answers| >= 2 && answers[1] == Done && images.Keys == s.containers.Keys
              && Replaces(s.containers, images, answers[2..])
  {
    hide Ends, Replaces;
    Stage(s, j, answers);
    if answers != [] {
      WriteWins(Step(s, Work(answers[0])), j, images, answers[1..]);
      if |answers| >= 2 { assert answers[1..][1..] == answers[2..]; }
    }
  }

  lemma BackupWins(s: State, j: nat, images: Images, answers: seq<Reply>)
    requires s.ctl == Up(false, j, Backup(images)) && j < |s.mem.jobs| && s.mem.jobs[j].status != Succeeded
    ensures Ends(s, answers, j, Succeeded) <==>
              |answers| >= 3 && answers[0] == Done && answers[2] == Done && images.Keys == s.containers.Keys
              && Replaces(s.containers, images, answers[3..])
  {
    hide Ends, Replaces;
    Stage(s, j, answers);
    if answers != [] && answers[0] == Done {
      ApplyWins(Step(s, Work(answers[0])), j, images, answers[1..]);
      if |answers| >= 3 { assert answers[1..][2..] == answers[3..]; }
    }
  }

  lemma BackupPhaseWins(s: State, j: nat, prev: Images, images: Images, answers: seq<Reply>)
    requires s.ctl == Up(false, j, BackupPhase(prev, images)) && j < |s.mem.jobs| && s.mem.jobs[j].status != Succeeded
    requires s.containers == prev
    ensures Ends(s, answers, j, Succeeded) <==> BacksUpAndReplaces(prev, images, answers)
  {
    hide Ends, Replaces;
    Stage(s, j, answers);
    if answers != [] {
      BackupWins(Step(s, Work(answers[0])), j, images, answers[1..]);
      if |answers| >= 4 { assert answers[1..][3..] == answers[4..]; }
    }
  }

  lemma ReserveCallWins(s: State, j: nat, prev: Images, images: Images, answers: seq<Reply>)
    requires s.ctl == Up(false, j, ReserveCall(prev, images)) && j < |s.mem.jobs| && s.mem.jobs[j].status != Succeeded
    requires s.containers == prev
    ensures Ends(s, answers, j, Succeeded) <==>
              answers != [] && answers[0] == Done && BacksUpAndReplaces(prev, images, answers[1..])
  {
    hide Ends, BacksUpAndReplaces;
    Stage(s, j, answers);
    if answers != [] && answers[0] == Done {
      BackupPhaseWins(Step(s, Work(answers[0])), j, prev, images, answers[1..]);
    }
  }

  lemma ReserveWins(s: State, j: nat, prev: Images, images: Images, answers: seq<Reply>)
    requires s.ctl == Up(false, j, Reserve(prev, images)) && j < |s.mem.jobs| && s.mem.jobs[j].status != Succeeded
    requires s.containers == prev
    ensures Ends(s, answers, j, Succeeded) <==>
              |answers| >= 2 && answers[1] == Done && BacksUpAndReplaces(prev, images, answers[2..])
  {
    hide Ends, BacksUpAndReplaces;
    Stage(s, j, answers);
    if answers != [] {
      ReserveCallWins(Step(s, Work(answers[0])), j, prev, images, answers[1..]);
      if |answers| >= 2 { assert answers[1..][1..] == answers[2..]; }
    }
  }

  lemma PinWins(s: State, j: nat, prev: Images, images: Images, db: Database, answers: seq<Reply>)
    requires Stands(s, j, Pin(prev, images), prev, db)
    ensures Ends(s, answers, j, Succeeded) <==>
              && |answers| >= 1 && answers[0] == Done
              && if db.capable
                 then |answers| >= 3 && answers[2] == Done && BacksUpAndReplaces(prev, images, answers[3..])
                 else BacksUpAndReplaces(prev, images, answers[1..])
  {
    hide Ends, BacksUpAndReplaces;
    Stage(s, j, answers);
    if answers != [] && answers[0] == Done {
      var s' := Step(s, Work(answers[0]));
      if db.capable {
        ReserveWins(s', j, prev, images, answers[1..]);
        if |answers| >= 3 { assert answers[1..][2..] == answers[3..]; }
      } else {
        BackupPhaseWins(s', j, prev, images, answers[1..]);
      }
    }
  }

  lemma CheckWins(s: State, j: nat, prev: Images, images: Images, db: Database, answers: seq<Reply>)
    requires Stands(s, j, Check(prev, images), prev, db)
    ensures Ends(s, answers, j, Succeeded) <==> Installs(db, prev, images, answers)
  {
    hide Ends, BacksUpAndReplaces, Compatibility;
    Stage(s, j, answers);
    if answers != [] && answers[0] == Done && Fits(db, prev, images) {
      PinWins(Step(s, Work(answers[0])), j, prev, images, db, answers[1..]);
      if |answers| >= 2 { assert answers[1..][1..] == answers[2..]; }
      if |answers| >= 4 { assert answers[1..][3..] == answers[4..]; }
    }
  }

  lemma PullWins(s: State, j: nat, prev: Images, db: Database, answers: seq<Reply>)
    requires Stands(s, j, Pull(prev), prev, db)
    ensures Ends(s, answers, j, Succeeded) <==>
              && |answers| >= 1 && answers[0].Pulled? && answers[0].image.version == s.mem.jobs[j].target
              && answers[0].image.official
              && Installs(db, prev, map svc | svc in prev :: answers[0].image, answers[1..])
  {
    hide Ends, Installs;
    Stage(s, j, answers);
    if answers != [] {
      var r := answers[0];
      if r.Pulled? && r.image.version == s.mem.jobs[j].target && r.image.official {
        assert Uniform(prev.Keys, r.image) == map svc | svc in prev :: r.image;
        CheckWins(Step(s, Work(r)), j, prev, Uniform(prev.Keys, r.image), db, answers[1..]);
      }
    }
  }

  lemma PullPhaseWins(s: State, j: nat, prev: Images, db: Database, answers: seq<Reply>)
    requires Stands(s, j, PullPhase(prev), prev, db)
    ensures Ends(s, answers, j, Succeeded) <==>
              && |answers| >= 2 && answers[1].Pulled? && answers[1].image.version == s.mem.jobs[j].target
              && answers[1].image.official
              && Installs(db, prev, map svc | svc in prev :: answers[1].image, answers[2..])
  {
    hide Ends, Installs;
    Stage(s, j, answers);
    if answers != [] {
      PullWins(Step(s, Work(answers[0])), j, prev, db, answers[1..]);
      if |answers| >= 2 { assert answers[1..][1..] == answers[2..]; }
    }
  }

  lemma ChooseWins(s: State, j: nat, prev: Images, db: Database, answers: seq<Reply>)
    requires Stands(s, j, Choose(prev), prev, db) && App in prev
    ensures Ends(s, answers, j, Succeeded) <==>
              Selects(s.mem.jobs[j], SourceOf(s.mem.jobs, s.mem.jobs[j]), prev, db, answers)
  {
    hide Ends, Installs, Compatibility, Older;
    Stage(s, j, answers);
    if answers != [] && answers[0] == Done && Compatibility(prev) != None {
      var job, s' := s.mem.jobs[j], Step(s, Work(answers[0]));
      var source := SourceOf(s.mem.jobs, job);
      if job.kind.Rollback? && source.Some? {
        CheckWins(s', j, prev, source.value, db, answers[1..]);
      } else if job.kind.Update? && Older(prev[App].version, job.target) {
        PullPhaseWins(s', j, prev, db, answers[1..]);
        if |answers| >= 3 { assert answers[1..][2..] == answers[3..]; }
      }
    }
  }

  lemma InspectWins(s: State, j: nat, answers: seq<Reply>)
    requires s.ctl == Up(false, j, Inspect) && j < |s.mem.jobs| && s.mem.jobs[j].status != Succeeded && App in s.containers
    requires s.mem.jobs[j].kind.Rollback? ==> s.mem.jobs[j].kind.of < j
    ensures Ends(s, answers, j, Succeeded) <==>
              && |answers| >= 1 && answers[0].Reported?
              && Selects(s.mem.jobs[j], SourceOf(s.mem.jobs, s.mem.jobs[j]), s.containers, answers[0].database, answers[1..])
  {
    hide Ends, Installs, Compatibility, Older;
    Stage(s, j, answers);
    if answers != [] && answers[0].Reported? {
      ChooseWins(Step(s, Work(answers[0])), j, s.containers, answers[0].database, answers[1..]);
    }
  }

  lemma BeginWins(s: State, j: nat, answers: seq<Reply>)
    requires s.ctl == Up(false, j, Begin) && j < |s.mem.jobs| && s.mem.jobs[j].status != Succeeded && App in s.containers
    requires s.mem.jobs[j].kind.Rollback? ==> s.mem.jobs[j].kind.of < j
    ensures Ends(s, answers, j, Succeeded) <==>
              Favourable(s.mem.jobs[j], SourceOf(s.mem.jobs, s.mem.jobs[j]), s.containers, answers)
  {
    hide Ends, Selects;
    Stage(s, j, answers);
    if answers != [] {
      var s' := Step(s, Work(answers[0]));
      InspectWins(s', j, answers[1..]);
      assert SourceOf(s'.mem.jobs, s'.mem.jobs[j]) == SourceOf(s.mem.jobs, s.mem.jobs[j]);
      SameOrder(s.mem.jobs[j], s'.mem.jobs[j], SourceOf(s.mem.jobs, s.mem.jobs[j]), s.containers, answers);
      if |answers| >= 2 { assert answers[1..][1..] == answers[2..]; }
    }
  }

  lemma SameOrder(job: Job, job': Job, source: Option<Images>, prev: Images, answers: seq<Reply>)
    requires job'.kind == job.kind && job'.target == job.target
    ensures forall db, rest :: Selects(job', source, prev, db, rest) <==> Selects(job, source, prev, db, rest)
  {
    hide Installs, Compatibility, Older;
  }

  lemma {:induction false} WorkAllSane(s: State, answers: seq<Reply>)
    requires Sane(s)
    ensures Sane(WorkAll(s, answers))
    decreases |answers|
  {
    hide Sane, Step;
    if answers != [] {
      StepSane(s, Work(answers[0]));
      WorkAllSane(Step(s, Work(answers[0])), answers[1..]);
    }
  }

  /** Main result 2. In every reachable state in which a job begins: if nothing interrupts it, it is
      recorded as succeeded if and only if the answers are the favourable ones in their order. The
      database is reported, the image pulled is the official one of the target version, the chosen
      deployment fits, pinning, reservation, backup and override are done, every container that
      differs is recreated, and `compose up` and all checks after it are done. */
  lemma JobSucceedsIff(base: Images, run: seq<Action>, answers: seq<Reply>)
    requires App in base
    requires var s := Run(Initial(base), run); s.ctl.Up? && s.ctl.pc == Begin
    ensures var s := Run(Initial(base), run);
            var j, t := s.ctl.job, WorkAll(s, answers);
            && j < |s.disk.jobs| == |t.disk.jobs| && App in s.containers
            && (t.disk.jobs[j].status == Succeeded <==>
                  Favourable(s.disk.jobs[j], SourceOf(s.disk.jobs, s.disk.jobs[j]), s.containers, answers))
  {
    hide Run, Favourable, Selects, WorkAll;
    InitialSane(base);
    RunProven(Initial(base), run, {});
    var s := Run(Initial(base), run);
    SaneDisk(s);
    BeginFacts(s);
    var j, job := s.ctl.job, s.mem.jobs[s.ctl.job];
    BeginWins(s, j, answers);
    WorkAllSane(s, answers);
    SaneDisk(WorkAll(s, answers));
    SameNumber(s, answers);
  }

  lemma {:induction false} SameNumber(s: State, answers: seq<Reply>)
    ensures |WorkAll(s, answers).mem.jobs| == |s.mem.jobs|
    decreases |answers|
  {
    if answers != [] {
      StepSameNumber(s, answers[0]);
      hide Step;
      SameNumber(Step(s, Work(answers[0])), answers[1..]);
    }
  }

  lemma StepSameNumber(s: State, r: Reply)
    ensures |Step(s, Work(r)).mem.jobs| == |s.mem.jobs|
  {
    hide Decide;
  }

  lemma BeginFacts(s: State)
    requires Sane(s) && s.ctl.Up? && s.ctl.pc == Begin
    ensures var j := s.ctl.job;
            && s.ctl == Up(false, j, Begin) && j < |s.mem.jobs| && s.mem.jobs[j].status == Queued && App in s.containers
            && (s.mem.jobs[j].kind.Rollback? ==> s.mem.jobs[j].kind.of < j)
  {
    assert JobOk(s.mem.jobs, s.ctl.job, s.containers.Keys);
  }

  /* ---- The answers on which a restoration succeeds ---- */

  /** The thread stands at `pc` of job `j`, whose images are being restored. */
  predicate StandsBack(s: State, j: nat, pc: Pc, previous: Images) {
    && s.ctl.Up? && s.ctl.job == j && s.ctl.pc == pc && j < |s.mem.jobs|
    && s.mem.jobs[j].status != RolledBack && s.mem.jobs[j].previous == Some(previous)
  }

  lemma StageBack(s: State, j: nat, pc: Pc, previous: Images, answers: seq<Reply>)
    requires StandsBack(s, j, pc, previous) && pc != Quiet
    ensures answers == [] ==> !Ends(s, answers, j, RolledBack)
    ensures answers != [] ==>
              var m, s' := MoveAt(s, answers[0]), Step(s, Work(answers[0]));
              && s'.containers == After(s.containers, m) && s'.mem.jobs == s.mem.jobs[j := m.job]
              && s'.ctl == (if m.next.Some? then Up(s.ctl.recovering, j, m.next.value)
                            else if s.ctl.recovering then Up(true, j + 1, Triage) else Up(false, 0, Quiet))
              && (Ends(s, answers, j, RolledBack) <==> Ends(s', answers[1..], j, RolledBack))
              && (StandsBack(s', j, RollFailPhase, previous) && pc != RollFailPhase ==> !Ends(s, answers, j, RolledBack))
  {
    hide Decide, Ends;
    if answers == [] {
      NothingEnds(s, j, RolledBack);
    } else {
      var s' := Step(s, Work(answers[0]));
      StepIsMove(s, answers[0]);
      EndsNext(s, answers, j, RolledBack);
      if StandsBack(s', j, RollFailPhase, previous) && pc != RollFailPhase {
        FailedRestoreStays(s', j, previous, answers[1..]);
      }
    }
  }

  lemma FailedRestoreStays(s: State, j: nat, previous: Images, answers: seq<Reply>)
    requires StandsBack(s, j, RollFailPhase, previous)
    ensures !Ends(s, answers, j, RolledBack)
  {
    if answers == [] {
      NothingEnds(s, j, RolledBack);
    } else {
      var s' := Step(s, Work(answers[0]));
      StepIsMove(s, answers[0]);
      EndsNext(s, answers, j, RolledBack);
      RestsForEver(s', answers[1..], j, RollbackFailed);
    }
  }

  lemma RolledBackPhaseRestores(s: State, j: nat, previous: Images, answers: seq<Reply>)
    requires StandsBack(s, j, RolledBackPhase, previous)
    ensures Ends(s, answers, j, RolledBack) <==> answers != []
  {
    StageBack(s, j, s.ctl.pc, previous, answers);
    if answers != [] {
      RestsForEver(Step(s, Work(answers[0])), answers[1..], j, RolledBack);
    }
  }

  lemma VerifyRestores(s: State, j: nat, previous: Images, answers: seq<Reply>)
    requires StandsBack(s, j, VerifyPrevious, previous)
    ensures Ends(s, answers, j, RolledBack) <==> |answers| >= 2 && answers[0] == Done && s.containers == previous
  {
    hide Ends;
    StageBack(s, j, s.ctl.pc, previous, answers);
    if answers != [] && answers[0] == Done && s.containers == previous {
      RolledBackPhaseRestores(Step(s, Work(answers[0])), j, previous, answers[1..]);
    }
  }

  lemma {:induction false} UpRestores(s: State, j: nat, previous: Images, answers: seq<Reply>)
    requires StandsBack(s, j, UpPrevious, previous) && s.containers.Keys == previous.Keys
    ensures Ends(s, answers, j, RolledBack) <==> Replaces(s.containers, previous, answers)
    decreases |answers|
  {
    hide Ends, Replaces;
    if answers != [] && answers[0].Recreated? && answers[0].service in previous {
      var svc := answers[0].service;
      var s' := Step(s, Work(answers[0]));
      StepIsMove(s, answers[0]);
      assert s'.containers == s.containers[svc := previous[svc]] && s'.containers.Keys == previous.Keys;
      EndsNext(s, answers, j, RolledBack);
      ReplacesNext(s.containers, previous, answers);
      UpRestores(s', j, previous, answers[1..]);
    } else {
      ReplacesAtOnce(s.containers, previous, answers);
      UpRestoreEnds(s, j, previous, answers);
    }
  }

  lemma UpRestoreEnds(s: State, j: nat, previous: Images, answers: seq<Reply>)
    requires StandsBack(s, j, UpPrevious, previous)
    requires answers == [] || !answers[0].Recreated? || answers[0].service !in previous
    ensures Ends(s, answers, j, RolledBack) <==>
              |answers| >= 3 && answers[0] == Done && answers[1] == Done && s.containers == previous
  {
    hide Ends;
    StageBack(s, j, s.ctl.pc, previous, answers);
    if answers != [] && answers[0] == Done {
      VerifyRestores(Step(s, Work(answers[0])), j, previous, answers[1..]);
    }
  }

  lemma WriteRestores(s: State, j: nat, previous: Images, answers: seq<Reply>)
    requires StandsBack(s, j, WritePrevious, previous) && s.containers.Keys == previous.Keys
    ensures Ends(s, answers, j, RolledBack) <==>
              answers != [] && answers[0] == Done && Replaces(s.containers, previous, answers[1..])
  {
    hide Ends, Replaces;
    StageBack(s, j, s.ctl.pc, previous, answers);
    if answers != [] && answers[0] == Done {
      UpRestores(Step(s, Work(answers[0])), j, previous, answers[1..]);
    }
  }

  lemma RollPhaseRestores(s: State, j: nat, previous: Images, answers: seq<Reply>)
    requires StandsBack(s, j, RollPhase, previous) && s.containers.Keys == previous.Keys
    ensures Ends(s, answers, j, RolledBack) <==>
              |answers| >= 2 && answers[1] == Done && Replaces(s.containers, previous, answers[2..])
  {
    hide Ends, Replaces;
    StageBack(s, j, s.ctl.pc, previous, answers);
    if answers != [] {
      WriteRestores(Step(s, Work(answers[0])), j, previous, answers[1..]);
      if |answers| >= 2 { assert answers[1..][1..] == answers[2..]; }
    }
  }

  /** Main result 3. In every reachable state in which a restoration begins, after a failure or after
      a restart: uninterrupted, it is recorded as rolled back if and only if the override is written,
      every container that differs from the previous images is recreated, and `compose up` and all
      checks after it are done. */
  lemma RestoreSucceedsIff(base: Images, run: seq<Action>, answers: seq<Reply>)
    requires App in base
    requires var s := Run(Initial(base), run); s.ctl.Up? && s.ctl.pc == RollPhase
    ensures var s := Run(Initial(base), run);
            var j, t := s.ctl.job, WorkAll(s, answers);
            && j < |s.disk.jobs| == |t.disk.jobs| && s.disk.jobs[j].previous.Some?
            && (t.disk.jobs[j].status == RolledBack <==>
                  |answers| >= 2 && answers[1] == Done && Replaces(s.containers, s.disk.jobs[j].previous.value, answers[2..]))
  {
    hide Run, Replaces, WorkAll;
    InitialSane(base);
    RunProven(Initial(base), run, {});
    var s := Run(Initial(base), run);
    SaneDisk(s);
    RollFacts(s);
    var previous := s.mem.jobs[s.ctl.job].previous.value;
    RollPhaseRestores(s, s.ctl.job, previous, answers);
    WorkAllSane(s, answers);
    SaneDisk(WorkAll(s, answers));
    SameNumber(s, answers);
  }

  lemma RollFacts(s: State)
    requires Sane(s) && s.ctl.Up? && s.ctl.pc == RollPhase
    ensures var j := s.ctl.job;
            && j < |s.mem.jobs| && Cutting(s.mem.jobs[j].status) && s.mem.jobs[j].previous.Some?
            && s.mem.jobs[j].previous.value.Keys == s.containers.Keys
  {
    assert JobOk(s.mem.jobs, s.ctl.job, s.containers.Keys);
  }
}
