/** What the updater accepts: version texts, requests, and the reservation a job takes. */
module UpdateRequests {
  import opened Prelude
  import opened Texts
  import opened UpdateAgent
  import opened UpdateSafety
  import opened UpdateTheorems

  /* ---- Version texts ---- */

  lemma {:induction false} SplitNothing(a: string, sep: char)
    requires sep !in a
    ensures Split(a, sep) == [a]
    decreases |a|
  {
    if a != [] {
      assert a[0] in a && forall x :: x in a[1..] ==> x in a;
      SplitNothing(a[1..], sep);
      assert [a[0]] + a[1..] == a;
    }
  }

  function Joined(parts: seq<string>, sep: char): string
    requires parts != []
  {
    if |parts| == 1 then parts[0] else parts[0] + [sep] + Joined(parts[1..], sep)
  }

  lemma {:induction false} SplitJoins(s: string, sep: char)
    ensures Joined(Split(s, sep), sep) == s
    decreases |s|
  {
    if s != [] {
      SplitJoins(s[1..], sep);
      var rest := Split(s[1..], sep);
      if s[0] == sep {
        assert ([[]] + rest)[1..] == rest;
      } else {
        assert ([[s[0]] + rest[0]] + rest[1..])[1..] == rest[1..];
      }
      assert s == [s[0]] + s[1..];
    }
  }

  /** The text of a version with two or three numerals, with or without the leading letter. */
  function VersionText(v: bool, a: string, b: string, c: Option<string>): string {
    (if v then "v" else "") + (a + ['.'] + (b + if c.Some? then ['.'] + c.value else ""))
  }

  predicate Numerals(a: string, b: string, c: Option<string>) { Numeral(a) && Numeral(b) && (c.Some? ==> Numeral(c.value)) }

  lemma NumeralHasNoDot(s: string)
    requires Numeral(s)
    ensures '.' !in s && s[0] != 'v' && Split(s, '.') == [s]
  {
    forall i | 0 <= i < |s| ensures s[i] != '.' { assert IsDigit(s[i]); }
    assert IsDigit(s[0]);
    SplitNothing(s, '.');
  }

  /** Main result 1. The texts that are read as versions are exactly the spellings of two or three
      numerals, and the version has their numbers, with 0 for a missing third. */
  lemma VersionReads(v: bool, a: string, b: string, c: Option<string>)
    requires Numerals(a, b, c)
    ensures ParseVersion(VersionText(v, a, b, c)) ==
            Some(Version(Number(a), Number(b), if c.Some? then Number(c.value) else 0))
  {
    hide Number, Split, Numeral, AllDigits;
    NumeralHasNoDot(a);
    NumeralHasNoDot(b);
    var tail := b + if c.Some? then ['.'] + c.value else "";
    var body := a + ['.'] + tail;
    SplitAt(a, '.', tail);
    if c.Some? {
      NumeralHasNoDot(c.value);
      SplitAt(b, '.', c.value);
      assert tail == b + ['.'] + c.value;
    } else {
      assert tail == b;
    }
    assert Split(body, '.') == [a, b] + if c.Some? then [c.value] else [];
    DropLetter(v, body);
    NumeralsAreDigits(a, b, c);
  }

  lemma NumeralsAreDigits(a: string, b: string, c: Option<string>)
    requires Numerals(a, b, c)
    ensures AllDigits(a) && AllDigits(b) && (c.Some? ==> AllDigits(c.value))
  {
  }

  lemma DropLetter(v: bool, body: string)
    requires body != [] && body[0] != 'v'
    ensures var t := (if v then "v" else "") + body;
            (if t != "" && t[0] == 'v' then t[1..] else t) == body
  {
    if !v { assert "" + body == body; }
  }

  lemma VersionOf(text: string) returns (v: bool, a: string, b: string, c: Option<string>)
    requires ParseVersion(text).Some?
    ensures Numerals(a, b, c) && text == VersionText(v, a, b, c)
  {
    hide Number, Split, Numeral;
    v := text != "" && text[0] == 'v';
    var body := if v then text[1..] else text;
    var parts := Split(body, '.');
    a, b, c := parts[0], parts[1], if |parts| == 3 then Some(parts[2]) else None;
    SplitJoins(body, '.');
    assert parts[1..][0] == b;
    if |parts| == 3 {
      assert parts[1..][1..] == [parts[2]];
      assert Joined(parts[1..], '.') == b + ['.'] + parts[2];
      assert b + ['.'] + parts[2] == b + (['.'] + parts[2]);
    } else {
      assert Joined(parts[1..], '.') == b && b + "" == b;
    }
    assert text == (if v then "v" else "") + body;
  }

  /** Versions are ordered like their numbers, the major one first. */
  lemma VersionOrder(a: Version, b: Version, c: Version)
    ensures (Below(a, b) || Below(b, a)) <==> a != b
    ensures !(Below(a, b) && Below(b, a)) && (Below(a, b) && Below(b, c) ==> Below(a, c))
    ensures a.major < b.major ==> Below(a, b)
    ensures a.major == b.major && a.minor < b.minor ==> Below(a, b)
  {
  }

  /* ---- Requests ---- */

  /** No job is unfinished and none holds the maintenance reservation. */
  predicate NothingToDo(jobs: seq<Job>) {
    forall i :: 0 <= i < |jobs| ==> Terminal(jobs[i].status) && !jobs[i].reserved
  }

  predicate Acceptable(m: Journal, target: string, rollback: Option<nat>, requestId: Option<string>) {
    && (requestId.Some? ==> forall i :: 0 <= i < |m.jobs| ==> m.jobs[i].requestId != requestId)
    && NothingToDo(m.jobs)
    && match rollback
       case None => target in m.releases
       case Some(k) => k < |m.jobs| && m.jobs[k].status == Succeeded
  }

  /** Main result 2. In every reachable state in which the updater listens, a request is queued, on disk
      before its thread begins, if and only if it is new, nothing is unfinished or reserved, and it
      names a known release or a succeeded job; a rollback asks for the version that job replaced
      and turns automatic installation off. Any other request changes nothing. */
  lemma SubmitQueuesIff(base: Images, run: seq<Action>, target: string, rollback: Option<nat>, requestId: Option<string>)
    requires App in base
    requires var s := Run(Initial(base), run); s.ctl.Up? && !s.ctl.recovering
    ensures var s := Run(Initial(base), run);
            var t := Step(s, Submit(target, rollback, requestId));
            if Acceptable(s.disk, target, rollback, requestId)
            then var n := |s.disk.jobs|;
                 && |t.disk.jobs| == n + 1 && t.disk.jobs[..n] == s.disk.jobs && t.ctl == Up(false, n, Begin)
                 && t.disk.jobs[n].status == Queued && t.disk.jobs[n].requestId == requestId
                 && t.disk.jobs[n].kind == (if rollback.Some? then Rollback(rollback.value) else Update)
                 && t.disk.jobs[n].target ==
                    (if rollback.Some? then s.disk.jobs[rollback.value].previousVersion else target)
                 && t.disk.autoInstall == (rollback.None? && s.disk.autoInstall) && t.disk.releases == s.disk.releases
                 && t.containers == s.containers && t.override == s.override && t.events == s.events
            else t == s
  {
    hide Run, Truthful, Settled, Acceptance, Listed, Ascending, Labelled;
    EveryRunIsGood(base, run, "");
    var s := Run(Initial(base), run);
    SameJournal(s);
    ActiveMeansBusy(s.mem);
  }

  lemma SameJournal(s: State)
    requires Sane(s)
    ensures s.disk.jobs == s.mem.jobs && s.disk.releases == s.mem.releases && s.disk.autoInstall == s.mem.autoInstall
  {
  }

  lemma ActiveMeansBusy(m: Journal)
    ensures Active(m) <==> !NothingToDo(m.jobs)
  {
  }

  /* ---- What a move does to the request and to the reservation ---- */

  predicate Orderly(job: Job, pc: Pc, r: Reply, m: Move) {
    && m.job.requestId == job.requestId
    && (m.job.reserved != job.reserved ==> m.save)
    && (job.reserved && !m.job.reserved ==> pc == Release && r == Done)
    && (pc == Release && r == Done ==> !m.job.reserved)
    && (m.next.Some? && m.next.value.ReserveCall? ==> pc.Reserve? && m.job.reserved)
  }

  lemma PrepareOrderly(job: Job, pc: Pc, containers: Images, source: Option<Images>, r: Reply)
    requires Preparatory(pc)
    ensures Orderly(job, pc, r, Prepare(job, pc, containers, source, r))
  {
    hide Older, Compatibility, Admitted;
  }

  lemma ApplyOrderly(job: Job, pc: Pc, containers: Images, r: Reply)
    requires Applicative(pc)
    ensures Orderly(job, pc, r, Apply(job, pc, containers, r))
  {
  }

  lemma RestoreOrderly(job: Job, pc: Pc, containers: Images, recovering: bool, r: Reply)
    requires !Preparatory(pc) && !Applicative(pc)
    ensures Orderly(job, pc, r, Restore(job, pc, containers, recovering, r))
  {
  }

  lemma MoveIsOrderly(job: Job, pc: Pc, containers: Images, recovering: bool, source: Option<Images>, r: Reply)
    requires pc != Quiet
    ensures Orderly(job, pc, r, Decide(job, pc, containers, recovering, source, r))
  {
    hide Prepare, Apply, Restore;
    if Preparatory(pc) {
      PrepareOrderly(job, pc, containers, source, r);
    } else if Applicative(pc) {
      ApplyOrderly(job, pc, containers, r);
    } else {
      RestoreOrderly(job, pc, containers, recovering, r);
    }
  }

  ghost predicate Unrepeated(jobs: seq<Job>) {
    forall i, j :: 0 <= i < j < |jobs| && jobs[i].requestId.Some? ==> jobs[i].requestId != jobs[j].requestId
  }

  lemma StepUnrepeated(s: State, a: Action)
    requires Sane(s) && Unrepeated(s.mem.jobs)
    ensures Unrepeated(Step(s, a).mem.jobs)
  {
    hide Decide;
    SameJournal(s);
    if a.Work? && AtJob(s) && s.ctl.pc != Quiet {
      var job := s.mem.jobs[s.ctl.job];
      MoveIsOrderly(job, s.ctl.pc, s.containers, s.ctl.recovering, SourceOf(s.mem.jobs, job), a.reply);
    }
  }

  lemma {:induction false} RunUnrepeated(s: State, run: seq<Action>)
    requires Sane(s) && Unrepeated(s.mem.jobs)
    ensures Sane(Run(s, run)) && Unrepeated(Run(s, run).mem.jobs)
    decreases |run|
  {
    hide Sane, Unrepeated, Step;
    if run != [] {
      StepSane(s, run[0]);
      StepUnrepeated(s, run[0]);
      RunUnrepeated(Step(s, run[0]), run[1..]);
    }
  }

  /** Main result 3. Over every run, crashes included, a request id queues at most one job. */
  lemma RequestQueuesOnce(base: Images, run: seq<Action>, i: nat, j: nat)
    requires App in base && i < |Run(Initial(base), run).disk.jobs| && j < |Run(Initial(base), run).disk.jobs|
    ensures var jobs := Run(Initial(base), run).disk.jobs;
            jobs[i].requestId.Some? && jobs[i].requestId == jobs[j].requestId ==> i == j
  {
    hide Run;
    RunUnrepeated(Initial(base), run);
    SameJournal(Run(Initial(base), run));
  }

  /* ---- The reservation ---- */

  predicate AtPc(s: State, j: nat, pc: Pc) { s.ctl.Up? && s.ctl.job == j && s.ctl.pc == pc }

  ghost predicate CallIsReserved(s: State) {
    s.ctl.Up? && s.ctl.pc.ReserveCall? && s.ctl.job < |s.mem.jobs| ==> s.mem.jobs[s.ctl.job].reserved
  }

  lemma StepReserved(s: State, a: Action)
    requires Sane(s) && CallIsReserved(s)
    ensures CallIsReserved(Step(s, a))
  {
    hide Decide;
    if a.Work? && AtJob(s) && s.ctl.pc != Quiet {
      var job := s.mem.jobs[s.ctl.job];
      JobsOfStep(s, a.reply);
      MoveIsOrderly(job, s.ctl.pc, s.containers, s.ctl.recovering, SourceOf(s.mem.jobs, job), a.reply);
    }
  }

  lemma {:induction false} RunReserved(s: State, run: seq<Action>)
    requires Sane(s) && CallIsReserved(s)
    ensures Sane(Run(s, run)) && CallIsReserved(Run(s, run))
    decreases |run|
  {
    hide Sane, CallIsReserved, Step;
    if run != [] {
      StepSane(s, run[0]);
      StepReserved(s, run[0]);
      RunReserved(Step(s, run[0]), run[1..]);
    }
  }

  /** Main result 4. The reservation outlives every crash: it is on disk before the application is asked
      for it, and it leaves the disk exactly when a release of that job is answered "done". */
  lemma ReservationEndsIff(base: Images, run: seq<Action>, a: Action, j: nat)
    requires App in base && j < |Run(Initial(base), run).disk.jobs|
    ensures var s := Run(Initial(base), run);
            var t := Step(s, a);
            && (s.ctl.Up? && s.ctl.job == j && s.ctl.pc.ReserveCall? ==> s.disk.jobs[j].reserved)
            && j < |t.disk.jobs|
            && (s.disk.jobs[j].reserved ==>
                  (!t.disk.jobs[j].reserved <==> a == Work(Done) && AtPc(s, j, Release)))
  {
    hide Run, Decide;
    RunReserved(Initial(base), run);
    var s := Run(Initial(base), run);
    SameJournal(s);
    StepSane(s, a);
    SameJournal(Step(s, a));
    if a.Work? && AtJob(s) && s.ctl.pc != Quiet {
      var job := s.mem.jobs[s.ctl.job];
      JobsOfStep(s, a.reply);
      MoveIsOrderly(job, s.ctl.pc, s.containers, s.ctl.recovering, SourceOf(s.mem.jobs, job), a.reply);
    }
  }

  /** A release that fails outside recovery is recorded on disk as still to be cleaned up, and stays so
      until one is done. */
  lemma FailedReleaseIsRecorded(base: Images, run: seq<Action>, r: Reply)
    requires App in base
    requires var s := Run(Initial(base), run); s.ctl.Up? && s.ctl.pc == Release
    ensures var s := Run(Initial(base), run);
            var j, t := s.ctl.job, Step(s, Work(r));
            && j < |s.disk.jobs| == |t.disk.jobs|
            && t.disk.jobs[j].cleanup == (r != Done && (s.disk.jobs[j].cleanup || !s.ctl.recovering))
            && t.disk.jobs[j].status == s.disk.jobs[j].status
  {
    hide Run;
    RunReserved(Initial(base), run);
    var s := Run(Initial(base), run);
    SameJournal(s);
    StepSane(s, Work(r));
    SameJournal(Step(s, Work(r)));
    AtReleaseOfAJob(s);
    hide Sane, Step, Decide;
    JobsOfStep(s, r);
    StepIsWork(s, r);
    var job := s.mem.jobs[s.ctl.job];
    ReleaseMove(job, s.containers, s.ctl.recovering, SourceOf(s.mem.jobs, job), r);
  }

  lemma StepIsWork(s: State, r: Reply)
    requires s.ctl.Up?
    ensures Step(s, Work(r)) == WorkStep(s, r)
  {
    hide WorkStep;
  }

  lemma ReleaseMove(job: Job, containers: Images, recovering: bool, source: Option<Images>, r: Reply)
    ensures var m := Decide(job, Release, containers, recovering, source, r);
            m.job.cleanup == (r != Done && (job.cleanup || !recovering)) && m.job.status == job.status
  {
    hide Prepare, Apply;
  }

  lemma AtReleaseOfAJob(s: State)
    requires Sane(s) && s.ctl.Up? && s.ctl.pc == Release
    ensures AtJob(s)
  {
  }
}
