/** The `Agent` object: the journal in memory, the state file, the override file and the
    containers, changed in the order the source changes them. Each method's contract says
    which step of the model it is. */
module UpdateObject {
  import opened Prelude
  import opened UpdateAgent
  import opened UpdateTheorems

  class Agent {
    var state: Journal
    var stateFile: Journal
    var control: Control
    var overrideFile: Option<Images>
    var containers: Images
    ghost var events: seq<Event>

    ghost function View(): State
      reads this
    {
      State(stateFile, state, control, overrideFile, containers, events)
    }

    constructor (base: Images)
      ensures View() == Initial(base)
    {
      state, stateFile, control := NewJournal, NewJournal, Down;
      overrideFile, containers, events := None, base, [];
    }

    method Save()
      modifies this`stateFile
      ensures stateFile == state
    {
      stateFile := state;
    }

    /** The thread's next step: the journal first, then the deployment, then where to go. */
    method Advance(r: Reply)
      modifies this
      ensures View() == Step(old(View()), Work(r))
    {
      hide Decide, SourceOf;
      if control.Down? || control.pc == Quiet { return; }
      if control.job >= |state.jobs| {
        if control.pc == Triage { control := Up(false, 0, Quiet); }
        return;
      }
      var j, recovering := control.job, control.recovering;
      var job := state.jobs[j];
      var m := Decide(job, control.pc, containers, recovering, SourceOf(state.jobs, job), r);
      state := state.(jobs := state.jobs[j := m.job]);
      if m.mark && m.job.kind == Update {
        state := state.(failed := state.failed + {m.job.target});
      }
      if m.save { Save(); }
      events := events + Happened(j, containers, m.effect);
      match m.effect {
        case Write(images) => overrideFile := Some(images);
        case Place(service, image) => containers := containers[service := image];
        case _ =>
      }
      if m.next.Some? {
        control := Up(recovering, j, m.next.value);
      } else {
        control := if recovering then Up(true, j + 1, Triage) else Up(false, 0, Quiet);
      }
    }

    /** The thread runs as long as the world answers; a crash is a run whose answers end early. */
    method Drive(replies: seq<Reply>)
      modifies this
      ensures View() == WorkAll(old(View()), replies)
    {
      var i := 0;
      while i < |replies|
        invariant 0 <= i <= |replies|
        invariant WorkAll(View(), replies[i..]) == WorkAll(old(View()), replies)
      {
        assert replies[i..][1..] == replies[i + 1..];
        Advance(replies[i]);
        i := i + 1;
      }
    }

    method Submit(target: string, rollback: Option<nat>, requestId: Option<string>) returns (queued: bool)
      requires control.Up? && !control.recovering
      modifies this
      ensures View() == Step(old(View()), Action.Submit(target, rollback, requestId))
      ensures queued <==> |state.jobs| == |old(state.jobs)| + 1
    {
      if requestId.Some? && exists i :: 0 <= i < |state.jobs| && state.jobs[i].requestId == requestId { return false; }
      if Active(state) { return false; }
      var job;
      if rollback.Some? {
        if rollback.value >= |state.jobs| || state.jobs[rollback.value].status != Succeeded { return false; }
        job := NewJob(requestId, Rollback(rollback.value), state.jobs[rollback.value].previousVersion);
        state := state.(autoInstall := false);
      } else {
        if target !in state.releases { return false; }
        job := NewJob(requestId, Update, target);
      }
      state := state.(jobs := state.jobs + [job]);
      Save();
      control := Up(false, |state.jobs| - 1, Begin);
      return true;
    }

    /** A crash loses the memory and the thread; the next start loads the state file and recovers. */
    method CrashAndRestart()
      modifies this
      ensures View() == Step(Step(old(View()), Crash), Start)
      ensures stateFile == old(stateFile) && containers == old(containers) && overrideFile == old(overrideFile)
    {
      state := stateFile;
      control := Up(true, 0, Triage);
    }
  }
}
