/** The journal-before-start lease of sandboxd/sandboxd/migration_agent.py: the daemon may crash
    between any two effects, containers exit or vanish on their own, and operators may meddle. */
module MigrationLease {
  import opened Prelude

  type Job = string

  type Id = nat

  datatype Lease = Lease(job: Job, container: Id, expires: int)

  /** `ours`: its current run was started by this daemon. `current`: on the application's image.
      `approved`: passes the configuration check. */
  datatype Container = Container(running: bool, ours: bool, current: bool, approved: bool)

  /** Where the daemon stands while it holds its lock; `seen` is the status of the last reload. */
  datatype Pc =
    | Idle
    | Finding(job: Job)
    | Removing(job: Job, id: Id)
    | Creating(job: Job)
    | Verifying(job: Job, id: Id)
    | Saving(job: Job, id: Id, seen: bool)
    | Starting(job: Job, id: Id, seen: bool)
    | Checking(job: Job)
    | Stopping(job: Job, id: Id)
    | Unlinking(job: Job)

  datatype State = State(clock: int, lastSweep: int, idle: nat, file: Option<Lease>, containers: map<Id, Container>, next: Id,
                         pc: Pc)

  datatype Action =
    | Pass(ticks: nat)
    | Start(job: Job)
    | Stop(job: Job)
    | Sweep
    | Tick(fails: bool)
    | Crash
    | Exits(id: Id)
    | Vanishes(id: Id)
    | Outdates(id: Id)
    | ForeignCreates(approved: bool)
    | ForeignStarts(id: Id)

  const THROTTLE: int := 5

  datatype Found = Nobody | One(id: Id) | Many

  /** The labelled containers must be at most one. */
  ghost function Find(containers: map<Id, Container>): (f: Found)
    ensures f.Nobody? ==> containers == map[]
    ensures f.One? ==> containers.Keys == {f.id}
  {
    if containers == map[] then Nobody
    else if exists id :: containers.Keys == {id} then (var id :| containers.Keys == {id}; One(id))
    else Many
  }

  function Halted(s: State): State { s.(pc := Idle) }

  ghost function StartTick(s: State, fails: bool): State {
    if fails then Halted(s)
    else
      match s.pc
      case Finding(job) =>
        (match Find(s.containers)
         case Many => Halted(s)
         case Nobody => s.(pc := Creating(job))
         case One(id) =>
           var c := s.containers[id];
           if c.current then s.(pc := Verifying(job, id))
           else if !c.approved || c.running then Halted(s)
           else s.(pc := Removing(job, id)))
      case Removing(job, id) =>
        if id !in s.containers || s.containers[id].running then Halted(s)
        else s.(containers := s.containers - {id}, pc := Creating(job))
      case Creating(job) =>
        s.(containers := s.containers[s.next := Container(false, false, true, true)], next := s.next + 1,
           pc := Verifying(job, s.next))
      case Verifying(job, id) =>
        if id !in s.containers || !s.containers[id].approved || !s.containers[id].current then Halted(s)
        else if s.file.Some? && s.file.value.job != job && s.containers[id].running then Halted(s)
        else s.(pc := Saving(job, id, s.containers[id].running))
      case Saving(job, id, seen) => s.(file := Some(Lease(job, id, s.clock + s.idle)), pc := Starting(job, id, seen))
      case Starting(job, id, seen) =>
        if seen || id !in s.containers || s.containers[id].running then Halted(s)
        else Halted(s.(containers := s.containers[id := s.containers[id].(running := true, ours := true)]))
      case _ => s
  }

  ghost function StopTick(s: State, fails: bool): State {
    if fails then Halted(s)
    else
      match s.pc
      case Checking(job) =>
        (match Find(s.containers)
         case Many => Halted(s)
         case Nobody => s.(pc := Unlinking(job))
         case One(id) =>
           if s.file.None? || id != s.file.value.container || !s.containers[id].approved then Halted(s)
           else if s.containers[id].running then s.(pc := Stopping(job, id))
           else s.(pc := Unlinking(job)))
      case Stopping(job, id) =>
        if id !in s.containers then Halted(s)
        else s.(containers := s.containers[id := s.containers[id].(running := false)], pc := Unlinking(job))
      case Unlinking(job) => Halted(s.(file := None))
      case _ => s
  }

  predicate InStop(pc: Pc) { pc.Checking? || pc.Stopping? || pc.Unlinking? }

  function Meddle(s: State, a: Action): State {
    match a
    case Exits(id) =>
      if id in s.containers then s.(containers := s.containers[id := s.containers[id].(running := false)]) else s
    case Vanishes(id) => s.(containers := s.containers - {id})
    case Outdates(id) =>
      if id in s.containers then s.(containers := s.containers[id := s.containers[id].(current := false)]) else s
    case ForeignCreates(approved) =>
      s.(containers := s.containers[s.next := Container(false, false, true, approved)], next := s.next + 1)
    case ForeignStarts(id) =>
      if id in s.containers && !s.containers[id].running
      then s.(containers := s.containers[id := s.containers[id].(running := true, ours := false)]) else s
    case _ => s
  }

  ghost function Step(s: State, a: Action): State {
    match a
    case Pass(ticks) => s.(clock := s.clock + ticks)
    case Start(job) =>
      if !s.pc.Idle? || (s.file.Some? && s.file.value.job != job && s.file.value.expires > s.clock) then s
      else s.(pc := Finding(job))
    case Stop(job) =>
      if s.pc.Idle? && s.file.Some? && s.file.value.job == job then s.(pc := Checking(job)) else s
    case Sweep =>
      if !s.pc.Idle? || s.clock - s.lastSweep < THROTTLE then s
      else if s.file.Some? && s.file.value.expires <= s.clock
      then s.(lastSweep := s.clock, pc := Checking(s.file.value.job))
      else s.(lastSweep := s.clock)
    case Tick(fails) => if InStop(s.pc) then StopTick(s, fails) else StartTick(s, fails)
    case Crash => s.(pc := Idle, lastSweep := s.clock - THROTTLE)
    case _ => Meddle(s, a)
  }

  ghost function Run(s: State, run: seq<Action>): State
    decreases |run|
  {
    if run == [] then s else Run(Step(s, run[0]), run[1..])
  }

  function Initial(clock: int, idle: nat): State { State(clock, clock - THROTTLE, idle, None, map[], 0, Idle) }

  /* ---- The invariant ---- */

  predicate Started(s: State, id: Id) { id in s.containers && s.containers[id].running && s.containers[id].ours }

  ghost predicate NoneStarted(s: State) { forall id :: !Started(s, id) }

  ghost predicate OnlyStarted(s: State, id: Id) { forall x :: Started(s, x) ==> x == id }

  /** Another job's lease may be taken over only when it expired. */
  predicate MayTake(s: State, job: Job) { s.file.Some? && s.file.value.job != job ==> s.file.value.expires <= s.clock }

  ghost predicate PcOk(s: State) {
    match s.pc
    case Idle => true
    case Finding(job) => MayTake(s, job)
    case Removing(job, id) => MayTake(s, job) && OnlyStarted(s, id) && id < s.next
    case Creating(job) => MayTake(s, job) && NoneStarted(s)
    case Verifying(job, id) => MayTake(s, job) && OnlyStarted(s, id) && id < s.next
    case Saving(job, id, _) => MayTake(s, job) && OnlyStarted(s, id) && id < s.next
    case Starting(job, id, _) => s.file.Some? && s.file.value.container == id && OnlyStarted(s, id)
    case Checking(job) => s.file.Some? && s.file.value.job == job
    case Stopping(job, id) => s.file.Some? && s.file.value.container == id
    case Unlinking(job) => NoneStarted(s)
  }

  ghost predicate Inv(s: State) {
    && (forall id :: Started(s, id) ==> s.file.Some? && s.file.value.container == id)
    && (forall id :: id in s.containers ==> id < s.next)
    && PcOk(s)
  }

  lemma StartTickKeeps(s: State, fails: bool)
    requires Inv(s) && !InStop(s.pc)
    ensures Inv(StartTick(s, fails))
  {
    hide Find;
    var s' := StartTick(s, fails);
    assert forall id :: Started(s', id) && !Started(s, id) ==> s.pc.Starting? && id == s.pc.id;
  }

  lemma StopTickKeeps(s: State, fails: bool)
    requires Inv(s) && InStop(s.pc)
    ensures Inv(StopTick(s, fails))
  {
    hide Find;
    var s' := StopTick(s, fails);
    assert forall id :: Started(s', id) ==> Started(s, id);
  }

  lemma MeddleKeeps(s: State, a: Action)
    requires Inv(s)
    ensures Inv(Meddle(s, a))
  {
    var s' := Meddle(s, a);
    assert forall id :: Started(s', id) ==> Started(s, id);
  }

  lemma StepKeeps(s: State, a: Action)
    requires Inv(s)
    ensures Inv(Step(s, a))
  {
    hide StartTick, StopTick, Meddle;
    match a
    case Tick(fails) => if InStop(s.pc) { StopTickKeeps(s, fails); } else { StartTickKeeps(s, fails); }
    case Pass(_) => assert forall id :: Started(Step(s, a), id) <==> Started(s, id);
    case Start(_) => assert forall id :: Started(Step(s, a), id) <==> Started(s, id);
    case Stop(_) => assert forall id :: Started(Step(s, a), id) <==> Started(s, id);
    case Sweep => assert forall id :: Started(Step(s, a), id) <==> Started(s, id);
    case Crash => assert forall id :: Started(Step(s, a), id) <==> Started(s, id);
    case _ => MeddleKeeps(s, a);
  }

  lemma {:induction false} RunKeeps(s: State, run: seq<Action>)
    requires Inv(s)
    ensures Inv(Run(s, run))
    decreases |run|
  {
    hide Step, Inv;
    if run != [] {
      StepKeeps(s, run[0]);
      RunKeeps(Step(s, run[0]), run[1..]);
    }
  }

  /* ---- The results ---- */

  /** Main result 1. At every moment of every run, a container that this daemon started is running only
      while the lease file on disk names it. So there is at most one, and it has a bounded lease. */
  lemma StartedMeansLeased(clock: int, idle: nat, run: seq<Action>, id: Id)
    requires Started(Run(Initial(clock, idle), run), id)
    ensures var s := Run(Initial(clock, idle), run);
            && s.file.Some? && s.file.value.container == id
            && (forall other :: Started(s, other) ==> other == id)
  {
    hide Run;
    RunKeeps(Initial(clock, idle), run);
  }

  /** Main result 2. The file passes from one job to another without an unlink only when the first
      job's lease has expired. */
  lemma TakeoverNeedsExpiry(clock: int, idle: nat, run: seq<Action>, a: Action)
    requires var s := Run(Initial(clock, idle), run);
             s.file.Some? && Step(s, a).file.Some? && Step(s, a).file.value.job != s.file.value.job
    ensures var s := Run(Initial(clock, idle), run);
            s.file.value.expires <= s.clock
  {
    hide Run, Find;
    RunKeeps(Initial(clock, idle), run);
  }

  /** The container that the lease names is the only labelled one and passes the check, or there is
      none at all. */
  ghost predicate Reclaimable(s: State) {
    match Find(s.containers)
    case Nobody => true
    case One(id) => s.file.Some? && id == s.file.value.container && s.containers[id].approved
    case Many => false
  }

  ghost function Swept(s: State): State {
    Step(Step(Step(Step(s, Sweep), Tick(false)), Tick(false)), Tick(false))
  }

  /** Main result 3. An undisturbed sweep of an expired lease, not sooner than five seconds after the
      last, unlinks the file if and only if the container is reclaimable, and then nothing that
      this daemon started is running. */
  lemma SweepEndsExpiredIff(clock: int, idle: nat, run: seq<Action>)
    requires var s := Run(Initial(clock, idle), run);
             s.pc.Idle? && s.file.Some? && s.file.value.expires <= s.clock && s.clock - s.lastSweep >= THROTTLE
    ensures var s := Run(Initial(clock, idle), run);
            && (Swept(s).file.None? <==> Reclaimable(s))
            && (Swept(s).file.None? ==> NoneStarted(Swept(s)))
  {
    hide Run, Swept;
    RunKeeps(Initial(clock, idle), run);
    SweepFrom(Run(Initial(clock, idle), run));
  }

  lemma SweepFrom(s: State)
    requires Inv(s) && s.pc.Idle? && s.file.Some? && s.file.value.expires <= s.clock && s.clock - s.lastSweep >= THROTTLE
    ensures (Swept(s).file.None? <==> Reclaimable(s)) && (Swept(s).file.None? ==> NoneStarted(Swept(s)))
  {
    hide Find, Inv;
    var s1 := Step(s, Sweep);
    StepKeeps(s, Sweep);
    var s2 := Step(s1, Tick(false));
    StepKeeps(s1, Tick(false));
    var s3 := Step(s2, Tick(false));
    StepKeeps(s2, Tick(false));
    var s4 := Step(s3, Tick(false));
    StepKeeps(s3, Tick(false));
    if s4.file.None? { NothingNamed(s4); }
  }

  lemma NothingNamed(s: State)
    requires Inv(s) && s.file.None?
    ensures NoneStarted(s)
  {
  }

  /* ---- The object, with every effect succeeding ---- */

  ghost function Next(s: State): State { Step(s, Tick(false)) }

  ghost function UpToVerify(s: State): State { if s.pc.Idle? || s.pc.Verifying? then s else Next(s) }

  /** A start that has found or made its container, or has given up. */
  ghost function Prepared(s: State, job: Job): State {
    UpToVerify(UpToVerify(UpToVerify(Step(s, Action.Start(job)))))
  }

  /** A verified container after the lease was saved and the container started. */
  function Launched(s: State, job: Job, id: Id): State
    requires id in s.containers
  {
    var c := s.containers[id];
    if !c.approved || !c.current || (s.file.Some? && s.file.value.job != job && c.running) then s
    else
      s.(file := Some(Lease(job, id, s.clock + s.idle)),
         containers := if c.running then s.containers else s.containers[id := c.(running := true, ours := true)])
  }

  lemma LaunchRuns(s: State, job: Job, id: Id)
    requires s.pc == Verifying(job, id) && id in s.containers
    ensures Next(Next(Next(s))) == Launched(s, job, id).(pc := Idle)
  {
  }

  lemma IdleStays(s: State)
    requires s.pc.Idle?
    ensures Next(Next(Next(s))) == s
  {
  }

  /** A start for this job may go on: no other job's lease is in force, and the one labelled container, if
      there is one, passes its checks. An outdated one is replaced only while it is stopped. */
  ghost predicate Startable(s: State, job: Job) {
    var other := s.file.Some? && s.file.value.job != job;
    && (other ==> s.file.value.expires <= s.clock)
    && match Find(s.containers)
       case Nobody => true
       case One(id) => s.containers[id].approved && (s.containers[id].running ==> s.containers[id].current && !other)
       case Many => false
  }

  lemma PreparedIs(s: State, job: Job)
    requires Inv(s) && s.pc.Idle?
    ensures var t := Prepared(s, job);
            && (t.pc.Verifying? || t.pc.Idle?) && t.file == s.file && t.clock == s.clock && t.idle == s.idle
            && (t.pc.Verifying? ==> t.pc.job == job && t.containers.Keys == {t.pc.id})
            && (Startable(s, job) ==>
                  && t.pc.Verifying? && t.containers[t.pc.id].approved && t.containers[t.pc.id].current
                  && (t.containers[t.pc.id].running ==> s.file.Some? ==> s.file.value.job == job))
            && (!Startable(s, job) ==>
                  && t.containers == s.containers
                  && (t.pc.Verifying? ==>
                        var c := t.containers[t.pc.id];
                        !c.approved || (s.file.Some? && s.file.value.job != job && c.running)))
  {
    hide Find;
    assert forall id :: id in s.containers ==> id < s.next;
    var s1 := Step(s, Action.Start(job));
    var s2 := UpToVerify(s1);
    var s3 := UpToVerify(s2);
  }

  /** Main result 4. In every reachable state in which the daemon rests: an undisturbed start ends with the
      only labelled container running for the job under a lease of the idle time from now, if and only
      if it is startable; otherwise lease and containers stay as they were. */
  lemma StartSucceedsIff(clock: int, idle: nat, run: seq<Action>, job: Job)
    requires Run(Initial(clock, idle), run).pc.Idle?
    ensures var s := Run(Initial(clock, idle), run);
            var t := Next(Next(Next(Prepared(s, job))));
            if Startable(s, job)
            then && t.file.Some? && t.file.value.job == job && t.file.value.expires == s.clock + idle
                 && t.containers.Keys == {t.file.value.container}
                 && var c := t.containers[t.file.value.container]; c.running && c.current && c.approved
            else t.file == s.file && t.containers == s.containers
  {
    hide Run, Prepared, Next, Startable, Find;
    RunKeeps(Initial(clock, idle), run);
    IdleTimeStays(Initial(clock, idle), run);
    var s := Run(Initial(clock, idle), run);
    PreparedIs(s, job);
    var t := Prepared(s, job);
    if t.pc.Verifying? { LaunchRuns(t, job, t.pc.id); } else { IdleStays(t); }
  }

  lemma {:induction false} IdleTimeStays(s: State, run: seq<Action>)
    ensures Run(s, run).idle == s.idle
    decreases |run|
  {
    if run != [] {
      StepIdleTime(s, run[0]);
      hide Step;
      IdleTimeStays(Step(s, run[0]), run[1..]);
    }
  }

  lemma StepIdleTime(s: State, a: Action)
    ensures Step(s, a).idle == s.idle
  {
    hide Find;
  }

  class ManagedMigrationAgent {
    const idle: nat
    var clock: int
    var lastSweep: int
    var file: Option<Lease>
    var containers: map<Id, Container>
    var next: Id

    ghost function View(): State
      reads this
    {
      State(clock, lastSweep, idle, file, containers, next, Idle)
    }

    constructor (clock: int, idle: nat)
      ensures View() == Initial(clock, idle)
    {
      this.clock, this.idle, lastSweep, file, containers, next := clock, idle, clock - THROTTLE, None, map[], 0;
    }

    method FindAgent() returns (found: Found)
      ensures found == Find(containers)
    {
      if containers == map[] { return Nobody; }
      var id :| id in containers;
      if containers.Keys == {id} { return One(id); }
      return Many;
    }

    method Stop(job: Job) returns (stopped: bool)
      modifies this`file, this`containers
      ensures View() == Next(Next(Next(Step(old(View()), Action.Stop(job)))))
      ensures stopped ==> file == None
    {
      hide Find;
      if file.None? { return true; }
      if file.value.job != job { return false; }
      var found := FindAgent();
      if found.Many? { return false; }
      if found.One? {
        var c := containers[found.id];
        if found.id != file.value.container || !c.approved { return false; }
        if c.running { containers := containers[found.id := c.(running := false)]; }
      }
      file := None;
      return true;
    }

    method Sweep()
      modifies this`lastSweep, this`file, this`containers
      ensures View() == Swept(old(View()))
    {
      if clock - lastSweep < THROTTLE { return; }
      lastSweep := clock;
      if file.Some? && file.value.expires <= clock {
        var stopped := Stop(file.value.job);
      }
    }

    method Prepare(job: Job) returns (found: Option<Id>)
      modifies this`containers, this`next
      ensures View().(pc := if found.Some? then Verifying(job, found.value) else Idle) == Prepared(old(View()), job)
      ensures found.Some? ==> found.value in containers
    {
      hide Find;
      if file.Some? && file.value.job != job && file.value.expires > clock { return None; }
      var agent := FindAgent();
      if agent.Many? { return None; }
      if agent.One? {
        var c := containers[agent.id];
        if c.current { return Some(agent.id); }
        if !c.approved || c.running { return None; }
        containers := containers - {agent.id};
      }
      found := Some(next);
      containers, next := containers[next := Container(false, false, true, true)], next + 1;
    }

    /** The part of `start` after its sweep: the lease is written before the container is started. */
    method Begin(job: Job) returns (started: bool)
      modifies this`file, this`containers, this`next
      ensures View() == Next(Next(Next(Prepared(old(View()), job))))
      ensures started ==> file.Some? && file.value.job == job && file.value.container in containers
                          && containers[file.value.container].running
    {
      var found := Prepare(job);
      hide Prepared, Next;
      if found.None? {
        IdleStays(View());
        return false;
      }
      LaunchRuns(View().(pc := Verifying(job, found.value)), job, found.value);
      var agent := containers[found.value];
      if !agent.approved || !agent.current { return false; }
      if file.Some? && file.value.job != job && agent.running { return false; }
      file := Some(Lease(job, found.value, clock + idle));
      if !agent.running {
        containers := containers[found.value := agent.(running := true, ours := true)];
      }
      return true;
    }

    /** `start`: a sweep first, then the steps up to the running container. */
    method Start(job: Job) returns (started: bool)
      modifies this`lastSweep, this`file, this`containers, this`next
      ensures View() == Next(Next(Next(Prepared(Swept(old(View())), job))))
      ensures started ==> file.Some? && file.value.job == job && file.value.container in containers
                          && containers[file.value.container].running
    {
      hide Prepared, Next, Swept;
      Sweep();
      started := Begin(job);
    }
  }
}
