/** The cross-thread write-gate lock of backend/app/core/database.py.

    Every critical section under `_state_lock` is one step, every operation on the
    underlying mutex outside it is one step, and any number of threads interleave them.
    A thread between two sections carries a program counter. */
module GateLock {

  import opened Prelude

  datatype Pc =
    | Idle       // not inside acquire, release or the watchdog
    | Waiting    // blocked in `_mutex.acquire`, holding nothing
    | Took       // woke up owning the mutex, not yet recorded in `_held`
    | MustFree   // cleared `_held`, still has to call `_mutex.release`

  /** `epoch` and `count` are the thread-local attributes; `owns` is the caller's view:
      an acquire returned True and its release has not been called. */
  datatype Thread = Thread(epoch: Option<nat>, count: nat, pc: Pc, owns: bool)

  datatype Lock = Lock(mutex: bool, held: int, epoch: nat, heldSince: Option<int>, ownerTid: Option<nat>,
                       threads: seq<Thread>)

  const NewThread := Thread(None, 0, Idle, false)

  function Create(n: nat): Lock {
    Lock(false, 0, 0, None, None, seq(n, i => NewThread))
  }

  datatype Action =
    | Acquire(t: nat, blocking: bool, now: int)
    | Wake(t: nat)
    | TimeOut(t: nat)
    | Record(t: nat, now: int)
    | Release(t: nat)
    | Free(t: nat)
    | Watchdog(t: nat, now: int, threshold: int)

  /* ---- The steps ---- */

  function Sync(th: Thread, epoch: nat): Thread {
    if th.epoch == Some(epoch) then th else th.(epoch := Some(epoch), count := 0)
  }

  predicate Stale(s: Lock, t: nat)
    requires t < |s.threads|
  {
    s.threads[t].epoch != Some(s.epoch)
  }

  function MarkAcquired(s: Lock, t: nat, now: int): Lock
    requires t < |s.threads|
  {
    var since := if s.heldSince == None then Some(now) else s.heldSince;
    var owner := if s.heldSince == None then Some(t) else s.ownerTid;
    s.(held := s.held + 1, heldSince := since, ownerTid := owner,
       threads := s.threads[t := s.threads[t].(count := 1, pc := Idle, owns := true)])
  }

  function SetPc(s: Lock, t: nat, pc: Pc): Lock
    requires t < |s.threads|
  {
    s.(threads := s.threads[t := s.threads[t].(pc := pc)])
  }

  function Synced(s: Lock, t: nat): Lock
    requires t < |s.threads|
  {
    s.(threads := s.threads[t := Sync(s.threads[t], s.epoch)])
  }

  function AcquireStep(s: Lock, t: nat, blocking: bool, now: int): Lock
    requires t < |s.threads|
  {
    var s1 := Synced(s, t);
    var th := s1.threads[t];
    if th.count > 0 then s1.(threads := s1.threads[t := th.(count := th.count + 1, owns := true)])
    else if !blocking then (if s.mutex then s1 else MarkAcquired(s1.(mutex := true), t, now))
    else if s.held > 0 || s.mutex then SetPc(s1, t, Waiting)
    else MarkAcquired(s1.(mutex := true), t, now)
  }

  function RecordStep(s: Lock, t: nat, now: int): Lock
    requires t < |s.threads|
  {
    MarkAcquired(Synced(s, t), t, now)
  }

  function ReleaseStep(s: Lock, t: nat): Lock
    requires t < |s.threads|
  {
    var s0 := s.(threads := s.threads[t := s.threads[t].(owns := false)]);
    var s1 := Synced(s0, t);
    if Stale(s, t) then s1
    else
      var th := s1.threads[t];
      var s2 := s1.(threads := s1.threads[t := th.(count := if th.count > 0 then th.count - 1 else 0)]);
      if s.held <= 0 then s2
      else if s.held == 1 then SetPc(s2.(held := 0, heldSince := None, ownerTid := None), t, MustFree)
      else s2.(held := s.held - 1)
  }

  function WatchdogStep(s: Lock, t: nat, now: int, threshold: int): Lock
    requires t < |s.threads|
  {
    if s.held <= 0 || s.heldSince == None || now - s.heldSince.value < threshold then s
    else SetPc(s.(held := 0, heldSince := None, ownerTid := None, epoch := s.epoch + 1), t, MustFree)
  }

  /** An action of a thread that is not at the matching program counter does nothing. */
  function Step(s: Lock, a: Action): Lock {
    if a.t >= |s.threads| then s else
    var pc := s.threads[a.t].pc;
    match a
    case Acquire(t, blocking, now) => if pc == Idle then AcquireStep(s, t, blocking, now) else s
    case Wake(t) => if pc == Waiting && !s.mutex then SetPc(s.(mutex := true), t, Took) else s
    case TimeOut(t) => if pc == Waiting then SetPc(s, t, Idle) else s
    case Record(t, now) => if pc == Took then RecordStep(s, t, now) else s
    case Release(t) => if pc == Idle then ReleaseStep(s, t) else s
    case Free(t) => if pc == MustFree then SetPc(s.(mutex := false), t, Idle) else s
    case Watchdog(t, now, threshold) => if pc == Idle then WatchdogStep(s, t, now, threshold) else s
  }

  function Run(s: Lock, run: seq<Action>): Lock
    decreases |run|
  {
    if run == [] then s else Run(Step(s, run[0]), run[1..])
  }

  /* ---- Counting threads ---- */

  function Pending(th: Thread): nat { if th.pc == Took || th.pc == MustFree then 1 else 0 }

  /** Threads that took the mutex and did not record it, or cleared the count and did not free it. */
  function InTransit(ths: seq<Thread>): nat {
    if ths == [] then 0 else Pending(ths[0]) + InTransit(ths[1..])
  }

  predicate CurrentOwner(th: Thread, epoch: nat) { th.owns && th.epoch == Some(epoch) }

  function Owners(ths: seq<Thread>, epoch: nat): nat {
    if ths == [] then 0 else (if CurrentOwner(ths[0], epoch) then 1 else 0) + Owners(ths[1..], epoch)
  }

  lemma {:induction false} InTransitUpdate(ths: seq<Thread>, t: nat, th: Thread)
    requires t < |ths|
    ensures InTransit(ths[t := th]) == InTransit(ths) - Pending(ths[t]) + Pending(th)
    ensures InTransit(ths) >= Pending(ths[t])
  {
    if t == 0 {
      assert ths[t := th][1..] == ths[1..];
    } else {
      assert ths[t := th][1..] == ths[1..][t - 1 := th];
      InTransitUpdate(ths[1..], t - 1, th);
    }
  }

  lemma {:induction false} OwnersUpdate(ths: seq<Thread>, t: nat, th: Thread, e: nat)
    requires t < |ths|
    ensures Owners(ths[t := th], e) ==
            Owners(ths, e) - (if CurrentOwner(ths[t], e) then 1 else 0) + (if CurrentOwner(th, e) then 1 else 0)
    ensures CurrentOwner(ths[t], e) ==> Owners(ths, e) >= 1
  {
    if t == 0 {
      assert ths[t := th][1..] == ths[1..];
    } else {
      assert ths[t := th][1..] == ths[1..][t - 1 := th];
      OwnersUpdate(ths[1..], t - 1, th, e);
    }
  }

  lemma {:induction false} OwnersNone(ths: seq<Thread>, e: nat)
    requires forall i :: 0 <= i < |ths| ==> !CurrentOwner(ths[i], e)
    ensures Owners(ths, e) == 0
  {
    if ths != [] { OwnersNone(ths[1..], e); }
  }

  lemma {:induction false} InTransitNone(ths: seq<Thread>)
    requires forall i :: 0 <= i < |ths| ==> ths[i].pc == Idle
    ensures InTransit(ths) == 0
  {
    if ths != [] { InTransitNone(ths[1..]); }
  }

  /* ---- Conservation: every interleaving, whatever the callers do ---- */

  ghost predicate Conserved(s: Lock) {
    && s.held >= 0
    && s.held + InTransit(s.threads) == (if s.mutex then 1 else 0)
    && (s.heldSince != None <==> s.held == 1)
    && (s.ownerTid != None <==> s.held == 1)
  }

  /** A step moves the mutex by what it moves the hold count and its own thread's transit. */
  lemma StepBalances(s: Lock, a: Action)
    requires Conserved(s) && a.t < |s.threads| && InTransit(s.threads) >= Pending(s.threads[a.t])
    ensures var s' := Step(s, a);
            && |s'.threads| == |s.threads| && s'.threads == s.threads[a.t := s'.threads[a.t]]
            && s'.held >= 0 && (s'.heldSince != None <==> s'.held == 1) && (s'.ownerTid != None <==> s'.held == 1)
            && s'.held - s.held + Pending(s'.threads[a.t]) - Pending(s.threads[a.t]) ==
               (if s'.mutex then 1 else 0) - if s.mutex then 1 else 0
  {
    hide InTransit;
  }

  lemma StepConserves(s: Lock, a: Action)
    requires Conserved(s)
    ensures Conserved(Step(s, a))
  {
    hide Step, InTransit, Pending;
    if a.t < |s.threads| {
      InTransitUpdate(s.threads, a.t, s.threads[a.t]);
      StepBalances(s, a);
      InTransitUpdate(s.threads, a.t, Step(s, a).threads[a.t]);
    } else {
      StepOfNobody(s, a);
    }
  }

  lemma StepOfNobody(s: Lock, a: Action)
    requires a.t >= |s.threads|
    ensures Step(s, a) == s
  {
  }

  lemma {:induction false} RunConserves(s: Lock, run: seq<Action>)
    requires Conserved(s)
    ensures Conserved(Run(s, run))
    decreases |run|
  {
    if run != [] {
      StepConserves(s, run[0]);
      RunConserves(Step(s, run[0]), run[1..]);
    }
  }

  /** Main result 1. For every number of threads and every run, correct callers or not. */
  lemma EveryRunConserves(n: nat, run: seq<Action>)
    ensures var s := Run(Create(n), run);
            && (s.held == 0 || s.held == 1)
            && s.held + InTransit(s.threads) == (if s.mutex then 1 else 0)
            && (s.heldSince != None <==> s.held == 1)
            && forall t :: 0 <= t < |s.threads| && s.threads[t].pc == MustFree ==> s.mutex
  {
    InTransitNone(Create(n).threads);
    RunConserves(Create(n), run);
    var s := Run(Create(n), run);
    forall t | 0 <= t < |s.threads| && s.threads[t].pc == MustFree ensures s.mutex {
      InTransitUpdate(s.threads, t, s.threads[t]);
    }
  }

  /** In every reachable state an acquire is granted at once if and only if the thread owns the current
      epoch already or the mutex is free; otherwise a blocking one waits, and another one is refused
      and leaves the lock alone. */
  lemma AcquireGrantsIff(n: nat, run: seq<Action>, t: nat, blocking: bool, now: int)
    requires t < |Run(Create(n), run).threads| && Run(Create(n), run).threads[t].pc == Idle
    ensures var s := Run(Create(n), run);
            var s' := Step(s, Acquire(t, blocking, now));
            var reentrant := s.threads[t].epoch == Some(s.epoch) && s.threads[t].count > 0;
            && |s'.threads| == |s.threads|
            && (reentrant || !s.mutex ==>
                  && CurrentOwner(s'.threads[t], s'.epoch) && s'.threads[t].pc == Idle && s'.mutex == (!reentrant || s.mutex)
                  && s'.threads[t].count == if reentrant then s.threads[t].count + 1 else 1)
            && (!reentrant && s.mutex ==>
                  && s'.(threads := s.threads) == s && s'.threads[t].owns == s.threads[t].owns && s'.threads[t].count == 0
                  && s'.threads[t].pc == if blocking then Waiting else Idle)
  {
    hide Run;
    EveryRunConserves(n, run);
  }

  /* ---- When the present hold began ---- */

  /** The thread that began a hold, and the clock of the action that did. */
  datatype Start = Start(thread: nat, at: int)

  /** The start of the hold after one action: a hold begins where the count leaves 0, with the
      acquire or record that did it, and ends where the count is 0 again. */
  function Since(s: Lock, start: Option<Start>, a: Action): Option<Start> {
    if Step(s, a).held == 0 then None
    else if s.held != 0 then start
    else match a
      case Acquire(t, _, now) => Some(Start(t, now))
      case Record(t, now) => Some(Start(t, now))
      case _ => None
  }

  function HoldBegan(s: Lock, run: seq<Action>, start: Option<Start>): Option<Start>
    decreases |run|
  {
    if run == [] then start else HoldBegan(Step(s, run[0]), run[1..], Since(s, start, run[0]))
  }

  /** The lock's own record of the hold names that thread and that time. */
  predicate Dated(s: Lock, start: Option<Start>) {
    && (start.Some? <==> s.held == 1)
    && s.heldSince == (if start.Some? then Some(start.value.at) else None)
    && s.ownerTid == (if start.Some? then Some(start.value.thread) else None)
  }

  lemma StepDates(s: Lock, start: Option<Start>, a: Action)
    requires Conserved(s) && Dated(s, start)
    ensures Dated(Step(s, a), Since(s, start, a))
  {
    StepConserves(s, a);
    HeldIsOne(s);
    HeldIsOne(Step(s, a));
    DatedStep(s, start, a);
  }

  lemma HeldIsOne(s: Lock)
    requires Conserved(s)
    ensures s.held == 0 || s.held == 1
  {
  }

  lemma DatedStep(s: Lock, start: Option<Start>, a: Action)
    requires Dated(s, start) && (s.held == 0 || s.held == 1) && (Step(s, a).held == 0 || Step(s, a).held == 1)
    ensures Dated(Step(s, a), Since(s, start, a))
  {
  }

  lemma {:induction false} RunDates(s: Lock, run: seq<Action>, start: Option<Start>)
    requires Conserved(s) && Dated(s, start)
    ensures Conserved(Run(s, run)) && Dated(Run(s, run), HoldBegan(s, run, start))
    decreases |run|
  {
    hide Step, Dated, Conserved, Since;
    if run != [] {
      StepConserves(s, run[0]);
      StepDates(s, start, run[0]);
      RunDates(Step(s, run[0]), run[1..], Since(s, start, run[0]));
    }
  }

  /** Main result 2. In every reachable state the lock is held exactly when the run has begun a hold
      that it has not ended, and the lock names the thread and the time of the acquire or record
      that began it. */
  lemma HoldIsDated(n: nat, run: seq<Action>)
    ensures Dated(Run(Create(n), run), HoldBegan(Create(n), run, None))
  {
    InTransitNone(Create(n).threads);
    RunDates(Create(n), run, None);
  }

  /* ---- Ownership: each thread releases its own acquire before acquiring again ---- */

  predicate Disciplined(s: Lock, a: Action) {
    a.t < |s.threads| ==>
      && (a.Acquire? ==> !s.threads[a.t].owns)
      && (a.Release? ==> s.threads[a.t].owns)
  }

  predicate DisciplinedRun(s: Lock, run: seq<Action>)
    decreases |run|
  {
    run == [] || (Disciplined(s, run[0]) && DisciplinedRun(Step(s, run[0]), run[1..]))
  }

  predicate ThreadOk(th: Thread, epoch: nat) {
    && (th.epoch != None ==> th.epoch.value <= epoch)
    && (th.epoch == Some(epoch) ==> th.count == if th.owns then 1 else 0)
    && (th.owns ==> th.epoch != None && th.pc != Waiting && th.pc != Took)
    && (CurrentOwner(th, epoch) ==> th.pc == Idle)
  }

  ghost predicate Owned(s: Lock) {
    && Conserved(s)
    && (forall t :: 0 <= t < |s.threads| ==> ThreadOk(s.threads[t], s.epoch))
    && s.held == Owners(s.threads, s.epoch)
    && (forall t :: 0 <= t < |s.threads| && CurrentOwner(s.threads[t], s.epoch) ==> s.ownerTid == Some(t))
  }

  /** A step touches the record of its own thread only, and leaves that record in order. */
  lemma LocalKeepsThread(s: Lock, a: Action)
    requires a.t < |s.threads| && ThreadOk(s.threads[a.t], s.epoch) && Disciplined(s, a) && s.held <= 1
    requires CurrentOwner(s.threads[a.t], s.epoch) ==> s.held == 1
    ensures var s' := Step(s, a);
            && s'.threads == s.threads[a.t := s'.threads[a.t]]
            && (s'.epoch == s.epoch || s'.epoch == s.epoch + 1)
            && ThreadOk(s'.threads[a.t], s'.epoch)
            && (s'.epoch == s.epoch + 1 ==> s'.held == 0 && s'.threads[a.t].epoch == s.threads[a.t].epoch)
  {
  }

  lemma StepKeepsThread(s: Lock, a: Action)
    requires Owned(s) && Disciplined(s, a) && a.t < |s.threads|
    ensures var s' := Step(s, a);
            && s'.threads == s.threads[a.t := s'.threads[a.t]]
            && (s'.epoch == s.epoch || s'.epoch == s.epoch + 1)
            && ThreadOk(s'.threads[a.t], s'.epoch)
            && (s'.epoch == s.epoch + 1 ==> s'.held == 0 && s'.threads[a.t].epoch == s.threads[a.t].epoch)
  {
    InTransitUpdate(s.threads, a.t, s.threads[a.t]);
    OwnersUpdate(s.threads, a.t, s.threads[a.t], s.epoch);
    assert ThreadOk(s.threads[a.t], s.epoch) && s.held <= 1;
    LocalKeepsThread(s, a);
  }

  /** Within an epoch the hold count moves with the stepping thread's ownership. */
  lemma StepMovesHold(s: Lock, a: Action)
    requires Owned(s) && Disciplined(s, a) && a.t < |s.threads| && Step(s, a).epoch == s.epoch
    ensures var s' := Step(s, a);
            s'.held - s.held == (if CurrentOwner(s'.threads[a.t], s.epoch) then 1 else 0)
                                - (if CurrentOwner(s.threads[a.t], s.epoch) then 1 else 0)
  {
    InTransitUpdate(s.threads, a.t, s.threads[a.t]);
    OwnersUpdate(s.threads, a.t, s.threads[a.t], s.epoch);
    assert ThreadOk(s.threads[a.t], s.epoch);
  }

  lemma StepNamesOwner(s: Lock, a: Action, u: nat)
    requires Owned(s) && Disciplined(s, a) && a.t < |s.threads| && u < |s.threads|
    requires var s' := Step(s, a); CurrentOwner(s'.threads[u], s'.epoch)
    ensures Step(s, a).ownerTid == Some(u)
  {
    StepKeepsThread(s, a);
    InTransitUpdate(s.threads, a.t, s.threads[a.t]);
    OwnersUpdate(s.threads, u, s.threads[u], s.epoch);
    assert ThreadOk(s.threads[u], s.epoch);
    if u != a.t {
      OwnersUpdate(s.threads, a.t, s.threads[a.t], s.epoch);
    }
  }

  lemma StepKeepsOwnership(s: Lock, a: Action)
    requires Owned(s) && Disciplined(s, a)
    ensures Owned(Step(s, a))
  {
    StepConserves(s, a);
    if a.t < |s.threads| {
      var s' := Step(s, a);
      StepKeepsThread(s, a);
      if s'.epoch == s.epoch {
        StepMovesHold(s, a);
        OwnersUpdate(s.threads, a.t, s'.threads[a.t], s.epoch);
      } else {
        OwnersNone(s'.threads, s'.epoch);
      }
      forall u | 0 <= u < |s'.threads| && CurrentOwner(s'.threads[u], s'.epoch) ensures s'.ownerTid == Some(u) {
        StepNamesOwner(s, a, u);
      }
    }
  }

  lemma {:induction false} RunKeepsOwnership(s: Lock, run: seq<Action>)
    requires Owned(s) && DisciplinedRun(s, run)
    ensures Owned(Run(s, run))
    decreases |run|
  {
    if run != [] {
      StepKeepsOwnership(s, run[0]);
      RunKeepsOwnership(Step(s, run[0]), run[1..]);
    }
  }

  lemma {:induction false} OwnerCounts(ths: seq<Thread>, e: nat)
    ensures Owners(ths, e) >= 1 ==> exists t :: 0 <= t < |ths| && CurrentOwner(ths[t], e)
    ensures forall t :: 0 <= t < |ths| && CurrentOwner(ths[t], e) ==> Owners(ths, e) >= 1
    ensures forall t, u :: 0 <= t < u < |ths| && CurrentOwner(ths[t], e) && CurrentOwner(ths[u], e) ==> Owners(ths, e) >= 2
  {
    if ths != [] {
      var rest := ths[1..];
      OwnerCounts(rest, e);
      forall t | 0 < t < |ths| ensures ths[t] == rest[t - 1] {}
      if Owners(ths, e) >= 1 && !CurrentOwner(ths[0], e) {
        var t :| 0 <= t < |rest| && CurrentOwner(rest[t], e);
        assert CurrentOwner(ths[t + 1], e);
      }
    }
  }

  /** Main result 3. At most one thread owns the lock in the current epoch, one does exactly
      when the hold count is 1, and it is the thread the lock names as its owner. */
  lemma OneOwnerPerEpoch(n: nat, run: seq<Action>)
    requires DisciplinedRun(Create(n), run)
    ensures var s := Run(Create(n), run);
            && (s.held == 1 <==> exists t :: 0 <= t < |s.threads| && CurrentOwner(s.threads[t], s.epoch))
            && (forall t, u | 0 <= t < |s.threads| && 0 <= u < |s.threads| ::
                  CurrentOwner(s.threads[t], s.epoch) && CurrentOwner(s.threads[u], s.epoch) ==> t == u)
            && (forall t :: 0 <= t < |s.threads| && CurrentOwner(s.threads[t], s.epoch) ==> s.ownerTid == Some(t))
  {
    InTransitNone(Create(n).threads);
    OwnersNone(Create(n).threads, 0);
    RunKeepsOwnership(Create(n), run);
    var s := Run(Create(n), run);
    OwnerCounts(s.threads, s.epoch);
  }

  /* ---- How long a hold lasts ---- */

  predicate Holds(s: Lock, u: nat) {
    u < |s.threads| && CurrentOwner(s.threads[u], s.epoch) && s.held == 1 && s.ownerTid == Some(u)
  }

  /** A watchdog round that comes the threshold or more after the hold began. */
  predicate Fires(s: Lock, start: Option<Start>, a: Action) {
    && a.Watchdog? && a.t < |s.threads| && s.threads[a.t].pc == Idle
    && start.Some? && a.now - start.value.at >= a.threshold
  }

  /** Thread `u` does not release and no watchdog round fires. */
  predicate Spares(s: Lock, start: Option<Start>, run: seq<Action>, u: nat)
    decreases |run|
  {
    run == [] || (run[0] != Release(u) && !Fires(s, start, run[0])
                  && Spares(Step(s, run[0]), Since(s, start, run[0]), run[1..], u))
  }

  /** Thread `u` holds the lock now and after each step. */
  predicate Lasts(s: Lock, run: seq<Action>, u: nat)
    decreases |run|
  {
    Holds(s, u) && (run == [] || Lasts(Step(s, run[0]), run[1..], u))
  }

  lemma OwnerHolds(s: Lock, u: nat)
    requires Owned(s) && u < |s.threads| && CurrentOwner(s.threads[u], s.epoch)
    ensures Holds(s, u) && s.threads[u].pc == Idle && s.threads[u].count == 1
  {
    OwnersUpdate(s.threads, u, s.threads[u], s.epoch);
    InTransitUpdate(s.threads, u, s.threads[u]);
    assert ThreadOk(s.threads[u], s.epoch);
  }

  /** One disciplined step ends a hold exactly when it is the owner's release or fires the watchdog:
      the late release of another thread, whose own hold was force-cleared, is not among them. */
  lemma StepEndsHoldIff(s: Lock, start: Option<Start>, a: Action, u: nat)
    requires Owned(s) && Disciplined(s, a) && Holds(s, u) && Dated(s, start)
    ensures Holds(Step(s, a), u) <==> a != Release(u) && !Fires(s, start, a)
  {
    OwnerHolds(s, u);
    StepKeepsOwnership(s, a);
    var s' := Step(s, a);
    if a.t < |s.threads| {
      StepKeepsThread(s, a);
      if a != Release(u) && !Fires(s, start, a) {
        HoldSurvives(s, start, a, u);
        OwnerHolds(s', u);
      }
    }
  }

  lemma HoldSurvives(s: Lock, start: Option<Start>, a: Action, u: nat)
    requires a.t < |s.threads| && Holds(s, u) && s.threads[u].pc == Idle && Disciplined(s, a) && Dated(s, start)
    requires a != Release(u) && !Fires(s, start, a)
    ensures var s' := Step(s, a);
            |s'.threads| == |s.threads| && CurrentOwner(s'.threads[u], s'.epoch)
  {
  }

  lemma {:induction false} HoldLastsFrom(s: Lock, start: Option<Start>, more: seq<Action>, u: nat)
    requires Owned(s) && Holds(s, u) && DisciplinedRun(s, more) && Dated(s, start)
    ensures Lasts(s, more, u) <==> Spares(s, start, more, u)
    decreases |more|
  {
    hide Step, Conserved, Holds, Fires, Disciplined, Dated, Since;
    if more != [] {
      StepEndsHoldIff(s, start, more[0], u);
      StepKeepsOwnership(s, more[0]);
      StepDates(s, start, more[0]);
      if Holds(Step(s, more[0]), u) { HoldLastsFrom(Step(s, more[0]), Since(s, start, more[0]), more[1..], u); }
    }
  }

  lemma {:induction false} LastsToTheEnd(s: Lock, more: seq<Action>, u: nat)
    requires Lasts(s, more, u)
    ensures Holds(Run(s, more), u)
    decreases |more|
  {
    hide Step, Holds;
    if more != [] { LastsToTheEnd(Step(s, more[0]), more[1..], u); }
  }

  /** Main result 4. Once a thread owns the lock, it stays the owner, with the count at 1 and its name
      in the lock, through every disciplined continuation, late releases of force-cleared threads
      included, if and only if it does not release and no watchdog round comes its threshold or more
      after the acquire that began the hold. */
  lemma HoldLastsIff(n: nat, run: seq<Action>, more: seq<Action>, u: nat)
    requires DisciplinedRun(Create(n), run) && DisciplinedRun(Run(Create(n), run), more)
    requires u < |Run(Create(n), run).threads|
    requires CurrentOwner(Run(Create(n), run).threads[u], Run(Create(n), run).epoch)
    ensures var s, start := Run(Create(n), run), HoldBegan(Create(n), run, None);
            && (Lasts(s, more, u) <==> Spares(s, start, more, u))
            && (Spares(s, start, more, u) ==> Holds(Run(s, more), u))
  {
    hide Run, DisciplinedRun, Lasts, Spares, HoldBegan;
    ReachableIsOwned(n, run);
    HoldIsDated(n, run);
    var s, start := Run(Create(n), run), HoldBegan(Create(n), run, None);
    OwnerHolds(s, u);
    HoldLastsFrom(s, start, more, u);
    if Spares(s, start, more, u) { LastsToTheEnd(s, more, u); }
  }

  lemma ReachableIsOwned(n: nat, run: seq<Action>)
    requires DisciplinedRun(Create(n), run)
    ensures Owned(Run(Create(n), run))
  {
    InTransitNone(Create(n).threads);
    OwnersNone(Create(n).threads, 0);
    RunKeepsOwnership(Create(n), run);
  }

  /* ---- Nested acquires ---- */

  /** How deep the caller of `u` believes itself to be, from `depth` on. */
  function Depth(depth: int, s: Lock, run: seq<Action>, u: nat): int
    decreases |run|
  {
    if run == [] then depth else Depth(depth + Nesting(s, run[0], u), Step(s, run[0]), run[1..], u)
  }

  /** A call of `u` that is not inside another one. */
  function Nesting(s: Lock, a: Action, u: nat): int {
    if a.t != u || u >= |s.threads| || s.threads[u].pc != Idle then 0
    else if a.Acquire? then 1 else if a.Release? then -1 else 0
  }

  predicate OthersDisciplined(s: Lock, run: seq<Action>, u: nat)
    decreases |run|
  {
    run == [] || ((run[0].t != u ==> Disciplined(s, run[0])) && OthersDisciplined(Step(s, run[0]), run[1..], u))
  }

  predicate Calm(s: Lock, start: Option<Start>, run: seq<Action>)
    decreases |run|
  {
    run == [] || (!Fires(s, start, run[0]) && Calm(Step(s, run[0]), Since(s, start, run[0]), run[1..]))
  }

  predicate NeverNests(run: seq<Action>, u: nat) { forall k :: 0 <= k < |run| ==> !(run[k].Acquire? && run[k].t == u) }

  predicate NeverReleases(run: seq<Action>, u: nat) { forall k :: 0 <= k < |run| ==> run[k] != Release(u) }

  /** While the hold lasts no release has happened, so the depth only grew, by the nested acquires. */
  lemma {:induction false} LastingDepth(s: Lock, run: seq<Action>, u: nat, depth: int)
    requires Lasts(s, run, u) && s.threads[u].pc == Idle && s.threads[u].count >= 1
    ensures Depth(depth, s, run, u) >= depth
    ensures Depth(depth, s, run, u) == depth ==> NeverNests(run, u)
    decreases |run|
  {
    if run != [] {
      var s' := Step(s, run[0]);
      LastingStep(s, run[0], u);
      LastingDepth(s', run[1..], u, depth + Nesting(s, run[0], u));
      if Depth(depth, s, run, u) == depth {
        assert NeverNests(run[1..], u);
        forall k | 0 <= k < |run| ensures !(run[k].Acquire? && run[k].t == u) {
          if k > 0 { assert run[k] == run[1..][k - 1]; }
        }
      }
    }
  }

  lemma LastingStep(s: Lock, a: Action, u: nat)
    requires Holds(s, u) && s.threads[u].pc == Idle && s.threads[u].count >= 1 && Holds(Step(s, a), u)
    ensures Step(s, a).threads[u].pc == Idle && Step(s, a).threads[u].count >= 1
    ensures Nesting(s, a, u) == if a.Acquire? && a.t == u then 1 else 0
  {
  }

  lemma {:induction false} QuietRunIsDisciplined(s: Lock, start: Option<Start>, run: seq<Action>, u: nat)
    requires OthersDisciplined(s, run, u) && Calm(s, start, run) && NeverNests(run, u) && NeverReleases(run, u)
    ensures DisciplinedRun(s, run) && Spares(s, start, run, u)
    decreases |run|
  {
    hide Step, Fires, Since;
    if run != [] {
      assert !(run[0].Acquire? && run[0].t == u) && run[0] != Release(u);
      forall k | 0 <= k < |run[1..]| ensures run[1..][k] == run[k + 1] {}
      QuietRunIsDisciplined(Step(s, run[0]), Since(s, start, run[0]), run[1..], u);
    }
  }

  /** Without nested acquires, depth at least one throughout leaves no room for a release. */
  predicate Inside(depth: int, s: Lock, run: seq<Action>, u: nat)
    decreases |run|
  {
    depth >= 1 && (run == [] || Inside(depth + Nesting(s, run[0], u), Step(s, run[0]), run[1..], u))
  }

  lemma {:induction false} InsideNeverReleases(s: Lock, start: Option<Start>, run: seq<Action>, u: nat)
    requires Owned(s) && Holds(s, u) && OthersDisciplined(s, run, u) && Calm(s, start, run) && NeverNests(run, u)
    requires Inside(1, s, run, u) && Dated(s, start)
    ensures NeverReleases(run, u)
    decreases |run|
  {
    hide Conserved, Step, Since, Dated;
    if run != [] {
      var a := run[0];
      OwnerHolds(s, u);
      assert a != Release(u) && !(a.Acquire? && a.t == u);
      assert Disciplined(s, a);
      StepEndsHoldIff(s, start, a, u);
      StepKeepsOwnership(s, a);
      StepDates(s, start, a);
      forall k | 0 <= k < |run[1..]| ensures run[1..][k] == run[k + 1] {}
      InsideNeverReleases(Step(s, a), Since(s, start, a), run[1..], u);
      forall k | 0 <= k < |run| ensures run[k] != Release(u) {
        if k > 0 { assert run[k] == run[1..][k - 1]; }
      }
    }
  }

  /** Main result 5. Reentrancy is not kept. Take the stretch from a thread's outermost acquire to
      just before its outermost release, with the other callers disciplined and no watchdog round
      firing. The hold lasts through it if and only if the thread never acquires while owning. */
  lemma HoldLastsIffNeverNested(n: nat, run: seq<Action>, more: seq<Action>, u: nat)
    requires DisciplinedRun(Create(n), run)
    requires u < |Run(Create(n), run).threads|
    requires CurrentOwner(Run(Create(n), run).threads[u], Run(Create(n), run).epoch)
    requires var s := Run(Create(n), run);
             && OthersDisciplined(s, more, u) && Calm(s, HoldBegan(Create(n), run, None), more)
             && Inside(1, s, more, u) && Depth(1, s, more, u) == 1
    ensures Lasts(Run(Create(n), run), more, u) <==> NeverNests(more, u)
  {
    hide Run, DisciplinedRun, Lasts, Spares, Depth, Inside, OthersDisciplined, Calm, NeverNests, HoldBegan;
    ReachableIsOwned(n, run);
    HoldIsDated(n, run);
    var s, start := Run(Create(n), run), HoldBegan(Create(n), run, None);
    OwnerHolds(s, u);
    if Lasts(s, more, u) {
      LastingDepth(s, more, u, 1);
    } else if NeverNests(more, u) {
      InsideNeverReleases(s, start, more, u);
      QuietRunIsDisciplined(s, start, more, u);
      HoldLastsFrom(s, start, more, u);
      assert false;
    }
  }

  /** An inner release ends the hold, however deep it is nested, in every reachable state. */
  lemma NoReleaseKeepsTheHold(n: nat, run: seq<Action>, t: nat)
    requires t < |Run(Create(n), run).threads|
    requires var s := Run(Create(n), run); s.threads[t].pc == Idle && !Stale(s, t) && s.held > 0
    ensures var s := Run(Create(n), run);
            var s' := Step(s, Release(t));
            && s'.held == 0 && s'.threads[t].pc == MustFree
            && s'.threads[t].count == if s.threads[t].count > 0 then s.threads[t].count - 1 else 0
  {
    hide Run;
    EveryRunConserves(n, run);
  }

  ghost predicate EpochsBehind(s: Lock) {
    forall t :: 0 <= t < |s.threads| && s.threads[t].epoch.Some? ==> s.threads[t].epoch.value <= s.epoch
  }

  lemma {:induction false} RunKeepsEpochs(s: Lock, run: seq<Action>)
    requires EpochsBehind(s)
    ensures EpochsBehind(Run(s, run))
    decreases |run|
  {
    if run != [] {
      StepKeepsEpochs(s, run[0]);
      RunKeepsEpochs(Step(s, run[0]), run[1..]);
    }
  }

  lemma StepKeepsEpochs(s: Lock, a: Action)
    requires EpochsBehind(s)
    ensures EpochsBehind(Step(s, a))
  {
  }

  /** Main result 6. No hold wedges the gate: in every reachable state, correct callers or not, a
      watchdog round that comes the threshold or more after the action that began the hold frees the
      mutex, and any other idle thread gets the lock at once; a younger hold is left as it is. */
  lemma WatchdogUnwedges(n: nat, run: seq<Action>, w: nat, now: int, threshold: int, t: nat)
    requires var s := Run(Create(n), run);
             s.held == 1 && w < |s.threads| && t < |s.threads| && t != w && s.threads[w].pc == Idle && s.threads[t].pc == Idle
    ensures var s, start := Run(Create(n), run), HoldBegan(Create(n), run, None);
            && start.Some? && s.heldSince == Some(start.value.at)
            && (now - start.value.at < threshold ==> Step(s, Watchdog(w, now, threshold)) == s)
            && (now - start.value.at >= threshold ==>
                  var s1 := Step(Step(s, Watchdog(w, now, threshold)), Free(w));
                  var s2 := Step(s1, Acquire(t, false, now));
                  !s1.mutex && |s2.threads| == |s.threads| && CurrentOwner(s2.threads[t], s2.epoch))
  {
    hide Run, HoldBegan;
    InTransitNone(Create(n).threads);
    RunConserves(Create(n), run);
    RunKeepsEpochs(Create(n), run);
    HoldIsDated(n, run);
    var s := Run(Create(n), run);
    if now - s.heldSince.value >= threshold {
      WatchdogFrees(s, w, now, threshold, t);
    }
  }

  lemma WatchdogFrees(s: Lock, w: nat, now: int, threshold: int, t: nat)
    requires Conserved(s) && EpochsBehind(s) && s.held == 1
    requires w < |s.threads| && t < |s.threads| && t != w && s.threads[w].pc == Idle && s.threads[t].pc == Idle
    requires now - s.heldSince.value >= threshold
    ensures var s1 := Step(Step(s, Watchdog(w, now, threshold)), Free(w));
            var s2 := Step(s1, Acquire(t, false, now));
            !s1.mutex && |s2.threads| == |s.threads| && CurrentOwner(s2.threads[t], s2.epoch)
  {
    var s0 := Step(s, Watchdog(w, now, threshold));
    assert s0.threads[w].pc == MustFree;
    var s1 := Step(s0, Free(w));
    assert s1.threads[t] == s.threads[t] && s1.epoch == s.epoch + 1;
    assert Stale(s1, t);
  }

  /* ---- What the discipline is for ---- */

  /** The shortest stretch in which a nested acquire loses the hold. */
  lemma NestedHoldIsLost()
    ensures var s := Run(Create(1), [Acquire(0, true, 0), Acquire(0, true, 0), Release(0), Free(0)]);
            s.threads[0].count == 1 && !s.mutex
  {
    var s1 := Step(Create(1), Acquire(0, true, 0));
    var s2 := Step(s1, Acquire(0, true, 0));
    var s3 := Step(s2, Release(0));
    var s4 := Step(s3, Free(0));
    var run := [Acquire(0, true, 0), Acquire(0, true, 0), Release(0), Free(0)];
    assert run[1..] == [Acquire(0, true, 0), Release(0), Free(0)];
    assert run[1..][1..] == [Release(0), Free(0)];
    assert run[1..][1..][1..] == [Free(0)];
    assert Run(s4, []) == s4;
    assert Run(s3, [Free(0)]) == Run(s4, []);
    assert Run(s2, [Release(0), Free(0)]) == Run(s3, [Free(0)]);
    assert Run(s1, run[1..]) == Run(s2, [Release(0), Free(0)]);
  }

  /** The lock apart from the threads' own records. */
  predicate SameLock(s: Lock, s': Lock) { s'.(threads := s.threads) == s }

  /** A hold handed to another thread is released by it exactly when that thread's record is
      of the current epoch, that is when it used the lock since the last watchdog reset. */
  lemma HandOffReleasesIff(n: nat, run: seq<Action>, t: nat)
    requires t < |Run(Create(n), run).threads|
    requires Run(Create(n), run).threads[t].pc == Idle && Run(Create(n), run).held == 1
    ensures var s := Run(Create(n), run);
            Step(s, Release(t)).held == 0 <==> s.threads[t].epoch == Some(s.epoch)
  {
    hide Run;
    var s := Run(Create(n), run);
    var s' := Step(s, Release(t));
    assert Stale(s, t) ==> s'.held == s.held;
  }

  /** The other half: a later release of the first thread leaves the lock alone if and only if that
      thread's record is of an older epoch, or nobody holds the lock at that moment. */
  lemma LaterReleaseIsNoOpIff(n: nat, run: seq<Action>, u: nat)
    requires u < |Run(Create(n), run).threads| && Run(Create(n), run).threads[u].pc == Idle
    ensures var s := Run(Create(n), run);
            SameLock(s, Step(s, Release(u))) <==> s.threads[u].epoch != Some(s.epoch) || s.held == 0
  {
    hide Run;
    EveryRunConserves(n, run);
  }

  /** After a hand-off: the helper releases, and a third thread acquires. */
  function HandOff(s: Lock, t: nat, w: nat): Lock {
    Step(Step(Step(s, Release(t)), Free(t)), Acquire(w, false, 0))
  }

  /** Main result 7. In every reachable state the hand-off that works is the one that is not safe: the
      helper's record is current, so the hold passes to the third thread, and the first thread's
      record stays current too, so its late release ends that hold and its acquire is let in while
      the third thread holds the gate. With an older helper's record the hand-off does nothing. */
  lemma WorkingHandOffIsUnsafe(n: nat, run: seq<Action>, u: nat, t: nat, w: nat)
    requires DisciplinedRun(Create(n), run)
    requires var s := Run(Create(n), run);
             && u < |s.threads| && t < |s.threads| && w < |s.threads| && u != t && t != w && u != w
             && CurrentOwner(s.threads[u], s.epoch) && s.threads[t].pc == Idle && s.threads[w].pc == Idle
    ensures var s := Run(Create(n), run);
            var s3 := HandOff(s, t, w);
            if s.threads[t].epoch == Some(s.epoch)
            then && Holds(s3, w) && !Holds(Step(s3, Release(u)), w) && Step(s3, Release(u)).held == 0
                 && u < |Step(s3, Acquire(u, true, 0)).threads| && Step(s3, Acquire(u, true, 0)).threads[u].owns
                 && Step(s3, Acquire(u, true, 0)).threads[u].pc == Idle && Holds(Step(s3, Acquire(u, true, 0)), w)
            else Holds(s3, u)
  {
    hide Run, DisciplinedRun;
    ReachableIsOwned(n, run);
    var s := Run(Create(n), run);
    OwnerHolds(s, u);
    EveryRunConserves(n, run);
    OneOwnerPerEpoch(n, run);
    assert ThreadOk(s.threads[w], s.epoch) && !CurrentOwner(s.threads[w], s.epoch);
    HandOffFrom(s, u, t, w);
  }

  lemma HandOffFrom(s: Lock, u: nat, t: nat, w: nat)
    requires u < |s.threads| && t < |s.threads| && w < |s.threads| && u != t && t != w && u != w
    requires Holds(s, u) && s.threads[u].pc == Idle && s.threads[u].count == 1 && s.mutex && s.heldSince.Some?
    requires s.threads[t].pc == Idle && s.threads[w].pc == Idle
    requires s.threads[w].epoch == Some(s.epoch) ==> s.threads[w].count == 0
    ensures var s3 := HandOff(s, t, w);
            if s.threads[t].epoch == Some(s.epoch)
            then && Holds(s3, w) && !Holds(Step(s3, Release(u)), w) && Step(s3, Release(u)).held == 0
                 && u < |Step(s3, Acquire(u, true, 0)).threads| && Step(s3, Acquire(u, true, 0)).threads[u].owns
                 && Step(s3, Acquire(u, true, 0)).threads[u].pc == Idle && Holds(Step(s3, Acquire(u, true, 0)), w)
            else Holds(s3, u)
  {
    var s1 := Step(s, Release(t));
    if s.threads[t].epoch == Some(s.epoch) {
      HandedOver(s, u, t, w);
      var s3 := HandOff(s, t, w);
      hide HandOff;
      FirstThreadDisturbs(s3, u, w);
    } else {
      assert SameLock(s, s1) && s1.threads[u] == s.threads[u] && s1.threads[w] == s.threads[w] && s1.threads[t].pc == Idle;
      assert Step(s1, Free(t)) == s1;
    }
  }

  lemma HandedOver(s: Lock, u: nat, t: nat, w: nat)
    requires u < |s.threads| && t < |s.threads| && w < |s.threads| && u != t && t != w && u != w
    requires Holds(s, u) && s.mutex && s.heldSince.Some? && s.threads[t].epoch == Some(s.epoch)
    requires s.threads[t].pc == Idle && s.threads[w].pc == Idle
    requires s.threads[w].epoch == Some(s.epoch) ==> s.threads[w].count == 0
    ensures var s3 := HandOff(s, t, w);
            |s3.threads| == |s.threads| && Holds(s3, w) && s3.threads[u] == s.threads[u] && s3.epoch == s.epoch
  {
    var s1 := Step(s, Release(t));
    assert s1.held == 0 && s1.heldSince == None && s1.epoch == s.epoch && s1.threads[t].pc == MustFree;
    assert s1.threads[u] == s.threads[u] && s1.threads[w] == s.threads[w] && |s1.threads| == |s.threads|;
    var s2 := Step(s1, Free(t));
    assert s2.held == 0 && s2.heldSince == None && !s2.mutex && s2.epoch == s.epoch;
    assert s2.threads[u] == s.threads[u] && s2.threads[w] == s.threads[w] && |s2.threads| == |s.threads|;
  }

  lemma FirstThreadDisturbs(s: Lock, u: nat, w: nat)
    requires u < |s.threads| && u != w && Holds(s, w)
    requires s.threads[u].pc == Idle && s.threads[u].count == 1 && s.threads[u].epoch == Some(s.epoch)
    ensures !Holds(Step(s, Release(u)), w) && Step(s, Release(u)).held == 0
    ensures var s' := Step(s, Acquire(u, true, 0));
            u < |s'.threads| && s'.threads[u].owns && s'.threads[u].pc == Idle && Holds(s', w)
  {
  }

  /** A run to such a state: thread 1 used the gate before, thread 0 holds it. */
  lemma HandOffHappens()
    ensures var run := [Acquire(1, true, 0), Release(1), Free(1), Acquire(0, true, 0)];
            var s := Run(Create(3), run);
            && DisciplinedRun(Create(3), run) && |s.threads| == 3
            && CurrentOwner(s.threads[0], s.epoch) && s.threads[1].epoch == Some(s.epoch)
            && s.threads[1].pc == Idle && s.threads[2].pc == Idle
  {
    var run := [Acquire(1, true, 0), Release(1), Free(1), Acquire(0, true, 0)];
    var s1 := Step(Create(3), run[0]);
    var s2 := Step(s1, run[1]);
    var s3 := Step(s2, run[2]);
    var s4 := Step(s3, run[3]);
    hide Step;
    assert run[1..][1..] == run[2..] && run[2..][1..] == run[3..] && run[3..][1..] == [];
    assert Run(s3, run[3..]) == s4 && DisciplinedRun(s3, run[3..]);
    assert Run(s2, run[2..]) == s4 && DisciplinedRun(s2, run[2..]);
    assert Run(s1, run[1..]) == s4 && DisciplinedRun(s1, run[1..]);
  }

  /* ---- The object ---- */

  /** The lock object. A method is one critical section or one operation on the mutex; its
      contract says that the object follows the step of the same name. */
  class CrossThreadRLock {
    var mutex: bool
    var held: int
    var epoch: nat
    var heldSince: Option<int>
    var ownerTid: Option<nat>
    var threads: seq<Thread>

    function View(): Lock
      reads this
    {
      Lock(mutex, held, epoch, heldSince, ownerTid, threads)
    }

    constructor (n: nat)
      ensures View() == Create(n)
    {
      mutex, held, epoch, heldSince, ownerTid := false, 0, 0, None, None;
      threads := seq(n, i => NewThread);
    }

    method SyncTls(t: nat) returns (stale: bool)
      requires t < |threads|
      modifies this
      ensures stale == old(Stale(View(), t)) && View() == old(Synced(View(), t))
    {
      stale := threads[t].epoch != Some(epoch);
      if stale {
        threads := threads[t := threads[t].(epoch := Some(epoch), count := 0)];
      } else {
        assert threads[t := threads[t]] == threads;
      }
    }

    method Mark(t: nat, now: int)
      requires t < |threads|
      modifies this
      ensures View() == old(MarkAcquired(View(), t, now))
      ensures held == old(held) + 1 && mutex == old(mutex) && epoch == old(epoch)
      ensures threads == old(threads)[t := old(threads)[t].(count := 1, pc := Idle, owns := true)]
      ensures old(heldSince) == None ==> heldSince == Some(now) && ownerTid == Some(t)
      ensures old(heldSince) != None ==> heldSince == old(heldSince) && ownerTid == old(ownerTid)
    {
      threads := threads[t := threads[t].(count := 1, pc := Idle, owns := true)];
      held := held + 1;
      if heldSince == None {
        heldSince := Some(now);
        ownerTid := Some(t);
      }
    }

    method MoveTo(t: nat, pc: Pc)
      requires t < |threads|
      modifies this
      ensures View() == old(SetPc(View(), t, pc))
    {
      threads := threads[t := threads[t].(pc := pc)];
    }

    /** The first section of `acquire`: reentrant, granted, refused, or sent to wait. */
    method AcquireEntry(t: nat, blocking: bool, now: int) returns (granted: bool)
      requires t < |threads| && threads[t].pc == Idle
      modifies this
      ensures View() == old(Step(View(), Acquire(t, blocking, now)))
      ensures granted ==> threads[t].pc == Idle && threads[t].count > 0
    {
      var _ := SyncTls(t);
      if threads[t].count > 0 {
        threads := threads[t := threads[t].(count := threads[t].count + 1, owns := true)];
        return true;
      }
      if !blocking {
        if mutex { return false; }
        mutex := true;
        Mark(t, now);
        return true;
      }
      if held <= 0 && !mutex {
        mutex := true;
        Mark(t, now);
        return true;
      }
      MoveTo(t, Waiting);
      return false;
    }

    /** The mutex wakes one waiter. */
    method MutexGranted(t: nat)
      requires t < |threads| && threads[t].pc == Waiting && !mutex
      modifies this
      ensures View() == old(Step(View(), Wake(t)))
    {
      mutex := true;
      MoveTo(t, Took);
    }

    method AcquireRecord(t: nat, now: int)
      requires t < |threads| && threads[t].pc == Took
      modifies this
      ensures View() == old(Step(View(), Record(t, now)))
    {
      var _ := SyncTls(t);
      Mark(t, now);
    }

    /** The section of `release`; the result says that `_mutex.release` is still to be called. */
    method ReleaseSection(t: nat) returns (releaseMutex: bool)
      requires t < |threads| && threads[t].pc == Idle
      modifies this
      ensures View() == old(Step(View(), Release(t)))
      ensures releaseMutex <==> threads[t].pc == MustFree
    {
      threads := threads[t := threads[t].(owns := false)];
      var stale := SyncTls(t);
      if stale { return false; }
      var th := threads[t];
      threads := threads[t := th.(count := if th.count > 0 then th.count - 1 else 0)];
      if held <= 0 { return false; }
      held := held - 1;
      releaseMutex := held == 0;
      if releaseMutex {
        heldSince, ownerTid := None, None;
        MoveTo(t, MustFree);
      }
    }

    /** `_mutex.release`: freeing a free mutex would raise, and no run reaches that. */
    method FreeMutex(t: nat)
      requires t < |threads| && threads[t].pc == MustFree && Conserved(View())
      modifies this
      ensures old(mutex) && View() == old(Step(View(), Free(t)))
    {
      InTransitUpdate(threads, t, threads[t]);
      mutex := false;
      MoveTo(t, Idle);
    }

    method WatchdogSection(t: nat, now: int, threshold: int) returns (reset: bool)
      requires t < |threads| && threads[t].pc == Idle
      modifies this
      ensures View() == old(Step(View(), Watchdog(t, now, threshold)))
      ensures reset <==> epoch == old(epoch) + 1
    {
      if held <= 0 || heldSince == None { return false; }
      if now - heldSince.value < threshold { return false; }
      held, heldSince, ownerTid, epoch := 0, None, None, epoch + 1;
      MoveTo(t, MustFree);
      return true;
    }
  }
}
