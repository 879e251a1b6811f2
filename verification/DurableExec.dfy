/** Durable executions of sandboxd/sandboxd/controller.py: `start_agent_execution`,
    `get_execution`, `cancel_execution`, reconciliation and the forgetting of the supervisor,
    interleaved between every two store transactions and runtime calls. */
module DurableExec {
  import opened Prelude
  import opened SandboxStore

  /** The container-owned supervisor of an execution, while its directory exists. */
  datatype Native = Executing | Ended(answer: Answer)

  datatype Response =
    | Result(exec: string, answer: Answer)
    | Report(exec: string, launchPending: bool)
    | CancelReport(exec: string, status: Status)
    | Refused

  datatype Pc =
    | Idle
    | Admit(exec: string, sandbox: string, slot: SlotKey, payload: string, cancel: bool)
    | Lookup(exec: string, sandbox: string, slot: SlotKey, cancel: bool)
    | Insert(exec: string, sandbox: string, slot: SlotKey, cancel: bool)
    | Note(exec: string, slot: SlotKey, cancel: bool)
    | CancelFirst(exec: string, cancel: bool)
    | Dispatch(exec: string)
    | Read(exec: string)
    | Ask(exec: string)
    | Recheck(exec: string)
    | StoreResult(exec: string, answer: Answer)
    | Forget(exec: string, answer: Answer)
    | Clean(exec: string, answer: Answer)
    | CancelMark(exec: string, was: Status)
    | Sweep(exec: string)
    | SweepClean(exec: string)
    | Responded(response: Response)

  /** `answers` records the terminal answer of each supervisor. `starts` counts the supervisors that found
      no directory of an earlier one, and `launches` those of them that ran the command. A forget leaves
      a completion mark in the container: `forgotten` are the executions marked there. `lost` are those
      whose supervisor or mark went with its container. */
  datatype State = State(store: Store, sandboxes: set<string>, natives: map<string, Native>, answers: map<string, Answer>,
                         forgotten: set<string>, lost: set<string>, starts: multiset<string>, launches: multiset<string>,
                         callers: seq<Pc>)

  datatype Action =
    | CallStart(i: nat, exec: string, sandbox: string, slot: SlotKey, payload: string, cancel: bool)
    | CallGet(i: nat, exec: string)
    | CallCancel(i: nat, exec: string)
    | CallSweep(i: nat, exec: string)
    | Tick(i: nat, status: Status, fails: bool)
    | Ends(exec: string, answer: Answer)
    | AddSandbox(sandbox: string)
    | DropSandbox(sandbox: string)
    | Replace(sandbox: string)
    | Crash

  function Move(s: State, i: nat, pc: Pc): State
    requires i < |s.callers|
  {
    s.(callers := s.callers[i := pc])
  }

  predicate Visible(s: State, e: string) {
    e in s.store.execs && s.store.execs[e].sandbox in s.sandboxes
  }

  predicate HasResult(st: Store, e: string) { e in st.execs && st.execs[e].result.Some? }

  /** Where a caller stands after its next transaction or runtime call, decided on the state before
      it. `fails` is the runtime refusing the call. */
  function Next(s: State, pc: Pc, fails: bool): Pc {
    match pc
    case Admit(e, sandbox, slot, payload, cancel) =>
      if sandbox !in s.sandboxes || (slot in s.store.slots && s.store.slots[slot].payload != payload) then Responded(Refused)
      else Lookup(e, sandbox, slot, cancel)
    case Lookup(e, sandbox, slot, cancel) =>
      if e in s.store.execs && s.store.execs[e].sandbox != sandbox then Responded(Refused)
      else if HasResult(s.store, e) then Responded(Result(e, s.store.execs[e].result.value))
      else if e in s.store.execs then Note(e, slot, cancel || s.store.execs[e].cancelRequested)
      else Insert(e, sandbox, slot, cancel)
    case Insert(e, _, slot, cancel) => if e in s.store.execs then Responded(Refused) else Note(e, slot, cancel)
    case Note(e, _, cancel) => CancelFirst(e, cancel)
    case CancelFirst(e, _) => Dispatch(e)
    case Dispatch(e) => if fails then Responded(Refused) else Read(e)
    case Read(e) =>
      if !Visible(s, e) then Responded(Refused)
      else if HasResult(s.store, e) then Responded(Result(e, s.store.execs[e].result.value))
      else Ask(e)
    case Ask(e) =>
      if e !in s.natives then Recheck(e)
      else if s.natives[e].Executing? then Responded(Report(e, false))
      else StoreResult(e, s.natives[e].answer)
    case Recheck(e) =>
      if HasResult(s.store, e) then Responded(Result(e, s.store.execs[e].result.value)) else Responded(Report(e, true))
    case StoreResult(e, answer) => Forget(e, answer)
    case Forget(e, answer) => if fails then Responded(Result(e, answer)) else Clean(e, answer)
    case Clean(e, answer) => Responded(Result(e, answer))
    case CancelMark(e, was) => Responded(CancelReport(e, if CancelExecution(s.store, e).1 then Cancelling else was))
    case Sweep(e) => if fails && !Ownerless(s, e) then Idle else SweepClean(e)
    case SweepClean(e) => Idle
    case _ => pc
  }

  predicate Ownerless(s: State, e: string) { e in s.store.execs && s.store.execs[e].sandbox !in s.sandboxes }

  /** What that transaction or call does to the store and to the supervisors. */
  function Shared(s: State, pc: Pc, status: Status, fails: bool): State {
    match pc
    case Admit(_, sandbox, slot, payload, _) =>
      if sandbox !in s.sandboxes then s else s.(store := BeginIdempotent(s.store, slot, payload).0)
    case Insert(e, sandbox, _, _) => s.(store := CreateExecution(s.store, e, sandbox))
    case Note(e, slot, _) => s.(store := CompleteIdempotent(s.store, slot, InProgress, Some(IdOnly(e))))
    case CancelFirst(e, cancel) => if cancel then s.(store := CancelExecution(s.store, e).0) else s
    case Dispatch(e) => if fails || e in s.natives then s else Launched(s, e)
    case StoreResult(e, answer) => s.(store := FinishExecution(s.store, e, status, answer))
    case Forget(e, _) => if fails then s else Forgotten(s, e)
    case Clean(e, _) => s.(store := MarkCleaned(s.store, e))
    case CancelMark(e, _) => s.(store := CancelExecution(s.store, e).0)
    case Sweep(e) => if fails || Ownerless(s, e) then s else Forgotten(s, e)
    case SweepClean(e) => s.(store := MarkCleaned(s.store, e))
    case _ => s
  }

  /** A supervisor whose directory is new runs the command, unless it finds the completion mark. */
  function Launched(s: State, e: string): State {
    var s' := s.(starts := s.starts + multiset{e});
    if e in s.forgotten then s' else s'.(natives := s.natives[e := Executing], launches := s.launches + multiset{e})
  }

  /** The runtime leaves the completion mark, then removes the supervisor's directory. */
  function Forgotten(s: State, e: string): State {
    s.(natives := s.natives - {e}, forgotten := s.forgotten + {e})
  }

  predicate InSandbox(s: State, e: string, sandbox: string) { e in s.store.execs && s.store.execs[e].sandbox == sandbox }

  /** The container of a sandbox is missing and a new one is made: its supervisors and marks are gone. */
  function Replaced(s: State, sandbox: string): State {
    var gone := set e | e in s.natives.Keys + s.forgotten && InSandbox(s, e, sandbox);
    s.(natives := s.natives - gone, forgotten := s.forgotten - gone, lost := s.lost + gone)
  }

  predicate Free(s: State, i: nat) { i < |s.callers| && (s.callers[i].Idle? || s.callers[i].Responded?) }

  function EndedWith(s: State, e: string, answer: Answer): State {
    s.(natives := s.natives[e := Ended(answer)], answers := s.answers[e := answer])
  }

  /** A supervisor's terminal answer is stable: a second run of the same id ends the same way. */
  predicate MayEnd(s: State, e: string, answer: Answer) {
    e in s.natives && s.natives[e].Executing? && (e in s.answers ==> s.answers[e] == answer)
  }

  function Step(s: State, a: Action): State {
    match a
    case CallStart(i, e, sandbox, slot, payload, cancel) =>
      if Free(s, i) then Move(s, i, Admit(e, sandbox, slot, payload, cancel)) else s
    case CallGet(i, e) => if Free(s, i) then Move(s, i, Read(e)) else s
    case CallCancel(i, e) =>
      if Free(s, i) then Move(s, i, if Visible(s, e) then CancelMark(e, s.store.execs[e].status) else Responded(Refused)) else s
    case CallSweep(i, e) => if Free(s, i) && CleanupPending(s.store, e) then Move(s, i, Sweep(e)) else s
    case Tick(i, status, fails) =>
      if i >= |s.callers| then s
      else Move(Shared(s, s.callers[i], status, fails), i, Next(s, s.callers[i], fails))
    case Ends(e, answer) => if MayEnd(s, e, answer) then EndedWith(s, e, answer) else s
    case AddSandbox(sandbox) => s.(sandboxes := s.sandboxes + {sandbox})
    case DropSandbox(sandbox) => s.(sandboxes := s.sandboxes - {sandbox})
    case Replace(sandbox) => Replaced(s, sandbox)
    case Crash => s.(callers := seq(|s.callers|, i => Idle))
  }

  function Run(s: State, run: seq<Action>): State
    decreases |run|
  {
    if run == [] then s else Run(Step(s, run[0]), run[1..])
  }

  function Initial(n: nat): State {
    State(Store(map[], map[]), {}, map[], map[], {}, {}, multiset{}, multiset{}, seq(n, i => Idle))
  }

  /* ---- The invariant ---- */

  predicate True(s: State, e: string, answer: Answer) { e in s.answers && s.answers[e] == answer }

  predicate ExecOk(s: State, e: string)
    requires e in s.store.execs
  {
    && (s.store.execs[e].result.Some? ==> True(s, e, s.store.execs[e].result.value))
    && (s.store.execs[e].cleaned ==> s.store.execs[e].result.Some?)
  }

  predicate PcOk(s: State, pc: Pc) {
    match pc
    case StoreResult(e, answer) => True(s, e, answer) && e in s.store.execs
    case Forget(e, answer) => True(s, e, answer) && HasResult(s.store, e)
    case Clean(e, answer) => True(s, e, answer) && HasResult(s.store, e)
    case Ask(e) => e in s.store.execs
    case Recheck(e) => e in s.store.execs
    case Sweep(e) => HasResult(s.store, e)
    case SweepClean(e) => HasResult(s.store, e)
    case Responded(Result(e, answer)) => True(s, e, answer)
    case _ => true
  }

  ghost predicate StoreOk(s: State) { forall e :: e in s.store.execs ==> ExecOk(s, e) }

  ghost predicate SharedOk(s: State) {
    && StoreOk(s)
    && (forall e :: e in s.forgotten ==> HasResult(s.store, e))
    && (forall e :: e in s.natives && s.natives[e].Ended? ==> True(s, e, s.natives[e].answer))
  }

  ghost predicate CountsOk(s: State) {
    && (forall e :: s.launches[e] >= 1 <==> e in s.natives || e in s.forgotten || e in s.lost)
    && (forall e :: s.starts[e] >= 1 <==> s.launches[e] >= 1)
    && (forall e :: e !in s.forgotten && e !in s.lost ==> s.starts[e] <= 1)
    && (forall e :: e in s.answers ==> s.launches[e] >= 1)
  }

  ghost predicate PcsOk(s: State) { forall i :: 0 <= i < |s.callers| ==> PcOk(s, s.callers[i]) }

  ghost predicate Inv(s: State) { SharedOk(s) && CountsOk(s) && PcsOk(s) }

  /** The shared part only gains facts. */
  ghost predicate Grows(s: State, s': State) {
    && (forall e :: e in s.store.execs ==> e in s'.store.execs)
    && (forall e :: HasResult(s.store, e) ==> HasResult(s'.store, e))
    && (forall e, answer :: True(s, e, answer) ==> True(s', e, answer))
  }

  lemma PcsStay(s: State, s': State)
    requires PcsOk(s) && Grows(s, s') && s'.callers == s.callers
    ensures PcsOk(s')
  {
    forall j | 0 <= j < |s'.callers| ensures PcOk(s', s'.callers[j]) { assert PcOk(s, s.callers[j]); }
  }

  lemma MoveKeeps(s: State, i: nat, pc: Pc)
    requires Inv(s) && i < |s.callers| && PcOk(s, pc)
    ensures Inv(Move(s, i, pc)) && Grows(s, Move(s, i, pc))
  {
    var s' := Move(s, i, pc);
    forall j | 0 <= j < |s'.callers| ensures PcOk(s', s'.callers[j]) {
      assert PcOk(s, if j == i then pc else s.callers[j]);
    }
    forall e | e in s'.store.execs ensures ExecOk(s', e) { assert ExecOk(s, e); }
  }

  /** A store write that keeps results, and marks nothing cleaned without a result. */
  ghost predicate Mild(st: Store, st': Store) {
    && (forall e :: e in st.execs ==> e in st'.execs && st'.execs[e].result == st.execs[e].result)
    && (forall e :: e in st'.execs ==>
          if e in st.execs then st'.execs[e].cleaned ==> st.execs[e].cleaned || st.execs[e].result.Some?
          else st'.execs[e].result.None? && !st'.execs[e].cleaned)
  }

  lemma MildKeeps(s: State, st: Store)
    requires Inv(s) && Mild(s.store, st)
    ensures Inv(s.(store := st)) && Grows(s, s.(store := st))
  {
    var s' := s.(store := st);
    forall e | e in s'.store.execs ensures ExecOk(s', e) {
      if e in s.store.execs { assert ExecOk(s, e); }
    }
    PcsStay(s, s');
  }

  lemma StoreWritesAreMild(st: Store, k: SlotKey, payload: string, state: SlotState, doc: Option<Doc>, e: string,
                           sandbox: string)
    ensures Mild(st, BeginIdempotent(st, k, payload).0) && Mild(st, CompleteIdempotent(st, k, state, doc))
    ensures Mild(st, CreateExecution(st, e, sandbox)) && Mild(st, CancelExecution(st, e).0)
    ensures HasResult(st, e) ==> Mild(st, MarkCleaned(st, e))
  {
  }

  lemma FinishKeepsInv(s: State, e: string, status: Status, answer: Answer)
    requires Inv(s) && True(s, e, answer)
    ensures var s' := s.(store := FinishExecution(s.store, e, status, answer)); Inv(s') && Grows(s, s')
  {
    hide PcOk;
    var s' := s.(store := FinishExecution(s.store, e, status, answer));
    forall x | x in s'.store.execs ensures ExecOk(s', x) { assert ExecOk(s, x); }
    PcsStay(s, s');
  }

  lemma DispatchCounts(s: State, e: string)
    requires CountsOk(s) && e !in s.natives
    ensures CountsOk(Launched(s, e))
  {
  }

  lemma DispatchKeeps(s: State, e: string)
    requires Inv(s) && e !in s.natives
    ensures var s' := Launched(s, e); Inv(s') && Grows(s, s')
  {
    DispatchCounts(s, e);
    hide PcOk, CountsOk;
    var s' := Launched(s, e);
    forall x | x in s'.store.execs ensures ExecOk(s', x) { assert ExecOk(s, x); }
    PcsStay(s, s');
  }

  lemma ForgetCounts(s: State, e: string)
    requires CountsOk(s) && s.launches[e] >= 1
    ensures CountsOk(Forgotten(s, e))
  {
  }

  lemma ForgetKeeps(s: State, e: string)
    requires Inv(s) && HasResult(s.store, e)
    ensures Inv(Forgotten(s, e)) && Grows(s, Forgotten(s, e))
  {
    assert ExecOk(s, e);
    ForgetCounts(s, e);
    hide PcOk, CountsOk;
    var s' := Forgotten(s, e);
    forall x | x in s'.store.execs ensures ExecOk(s', x) { assert ExecOk(s, x); }
    PcsStay(s, s');
  }

  lemma EndCounts(s: State, e: string, answer: Answer)
    requires CountsOk(s) && e in s.natives
    ensures CountsOk(EndedWith(s, e, answer))
  {
  }

  lemma EndGrows(s: State, e: string, answer: Answer)
    requires MayEnd(s, e, answer)
    ensures Grows(s, EndedWith(s, e, answer))
  {
  }

  lemma EndShared(s: State, e: string, answer: Answer)
    requires SharedOk(s) && MayEnd(s, e, answer)
    ensures SharedOk(EndedWith(s, e, answer))
  {
    var s' := EndedWith(s, e, answer);
    forall x | x in s'.store.execs ensures ExecOk(s', x) { assert ExecOk(s, x); }
  }

  lemma EndKeeps(s: State, e: string, answer: Answer)
    requires Inv(s) && MayEnd(s, e, answer)
    ensures Inv(EndedWith(s, e, answer)) && Grows(s, EndedWith(s, e, answer))
  {
    EndGrows(s, e, answer);
    EndShared(s, e, answer);
    EndCounts(s, e, answer);
    PcsStay(s, EndedWith(s, e, answer));
    hide SharedOk, CountsOk, PcsOk, Grows;
  }

  lemma SandboxesKeep(s: State, sandboxes: set<string>)
    requires Inv(s)
    ensures Inv(s.(sandboxes := sandboxes)) && Grows(s, s.(sandboxes := sandboxes))
  {
    var s' := s.(sandboxes := sandboxes);
    forall x | x in s'.store.execs ensures ExecOk(s', x) { assert ExecOk(s, x); }
    PcsStay(s, s');
  }

  lemma ReplaceCounts(s: State, sandbox: string)
    requires CountsOk(s)
    ensures CountsOk(Replaced(s, sandbox))
  {
  }

  lemma ReplaceKeeps(s: State, sandbox: string)
    requires Inv(s)
    ensures Inv(Replaced(s, sandbox)) && Grows(s, Replaced(s, sandbox))
  {
    ReplaceCounts(s, sandbox);
    hide PcOk, CountsOk, InSandbox;
    var s' := Replaced(s, sandbox);
    forall x | x in s'.store.execs ensures ExecOk(s', x) { assert ExecOk(s, x); }
    PcsStay(s, s');
  }

  lemma CrashKeeps(s: State)
    requires Inv(s)
    ensures Inv(Step(s, Crash)) && Grows(s, Step(s, Crash))
  {
    var s' := Step(s, Crash);
    forall x | x in s'.store.execs ensures ExecOk(s', x) { assert ExecOk(s, x); }
  }

  lemma SharedKeeps(s: State, pc: Pc, status: Status, fails: bool)
    requires Inv(s) && PcOk(s, pc)
    ensures Inv(Shared(s, pc, status, fails)) && Grows(s, Shared(s, pc, status, fails))
  {
    hide Inv, Grows, Mild, BeginIdempotent, CompleteIdempotent, CreateExecution, CancelExecution, MarkCleaned, FinishExecution;
    hide Forgotten, Launched;
    Same(s);
    match pc
    case Admit(e, sandbox, slot, payload, cancel) =>
      StoreWritesAreMild(s.store, slot, payload, InProgress, None, e, sandbox);
      MildKeeps(s, BeginIdempotent(s.store, slot, payload).0);
    case Insert(e, sandbox, slot, cancel) =>
      StoreWritesAreMild(s.store, slot, "", InProgress, None, e, sandbox);
      MildKeeps(s, CreateExecution(s.store, e, sandbox));
    case Note(e, slot, cancel) =>
      StoreWritesAreMild(s.store, slot, "", InProgress, Some(IdOnly(e)), e, "");
      MildKeeps(s, CompleteIdempotent(s.store, slot, InProgress, Some(IdOnly(e))));
    case CancelFirst(e, cancel) => CancelKeeps(s, e);
    case CancelMark(e, _) => CancelKeeps(s, e);
    case Dispatch(e) => if e !in s.natives { DispatchKeeps(s, e); }
    case StoreResult(e, answer) => FinishKeepsInv(s, e, status, answer);
    case Forget(e, answer) => ForgetKeeps(s, e);
    case Sweep(e) => ForgetKeeps(s, e);
    case Clean(e, answer) => CleanKeeps(s, e);
    case SweepClean(e) => CleanKeeps(s, e);
    case _ =>
  }

  lemma Same(s: State)
    ensures Grows(s, s) && s.(store := s.store) == s
  {
  }

  lemma CancelKeeps(s: State, e: string)
    requires Inv(s)
    ensures var s' := s.(store := CancelExecution(s.store, e).0); Inv(s') && Grows(s, s')
  {
    StoreWritesAreMild(s.store, SlotKey("", ""), "", InProgress, None, e, "");
    MildKeeps(s, CancelExecution(s.store, e).0);
  }

  lemma CleanKeeps(s: State, e: string)
    requires Inv(s) && HasResult(s.store, e)
    ensures var s' := s.(store := MarkCleaned(s.store, e)); Inv(s') && Grows(s, s')
  {
    StoreWritesAreMild(s.store, SlotKey("", ""), "", InProgress, None, e, "");
    MildKeeps(s, MarkCleaned(s.store, e));
  }

  lemma NextIsOk(s: State, pc: Pc, status: Status, fails: bool)
    requires SharedOk(s) && PcOk(s, pc)
    ensures PcOk(Shared(s, pc, status, fails), Next(s, pc, fails))
  {
    match pc
    case Lookup(e, _, _, _) => if e in s.store.execs { assert ExecOk(s, e); }
    case Read(e) => if e in s.store.execs { assert ExecOk(s, e); }
    case Recheck(e) => assert ExecOk(s, e);
    case _ =>
  }

  lemma TickKeeps(s: State, i: nat, status: Status, fails: bool)
    requires Inv(s) && i < |s.callers|
    ensures Inv(Step(s, Tick(i, status, fails))) && Grows(s, Step(s, Tick(i, status, fails)))
  {
    hide Shared, Next;
    var pc := s.callers[i];
    assert PcOk(s, pc);
    SharedKeeps(s, pc, status, fails);
    NextIsOk(s, pc, status, fails);
    SharedCallers(s, pc, status, fails);
    MoveKeeps(Shared(s, pc, status, fails), i, Next(s, pc, fails));
  }

  lemma SharedCallers(s: State, pc: Pc, status: Status, fails: bool)
    ensures Shared(s, pc, status, fails).callers == s.callers
  {
  }

  lemma StepKeeps(s: State, a: Action)
    requires Inv(s)
    ensures Inv(Step(s, a)) && Grows(s, Step(s, a))
  {
    hide Shared, Next, Grows, SharedOk, CountsOk, PcsOk;
    Same(s);
    match a
    case CallStart(i, e, sandbox, slot, payload, cancel) =>
      if Free(s, i) { MoveKeeps(s, i, Admit(e, sandbox, slot, payload, cancel)); }
    case CallGet(i, e) => if Free(s, i) { MoveKeeps(s, i, Read(e)); }
    case CallCancel(i, e) =>
      if Free(s, i) { MoveKeeps(s, i, if Visible(s, e) then CancelMark(e, s.store.execs[e].status) else Responded(Refused)); }
    case CallSweep(i, e) => if Free(s, i) && CleanupPending(s.store, e) { MoveKeeps(s, i, Sweep(e)); }
    case Tick(i, status, fails) => if i < |s.callers| { TickKeeps(s, i, status, fails); }
    case Ends(e, answer) => if MayEnd(s, e, answer) { EndKeeps(s, e, answer); }
    case AddSandbox(sandbox) => SandboxesKeep(s, s.sandboxes + {sandbox});
    case DropSandbox(sandbox) => SandboxesKeep(s, s.sandboxes - {sandbox});
    case Replace(sandbox) => ReplaceKeeps(s, sandbox);
    case Crash => CrashKeeps(s);
  }

  lemma {:induction false} RunKeeps(s: State, run: seq<Action>)
    requires Inv(s)
    ensures Inv(Run(s, run)) && Grows(s, Run(s, run))
    decreases |run|
  {
    hide Step, Inv;
    if run != [] {
      StepKeeps(s, run[0]);
      RunKeeps(Step(s, run[0]), run[1..]);
    }
  }

  lemma InitialInv(n: nat)
    ensures Inv(Initial(n))
  {
  }

  /* ---- The results ---- */

  /** Main result 1. A forgotten supervisor, or an execution marked as cleaned, always has its
      result in the store, in every interleaving and after every crash. */
  lemma ForgottenMeansStored(n: nat, run: seq<Action>, e: string)
    ensures var s := Run(Initial(n), run);
            && (e in s.forgotten ==> HasResult(s.store, e))
            && (e in s.store.execs && s.store.execs[e].cleaned ==> HasResult(s.store, e))
  {
    hide Run;
    InitialInv(n);
    RunKeeps(Initial(n), run);
    var s := Run(Initial(n), run);
    if e in s.store.execs { assert ExecOk(s, e); }
  }

  /** Caller `i` has been handed a result of `e`. */
  predicate Told(s: State, i: nat, e: string) {
    && i < |s.callers| && s.callers[i].Responded? && s.callers[i].response.Result?
    && s.callers[i].response.exec == e
  }

  /** Main result 2. A stored result is never cleared nor changed by anything that runs later,
      and every caller that ever gets a result gets that one. */
  lemma ResultsNeverChange(n: nat, run: seq<Action>, more: seq<Action>, e: string, i: nat)
    requires HasResult(Run(Initial(n), run).store, e)
    ensures var answer := Run(Initial(n), run).store.execs[e].result;
            var later := Run(Run(Initial(n), run), more);
            && HasResult(later.store, e) && later.store.execs[e].result == answer
            && (Told(later, i, e) ==> later.callers[i].response.answer == answer.value)
  {
    hide Run, CountsOk;
    InitialInv(n);
    RunKeeps(Initial(n), run);
    var s := Run(Initial(n), run);
    RunKeeps(s, more);
    var later := Run(s, more);
    assert ExecOk(s, e) && ExecOk(later, e);
    assert True(later, e, s.store.execs[e].result.value);
    if i < |later.callers| { assert PcOk(later, later.callers[i]); }
  }

  lemma PendingComesFromRecheck(s: State, pc: Pc, fails: bool, e: string)
    requires pc != Responded(Report(e, true)) && Next(s, pc, fails) == Responded(Report(e, true))
    ensures pc == Recheck(e) && !HasResult(s.store, e)
  {
  }

  lemma StepsMoveOneCaller(s: State, a: Action, i: nat, e: string)
    requires i < |s.callers| && i < |Step(s, a).callers|
    requires s.callers[i] != Responded(Report(e, true)) && Step(s, a).callers[i] == Responded(Report(e, true))
    ensures a.Tick? && a.i == i && Next(s, s.callers[i], a.fails) == Responded(Report(e, true))
  {
    hide Shared, Next, Free, Visible, CleanupPending;
    if a.Tick? && a.i < |s.callers| { SharedCallers(s, s.callers[a.i], a.status, a.fails); }
  }

  /** Main result 3. No `get_execution` answers "launch pending" for an execution that finished
      and was forgotten: at the moment of such an answer there is no result and no forget. */
  lemma LaunchPendingIsTrue(n: nat, run: seq<Action>, a: Action, i: nat, e: string)
    requires i < |Run(Initial(n), run).callers| && i < |Step(Run(Initial(n), run), a).callers|
    requires Run(Initial(n), run).callers[i] != Responded(Report(e, true))
    requires Step(Run(Initial(n), run), a).callers[i] == Responded(Report(e, true))
    ensures var s := Run(Initial(n), run);
            e in s.store.execs && !HasResult(s.store, e) && e !in s.forgotten
  {
    hide Run, Step, Next;
    InitialInv(n);
    RunKeeps(Initial(n), run);
    var s := Run(Initial(n), run);
    StepsMoveOneCaller(s, a, i, e);
    PendingComesFromRecheck(s, s.callers[i], a.fails, e);
    assert PcOk(s, s.callers[i]);
  }

  /** Main result 4. In every reachable state a `get_execution` by an owner answers a stored result at
      once, and that result is the supervisor's terminal answer. */
  lemma StoredResultIsAnswered(n: nat, run: seq<Action>, i: nat, e: string, status: Status, fails: bool)
    requires Free(Run(Initial(n), run), i) && Visible(Run(Initial(n), run), e) && HasResult(Run(Initial(n), run).store, e)
    ensures var s := Run(Initial(n), run);
            && Step(Step(s, CallGet(i, e)), Tick(i, status, fails)).callers[i] ==
               Responded(Result(e, s.store.execs[e].result.value))
            && True(s, e, s.store.execs[e].result.value)
  {
    hide Run;
    InitialInv(n);
    RunKeeps(Initial(n), run);
    assert ExecOk(Run(Initial(n), run), e);
  }

  /** Main result 5. The check for a result and the dispatch are separate steps. In every reachable state a
      dispatch starts one more supervisor for an execution that had one if and only if that one was
      forgotten, or lost with its container, and none is there now; it runs the command once more if
      and only if the completion mark is missing too, which takes a lost container. */
  lemma DispatchLaunchesAgainIff(n: nat, run: seq<Action>, i: nat, status: Status)
    requires i < |Run(Initial(n), run).callers| && Run(Initial(n), run).callers[i].Dispatch?
    ensures var s := Run(Initial(n), run);
            var e := s.callers[i].exec;
            var s' := Step(s, Tick(i, status, false));
            && (s.starts[e] >= 1 && s'.starts[e] == s.starts[e] + 1 <==>
                  e !in s.natives && (e in s.forgotten || e in s.lost))
            && (s.launches[e] >= 1 && s'.launches[e] == s.launches[e] + 1 <==>
                  e !in s.natives && e !in s.forgotten && e in s.lost)
            && (e !in s.lost ==> s'.launches[e] == 1)
            && (e !in s.lost && !HasResult(s.store, e) ==> s'.starts[e] == 1)
  {
    hide Run;
    InitialInv(n);
    RunKeeps(Initial(n), run);
    var e := Run(Initial(n), run).callers[i].exec;
    if e !in Run(Initial(n), run).lost { LaunchedAtMostOnce(n, run, e); }
  }

  /** A dispatch that finds no supervisor although there was one. */
  predicate LateDispatch(s: State, a: Action, e: string) {
    && a.Tick? && !a.fails && a.i < |s.callers| && s.callers[a.i] == Dispatch(e)
    && e !in s.natives && (e in s.forgotten || e in s.lost)
  }

  predicate NeverLate(s: State, run: seq<Action>, e: string)
    decreases |run|
  {
    run == [] || (!LateDispatch(s, run[0], e) && NeverLate(Step(s, run[0]), run[1..], e))
  }

  /** A late dispatch that does not find the completion mark either. */
  predicate Relaunches(s: State, a: Action, e: string) { LateDispatch(s, a, e) && e !in s.forgotten }

  predicate NeverRelaunched(s: State, run: seq<Action>, e: string)
    decreases |run|
  {
    run == [] || (!Relaunches(s, run[0], e) && NeverRelaunched(Step(s, run[0]), run[1..], e))
  }

  lemma SharedLaunches(s: State, pc: Pc, status: Status, fails: bool, e: string)
    ensures var s' := Shared(s, pc, status, fails);
            var started := pc == Dispatch(e) && !fails && e !in s.natives;
            && s'.starts[e] == s.starts[e] + (if started then 1 else 0)
            && s'.launches[e] == s.launches[e] + (if started && e !in s.forgotten then 1 else 0)
            && s'.lost == s.lost
  {
    hide BeginIdempotent, CompleteIdempotent, CreateExecution, CancelExecution, MarkCleaned, FinishExecution;
  }

  lemma EndLaunches(s: State, e: string, answer: Answer)
    ensures var s' := EndedWith(s, e, answer); s'.starts == s.starts && s'.launches == s.launches && s'.lost == s.lost
  {
  }

  lemma StepLaunches(s: State, a: Action, e: string)
    requires Inv(s)
    ensures s.lost <= Step(s, a).lost
    ensures s.starts[e] <= Step(s, a).starts[e] && s.launches[e] <= Step(s, a).launches[e]
    ensures Step(s, a).starts[e] <= 1 <==> s.starts[e] <= 1 && !LateDispatch(s, a, e)
    ensures Step(s, a).launches[e] <= 1 <==> s.launches[e] <= 1 && !Relaunches(s, a, e)
  {
    hide Shared, Next, SharedOk, PcsOk, Visible, Free, CleanupPending, MayEnd, EndedWith, InSandbox;
    if a.Ends? { EndLaunches(s, a.exec, a.answer); }
    if a.Tick? && a.i < |s.callers| { SharedLaunches(s, s.callers[a.i], a.status, a.fails, e); }
  }

  lemma {:induction false} LaunchedOnceFrom(s: State, run: seq<Action>, e: string)
    requires Inv(s)
    ensures Run(s, run).starts[e] <= 1 <==> s.starts[e] <= 1 && NeverLate(s, run, e)
    ensures Run(s, run).launches[e] <= 1 <==> s.launches[e] <= 1 && NeverRelaunched(s, run, e)
    ensures s.lost <= Run(s, run).lost
    ensures e !in Run(s, run).lost ==> NeverRelaunched(s, run, e)
    decreases |run|
  {
    hide Step, Inv;
    if run != [] {
      StepKeeps(s, run[0]);
      StepLaunches(s, run[0], e);
      LaunchedOnceFrom(Step(s, run[0]), run[1..], e);
    }
  }

  /** Main result 6. Over a whole run an execution gets at most one supervisor if and only if no dispatch
      comes after its supervisor was forgotten or lost; and its command runs at most once if and only if
      no dispatch finds the completion mark lost as well. */
  lemma LaunchedOnceIff(n: nat, run: seq<Action>, e: string)
    ensures Run(Initial(n), run).starts[e] <= 1 <==> NeverLate(Initial(n), run, e)
    ensures Run(Initial(n), run).launches[e] <= 1 <==> NeverRelaunched(Initial(n), run, e)
  {
    InitialInv(n);
    LaunchedOnceFrom(Initial(n), run, e);
  }

  /** So the command runs at most once, in every interleaving, while its container is not replaced. */
  lemma LaunchedAtMostOnce(n: nat, run: seq<Action>, e: string)
    requires e !in Run(Initial(n), run).lost
    ensures Run(Initial(n), run).launches[e] <= 1
  {
    InitialInv(n);
    LaunchedOnceFrom(Initial(n), run, e);
  }

  /** In every reachable state a sweep of a finished execution, undisturbed, marks it cleaned if and only if
      the runtime removes its supervisor or its sandbox is gone, and then only a supervisor without a
      sandbox is left. */
  lemma SweepCleansIff(n: nat, run: seq<Action>, i: nat, e: string, status: Status, fails: bool)
    requires Free(Run(Initial(n), run), i) && CleanupPending(Run(Initial(n), run).store, e)
    ensures var s := Run(Initial(n), run);
            var s' := Step(Step(Step(s, CallSweep(i, e)), Tick(i, status, fails)), Tick(i, status, fails));
            && e in s'.store.execs && (s'.store.execs[e].cleaned <==> !fails || Ownerless(s, e))
            && (s'.store.execs[e].cleaned ==> e !in s'.natives || Ownerless(s, e))
            && s'.callers == s.callers[i := Idle] && s'.store.execs[e].result == s.store.execs[e].result
  {
    hide Run, Next, Shared;
    var s := Run(Initial(n), run);
    var s1 := Step(s, CallSweep(i, e));
    assert s1 == s.(callers := s.callers[i := Sweep(e)]);
    Sweeps(s1, i, e, status, fails);
  }

  lemma Sweeps(s: State, i: nat, e: string, status: Status, fails: bool)
    requires i < |s.callers| && s.callers[i] == Sweep(e) && CleanupPending(s.store, e)
    ensures var s' := Step(Step(s, Tick(i, status, fails)), Tick(i, status, fails));
            s' == if fails && !Ownerless(s, e) then s.(callers := s.callers[i := Idle])
                  else if Ownerless(s, e) then s.(store := MarkCleaned(s.store, e), callers := s.callers[i := Idle])
                  else Forgotten(s, e).(store := MarkCleaned(s.store, e), callers := s.callers[i := Idle])
  {
    hide BeginIdempotent, CompleteIdempotent, CreateExecution, CancelExecution, FinishExecution, MarkCleaned;
    var s1 := Step(s, Tick(i, status, fails));
    if fails && !Ownerless(s, e) {
      assert s1.callers[i] == Idle;
    } else {
      assert s1.callers[i] == SweepClean(e);
    }
  }

  lemma StepKeepsPayload(s: State, a: Action, k: SlotKey)
    requires k in s.store.slots
    ensures k in Step(s, a).store.slots && Step(s, a).store.slots[k].payload == s.store.slots[k].payload
  {
    hide Next, Shared;
    if a.Tick? && a.i < |s.callers| { SharedKeepsPayload(s, s.callers[a.i], a.status, a.fails, k); }
  }

  lemma SharedKeepsPayload(s: State, pc: Pc, status: Status, fails: bool, k: SlotKey)
    requires k in s.store.slots
    ensures var st := Shared(s, pc, status, fails).store; k in st.slots && st.slots[k].payload == s.store.slots[k].payload
  {
  }

  lemma {:induction false} RunKeepsPayload(s: State, run: seq<Action>, k: SlotKey)
    requires k in s.store.slots
    ensures k in Run(s, run).store.slots && Run(s, run).store.slots[k].payload == s.store.slots[k].payload
    decreases |run|
  {
    hide Step;
    if run != [] {
      StepKeepsPayload(s, run[0], k);
      RunKeepsPayload(Step(s, run[0]), run[1..], k);
    }
  }

  /** Main result 7. A key is bound to the payload of the first start admitted under it: after every
      continuation a start with that key is refused exactly for another payload, and changes no
      table and no supervisor either way. */
  lemma PayloadIsBound(s: State, i: nat, more: seq<Action>, j: nat, first: (Status, bool), later: (Status, bool))
    requires i < |s.callers| && s.callers[i].Admit? && s.callers[i].sandbox in s.sandboxes
    requires s.callers[i].slot !in s.store.slots
    requires var t := Run(Step(s, Tick(i, first.0, first.1)), more);
             && j < |t.callers| && t.callers[j].Admit? && t.callers[j].slot == s.callers[i].slot
             && t.callers[j].sandbox in t.sandboxes
    ensures var t := Run(Step(s, Tick(i, first.0, first.1)), more);
            var t' := Step(t, Tick(j, later.0, later.1));
            && t' == t.(callers := t'.callers)
            && (t'.callers[j] == Responded(Refused) <==> t.callers[j].payload != s.callers[i].payload)
  {
    var k := s.callers[i].slot;
    var s' := Step(s, Tick(i, first.0, first.1));
    assert k in s'.store.slots && s'.store.slots[k].payload == s.callers[i].payload;
    hide Run;
    RunKeepsPayload(s', more, k);
  }

  /** The race behind a second start: the check for a result and the dispatch are separate, so caller `j`
      can dispatch, read the end, store it and forget the supervisor while `i` waits to dispatch. */
  function Race(i: nat, j: nat, e: string, answer: Answer): seq<Action> {
    [Tick(j, Other, false), Ends(e, answer), Tick(j, Other, false), Tick(j, Other, false),
     Tick(j, Succeeded, false), Tick(j, Other, false), Tick(i, Other, false)]
  }

  /** Caller `i` still waits to dispatch `e`, for which `n` supervisors were started and ran it. */
  predicate Waiting(s: State, i: nat, j: nat, e: string, n: nat) {
    && i < |s.callers| && j < |s.callers| && i != j
    && s.callers[i] == Dispatch(e) && s.starts[e] == s.launches[e] == n
  }

  lemma RaceUpToTheEnd(s: State, i: nat, j: nat, e: string, answer: Answer)
    requires Waiting(s, i, j, e, s.launches[e]) && s.callers[j] == Dispatch(e) && Visible(s, e) && !HasResult(s.store, e)
    requires e !in s.natives && e !in s.answers && e !in s.forgotten
    ensures var r := Race(i, j, e, answer);
            var s' := Step(Step(Step(s, r[0]), r[1]), r[2]);
            && Waiting(s', i, j, e, s.launches[e] + 1)
            && s'.callers[j] == Ask(e) && e in s'.natives && s'.natives[e] == Ended(answer)
  {
    hide BeginIdempotent, CompleteIdempotent, CreateExecution, CancelExecution, MarkCleaned, FinishExecution;
    var r := Race(i, j, e, answer);
    var s1 := Step(s, r[0]);
    assert s1.callers[j] == Read(e) && s1.natives[e] == Executing;
    var s2 := Step(s1, r[1]);
    assert s2.callers[j] == Read(e) && s2.natives[e] == Ended(answer);
  }

  lemma RaceAfterTheEnd(s: State, i: nat, j: nat, e: string, answer: Answer, n: nat)
    requires Waiting(s, i, j, e, n) && s.callers[j] == Ask(e) && e in s.natives && s.natives[e] == Ended(answer)
    ensures var r := Race(i, j, e, answer);
            var s' := Step(Step(Step(s, r[3]), r[4]), r[5]);
            Waiting(s', i, j, e, n) && e !in s'.natives && e in s'.forgotten
  {
    hide BeginIdempotent, CompleteIdempotent, CreateExecution, CancelExecution, MarkCleaned, FinishExecution;
    var r := Race(i, j, e, answer);
    var s1 := Step(s, r[3]);
    assert s1.callers[j] == StoreResult(e, answer) && s1.natives == s.natives;
    var s2 := Step(s1, r[4]);
    assert s2.callers[j] == Forget(e, answer) && s2.natives == s.natives;
  }

  lemma RaceEnds(s: State, i: nat, j: nat, e: string, answer: Answer) returns (s3: State, s6: State)
    requires Waiting(s, i, j, e, s.launches[e]) && s.callers[j] == Dispatch(e) && Visible(s, e) && !HasResult(s.store, e)
    requires e !in s.natives && e !in s.answers && e !in s.forgotten
    ensures var r := Race(i, j, e, answer);
            && s3 == Step(Step(Step(s, r[0]), r[1]), r[2]) && s6 == Step(Step(Step(s3, r[3]), r[4]), r[5])
            && Waiting(s6, i, j, e, s.launches[e] + 1) && e !in s6.natives && e in s6.forgotten
  {
    hide Step;
    var r := Race(i, j, e, answer);
    RaceUpToTheEnd(s, i, j, e, answer);
    s3 := Step(Step(Step(s, r[0]), r[1]), r[2]);
    RaceAfterTheEnd(s3, i, j, e, answer, s.launches[e] + 1);
    s6 := Step(Step(Step(s3, r[3]), r[4]), r[5]);
  }

  lemma RaceStartsTwice(s: State, i: nat, j: nat, e: string, answer: Answer)
    requires Waiting(s, i, j, e, s.launches[e]) && s.callers[j] == Dispatch(e) && Visible(s, e) && !HasResult(s.store, e)
    requires e !in s.natives && e !in s.answers && e !in s.forgotten
    ensures var s' := Run(s, Race(i, j, e, answer)); s'.starts[e] == s.starts[e] + 2 && s'.launches[e] == s.launches[e] + 1
  {
    var r := Race(i, j, e, answer);
    RunOfSeven(s, r);
    var s3, s6 := RaceEnds(s, i, j, e, answer);
    assert Step(s6, r[6]).starts[e] == s6.starts[e] + 1 && Step(s6, r[6]).launches == s6.launches;
  }

  function Start(i: nat, e: string, sandbox: string, slot: SlotKey, payload: string): Action {
    CallStart(i, e, sandbox, slot, payload, false)
  }

  function Go(i: nat): Action { Tick(i, Other, false) }

  /** A new execution from its call to its dispatch. */
  function FreshStart(i: nat, e: string, sandbox: string, slot: SlotKey, payload: string): seq<Action> {
    [Start(i, e, sandbox, slot, payload), Go(i), Go(i), Go(i), Go(i), Go(i)]
  }

  /** The same call repeated, from its call to its dispatch. */
  function RepeatedStart(i: nat, e: string, sandbox: string, slot: SlotKey, payload: string): seq<Action> {
    [Start(i, e, sandbox, slot, payload), Go(i), Go(i), Go(i), Go(i)]
  }

  lemma FreshStartDispatches(s: State, i: nat, e: string, sandbox: string, slot: SlotKey, payload: string)
    requires Free(s, i) && sandbox in s.sandboxes && slot !in s.store.slots && e !in s.store.execs
    ensures var s' := Run(s, FreshStart(i, e, sandbox, slot, payload));
            && s' == s.(store := s'.store, callers := s.callers[i := Dispatch(e)])
            && s'.store.execs == s.store.execs[e := Exec(sandbox, Running, None, false, false)]
            && slot in s'.store.slots && s'.store.slots[slot].payload == payload
  {
    var r := FreshStart(i, e, sandbox, slot, payload);
    StartCalls(s, i, e, sandbox, slot, payload);
    hide Step;
    var s2 := Admitted(Step(s, r[0]), i, e, sandbox, slot, payload);
    Inserted(s2, i, e, sandbox, slot);
    var s4 := Step(Step(s2, Go(i)), Go(i));
    var s6 := NotedAndCalled(s4, i, e, slot);
    RunOfTwo(s, r);
    RunOfTwo(s2, r[2..]);
    RunOfTwo(s4, r[4..]);
    assert r[2..][2..] == r[4..] && r[4..][2..] == [];
  }

  lemma Inserted(s: State, i: nat, e: string, sandbox: string, slot: SlotKey)
    requires i < |s.callers| && s.callers[i] == Lookup(e, sandbox, slot, false) && e !in s.store.execs
    ensures Step(Step(s, Go(i)), Go(i)) ==
            s.(store := CreateExecution(s.store, e, sandbox), callers := s.callers[i := Note(e, slot, false)])
  {
    var s1 := Step(s, Go(i));
    assert s1 == s.(callers := s.callers[i := Insert(e, sandbox, slot, false)]);
  }

  lemma Admitted(s: State, i: nat, e: string, sandbox: string, slot: SlotKey, payload: string) returns (s': State)
    requires i < |s.callers| && s.callers[i] == Admit(e, sandbox, slot, payload, false) && sandbox in s.sandboxes
    requires slot in s.store.slots ==> s.store.slots[slot].payload == payload
    ensures s' == Step(s, Go(i)) && s'.store.execs == s.store.execs
    ensures s' == s.(store := s'.store, callers := s.callers[i := Lookup(e, sandbox, slot, false)])
    ensures slot in s'.store.slots && s'.store.slots[slot].payload == payload
  {
    s' := Step(s, Go(i));
  }

  lemma NotedAndCalled(s: State, i: nat, e: string, slot: SlotKey) returns (s': State)
    requires i < |s.callers| && s.callers[i] == Note(e, slot, false) && slot in s.store.slots
    ensures s' == Step(Step(s, Go(i)), Go(i))
    ensures s' == s.(store := s'.store, callers := s.callers[i := Dispatch(e)]) && s'.store.execs == s.store.execs
    ensures slot in s'.store.slots && s'.store.slots[slot].payload == s.store.slots[slot].payload
  {
    var s1 := Step(s, Go(i));
    assert s1.callers == s.callers[i := CancelFirst(e, false)];
    s' := Step(s1, Go(i));
  }

  lemma RepeatedStartDispatches(s: State, i: nat, e: string, sandbox: string, slot: SlotKey, payload: string)
    requires Free(s, i) && sandbox in s.sandboxes && slot in s.store.slots && s.store.slots[slot].payload == payload
    requires e in s.store.execs && s.store.execs[e] == Exec(sandbox, Running, None, false, false)
    ensures var s' := Run(s, RepeatedStart(i, e, sandbox, slot, payload));
            && s' == s.(store := s'.store, callers := s.callers[i := Dispatch(e)])
            && s'.store.execs == s.store.execs
  {
    var r := RepeatedStart(i, e, sandbox, slot, payload);
    StartCalls(s, i, e, sandbox, slot, payload);
    hide Step;
    var s2 := Admitted(Step(s, r[0]), i, e, sandbox, slot, payload);
    LookedUp(s2, i, e, sandbox, slot);
    var s3 := Step(s2, Go(i));
    var s5 := NotedAndCalled(s3, i, e, slot);
    RunOfTwo(s, r);
    assert Run(s2, r[2..]) == Run(s3, r[3..]) by { assert r[2..][1..] == r[3..]; }
    RunOfTwo(s3, r[3..]);
    assert r[3..][2..] == [];
  }

  lemma StartCalls(s: State, i: nat, e: string, sandbox: string, slot: SlotKey, payload: string)
    requires Free(s, i)
    ensures Step(s, Start(i, e, sandbox, slot, payload)) ==
            s.(callers := s.callers[i := Admit(e, sandbox, slot, payload, false)])
  {
  }

  lemma LookedUp(s: State, i: nat, e: string, sandbox: string, slot: SlotKey)
    requires i < |s.callers| && s.callers[i] == Lookup(e, sandbox, slot, false)
    requires e in s.store.execs && s.store.execs[e] == Exec(sandbox, Running, None, false, false)
    ensures Step(s, Go(i)) == s.(callers := s.callers[i := Note(e, slot, false)])
  {
  }

  lemma {:induction false} RunConcat(s: State, a: seq<Action>, b: seq<Action>)
    ensures Run(s, a + b) == Run(Run(s, a), b)
    decreases |a|
  {
    hide Step;
    if a == [] {
      assert a + b == b;
    } else {
      assert (a + b)[0] == a[0] && (a + b)[1..] == a[1..] + b;
      RunConcat(Step(s, a[0]), a[1..], b);
    }
  }

  /** Two callers of one execution, from the empty daemon. */
  function SecondStart(e: string, sandbox: string, slot: SlotKey, payload: string, answer: Answer): seq<Action> {
    [AddSandbox(sandbox)] + FreshStart(0, e, sandbox, slot, payload) + RepeatedStart(1, e, sandbox, slot, payload)
    + Race(0, 1, e, answer)
  }

  /** So `start_agent_execution` alone does not dispatch at most once: from the empty daemon two callers
      of one execution start two supervisors, and only the completion mark keeps the second from running
      the command. */
  lemma SecondStartHappens(e: string, sandbox: string, slot: SlotKey, payload: string, answer: Answer)
    ensures var s := Run(Initial(2), SecondStart(e, sandbox, slot, payload, answer)); s.starts[e] == 2 && s.launches[e] == 1
  {
    var first, again := FreshStart(0, e, sandbox, slot, payload), RepeatedStart(1, e, sandbox, slot, payload);
    var race := Race(0, 1, e, answer);
    RunConcat(Initial(2), [AddSandbox(sandbox)] + first + again, race);
    RunConcat(Initial(2), [AddSandbox(sandbox)] + first, again);
    RunConcat(Initial(2), [AddSandbox(sandbox)], first);
    var s0 := Run(Initial(2), [AddSandbox(sandbox)]);
    assert s0 == Initial(2).(sandboxes := {sandbox}) by { OneSandbox(sandbox); }
    hide FreshStart, RepeatedStart, Race;
    FreshStartDispatches(s0, 0, e, sandbox, slot, payload);
    var s1 := Run(s0, first);
    RepeatedStartDispatches(s1, 1, e, sandbox, slot, payload);
    var s2 := Run(s1, again);
    RaceStartsTwice(s2, 0, 1, e, answer);
  }

  /** Two starts of one execution from the empty daemon, with its container replaced between them. */
  function SecondLaunch(e: string, sandbox: string, slot: SlotKey, payload: string): seq<Action> {
    [AddSandbox(sandbox)] + FreshStart(0, e, sandbox, slot, payload) + [Go(0), Replace(sandbox)]
    + RepeatedStart(1, e, sandbox, slot, payload) + [Go(1)]
  }

  /** The start repeated after the container was replaced runs the command again. */
  lemma SecondLaunchHappens(e: string, sandbox: string, slot: SlotKey, payload: string)
    ensures Run(Initial(2), SecondLaunch(e, sandbox, slot, payload)).launches[e] == 2
  {
    var first, again := FreshStart(0, e, sandbox, slot, payload), RepeatedStart(1, e, sandbox, slot, payload);
    var added := [AddSandbox(sandbox)];
    RunConcat(Initial(2), added + first + [Go(0), Replace(sandbox)] + again, [Go(1)]);
    RunConcat(Initial(2), added + first + [Go(0), Replace(sandbox)], again);
    RunConcat(Initial(2), added + first, [Go(0), Replace(sandbox)]);
    RunConcat(Initial(2), added, first);
    var s0 := Run(Initial(2), added);
    assert s0 == Initial(2).(sandboxes := {sandbox}) by { OneSandbox(sandbox); }
    hide FreshStart, RepeatedStart;
    FreshStartDispatches(s0, 0, e, sandbox, slot, payload);
    var s1 := Run(s0, first);
    LaunchedAndLost(s1, e, sandbox);
    var s2 := Run(s1, [Go(0), Replace(sandbox)]);
    RepeatedStartDispatches(s2, 1, e, sandbox, slot, payload);
    var s3 := Run(s2, again);
    LaunchesNow(s3, e);
  }

  lemma LaunchedAndLost(s: State, e: string, sandbox: string)
    requires |s.callers| == 2 && s.callers[0] == Dispatch(e) && InSandbox(s, e, sandbox)
    requires e !in s.natives && e !in s.forgotten
    ensures var s' := Run(s, [Go(0), Replace(sandbox)]);
            && s'.store == s.store && s'.sandboxes == s.sandboxes && s'.callers == s.callers[0 := Read(e)]
            && s'.launches[e] == s.launches[e] + 1 && e !in s'.natives && e !in s'.forgotten
  {
    RunOfTwo(s, [Go(0), Replace(sandbox)]);
    assert [Go(0), Replace(sandbox)][2..] == [];
    DispatchedAlone(s, e);
    hide Step;
    ReplacedNow(Step(s, Go(0)), e, sandbox);
  }

  lemma DispatchedAlone(s: State, e: string)
    requires |s.callers| == 2 && s.callers[0] == Dispatch(e) && e !in s.natives && e !in s.forgotten
    ensures Step(s, Go(0)) == Launched(s, e).(callers := s.callers[0 := Read(e)])
  {
  }

  lemma ReplacedNow(s: State, e: string, sandbox: string)
    requires e in s.natives && InSandbox(s, e, sandbox)
    ensures var s' := Step(s, Replace(sandbox));
            && s' == s.(natives := s'.natives, forgotten := s'.forgotten, lost := s'.lost)
            && e !in s'.natives && e !in s'.forgotten
  {
    assert e in (set x | x in s.natives.Keys + s.forgotten && InSandbox(s, x, sandbox));
  }

  lemma LaunchesNow(s: State, e: string)
    requires |s.callers| == 2 && s.callers[1] == Dispatch(e) && e !in s.natives && e !in s.forgotten
    ensures Run(s, [Go(1)]).launches[e] == s.launches[e] + 1
  {
    assert [Go(1)][1..] == [];
    assert Run(s, [Go(1)]) == Run(Step(s, Go(1)), []);
  }

  lemma OneSandbox(sandbox: string)
    ensures Run(Initial(2), [AddSandbox(sandbox)]) == Initial(2).(sandboxes := {sandbox})
  {
    assert [AddSandbox(sandbox)][1..] == [];
    assert Run(Initial(2), [AddSandbox(sandbox)]) == Run(Step(Initial(2), AddSandbox(sandbox)), []);
  }

  lemma RunOfSeven(s: State, r: seq<Action>)
    requires |r| == 7
    ensures Run(s, r) == Step(Step(Step(Step(Step(Step(Step(s, r[0]), r[1]), r[2]), r[3]), r[4]), r[5]), r[6])
  {
    hide Step;
    var s1 := Step(s, r[0]);
    assert Run(s, r) == Run(s1, r[1..]);
    RunOfTwo(s1, r[1..]);
    var s3 := Step(Step(s1, r[1]), r[2]);
    RunOfTwo(s3, r[3..]);
    RunOfTwo(Step(Step(s3, r[3]), r[4]), r[5..]);
    assert r[1..][2..] == r[3..] && r[3..][2..] == r[5..];
  }

  lemma RunOfTwo(s: State, r: seq<Action>)
    requires |r| >= 2
    ensures Run(s, r) == Run(Step(Step(s, r[0]), r[1]), r[2..])
  {
    hide Step;
    assert Run(s, r) == Run(Step(s, r[0]), r[1..]);
    assert r[1..][1..] == r[2..] && r[1..][0] == r[1];
  }
}
