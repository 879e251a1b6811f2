/** The idempotency ledger around one command execution (`_exec_common` of
    sandboxd/sandboxd/controller.py): any number of callers, retries, background
    reconciliation and daemon crashes, interleaved between every two store transactions. */
module ExecLedger {
  import opened Prelude
  import opened SandboxStore

  /** What the runtime was asked to run, and for which slot. */
  datatype Call = Call(slot: SlotKey, payload: string, exec: string)

  datatype Response = Result(answer: Answer) | Conflict | Indeterminate | RuntimeError

  datatype Pc =
    | Idle
    | Claimed                                   // the slot row was inserted by this caller
    | Created(exec: string)                     // the execution row exists
    | Marked(exec: string)                      // the slot carries the execution id
    | InRuntime(exec: string)                   // the runtime is executing
    | Raised                                    // the runtime raised
    | Returned(exec: string, answer: Answer)    // the runtime answered
    | Finished(exec: string, answer: Answer)    // the execution row holds the result
    | Responded(response: Response)

  datatype Caller = Caller(slot: SlotKey, payload: string, pc: Pc)

  /** `truth` is the runtime's answer for an execution it was asked to run; `owner` is the slot
      an execution id was created for. */
  datatype State = State(store: Store, callers: seq<Caller>, calls: seq<Call>, truth: map<string, Answer>,
                         owner: map<string, SlotKey>)

  datatype Action =
    | Begin(i: nat, slot: SlotKey, payload: string)
    | Create(i: nat, exec: string, sandbox: string)
    | Mark(i: nat)
    | Invoke(i: nat, answer: Answer)
    | Answered(i: nat)
    | Raise(i: nat)
    | WriteFailure(i: nat)
    | Finish(i: nat, status: Status)
    | Complete(i: nat)
    | Abort(i: nat)
    | Reconcile(exec: string, status: Status)
    | Crash

  function Move(s: State, i: nat, pc: Pc): State
    requires i < |s.callers|
  {
    s.(callers := s.callers[i := s.callers[i].(pc := pc)])
  }

  /** A repeated key: another payload conflicts; the same one replays a result or gives up. */
  function Replay(slot: Slot, payload: string): Response {
    if slot.payload != payload then Conflict
    else if slot.state == SlotSucceeded && slot.doc.Some? && slot.doc.value.Full? then Result(slot.doc.value.answer)
    else Indeterminate
  }

  function BeginStep(s: State, i: nat, slot: SlotKey, payload: string): State
    requires i < |s.callers|
  {
    var (store, existing) := BeginIdempotent(s.store, slot, payload);
    var pc := if existing == None then Claimed else Responded(Replay(existing.value, payload));
    s.(store := store, callers := s.callers[i := Caller(slot, payload, pc)])
  }

  function Reset(callers: seq<Caller>): seq<Caller> {
    seq(|callers|, i requires 0 <= i < |callers| => callers[i].(pc := Idle))
  }

  predicate EnabledAt(s: State, a: Action, pc: Pc)
    requires !a.Reconcile? && !a.Crash?
  {
    match a
    case Begin(_, _, _) => pc.Idle? || pc.Responded?
    case Create(_, exec, _) => pc.Claimed? && exec !in s.store.execs
    case Mark(_) => pc.Created?
    case Invoke(_, _) => pc.Marked?
    case Answered(_) => pc.InRuntime? && pc.exec in s.truth
    case Raise(_) => pc.InRuntime?
    case WriteFailure(_) => pc.Raised?
    case Finish(_, _) => pc.Returned?
    case Complete(_) => pc.Finished?
    case Abort(_) => true
  }

  predicate Enabled(s: State, a: Action) {
    match a
    case Reconcile(exec, _) => exec in s.truth
    case Crash => true
    case _ => a.i < |s.callers| && EnabledAt(s, a, s.callers[a.i].pc)
  }

  /** A step that is not enabled changes nothing. */
  function Step(s: State, a: Action): State {
    if !Enabled(s, a) then s else
    match a
    case Begin(i, slot, payload) => BeginStep(s, i, slot, payload)
    case Create(i, exec, sandbox) => Move(s, i, Created(exec)).(store := CreateExecution(s.store, exec, sandbox),
                                                                   owner := s.owner[exec := s.callers[i].slot])
    case Mark(i) =>
      var exec := s.callers[i].pc.exec;
      Move(s, i, Marked(exec)).(store := CompleteIdempotent(s.store, s.callers[i].slot, InProgress, Some(IdOnly(exec))))
    case Invoke(i, answer) =>
      var c := s.callers[i];
      Move(s, i, InRuntime(c.pc.exec)).(calls := s.calls + [Call(c.slot, c.payload, c.pc.exec)],
                                        truth := s.truth[c.pc.exec := answer])
    case Answered(i) => Move(s, i, Returned(s.callers[i].pc.exec, s.truth[s.callers[i].pc.exec]))
    case Raise(i) => Move(s, i, Raised)
    case WriteFailure(i) =>
      Move(s, i, Responded(RuntimeError)).(store := CompleteIdempotent(s.store, s.callers[i].slot, SlotFailed, None))
    case Finish(i, status) =>
      var pc := s.callers[i].pc;
      Move(s, i, Finished(pc.exec, pc.answer)).(store := FinishExecution(s.store, pc.exec, status, pc.answer))
    case Complete(i) =>
      var c := s.callers[i];
      Move(s, i, Responded(Result(c.pc.answer)))
        .(store := CompleteIdempotent(s.store, c.slot, SlotSucceeded, Some(Full(c.pc.exec, c.pc.answer))))
    case Abort(i) => Move(s, i, Idle)
    case Reconcile(exec, status) => s.(store := FinishExecution(s.store, exec, status, s.truth[exec]))
    case Crash => s.(callers := Reset(s.callers))
  }

  function Run(s: State, run: seq<Action>): State
    decreases |run|
  {
    if run == [] then s else Run(Step(s, run[0]), run[1..])
  }

  function Initial(n: nat): State {
    State(Store(map[], map[]), seq(n, i => Caller(SlotKey("", ""), "", Idle)), [], map[], map[])
  }

  /* ---- The invariant ---- */

  /** The caller owns its slot and has not yet reached the runtime. */
  predicate Owning(pc: Pc) { pc.Claimed? || pc.Created? || pc.Marked? }

  function ExecOf(pc: Pc): Option<string> {
    match pc
    case Created(e) => Some(e)
    case Marked(e) => Some(e)
    case InRuntime(e) => Some(e)
    case Returned(e, _) => Some(e)
    case Finished(e, _) => Some(e)
    case _ => None
  }

  predicate Called(s: State, slot: SlotKey) { exists c :: c in s.calls && c.slot == slot }

  ghost predicate CallerOk(s: State, c: Caller) {
    && (Owning(c.pc) ==> c.slot in s.store.slots && s.store.slots[c.slot].payload == c.payload && !Called(s, c.slot))
    && (c.pc.Claimed? || c.pc.Created? ==> s.store.slots[c.slot].doc == None)
    && (ExecOf(c.pc).Some? ==> var e := ExecOf(c.pc).value;
          && e in s.store.execs && e in s.owner && s.owner[e] == c.slot
          && (if Owning(c.pc) then e !in s.truth else e in s.truth && Call(c.slot, c.payload, e) in s.calls))
    && (c.pc.Raised? ==> Called(s, c.slot))
    && (c.pc.Returned? || c.pc.Finished? ==> c.pc.answer == s.truth[c.pc.exec])
    && (c.pc.Responded? && c.pc.response.Result? ==> Answers(s, c))
  }

  predicate AnswerOf(s: State, call: Call, c: Caller, answer: Answer) {
    call.slot == c.slot && call.payload == c.payload && call.exec in s.truth && s.truth[call.exec] == answer
  }

  /** The answer is what the runtime said to a call for the caller's slot and payload. */
  ghost predicate Answers(s: State, c: Caller)
    requires c.pc.Responded? && c.pc.response.Result?
  {
    exists call :: call in s.calls && AnswerOf(s, call, c, c.pc.response.answer)
  }

  ghost predicate SlotOk(s: State, k: SlotKey)
    requires k in s.store.slots
  {
    var slot := s.store.slots[k];
    && (slot.state == SlotSucceeded ==> slot.doc.Some? && slot.doc.value.Full?)
    && (slot.doc.Some? ==> var e := slot.doc.value.exec;
          && e in s.store.execs && e in s.owner && s.owner[e] == k
          && (e in s.truth ==> Call(k, slot.payload, e) in s.calls)
          && (slot.doc.value.Full? ==> e in s.truth && slot.doc.value.answer == s.truth[e]))
  }

  ghost predicate CallOk(s: State, c: Call) {
    && c.slot in s.store.slots && s.store.slots[c.slot].payload == c.payload
    && c.exec in s.truth && c.exec in s.owner && s.owner[c.exec] == c.slot
  }

  ghost predicate Inv(s: State) {
    && (forall i :: 0 <= i < |s.callers| ==> CallerOk(s, s.callers[i]))
    && (forall i, j :: 0 <= i < j < |s.callers| && Owning(s.callers[i].pc) && Owning(s.callers[j].pc) ==>
          s.callers[i].slot != s.callers[j].slot)
    && (forall k :: k in s.store.slots ==> SlotOk(s, k))
    && (forall c :: c in s.calls ==> CallOk(s, c))
    && (forall i, j :: 0 <= i < j < |s.calls| ==> s.calls[i].slot != s.calls[j].slot)
    && (forall e :: e in s.truth || e in s.owner ==> e in s.store.execs)
  }

  /* ---- Preservation ---- */

  /** What a step may change about the shared part without disturbing the other callers. */
  ghost predicate Grows(s: State, s': State) {
    && (forall k :: k in s.store.slots ==> k in s'.store.slots && s'.store.slots[k].payload == s.store.slots[k].payload)
    && (forall e :: e in s.store.execs ==> e in s'.store.execs)
    && (forall e :: e in s.owner ==> e in s'.owner && s'.owner[e] == s.owner[e])
    && (forall e :: e in s.truth ==> e in s'.truth && s'.truth[e] == s.truth[e])
    && (forall c :: c in s.calls ==> c in s'.calls)
  }

  lemma OtherCaller(s: State, s': State, c: Caller)
    requires CallerOk(s, c) && Grows(s, s')
    requires Owning(c.pc) ==> !Called(s', c.slot)
    requires c.pc.Claimed? || c.pc.Created? ==> s'.store.slots[c.slot].doc == s.store.slots[c.slot].doc
    requires Owning(c.pc) && ExecOf(c.pc).Some? ==> ExecOf(c.pc).value !in s'.truth
    ensures CallerOk(s', c)
  {
    if c.pc.Responded? && c.pc.response.Result? {
      var call :| call in s.calls && AnswerOf(s, call, c, c.pc.response.answer);
      assert call in s'.calls && AnswerOf(s', call, c, c.pc.response.answer);
    }
  }

  lemma BeginKeeps(s: State, i: nat, slot: SlotKey, payload: string)
    requires Inv(s) && i < |s.callers|
    ensures Inv(BeginStep(s, i, slot, payload))
  {
    var s' := BeginStep(s, i, slot, payload);
    forall j | 0 <= j < |s.callers| && j != i ensures CallerOk(s', s'.callers[j]) {
      OtherCaller(s, s', s.callers[j]);
    }
    if slot in s.store.slots {
      assert SlotOk(s, slot);
      var c := s'.callers[i];
      if c.pc.response.Result? {
        var call := Call(slot, payload, s.store.slots[slot].doc.value.exec);
        assert call in s'.calls && AnswerOf(s', call, c, c.pc.response.answer);
      }
    } else {
      forall c | c in s.calls ensures c.slot != slot { assert CallOk(s, c); }
    }
    forall k | k in s'.store.slots ensures SlotOk(s', k) {
      if k in s.store.slots { assert SlotOk(s, k); }
    }
    forall c | c in s'.calls ensures CallOk(s', c) { assert CallOk(s, c); }
  }

  /** A step that leaves calls, answers and ids alone and touches at most the caller's own slot. */
  lemma OwnSlotKeeps(s: State, s': State, i: nat)
    requires Inv(s) && i < |s.callers| && |s'.callers| == |s.callers|
    requires forall j :: 0 <= j < |s.callers| && j != i ==> s'.callers[j] == s.callers[j]
    requires s'.calls == s.calls && s'.truth == s.truth && s'.owner == s.owner && s'.store.execs.Keys == s.store.execs.Keys
    requires s'.store.slots.Keys == s.store.slots.Keys && s'.callers[i].slot == s.callers[i].slot
    requires forall k :: k in s.store.slots && k != s.callers[i].slot ==> s'.store.slots[k] == s.store.slots[k]
    requires s.callers[i].slot in s.store.slots ==>
               s'.store.slots[s.callers[i].slot].payload == s.store.slots[s.callers[i].slot].payload
               && SlotOk(s', s.callers[i].slot)
    requires s'.store == s.store || !s.callers[i].pc.Claimed?
    requires Owning(s'.callers[i].pc) ==> Owning(s.callers[i].pc)
    requires s'.store == s.store || (ExecOf(s.callers[i].pc).Some? || s.callers[i].pc.Raised?)
    requires s'.store != s.store ==> Owning(s.callers[i].pc) || Called(s, s.callers[i].slot)
    requires CallerOk(s', s'.callers[i])
    ensures Inv(s')
  {
    forall j | 0 <= j < |s.callers| && j != i ensures CallerOk(s', s'.callers[j]) {
      assert CallerOk(s, s.callers[j]) && CallerOk(s, s.callers[i]);
      OtherCaller(s, s', s.callers[j]);
    }
    forall k | k in s'.store.slots ensures SlotOk(s', k) { assert SlotOk(s, k); }
    forall c | c in s'.calls ensures CallOk(s', c) { assert CallOk(s, c); }
  }

  lemma CreateKeeps(s: State, a: Action)
    requires Inv(s) && a.Create? && Enabled(s, a)
    ensures Inv(Step(s, a))
  {
    var s' := Step(s, a);
    assert a.exec !in s.truth;
    forall j | 0 <= j < |s.callers| ensures CallerOk(s', s'.callers[j]) {
      assert CallerOk(s, s.callers[j]);
      if j != a.i { OtherCaller(s, s', s.callers[j]); }
    }
    forall k | k in s'.store.slots ensures SlotOk(s', k) { assert SlotOk(s, k); }
    forall c | c in s'.calls ensures CallOk(s', c) { assert CallOk(s, c); }
  }

  lemma MarkKeeps(s: State, a: Action)
    requires Inv(s) && a.Mark? && Enabled(s, a)
    ensures Inv(Step(s, a))
  {
    var s' := Step(s, a);
    var c := s.callers[a.i];
    assert CallerOk(s, c);
    OwnSlotKeeps(s, s', a.i);
  }

  lemma {:induction false} CalledIn(calls: seq<Call>, c: Call, slot: SlotKey)
    requires c.slot != slot && forall x :: x in calls ==> x.slot != slot
    ensures forall x :: x in calls + [c] ==> x.slot != slot
  {
    forall x | x in calls + [c] ensures x.slot != slot { assert x in calls || x == c; }
  }

  lemma InvokeKeeps(s: State, a: Action)
    requires Inv(s) && a.Invoke? && Enabled(s, a)
    ensures Inv(Step(s, a))
  {
    var s' := Step(s, a);
    var c := s.callers[a.i];
    var e := c.pc.exec;
    assert CallerOk(s, c);
    assert forall x :: x in s.calls ==> x in s'.calls;
    forall x | x in s.calls ensures x.slot != c.slot {}
    forall j | 0 <= j < |s.callers| && j != a.i ensures CallerOk(s', s'.callers[j]) {
      var d := s.callers[j];
      assert CallerOk(s, d);
      if Owning(d.pc) {
        assert d.slot != c.slot;
        CalledIn(s.calls, Call(c.slot, c.payload, e), d.slot);
      }
      OtherCaller(s, s', d);
    }
    assert Call(c.slot, c.payload, e) in s'.calls;
    forall k | k in s'.store.slots ensures SlotOk(s', k) { assert SlotOk(s, k); }
    forall x | x in s'.calls ensures CallOk(s', x) {
      if x in s.calls { assert CallOk(s, x); }
    }
    forall x, y | 0 <= x < y < |s'.calls| ensures s'.calls[x].slot != s'.calls[y].slot {
      assert s.calls[x] in s.calls;
    }
  }

  lemma LocalKeeps(s: State, a: Action)
    requires Inv(s) && (a.Answered? || a.Raise? || a.Abort?) && Enabled(s, a)
    ensures Inv(Step(s, a))
  {
    var s' := Step(s, a);
    assert CallerOk(s, s.callers[a.i]);
    if s.callers[a.i].slot in s.store.slots { assert SlotOk(s, s.callers[a.i].slot); }
    OwnSlotKeeps(s, s', a.i);
  }

  lemma WriteFailureKeeps(s: State, a: Action)
    requires Inv(s) && a.WriteFailure? && Enabled(s, a)
    ensures Inv(Step(s, a))
  {
    assert CallerOk(s, s.callers[a.i]);
    OwnSlotKeeps(s, Step(s, a), a.i);
  }

  lemma CompleteKeeps(s: State, a: Action)
    requires Inv(s) && a.Complete? && Enabled(s, a)
    ensures Inv(Step(s, a))
  {
    var s' := Step(s, a);
    var c := s.callers[a.i];
    assert CallerOk(s, c);
    var call := Call(c.slot, c.payload, c.pc.exec);
    assert CallOk(s, call);
    assert AnswerOf(s', call, s'.callers[a.i], c.pc.answer);
    OwnSlotKeeps(s, s', a.i);
  }

  /** Storing the true answer of an execution keeps everything, whoever stores it. */
  lemma FinishStoreKeeps(s: State, s': State, e: string, status: Status)
    requires Inv(s) && e in s.truth
    requires s' == s.(store := FinishExecution(s.store, e, status, s.truth[e]))
    ensures Inv(s')
  {
    forall j | 0 <= j < |s.callers| ensures CallerOk(s', s'.callers[j]) {
      var c := s.callers[j];
      assert CallerOk(s, c);
      OtherCaller(s, s', c);
    }
    forall k | k in s'.store.slots ensures SlotOk(s', k) { assert SlotOk(s, k); }
    forall c | c in s'.calls ensures CallOk(s', c) { assert CallOk(s, c); }
  }

  lemma FinishActionKeeps(s: State, a: Action)
    requires Inv(s) && a.Finish? && Enabled(s, a)
    ensures Inv(Step(s, a))
  {
    var pc := s.callers[a.i].pc;
    assert CallerOk(s, s.callers[a.i]);
    var mid := Move(s, a.i, Finished(pc.exec, pc.answer));
    OwnSlotKeepsHere(s, a.i, mid);
    FinishStoreKeeps(mid, Step(s, a), pc.exec, a.status);
  }

  lemma OwnSlotKeepsHere(s: State, i: nat, s': State)
    requires Inv(s) && i < |s.callers| && s.callers[i].pc.Returned?
    requires s' == Move(s, i, Finished(s.callers[i].pc.exec, s.callers[i].pc.answer))
    ensures Inv(s')
  {
    assert CallerOk(s, s.callers[i]);
    assert CallOk(s, Call(s.callers[i].slot, s.callers[i].payload, s.callers[i].pc.exec));
    assert SlotOk(s, s.callers[i].slot);
    OwnSlotKeeps(s, s', i);
  }

  lemma CrashKeeps(s: State)
    requires Inv(s)
    ensures Inv(s.(callers := Reset(s.callers)))
  {
    var s' := s.(callers := Reset(s.callers));
    forall k | k in s'.store.slots ensures SlotOk(s', k) { assert SlotOk(s, k); }
    forall c | c in s'.calls ensures CallOk(s', c) { assert CallOk(s, c); }
  }

  lemma StepKeeps(s: State, a: Action)
    requires Inv(s)
    ensures Inv(Step(s, a))
  {
    hide Inv, BeginStep, Reset;
    if Enabled(s, a) {
      match a
      case Begin(i, slot, payload) => BeginKeeps(s, i, slot, payload);
      case Create(_, _, _) => CreateKeeps(s, a);
      case Mark(_) => MarkKeeps(s, a);
      case Invoke(_, _) => InvokeKeeps(s, a);
      case Answered(_) => LocalKeeps(s, a);
      case Raise(_) => LocalKeeps(s, a);
      case Abort(_) => LocalKeeps(s, a);
      case WriteFailure(_) => WriteFailureKeeps(s, a);
      case Finish(_, _) => FinishActionKeeps(s, a);
      case Complete(_) => CompleteKeeps(s, a);
      case Reconcile(exec, status) => FinishStoreKeeps(s, Step(s, a), exec, status);
      case Crash => CrashKeeps(s);
    }
  }

  lemma {:induction false} RunKeeps(s: State, run: seq<Action>)
    requires Inv(s)
    ensures Inv(Run(s, run))
    decreases |run|
  {
    hide Inv, Step;
    if run != [] {
      StepKeeps(s, run[0]);
      RunKeeps(Step(s, run[0]), run[1..]);
    }
  }

  /* ---- The results ---- */

  /** Main result 1. Over every interleaving of any number of callers, retries, reconciliation
      and daemon crashes, the runtime is called at most once for a ledger slot. */
  lemma AtMostOneCallPerSlot(n: nat, run: seq<Action>, x: nat, y: nat)
    requires var s := Run(Initial(n), run); x < |s.calls| && y < |s.calls|
    ensures var s := Run(Initial(n), run);
            s.calls[x].slot == s.calls[y].slot ==> x == y
  {
    hide Run;
    RunKeeps(Initial(n), run);
  }

  /** Main result 2. A result handed to a caller, first or repeated, is the runtime's answer to
      that one call, which was made with the caller's own payload. */
  lemma ResultsAreTheOneAnswer(n: nat, run: seq<Action>, i: nat)
    requires i < |Run(Initial(n), run).callers|
    requires var pc := Run(Initial(n), run).callers[i].pc; pc.Responded? && pc.response.Result?
    ensures var s := Run(Initial(n), run); var c := s.callers[i];
            exists call :: call in s.calls && AnswerOf(s, call, c, c.pc.response.answer) &&
                           forall other :: other in s.calls && other.slot == c.slot ==> other == call
  {
    hide Run;
    RunKeeps(Initial(n), run);
    var s := Run(Initial(n), run);
    var c := s.callers[i];
    assert CallerOk(s, c);
    var call :| call in s.calls && AnswerOf(s, call, c, c.pc.response.answer);
    forall other | other in s.calls && other.slot == c.slot ensures other == call {
      var x :| 0 <= x < |s.calls| && s.calls[x] == other;
      var y :| 0 <= y < |s.calls| && s.calls[y] == call;
      assert x == y;
    }
  }

  /** Main result 3. A repeated key changes no table and runs nothing; it conflicts exactly when
      its payload is another one, yields a result exactly when the payload is the slot's own and the
      slot stores that result as succeeded, and is "indeterminate" otherwise. */
  lemma RepeatRunsNothing(n: nat, run: seq<Action>, i: nat, slot: SlotKey, payload: string)
    requires var s := Run(Initial(n), run);
             i < |s.callers| && slot in s.store.slots && (s.callers[i].pc.Idle? || s.callers[i].pc.Responded?)
    ensures var s := Run(Initial(n), run);
            var s' := Step(s, Begin(i, slot, payload));
            && s'.store == s.store && s'.calls == s.calls && s'.callers[i].pc.Responded?
            && var response := s'.callers[i].pc.response;
               && response != RuntimeError
               && (response == Conflict <==> payload != s.store.slots[slot].payload)
               && (response.Result? ==> s.store.slots[slot].state == SlotSucceeded && Called(s, slot))
               && forall a :: response == Result(a) <==>
                    var row := s.store.slots[slot];
                    payload == row.payload && row.state == SlotSucceeded && row.doc.Some? && row.doc.value.Full?
                    && row.doc.value.answer == a
  {
    hide Run;
    RunKeeps(Initial(n), run);
    var s := Run(Initial(n), run);
    assert SlotOk(s, slot);
    var doc := s.store.slots[slot].doc;
    if doc.Some? && doc.value.Full? {
      assert Call(slot, s.store.slots[slot].payload, doc.value.exec) in s.calls;
    }
  }
}
