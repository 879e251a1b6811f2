/** How long a result of the execution ledger can be read back. A caller that was handed a result
    repeats its key; the answer is the same until a failure is written over the slot. */
module ExecReplay {
  import opened Prelude
  import opened SandboxStore
  import opened ExecLedger

  /** Between claiming a slot and answering. */
  predicate Working(pc: Pc) { !pc.Idle? && !pc.Responded? }

  predicate HandedResult(c: Caller, k: SlotKey) { c.slot == k && c.pc.Responded? && c.pc.response.Result? }

  /** The slot answers a repeat of its key with `a`. */
  predicate Stores(st: Store, k: SlotKey, a: Answer) {
    k in st.slots && st.slots[k].state == SlotSucceeded && st.slots[k].doc.Some? && st.slots[k].doc.value.Full?
    && st.slots[k].doc.value.answer == a
  }

  /** The step writes a failure into the slot. */
  predicate Fails(s: State, a: Action, k: SlotKey) {
    a.WriteFailure? && Enabled(s, a) && s.callers[a.i].slot == k
  }

  predicate FailureWritten(s: State, run: seq<Action>, k: SlotKey)
    decreases |run|
  {
    run != [] && (Fails(s, run[0], k) || FailureWritten(Step(s, run[0]), run[1..], k))
  }

  /* ---- One caller at a time works on a slot ---- */

  ghost predicate Alone(s: State) {
    && (forall i :: 0 <= i < |s.callers| && Working(s.callers[i].pc) ==> s.callers[i].slot in s.store.slots)
    && (forall i, j :: 0 <= i < j < |s.callers| && Working(s.callers[i].pc) && Working(s.callers[j].pc) ==>
          s.callers[i].slot != s.callers[j].slot)
  }

  /** A step leaves the other callers alone, and only a claim of a new slot begins work. */
  lemma StepIsLocal(s: State, a: Action)
    requires Enabled(s, a) && !a.Crash?
    ensures var s' := Step(s, a);
            && |s'.callers| == |s.callers|
            && (forall k :: k in s.store.slots ==> k in s'.store.slots)
            && (a.Reconcile? ==> s'.callers == s.callers)
            && (!a.Reconcile? ==> forall j :: 0 <= j < |s.callers| && j != a.i ==> s'.callers[j] == s.callers[j])
            && (!a.Reconcile? && Working(s'.callers[a.i].pc) ==>
                  var k := s'.callers[a.i].slot;
                  if a.Begin? then k in s'.store.slots && k !in s.store.slots
                  else Working(s.callers[a.i].pc) && k == s.callers[a.i].slot)
  {
    hide Replay;
  }

  lemma StepKeepsAlone(s: State, a: Action)
    requires Alone(s)
    ensures Alone(Step(s, a))
  {
    if Enabled(s, a) && !a.Crash? {
      StepIsLocal(s, a);
      hide Step, Enabled;
    }
  }

  /* ---- What happens to a slot that has an answer, or a failure ---- */

  /** Before a failure is written the slot of every handed result holds a result; afterwards the slot
      is empty and nobody works on it any more. */
  ghost predicate Kept(s: State, k: SlotKey, failed: bool) {
    && (failed ==> k in s.store.slots && s.store.slots[k].state == SlotFailed && s.store.slots[k].doc == None
                   && forall i :: 0 <= i < |s.callers| && s.callers[i].slot == k ==> !Working(s.callers[i].pc))
    && forall i :: 0 <= i < |s.callers| && HandedResult(s.callers[i], k) && !failed ==>
         k in s.store.slots && s.store.slots[k].state == SlotSucceeded
  }

  /** A slot that holds a result has had its call, so nobody is about to make one. */
  lemma SucceededIsCalled(s: State, k: SlotKey)
    requires Inv(s) && k in s.store.slots && s.store.slots[k].state == SlotSucceeded
    ensures Called(s, k) && s.store.slots[k].doc.Some? && s.store.slots[k].doc.value.Full?
    ensures forall i :: 0 <= i < |s.callers| && s.callers[i].slot == k ==> !Owning(s.callers[i].pc)
  {
    assert SlotOk(s, k);
    assert Call(k, s.store.slots[k].payload, s.store.slots[k].doc.value.exec) in s.calls;
    forall i | 0 <= i < |s.callers| && s.callers[i].slot == k ensures !Owning(s.callers[i].pc) {
      assert CallerOk(s, s.callers[i]);
    }
  }

  /** Once a failure is written nothing is written to the slot any more, and no result read. */
  lemma FailedStays(s: State, a: Action, k: SlotKey)
    requires Kept(s, k, true)
    ensures Kept(Step(s, a), k, true)
  {
    if Enabled(s, a) && !a.Crash? { StepIsLocal(s, a); }
  }

  /** Until then a slot with a result keeps one. */
  lemma SucceededStays(s: State, a: Action, k: SlotKey)
    requires Inv(s) && k in s.store.slots && s.store.slots[k].state == SlotSucceeded && !Fails(s, a, k)
    ensures k in Step(s, a).store.slots && Step(s, a).store.slots[k].state == SlotSucceeded
  {
    SucceededIsCalled(s, k);
    hide Inv, Replay;
  }

  lemma ResultsAreStored(s: State, a: Action, k: SlotKey, i: nat)
    requires Inv(s) && Alone(s) && i < |Step(s, a).callers| && HandedResult(Step(s, a).callers[i], k)
    requires i < |s.callers| && HandedResult(s.callers[i], k) ==> k in s.store.slots && s.store.slots[k].state == SlotSucceeded
    requires !Fails(s, a, k)
    ensures k in Step(s, a).store.slots && Step(s, a).store.slots[k].state == SlotSucceeded
  {
    if k in s.store.slots && s.store.slots[k].state == SlotSucceeded {
      SucceededStays(s, a, k);
    } else {
      hide Inv;
    }
  }

  lemma FailureEmpties(s: State, a: Action, k: SlotKey)
    requires Alone(s) && Fails(s, a, k)
    ensures Kept(Step(s, a), k, true)
  {
  }

  lemma StepKept(s: State, a: Action, k: SlotKey, failed: bool)
    requires Inv(s) && Alone(s) && Kept(s, k, failed)
    ensures Kept(Step(s, a), k, failed || Fails(s, a, k))
  {
    if failed {
      FailedStays(s, a, k);
    } else if Fails(s, a, k) {
      FailureEmpties(s, a, k);
    } else {
      hide Step, Inv, Alone, Fails;
      var s' := Step(s, a);
      forall i | 0 <= i < |s'.callers| && HandedResult(s'.callers[i], k)
        ensures k in s'.store.slots && s'.store.slots[k].state == SlotSucceeded
      {
        ResultsAreStored(s, a, k, i);
      }
    }
  }

  lemma {:induction false} RunKept(s: State, run: seq<Action>, k: SlotKey, failed: bool)
    requires Inv(s) && Alone(s) && Kept(s, k, failed)
    ensures Inv(Run(s, run)) && Alone(Run(s, run)) && Kept(Run(s, run), k, failed || FailureWritten(s, run, k))
    decreases |run|
  {
    hide Inv, Alone, Kept, Step, Fails;
    if run != [] {
      StepKeeps(s, run[0]);
      StepKeepsAlone(s, run[0]);
      StepKept(s, run[0], k, failed);
      RunKept(Step(s, run[0]), run[1..], k, failed || Fails(s, run[0], k));
    }
  }

  lemma InitialKept(n: nat, k: SlotKey)
    ensures Inv(Initial(n)) && Alone(Initial(n)) && Kept(Initial(n), k, false)
  {
  }

  /* ---- The results ---- */

  /** The answer to a repeat of a slot's key with its own payload. */
  function Repeat(s: State, j: nat, k: SlotKey, payload: string): Pc
    requires j < |s.callers|
  {
    Step(s, Begin(j, k, payload)).callers[j].pc
  }

  /** A handed result is the one that its slot stores, if the slot stores any. */
  lemma HandedIsStored(s: State, i: nat)
    requires Inv(s) && i < |s.callers| && s.callers[i].pc.Responded? && s.callers[i].pc.response.Result?
    ensures var c := s.callers[i];
            && c.slot in s.store.slots && s.store.slots[c.slot].payload == c.payload
            && (s.store.slots[c.slot].state == SlotSucceeded ==> Stores(s.store, c.slot, c.pc.response.answer))
  {
    var c := s.callers[i];
    assert CallerOk(s, c);
    var call :| call in s.calls && AnswerOf(s, call, c, c.pc.response.answer);
    assert CallOk(s, call) && SlotOk(s, c.slot);
    if s.store.slots[c.slot].state == SlotSucceeded {
      var stored := Call(c.slot, s.store.slots[c.slot].payload, s.store.slots[c.slot].doc.value.exec);
      assert stored in s.calls;
      var x :| 0 <= x < |s.calls| && s.calls[x] == stored;
      var y :| 0 <= y < |s.calls| && s.calls[y] == call;
      assert x == y;
    }
  }

  /** Main result 1. Once a caller was handed a result, first or repeated, every caller that repeats
      the slot's key with its payload, after every continuation, is handed the same result, if and
      only if no failure was written into the slot; then it is told "indeterminate". */
  lemma ResultReadsBackIff(n: nat, run: seq<Action>, more: seq<Action>, i: nat, j: nat)
    requires i < |Run(Initial(n), run).callers|
    requires var pc := Run(Initial(n), run).callers[i].pc; pc.Responded? && pc.response.Result?
    requires var t := Run(Run(Initial(n), run), more); j < |t.callers| && !Working(t.callers[j].pc)
    ensures var s := Run(Initial(n), run);
            var c := s.callers[i];
            Repeat(Run(s, more), j, c.slot, c.payload) ==
              Responded(if FailureWritten(Initial(n), run, c.slot) || FailureWritten(s, more, c.slot)
                        then Indeterminate else c.pc.response)
  {
    hide Run, FailureWritten, Inv, Alone;
    var s := Run(Initial(n), run);
    var c := s.callers[i];
    var k := c.slot;
    InitialKept(n, k);
    RunKept(Initial(n), run, k, false);
    HandedIsStored(s, i);
    RunKept(s, more, k, FailureWritten(Initial(n), run, k));
    var t := Run(s, more);
    RunStores(s, more, k, c.pc.response.answer, FailureWritten(Initial(n), run, k));
    RunKeepsPayload(s, more, k);
  }

  lemma {:induction false} RunKeepsPayload(s: State, run: seq<Action>, k: SlotKey)
    requires k in s.store.slots
    ensures k in Run(s, run).store.slots && Run(s, run).store.slots[k].payload == s.store.slots[k].payload
    decreases |run|
  {
    hide Step;
    if run != [] {
      StepKeepsPayload(s, run[0], k);
      RunKeepsPayload(Step(s, run[0]), run[1..], k);
    }
  }

  lemma StepKeepsPayload(s: State, a: Action, k: SlotKey)
    requires k in s.store.slots
    ensures k in Step(s, a).store.slots && Step(s, a).store.slots[k].payload == s.store.slots[k].payload
  {
  }

  /** Until a failure is written the stored answer stays as it is. */
  lemma {:induction false} RunStores(s: State, run: seq<Action>, k: SlotKey, a: Answer, failed: bool)
    requires Inv(s) && Alone(s) && Kept(s, k, failed) && (!failed ==> Stores(s.store, k, a))
    ensures !failed && !FailureWritten(s, run, k) ==> Stores(Run(s, run).store, k, a)
    decreases |run|
  {
    hide Inv, Alone, Kept, Step, Fails, Stores;
    if run != [] && !failed && !Fails(s, run[0], k) {
      StepKeeps(s, run[0]);
      StepKeepsAlone(s, run[0]);
      StepKept(s, run[0], k, failed);
      StepStores(s, run[0], k, a);
      RunStores(Step(s, run[0]), run[1..], k, a, false);
    }
  }

  lemma StepStores(s: State, act: Action, k: SlotKey, a: Answer)
    requires Inv(s) && Stores(s.store, k, a) && !Fails(s, act, k)
    ensures Stores(Step(s, act).store, k, a)
  {
    StepKeeps(s, act);
    SucceededStays(s, act, k);
    SucceededIsCalled(Step(s, act), k);
    OneAnswer(s, Step(s, act), act, k);
  }

  /** Two stored answers of one slot are the runtime's answer to its one call. */
  lemma OneAnswer(s: State, s': State, act: Action, k: SlotKey)
    requires Inv(s) && Inv(s') && s' == Step(s, act)
    requires k in s.store.slots && s.store.slots[k].doc.Some? && s.store.slots[k].doc.value.Full?
    requires k in s'.store.slots && s'.store.slots[k].doc.Some? && s'.store.slots[k].doc.value.Full?
    ensures s'.store.slots[k].doc.value.answer == s.store.slots[k].doc.value.answer
  {
    assert SlotOk(s, k) && SlotOk(s', k);
    StepKeepsPayload(s, act, k);
    var e, e' := s.store.slots[k].doc.value.exec, s'.store.slots[k].doc.value.exec;
    CallsGrow(s, act);
    hide Step;
    var old1, new1 := Call(k, s.store.slots[k].payload, e), Call(k, s'.store.slots[k].payload, e');
    assert CallOk(s, old1);
    var x :| 0 <= x < |s'.calls| && s'.calls[x] == old1;
    var y :| 0 <= y < |s'.calls| && s'.calls[y] == new1;
    assert x == y;
  }

  lemma CallsGrow(s: State, a: Action)
    requires Inv(s)
    ensures forall c :: c in s.calls ==> c in Step(s, a).calls
    ensures forall c :: c in s.calls ==>
              c.exec in s.truth && c.exec in Step(s, a).truth && Step(s, a).truth[c.exec] == s.truth[c.exec]
  {
    forall c | c in s.calls ensures c.exec in s.truth { assert CallOk(s, c); }
    if a.Invoke? && Enabled(s, a) { assert CallerOk(s, s.callers[a.i]); }
  }

  /* ---- When a result can be lost ---- */

  /** The caller that made the slot's call is still in the runtime, or was told of an error there. */
  predicate Exposed(s: State, k: SlotKey) {
    exists i :: 0 <= i < |s.callers| && Doubtful(s.callers[i], k)
  }

  predicate Doubtful(c: Caller, k: SlotKey) { c.slot == k && (c.pc.InRuntime? || c.pc.Raised?) }

  /** A caller comes to stand in the runtime only from a slot it owns. */
  lemma DoubtArises(s: State, a: Action, k: SlotKey, i: nat)
    requires i < |Step(s, a).callers| && Doubtful(Step(s, a).callers[i], k)
    ensures i < |s.callers| && s.callers[i].slot == k && (Doubtful(s.callers[i], k) || Owning(s.callers[i].pc))
  {
    hide BeginIdempotent, CompleteIdempotent, FinishExecution, CreateExecution, Replay;
  }

  lemma UnexposedStays(s: State, a: Action, k: SlotKey)
    requires Inv(s) && k in s.store.slots && s.store.slots[k].state == SlotSucceeded && !Exposed(s, k)
    ensures !Fails(s, a, k) && !Exposed(Step(s, a), k)
  {
    hide Inv, Step;
    SucceededIsCalled(s, k);
    var s' := Step(s, a);
    forall i | 0 <= i < |s'.callers| ensures !Doubtful(s'.callers[i], k) {
      if Doubtful(s'.callers[i], k) { DoubtArises(s, a, k, i); }
    }
  }

  lemma {:induction false} UnexposedNeverFails(s: State, run: seq<Action>, k: SlotKey)
    requires Inv(s) && k in s.store.slots && s.store.slots[k].state == SlotSucceeded && !Exposed(s, k)
    ensures !FailureWritten(s, run, k)
    decreases |run|
  {
    hide Inv, Step, Exposed, Fails;
    if run != [] {
      UnexposedStays(s, run[0], k);
      SucceededStays(s, run[0], k);
      StepKeeps(s, run[0]);
      UnexposedNeverFails(Step(s, run[0]), run[1..], k);
    }
  }

  lemma ExposedCanFail(s: State, k: SlotKey) returns (run: seq<Action>)
    requires Exposed(s, k)
    ensures FailureWritten(s, run, k)
  {
    var i :| 0 <= i < |s.callers| && Doubtful(s.callers[i], k);
    if s.callers[i].pc.Raised? {
      run := [WriteFailure(i)];
    } else {
      run := [Raise(i), WriteFailure(i)];
      assert Fails(Step(s, run[0]), run[1], k);
      assert run[1..] == [run[1]] && FailureWritten(Step(s, run[0]), run[1..], k);
    }
  }

  /** Main result 2. A slot that stores a result keeps it through every continuation if and only if
      the caller that made its call is neither still in the runtime nor holding an error from it: a
      result stored by reconciliation while that caller waits is lost when the caller reports. */
  lemma ResultIsSafeIff(n: nat, run: seq<Action>, k: SlotKey)
    requires var s := Run(Initial(n), run); k in s.store.slots && s.store.slots[k].state == SlotSucceeded
    ensures (forall more :: !FailureWritten(Run(Initial(n), run), more, k)) <==> !Exposed(Run(Initial(n), run), k)
  {
    hide Run, Inv, Exposed, FailureWritten;
    InitialKept(n, k);
    RunKeeps(Initial(n), run);
    var s := Run(Initial(n), run);
    if Exposed(s, k) {
      var more := ExposedCanFail(s, k);
      assert FailureWritten(s, more, k);
    } else {
      forall more ensures !FailureWritten(s, more, k) { UnexposedNeverFails(s, more, k); }
    }
  }

  /** Main result 3. The answer that a caller gives to its own call is safe from then on. */
  lemma FirstAnswerIsSafe(n: nat, run: seq<Action>, i: nat, more: seq<Action>)
    requires Enabled(Run(Initial(n), run), Complete(i))
    ensures var s := Run(Initial(n), run);
            var s' := Step(s, Complete(i));
            && s'.callers[i].pc == Responded(Result(s.callers[i].pc.answer))
            && !FailureWritten(s', more, s.callers[i].slot)
            && Stores(Run(s', more).store, s.callers[i].slot, s.callers[i].pc.answer)
  {
    hide Run, FailureWritten, Inv, Alone, Kept, Stores;
    var s := Run(Initial(n), run);
    var k := s.callers[i].slot;
    InitialKept(n, k);
    RunKept(Initial(n), run, k, false);
    CompletedIsUnexposed(s, i);
    var s' := Step(s, Complete(i));
    StepKeeps(s, Complete(i));
    StepKeepsAlone(s, Complete(i));
    StoredIsKept(s', k, s.callers[i].pc.answer);
    UnexposedNeverFails(s', more, k);
    RunStores(s', more, k, s.callers[i].pc.answer, false);
  }

  lemma CompletedIsUnexposed(s: State, i: nat)
    requires Inv(s) && Alone(s) && Enabled(s, Complete(i))
    ensures var s' := Step(s, Complete(i));
            && s'.callers[i].pc == Responded(Result(s.callers[i].pc.answer))
            && !Exposed(s', s.callers[i].slot) && Stores(s'.store, s.callers[i].slot, s.callers[i].pc.answer)
  {
    hide Inv;
  }

  lemma StoredIsKept(s: State, k: SlotKey, a: Answer)
    requires Stores(s.store, k, a)
    ensures Kept(s, k, false) && k in s.store.slots && s.store.slots[k].state == SlotSucceeded
  {
  }

  /** Caller 0 has made the slot's call and holds an error; caller 1 has done nothing yet. */
  predicate ErrorPending(s: State, k: SlotKey, p: string, e: string, a: Answer) {
    && |s.callers| == 2 && s.callers[0] == Caller(k, p, Raised) && s.callers[1].pc == Idle
    && s.store.slots == map[k := Slot(p, InProgress, Some(IdOnly(e)))] && e in s.truth && s.truth[e] == a
  }

  lemma Five(s: State, a: Action, b: Action, c: Action, d: Action, e: Action)
    ensures Run(s, [a, b, c, d, e]) == Step(Step(Step(Step(Step(s, a), b), c), d), e)
  {
    hide Step;
    var run := [a, b, c, d, e];
    var s2 := Step(Step(s, a), b);
    var s4 := Step(Step(s2, c), d);
    assert run[1..] == [b, c, d, e] && run[1..][1..] == [c, d, e];
    assert [c, d, e][1..] == [d, e] && [d, e][1..] == [e] && [e][1..] == [];
    assert Run(s4, [e]) == Step(s4, e);
    assert Run(s2, [c, d, e]) == Run(s4, [e]);
  }

  lemma SlotClaimed(k: SlotKey, p: string, e: string)
    ensures var s := Step(Step(Initial(2), Begin(0, k, p)), Create(0, e, ""));
            && |s.callers| == 2 && s.callers[0] == Caller(k, p, Created(e)) && s.callers[1].pc == Idle
            && s.store.slots == map[k := Slot(p, InProgress, None)]
  {
  }

  lemma ErrorArises(k: SlotKey, p: string, e: string, a: Answer)
    ensures ErrorPending(Run(Initial(2), [Begin(0, k, p), Create(0, e, ""), Mark(0), Invoke(0, a), Raise(0)]), k, p, e, a)
  {
    hide Run, Initial;
    Five(Initial(2), Begin(0, k, p), Create(0, e, ""), Mark(0), Invoke(0, a), Raise(0));
    SlotClaimed(k, p, e);
    CallFails(Step(Step(Initial(2), Begin(0, k, p)), Create(0, e, "")), k, p, e, a);
  }

  lemma CallFails(s: State, k: SlotKey, p: string, e: string, a: Answer)
    requires |s.callers| == 2 && s.callers[0] == Caller(k, p, Created(e)) && s.callers[1].pc == Idle
    requires s.store.slots == map[k := Slot(p, InProgress, None)]
    ensures ErrorPending(Step(Step(Step(s, Mark(0)), Invoke(0, a)), Raise(0)), k, p, e, a)
  {
    var s1 := Step(s, Mark(0));
    assert s1.callers[0] == Caller(k, p, Marked(e)) && s1.callers[1].pc == Idle && |s1.callers| == 2;
    assert s1.store.slots == map[k := Slot(p, InProgress, Some(IdOnly(e)))];
    var s2 := Step(s1, Invoke(0, a));
    assert s2.callers[0] == Caller(k, p, InRuntime(e)) && s2.callers[1].pc == Idle && |s2.callers| == 2;
    assert s2.store == s1.store && s2.truth[e] == a;
  }

  /** Such a loss: reconciliation stores the result of caller 0's call, caller 1 reads it, caller 0
      reports its error, and caller 1 is told "indeterminate". */
  lemma ResultIsLost(k: SlotKey, p: string, e: string, a: Answer)
    ensures var s := Run(Initial(2), [Begin(0, k, p), Create(0, e, ""), Mark(0), Invoke(0, a), Raise(0)]);
            var read := Step(Step(s, Reconcile(e, Succeeded)), Begin(1, k, p));
            var lost := Step(read, WriteFailure(0));
            && |read.callers| == |lost.callers| == 2
            && read.callers[1].pc == Responded(Result(a))
            && Repeat(lost, 1, k, p) == Responded(Indeterminate)
  {
    hide Run, Step;
    ErrorArises(k, p, e, a);
    var s := Run(Initial(2), [Begin(0, k, p), Create(0, e, ""), Mark(0), Invoke(0, a), Raise(0)]);
    ResultIsRead(s, k, p, e, a);
    ResultIsErased(Step(Step(s, Reconcile(e, Succeeded)), Begin(1, k, p)), k, p, e, a);
  }

  lemma ResultIsRead(s: State, k: SlotKey, p: string, e: string, a: Answer)
    requires ErrorPending(s, k, p, e, a)
    ensures var read := Step(Step(s, Reconcile(e, Succeeded)), Begin(1, k, p));
            && |read.callers| == 2 && read.callers[0] == Caller(k, p, Raised)
            && read.callers[1] == Caller(k, p, Responded(Result(a)))
            && k in read.store.slots && read.store.slots[k].payload == p
  {
    var s1 := Step(s, Reconcile(e, Succeeded));
    assert s1.callers == s.callers && s1.store.slots[k] == Slot(p, SlotSucceeded, Some(Full(e, a)));
  }

  lemma ResultIsErased(s: State, k: SlotKey, p: string, e: string, a: Answer)
    requires |s.callers| == 2 && s.callers[0] == Caller(k, p, Raised) && s.callers[1].pc == Responded(Result(a))
    requires k in s.store.slots && s.store.slots[k].payload == p
    ensures var lost := Step(s, WriteFailure(0));
            |lost.callers| == 2 && Repeat(lost, 1, k, p) == Responded(Indeterminate)
  {
  }
}
