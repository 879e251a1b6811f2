/** `get_execution` and `cancel_execution` as they run without interruption, over the store object:
    each is the run of one caller of the interleaved machine. */
module DurableObject {
  import opened Prelude
  import opened SandboxStore
  import opened DurableExec

  /** One caller's next step. */
  function Next1(s: State, status: Status, fails: bool): State { Step(s, Tick(0, status, fails)) }

  function Next5(s: State, status: Status, fails: bool): State {
    Next1(Next1(Next1(Next1(Next1(s, status, fails), status, fails), status, fails), status, fails), status, fails)
  }

  /** What an uninterrupted `get_execution` comes to. */
  function Got(s: State, e: string, status: Status, fails: bool): State
    requires |s.callers| == 1
  {
    if !Visible(s, e) then Move(s, 0, Responded(Refused))
    else if HasResult(s.store, e) then Move(s, 0, Responded(Result(e, s.store.execs[e].result.value)))
    else if e !in s.natives || s.natives[e].Executing? then Move(s, 0, Responded(Report(e, e !in s.natives)))
    else
      var answer := s.natives[e].answer;
      var s1 := s.(store := FinishExecution(s.store, e, status, answer));
      Move(if fails then s1 else Forgotten(s1, e).(store := MarkCleaned(s1.store, e)), 0, Responded(Result(e, answer)))
  }

  lemma RespondedStays(s: State, status: Status, fails: bool)
    requires |s.callers| == 1 && s.callers[0].Responded?
    ensures Next1(s, status, fails) == s
  {
    hide FinishExecution, MarkCleaned, CancelExecution, BeginIdempotent, CompleteIdempotent, CreateExecution;
  }

  lemma CallGets(s: State, e: string)
    requires s.callers == [Idle]
    ensures Step(s, CallGet(0, e)) == s.(callers := [Read(e)])
  {
  }

  lemma ReadMoves(s: State, e: string, status: Status, fails: bool)
    requires s.callers == [Read(e)] || s.callers == [Ask(e)] || s.callers == [Recheck(e)]
    ensures Next1(s, status, fails) == s.(callers := [Next(s, s.callers[0], fails)])
  {
    hide Next;
  }

  lemma FinishMoves(s: State, e: string, answer: Answer, status: Status, fails: bool)
    requires s.callers == [StoreResult(e, answer)]
    ensures var s1 := s.(store := FinishExecution(s.store, e, status, answer));
            Next1(Next1(Next1(s, status, fails), status, fails), status, fails) ==
            if fails then s1.(callers := [Responded(Result(e, answer))])
            else Forgotten(s1, e).(store := MarkCleaned(s1.store, e), callers := [Responded(Result(e, answer))])
  {
    hide FinishExecution, MarkCleaned, CancelExecution, BeginIdempotent, CompleteIdempotent, CreateExecution;
    var s1 := Next1(s, status, fails);
    assert s1 == s.(store := FinishExecution(s.store, e, status, answer), callers := [Forget(e, answer)]);
    if fails { RespondedStays(Next1(s1, status, fails), status, fails); }
  }

  lemma GetRuns(s: State, e: string, status: Status, fails: bool)
    requires s.callers == [Idle]
    ensures Next5(Step(s, CallGet(0, e)), status, fails) == Got(s, e, status, fails)
  {
    hide Step, Next1, FinishExecution, MarkCleaned;
    CallGets(s, e);
    var s0 := s.(callers := [Read(e)]);
    ReadMoves(s0, e, status, fails);
    var s1 := Next1(s0, status, fails);
    if s1.callers[0] == Ask(e) {
      ReadMoves(s1, e, status, fails);
      var s2 := Next1(s1, status, fails);
      if s2.callers[0].StoreResult? {
        FinishMoves(s2, e, s2.callers[0].answer, status, fails);
      } else if s2.callers[0].Recheck? {
        ReadMoves(s2, e, status, fails);
        var s3 := Next1(s2, status, fails);
        RespondedStays(s3, status, fails);
      } else {
        RespondedStays(s2, status, fails);
      }
    } else {
      RespondedStays(s1, status, fails);
    }
  }

  lemma CancelRuns(s: State, e: string, status: Status, fails: bool)
    requires s.callers == [Idle]
    ensures Next1(Step(s, CallCancel(0, e)), status, fails) ==
            if Visible(s, e)
            then var (store, marked) := SandboxStore.CancelExecution(s.store, e);
                 s.(store := store, callers := [Responded(CancelReport(e, if marked then Cancelling else s.store.execs[e].status))])
            else s.(callers := [Responded(Refused)])
  {
    hide FinishExecution, MarkCleaned, SandboxStore.CancelExecution, BeginIdempotent, CompleteIdempotent, CreateExecution;
    var s1 := Step(s, CallCancel(0, e));
    assert s1 == s.(callers := [if Visible(s, e) then CancelMark(e, s.store.execs[e].status) else Responded(Refused)]);
  }

  class Controller {
    const store: SandboxdStore
    var sandboxes: set<string>
    var natives: map<string, Native>
    ghost var answers: map<string, Answer>
    ghost var forgotten: set<string>
    ghost var lost: set<string>
    ghost var starts: multiset<string>
    ghost var launches: multiset<string>

    /** The state of the machine with one caller at `pc`. */
    ghost function View(pc: Pc): State
      reads this, store
    {
      State(store.View(), sandboxes, natives, answers, forgotten, lost, starts, launches, [pc])
    }

    constructor (store: SandboxdStore)
      ensures this.store == store && sandboxes == {} && natives == map[]
      ensures answers == map[] && forgotten == {} && lost == {} && starts == launches == multiset{}
    {
      this.store, sandboxes, natives := store, {}, map[];
      answers, forgotten, lost, starts, launches := map[], {}, {}, multiset{}, multiset{};
    }

    /** The runtime removes the supervisor, or refuses to. */
    method ForgetExecution(e: string, fails: bool)
      modifies this, store
      ensures forall pc :: View(pc) ==
                if fails then old(View(pc))
                else Forgotten(old(View(pc)), e).(store := MarkCleaned(old(store.View()), e))
    {
      if fails { return; }
      natives := natives - {e};
      forgotten := forgotten + {e};
      store.Cleaned(e);
    }

    method GetExecution(e: string, status: Status, fails: bool) returns (r: Response)
      modifies this, store
      ensures View(Responded(r)) == Next5(Step(old(View(Idle)), CallGet(0, e)), status, fails)
    {
      hide FinishExecution, MarkCleaned, Next5, Step;
      GetRuns(View(Idle), e, status, fails);
      if e !in store.execs || store.execs[e].sandbox !in sandboxes { return Refused; }
      if store.execs[e].result.Some? { return Result(e, store.execs[e].result.value); }
      if e !in natives { return Report(e, true); }
      if natives[e].Executing? { return Report(e, false); }
      var answer := natives[e].answer;
      store.Finish(e, status, answer);
      ForgetExecution(e, fails);
      return Result(e, answer);
    }

    method CancelExecution(e: string, status: Status, fails: bool) returns (r: Response)
      modifies store
      ensures View(Responded(r)) == Next1(Step(old(View(Idle)), CallCancel(0, e)), status, fails)
    {
      hide Next1, Step, SandboxStore.CancelExecution;
      CancelRuns(View(Idle), e, status, fails);
      if e !in store.execs || store.execs[e].sandbox !in sandboxes { return Refused; }
      var was := store.execs[e].status;
      var marked := store.Cancel(e);
      return CancelReport(e, if marked then Cancelling else was);
    }
  }
}
