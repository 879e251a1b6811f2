/** The named lease of backend/app/core/process_lock.py: every process may stop between its read of
    the row and its insert, compare-and-swap or delete, each of which commits on its own. */
module AdvisoryLease {
  import opened Prelude

  type Token = nat

  datatype Row = Row(token: Token, expires: Option<int>)

  datatype Pc =
    | Outside
    | Reading(token: Token, now: int, ttl: int)
    | Inserting(token: Token, expires: int)
    | Swapping(token: Token, now: int, expires: int, seen: Token)
    | Answered(answer: Option<Token>)

  /** A committed claim, with the time of its commit and the tokens released before it. */
  datatype Grant = Grant(token: Token, expires: int, at: int, releasedBefore: set<Token>)

  datatype State = State(row: Option<Row>, clock: int, next: Token, pcs: seq<Pc>, grants: seq<Grant>, released: set<Token>)

  datatype Action =
    | Pass(ticks: nat)
    | Call(i: nat, ttl: int)
    | Tick(i: nat, fails: bool)
    | Release(token: Token, fails: bool)

  predicate Expired(row: Row, now: int) { row.expires.None? || row.expires.value < now }

  function Move(s: State, i: nat, pc: Pc): State
    requires i < |s.pcs|
  {
    s.(pcs := s.pcs[i := pc])
  }

  function Granted(s: State, i: nat, token: Token, expires: int): State
    requires i < |s.pcs|
  {
    Move(s.(row := Some(Row(token, Some(expires))), grants := s.grants + [Grant(token, expires, s.clock, s.released)]),
         i, Answered(Some(token)))
  }

  /** `fails` is the write lock of SQLite being taken: the claimer gives up this round. */
  function TickStep(s: State, i: nat, fails: bool): State
    requires i < |s.pcs|
  {
    match s.pcs[i]
    case Reading(token, now, ttl) =>
      if fails then Move(s, i, Answered(None))
      else if s.row.None? then Move(s, i, Inserting(token, now + ttl))
      else if Expired(s.row.value, now) then Move(s, i, Swapping(token, now, now + ttl, s.row.value.token))
      else Move(s, i, Answered(None))
    case Inserting(token, expires) =>
      if fails || s.row.Some? then Move(s, i, Answered(None)) else Granted(s, i, token, expires)
    case Swapping(token, now, expires, seen) =>
      if fails || s.row.None? || s.row.value.token != seen || !Expired(s.row.value, now) then Move(s, i, Answered(None))
      else Granted(s, i, token, expires)
    case _ => s
  }

  function Step(s: State, a: Action): State {
    match a
    case Pass(ticks) => s.(clock := s.clock + ticks)
    case Call(i, ttl) =>
      if i < |s.pcs| && (s.pcs[i].Outside? || s.pcs[i].Answered?)
      then Move(s, i, Reading(s.next, s.clock, ttl)).(next := s.next + 1) else s
    case Tick(i, fails) => if i < |s.pcs| then TickStep(s, i, fails) else s
    case Release(token, fails) =>
      if !fails && s.row.Some? && s.row.value.token == token then s.(row := None, released := s.released + {token}) else s
  }

  function Run(s: State, run: seq<Action>): State
    decreases |run|
  {
    if run == [] then s else Run(Step(s, run[0]), run[1..])
  }

  function Initial(n: nat, clock: int): State {
    State(None, clock, 0, seq(n, i => Outside), [], {})
  }

  /* ---- The invariant ---- */

  /** A claim is over once its lease expired or its own token released it. */
  predicate Over(g: Grant, clock: int, released: set<Token>) { g.expires < clock || g.token in released }

  predicate PcOk(s: State, pc: Pc) {
    match pc
    case Reading(token, now, _) => token < s.next && now <= s.clock && Unused(s, token)
    case Inserting(token, _) => token < s.next && Unused(s, token)
    case Swapping(token, now, _, _) => token < s.next && now <= s.clock && Unused(s, token)
    case _ => true
  }

  predicate Unused(s: State, token: Token) {
    token !in s.released && (forall k :: 0 <= k < |s.grants| ==> s.grants[k].token != token)
  }

  predicate Claiming(pc: Pc) { pc.Reading? || pc.Inserting? || pc.Swapping? }

  ghost predicate PcsOk(s: State) {
    && (forall i :: 0 <= i < |s.pcs| ==> PcOk(s, s.pcs[i]))
    && (forall i, j :: 0 <= i < j < |s.pcs| && Claiming(s.pcs[i]) && Claiming(s.pcs[j]) ==> s.pcs[i].token != s.pcs[j].token)
  }

  /** The row is the last claim, as long as that was not released. */
  ghost predicate RowOk(s: State) {
    if s.row.Some?
    then s.grants != [] && s.row.value.token !in s.released
         && s.row.value == Row(s.grants[|s.grants| - 1].token, Some(s.grants[|s.grants| - 1].expires))
    else s.grants != [] ==> s.grants[|s.grants| - 1].token in s.released
  }

  ghost predicate HistoryOk(s: State) {
    && (forall k :: 0 <= k < |s.grants| ==> s.grants[k].token < s.next)
    && (forall token :: token in s.released ==> token < s.next)
    && (forall k :: 0 <= k < |s.grants| - 1 ==> Over(s.grants[k], s.clock, s.released))
    && (forall j, k :: 0 <= j < k < |s.grants| ==> Over(s.grants[j], s.grants[k].at, s.grants[k].releasedBefore))
  }

  ghost predicate Inv(s: State) { PcsOk(s) && RowOk(s) && HistoryOk(s) }

  lemma MoveKeeps(s: State, i: nat, pc: Pc)
    requires Inv(s) && i < |s.pcs| && PcOk(s, pc)
    requires Claiming(pc) ==> Claiming(s.pcs[i]) && pc.token == s.pcs[i].token
    ensures Inv(Move(s, i, pc))
  {
    var s' := Move(s, i, pc);
    forall j | 0 <= j < |s'.pcs| ensures PcOk(s', s'.pcs[j]) { assert PcOk(s, if j == i then pc else s.pcs[j]); }
  }

  lemma GrantKeeps(s: State, i: nat, token: Token, expires: int)
    requires Inv(s) && i < |s.pcs| && Claiming(s.pcs[i]) && s.pcs[i].token == token
    requires s.row.None? || s.row.value.expires.value < s.clock
    ensures Inv(Granted(s, i, token, expires))
  {
    var s' := Granted(s, i, token, expires);
    assert PcOk(s, s.pcs[i]);
    var last := |s.grants| - 1;
    assert last >= 0 ==> Over(s.grants[last], s.clock, s.released);
    forall j | 0 <= j < |s'.pcs| ensures PcOk(s', s'.pcs[j]) {
      assert PcOk(s, s.pcs[j]);
      if j != i && Claiming(s.pcs[j]) { assert s.pcs[j].token != token; }
    }
    forall j, k | 0 <= j < k < |s'.grants| ensures Over(s'.grants[j], s'.grants[k].at, s'.grants[k].releasedBefore) {
      if k == |s.grants| { assert j < last ==> Over(s.grants[j], s.clock, s.released); }
    }
  }

  lemma TickKeeps(s: State, i: nat, fails: bool)
    requires Inv(s) && i < |s.pcs|
    ensures Inv(TickStep(s, i, fails))
  {
    hide Granted, Move, HistoryOk;
    assert PcOk(s, s.pcs[i]);
    match s.pcs[i]
    case Reading(token, now, ttl) =>
      if fails { MoveKeeps(s, i, Answered(None)); }
      else if s.row.None? { MoveKeeps(s, i, Inserting(token, now + ttl)); }
      else if Expired(s.row.value, now) { MoveKeeps(s, i, Swapping(token, now, now + ttl, s.row.value.token)); }
      else { MoveKeeps(s, i, Answered(None)); }
    case Inserting(token, expires) =>
      if fails || s.row.Some? { MoveKeeps(s, i, Answered(None)); } else { GrantKeeps(s, i, token, expires); }
    case Swapping(token, now, expires, seen) =>
      if fails || s.row.None? || s.row.value.token != seen || !Expired(s.row.value, now) { MoveKeeps(s, i, Answered(None)); }
      else { GrantKeeps(s, i, token, expires); }
    case _ =>
  }

  lemma CallKeeps(s: State, i: nat, ttl: int)
    requires Inv(s) && i < |s.pcs|
    ensures Inv(Step(s, Call(i, ttl)))
  {
    var s' := Step(s, Call(i, ttl));
    forall j | 0 <= j < |s'.pcs| ensures PcOk(s', s'.pcs[j]) { assert PcOk(s, s.pcs[j]); }
  }

  lemma PassOrReleaseKeeps(s: State, a: Action)
    requires Inv(s) && (a.Pass? || a.Release?)
    ensures Inv(Step(s, a))
  {
    var s' := Step(s, a);
    forall j | 0 <= j < |s'.pcs| ensures PcOk(s', s'.pcs[j]) { assert PcOk(s, s.pcs[j]); }
    forall k | 0 <= k < |s'.grants| - 1 ensures Over(s'.grants[k], s'.clock, s'.released) {
      assert Over(s.grants[k], s.clock, s.released);
    }
  }

  lemma {:induction false} RunKeeps(s: State, run: seq<Action>)
    requires Inv(s)
    ensures Inv(Run(s, run))
    decreases |run|
  {
    hide Inv, TickStep, Move;
    if run != [] {
      match run[0] {
        case Tick(i, fails) => if i < |s.pcs| { TickKeeps(s, i, fails); }
        case Call(i, ttl) => if i < |s.pcs| { CallKeeps(s, i, ttl); }
        case _ => PassOrReleaseKeeps(s, run[0]);
      }
      RunKeeps(Step(s, run[0]), run[1..]);
    }
  }

  lemma InitialInv(n: nat, clock: int)
    ensures Inv(Initial(n, clock))
  {
  }

  /* ---- The results ---- */

  /** Main result 1. Of any two claims of the lease, in every interleaving, the later one committed
      after the earlier lease had expired, or after its own token had released it. */
  lemma LaterClaimsWait(n: nat, clock: int, run: seq<Action>, j: nat, k: nat)
    requires j < k < |Run(Initial(n, clock), run).grants|
    ensures var g := Run(Initial(n, clock), run).grants;
            g[j].expires < g[k].at || g[j].token in g[k].releasedBefore
  {
    hide Run;
    InitialInv(n, clock);
    RunKeeps(Initial(n, clock), run);
    assert HistoryOk(Run(Initial(n, clock), run));
  }

  predicate Live(s: State, k: nat)
    requires k < |s.grants|
  {
    !Over(s.grants[k], s.clock, s.released)
  }

  /** Main result 2. At no time are two claims live, and a live claim is the one in the row. */
  lemma AtMostOneLive(n: nat, clock: int, run: seq<Action>, k: nat)
    requires k < |Run(Initial(n, clock), run).grants| && Live(Run(Initial(n, clock), run), k)
    ensures var s := Run(Initial(n, clock), run);
            && s.row == Some(Row(s.grants[k].token, Some(s.grants[k].expires)))
            && (forall j :: 0 <= j < |s.grants| && j != k ==> !Live(s, j))
  {
    hide Run;
    InitialInv(n, clock);
    RunKeeps(Initial(n, clock), run);
    var s := Run(Initial(n, clock), run);
    assert forall j :: 0 <= j < |s.grants| - 1 ==> Over(s.grants[j], s.clock, s.released);
    forall j | 0 <= j < |s.grants| && j != k ensures !Live(s, j) {
      assert Over(s.grants[j], s.clock, s.released);
    }
  }

  /** Main result 3. A release removes the row exactly when its token is the row's, so the token of
      any other claim, in particular of an earlier one, ends nothing. */
  lemma StaleReleaseRemovesNothing(n: nat, clock: int, run: seq<Action>, token: Token, k: nat)
    requires k < |Run(Initial(n, clock), run).grants| && Live(Run(Initial(n, clock), run), k)
    ensures var s := Run(Initial(n, clock), run);
            Live(Step(s, Release(token, false)), k) <==> token != s.grants[k].token
  {
    hide Run;
    AtMostOneLive(n, clock, run, k);
  }

  /** Main result 4. An undisturbed claim succeeds if and only if no claim is live: an expired or
      released lease blocks nobody, and a live one blocks everybody. */
  lemma AloneSucceedsIff(n: nat, clock: int, run: seq<Action>, i: nat, ttl: int)
    requires i < |Run(Initial(n, clock), run).pcs| && Run(Initial(n, clock), run).pcs[i].Outside?
    ensures var s := Run(Initial(n, clock), run);
            var s' := Step(Step(Step(s, Call(i, ttl)), Tick(i, false)), Tick(i, false));
            && s'.pcs[i] == Answered(if |s'.grants| > |s.grants| then Some(s.next) else None)
            && (|s'.grants| > |s.grants| <==> forall k :: 0 <= k < |s.grants| ==> !Live(s, k))
  {
    hide Run;
    InitialInv(n, clock);
    RunKeeps(Initial(n, clock), run);
    AloneFrom(Run(Initial(n, clock), run), i, ttl);
  }

  lemma AloneFrom(s: State, i: nat, ttl: int)
    requires Inv(s) && i < |s.pcs| && s.pcs[i].Outside?
    ensures var s' := Step(Step(Step(s, Call(i, ttl)), Tick(i, false)), Tick(i, false));
            && s'.pcs[i] == Answered(if |s'.grants| > |s.grants| then Some(s.next) else None)
            && (|s'.grants| > |s.grants| <==> forall k :: 0 <= k < |s.grants| ==> !Live(s, k))
  {
    var s1 := Step(s, Call(i, ttl));
    assert s1.pcs[i] == Reading(s.next, s.clock, ttl) && s1.row == s.row;
    if s.row.None? || s.row.value.expires.value < s.clock {
      forall k | 0 <= k < |s.grants| ensures !Live(s, k) {
        if k < |s.grants| - 1 { assert Over(s.grants[k], s.clock, s.released); }
      }
    } else {
      LiveRow(s);
    }
  }

  lemma LiveRow(s: State)
    requires Inv(s) && s.row.Some? && s.row.value.expires.value >= s.clock
    ensures s.grants != [] && (Live(s, |s.grants| - 1))
  {
  }

  /* ---- How long a claim lasts ---- */

  /** For each token, the clock of the call it was drawn for plus the time to live asked for. */
  function Due(s: State, run: seq<Action>, due: map<Token, int>): map<Token, int>
    decreases |run|
  {
    if run == [] then due else Due(Step(s, run[0]), run[1..], Asked(s, run[0], due))
  }

  function Asked(s: State, a: Action, due: map<Token, int>): map<Token, int> {
    if a.Call? && Step(s, a).next != s.next then due[s.next := s.clock + a.ttl] else due
  }

  predicate IsDue(due: map<Token, int>, token: Token, expires: int) { token in due && due[token] == expires }

  ghost predicate Timed(s: State, due: map<Token, int>) {
    && (forall k :: 0 <= k < |s.grants| ==> IsDue(due, s.grants[k].token, s.grants[k].expires))
    && (forall i :: 0 <= i < |s.pcs| && s.pcs[i].Reading? ==> IsDue(due, s.pcs[i].token, s.pcs[i].now + s.pcs[i].ttl))
    && (forall i :: 0 <= i < |s.pcs| && (s.pcs[i].Inserting? || s.pcs[i].Swapping?) ==>
          IsDue(due, s.pcs[i].token, s.pcs[i].expires))
    && (forall token :: token in due ==> token < s.next)
  }

  lemma StepTimed(s: State, a: Action, due: map<Token, int>)
    requires Timed(s, due)
    ensures Timed(Step(s, a), Asked(s, a, due))
  {
    hide Expired;
    var s' := Step(s, a);
    forall k | 0 <= k < |s'.grants| ensures IsDue(Asked(s, a, due), s'.grants[k].token, s'.grants[k].expires) {
      if k < |s.grants| { assert IsDue(due, s.grants[k].token, s.grants[k].expires); }
    }
  }

  lemma {:induction false} RunTimed(s: State, run: seq<Action>, due: map<Token, int>)
    requires Timed(s, due)
    ensures Timed(Run(s, run), Due(s, run, due))
    decreases |run|
  {
    hide Step, Timed, Asked;
    if run != [] {
      StepTimed(s, run[0], due);
      RunTimed(Step(s, run[0]), run[1..], Asked(s, run[0], due));
    }
  }

  /** Main result 5. Every claim expires the time to live after its own call, however long it took
      to commit. */
  lemma ClaimsLastTheirTtl(n: nat, clock: int, run: seq<Action>, k: nat)
    requires k < |Run(Initial(n, clock), run).grants|
    ensures var g := Run(Initial(n, clock), run).grants[k];
            var due := Due(Initial(n, clock), run, map[]);
            g.token in due && g.expires == due[g.token]
  {
    hide Run, Due;
    RunTimed(Initial(n, clock), run, map[]);
    var g := Run(Initial(n, clock), run).grants[k];
    assert IsDue(Due(Initial(n, clock), run, map[]), g.token, g.expires);
  }

  /* ---- The shared table ---- */

  class LeaseTable {
    var rows: map<string, Row>

    constructor ()
      ensures rows == map[]
    {
      rows := map[];
    }

    /** The claim of one process, when no other process interferes. `write` is false when SQLite
        refuses the write. */
    method Acquire(name: string, token: Token, now: int, ttl: int, write: bool) returns (claimed: Option<Token>)
      modifies this
      ensures claimed == Some(token) <==> write && (name in old(rows) ==> Expired(old(rows)[name], now))
      ensures claimed == None || claimed == Some(token)
      ensures rows == if claimed.Some? then old(rows)[name := Row(token, Some(now + ttl))] else old(rows)
    {
      if name !in rows {
        if !write { return None; }
        rows := rows[name := Row(token, Some(now + ttl))];
        return Some(token);
      }
      var seen := rows[name];
      if !Expired(seen, now) { return None; }
      var changed := if write && rows[name].token == seen.token && Expired(rows[name], now) then 1 else 0;
      if changed == 1 {
        rows := rows[name := Row(token, Some(now + ttl))];
        return Some(token);
      }
      return None;
    }

    method Release(name: string, token: Token, write: bool)
      modifies this
      ensures rows == if write && name in old(rows) && old(rows)[name].token == token then old(rows) - {name} else old(rows)
    {
      if write && name in rows && rows[name].token == token {
        rows := rows - {name};
      }
    }
  }
}
