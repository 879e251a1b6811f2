/** Timed orphan collection of sandboxd/sandboxd/controller.py racing with creates. A create makes the
    runtime object first and inserts its record later, holding no lock; a sweep takes its cutoff,
    then lists the records, then lists the runtime objects, and then deletes one by one. */
module OrphanSweep {
  import opened Prelude

  type Id = nat

  /** `grace` is the sweep's grace period. A create inserts its record less than `deadline` after
      its object appeared. `stamped` says that the runtime reports a readable creation time. */
  datatype Config = Config(grace: nat, deadline: nat, stamped: bool)

  datatype Sweeper =
    | Resting
    | Aiming(cutoff: int)
    | Knowing(cutoff: int, known: set<Id>)
    | Deleting(cutoff: int, known: set<Id>, listed: map<Id, Option<nat>>)

  /** `born` remembers when each object first appeared and `recorded` which ids ever had a record.
      `lost` are the objects that a sweep deleted while their record existed. */
  datatype State = State(clock: nat, records: set<Id>, objects: map<Id, Option<nat>>, born: map<Id, nat>,
                         recorded: set<Id>, lost: set<Id>, sweepers: seq<Sweeper>)

  datatype Action =
    | Pass(ticks: nat)
    | Appear(id: Id, readable: bool)
    | Insert(id: Id)
    | Rebuild(id: Id, readable: bool)
    | DropRecord(id: Id)
    | DropObject(id: Id)
    | Aim(i: nat)
    | ListRecords(i: nat)
    | ListObjects(i: nat)
    | Examine(i: nat, id: Id, fails: bool)
    | Finish(i: nat)

  /** A missing or unreadable creation time counts as the epoch. */
  function Created(stamp: Option<nat>): nat {
    if stamp.Some? then stamp.value else 0
  }

  predicate Doomed(cutoff: int, known: set<Id>, id: Id, stamp: Option<nat>) {
    id !in known && Created(stamp) <= cutoff
  }

  function Stamp(c: Config, s: State, readable: bool): Option<nat> {
    if readable || c.stamped then Some(s.clock) else None
  }

  function Become(s: State, i: nat, p: Sweeper): State
    requires i < |s.sweepers|
  {
    s.(sweepers := s.sweepers[i := p])
  }

  function SweepStep(c: Config, s: State, i: nat, a: Action): State
    requires i < |s.sweepers|
  {
    match (a, s.sweepers[i])
    case (Aim(_), Resting) => Become(s, i, Aiming(s.clock - c.grace))
    case (ListRecords(_), Aiming(cutoff)) => Become(s, i, Knowing(cutoff, s.records))
    case (ListObjects(_), Knowing(cutoff, known)) => Become(s, i, Deleting(cutoff, known, s.objects))
    case (Examine(_, id, fails), Deleting(cutoff, known, listed)) =>
      if id !in listed then s
      else
        var left := Become(s, i, Deleting(cutoff, known, listed - {id}));
        if fails || !Doomed(cutoff, known, id, listed[id]) then left
        else left.(objects := s.objects - {id}, lost := if id in s.records then s.lost + {id} else s.lost)
    case (Finish(_), _) => Become(s, i, Resting)
    case _ => s
  }

  function Step(c: Config, s: State, a: Action): State {
    match a
    case Pass(ticks) => s.(clock := s.clock + ticks)
    case Appear(id, readable) =>
      if id in s.born then s
      else s.(objects := s.objects[id := Stamp(c, s, readable)], born := s.born[id := s.clock])
    case Insert(id) =>
      if id in s.born && id !in s.recorded && s.clock < s.born[id] + c.deadline
      then s.(records := s.records + {id}, recorded := s.recorded + {id}) else s
    case Rebuild(id, readable) =>
      if id in s.recorded then s.(objects := s.objects[id := Stamp(c, s, readable)]) else s
    case DropRecord(id) => s.(records := s.records - {id})
    case DropObject(id) => s.(objects := s.objects - {id})
    case Aim(i) => if i < |s.sweepers| then SweepStep(c, s, i, a) else s
    case ListRecords(i) => if i < |s.sweepers| then SweepStep(c, s, i, a) else s
    case ListObjects(i) => if i < |s.sweepers| then SweepStep(c, s, i, a) else s
    case Examine(i, _, _) => if i < |s.sweepers| then SweepStep(c, s, i, a) else s
    case Finish(i) => if i < |s.sweepers| then SweepStep(c, s, i, a) else s
  }

  function Run(c: Config, s: State, run: seq<Action>): State
    decreases |run|
  {
    if run == [] then s else Run(c, Step(c, s, run[0]), run[1..])
  }

  function Initial(n: nat): State {
    State(0, {}, map[], map[], {}, {}, seq(n, i => Resting))
  }

  /* ---- The invariant, for a runtime with readable times and creates within the grace ---- */

  predicate Disciplined(c: Config) { c.stamped && c.deadline <= c.grace }

  predicate Stamped(s: State, id: Id, stamp: Option<nat>) {
    id in s.born && stamp.Some? && s.born[id] <= stamp.value
  }

  /** A record that a sweeper has not seen belongs to an object younger than its cutoff. */
  predicate Spared(s: State, cutoff: int, known: set<Id>, id: Id) {
    id in s.records && id !in known ==> id in s.born && s.born[id] > cutoff
  }

  ghost predicate SweeperOk(c: Config, s: State, p: Sweeper) {
    match p
    case Resting => true
    case Aiming(cutoff) => cutoff + c.grace <= s.clock
    case Knowing(cutoff, known) =>
      cutoff + c.grace <= s.clock && forall id :: id in s.records ==> Spared(s, cutoff, known, id)
    case Deleting(cutoff, known, listed) =>
      && cutoff + c.grace <= s.clock
      && (forall id :: id in s.records ==> Spared(s, cutoff, known, id))
      && (forall id :: id in listed ==> Stamped(s, id, listed[id]))
  }

  ghost predicate Inv(c: Config, s: State) {
    && (forall id :: id in s.records ==> id in s.recorded)
    && (forall id :: id in s.recorded ==> id in s.born)
    && (forall id :: id in s.objects ==> Stamped(s, id, s.objects[id]))
    && (forall i :: 0 <= i < |s.sweepers| ==> SweeperOk(c, s, s.sweepers[i]))
    && s.lost == {}
  }

  lemma BecomeKeeps(c: Config, s: State, i: nat, p: Sweeper)
    requires Inv(c, s) && i < |s.sweepers| && SweeperOk(c, s, p)
    ensures Inv(c, Become(s, i, p))
  {
    var s' := Become(s, i, p);
    forall j | 0 <= j < |s'.sweepers| ensures SweeperOk(c, s', s'.sweepers[j]) {
      assert SweeperOk(c, s, if j == i then p else s.sweepers[j]);
    }
  }

  lemma ExamineSpares(c: Config, s: State, i: nat, id: Id)
    requires Disciplined(c) && Inv(c, s) && i < |s.sweepers| && s.sweepers[i].Deleting?
    requires id in s.sweepers[i].listed && Doomed(s.sweepers[i].cutoff, s.sweepers[i].known, id, s.sweepers[i].listed[id])
    ensures id !in s.records
  {
    assert SweeperOk(c, s, s.sweepers[i]);
    assert id in s.records ==> Spared(s, s.sweepers[i].cutoff, s.sweepers[i].known, id);
  }

  lemma SweepKeeps(c: Config, s: State, i: nat, a: Action)
    requires Disciplined(c) && Inv(c, s) && i < |s.sweepers|
    ensures Inv(c, SweepStep(c, s, i, a))
  {
    assert SweeperOk(c, s, s.sweepers[i]);
    match (a, s.sweepers[i])
    case (Aim(_), Resting) => BecomeKeeps(c, s, i, Aiming(s.clock - c.grace));
    case (ListRecords(_), Aiming(cutoff)) => BecomeKeeps(c, s, i, Knowing(cutoff, s.records));
    case (ListObjects(_), Knowing(cutoff, known)) => BecomeKeeps(c, s, i, Deleting(cutoff, known, s.objects));
    case (Examine(_, id, fails), Deleting(cutoff, known, listed)) =>
      if id in listed {
        var left := Become(s, i, Deleting(cutoff, known, listed - {id}));
        BecomeKeeps(c, s, i, Deleting(cutoff, known, listed - {id}));
        if Doomed(cutoff, known, id, listed[id]) {
          ExamineSpares(c, s, i, id);
          var s' := left.(objects := s.objects - {id});
          forall j | 0 <= j < |s'.sweepers| ensures SweeperOk(c, s', s'.sweepers[j]) {
            SweeperFrame(c, left, s', s'.sweepers[j]);
          }
        }
      }
    case (Finish(_), _) => BecomeKeeps(c, s, i, Resting);
    case _ =>
  }

  /** Sweepers only look at the clock, the records and the birth times. */
  lemma SweeperFrame(c: Config, s: State, s': State, p: Sweeper)
    requires SweeperOk(c, s, p)
    requires s.clock <= s'.clock && s'.records <= s.records
    requires forall id :: id in s.born ==> id in s'.born && s'.born[id] == s.born[id]
    ensures SweeperOk(c, s', p)
  {
    forall id | id in s'.records && (p.Knowing? || p.Deleting?) ensures Spared(s', p.cutoff, p.known, id) {
      assert Spared(s, p.cutoff, p.known, id);
    }
    forall id | p.Deleting? && id in p.listed ensures Stamped(s', id, p.listed[id]) {
      assert Stamped(s, id, p.listed[id]);
    }
  }

  /** The heart of the protocol: a record inserted after the records were listed belongs to an
      object younger than the cutoff, because the cutoff was taken first. */
  lemma InsertKeeps(c: Config, s: State, id: Id)
    requires Disciplined(c) && Inv(c, s)
    requires id in s.born && id !in s.recorded && s.clock < s.born[id] + c.deadline
    ensures Inv(c, Step(c, s, Insert(id)))
  {
    var s' := Step(c, s, Insert(id));
    forall j | 0 <= j < |s'.sweepers| ensures SweeperOk(c, s', s'.sweepers[j]) {
      var p := s.sweepers[j];
      assert SweeperOk(c, s, p);
      forall x | x in s'.records && (p.Knowing? || p.Deleting?) ensures Spared(s', p.cutoff, p.known, x) {
        if x != id { assert Spared(s, p.cutoff, p.known, x); }
      }
      forall x | p.Deleting? && x in p.listed ensures Stamped(s', x, p.listed[x]) {
        assert Stamped(s, x, p.listed[x]);
      }
    }
    forall x | x in s'.objects ensures Stamped(s', x, s'.objects[x]) { assert Stamped(s, x, s.objects[x]); }
  }

  lemma CreateKeeps(c: Config, s: State, a: Action)
    requires Disciplined(c) && Inv(c, s) && BirthsBefore(s) && (a.Appear? || a.Rebuild?)
    ensures Inv(c, Step(c, s, a))
  {
    var s' := Step(c, s, a);
    forall j | 0 <= j < |s'.sweepers| ensures SweeperOk(c, s', s'.sweepers[j]) {
      SweeperFrame(c, s, s', s.sweepers[j]);
    }
    forall x | x in s'.objects ensures Stamped(s', x, s'.objects[x]) {
      if x in s.objects { assert Stamped(s, x, s.objects[x]); }
    }
  }

  lemma DropKeeps(c: Config, s: State, a: Action)
    requires Disciplined(c) && Inv(c, s) && (a.Pass? || a.DropRecord? || a.DropObject?)
    ensures Inv(c, Step(c, s, a))
  {
    var s' := Step(c, s, a);
    forall j | 0 <= j < |s'.sweepers| ensures SweeperOk(c, s', s'.sweepers[j]) {
      SweeperFrame(c, s, s', s.sweepers[j]);
    }
    forall x | x in s'.objects ensures Stamped(s', x, s'.objects[x]) { assert Stamped(s, x, s.objects[x]); }
  }

  ghost predicate BirthsBefore(s: State) { forall id :: id in s.born ==> s.born[id] <= s.clock }

  lemma BirthsStay(c: Config, s: State, a: Action)
    requires BirthsBefore(s)
    ensures BirthsBefore(Step(c, s, a))
  {
  }

  lemma StepKeeps(c: Config, s: State, a: Action)
    requires Disciplined(c) && Inv(c, s) && BirthsBefore(s)
    ensures Inv(c, Step(c, s, a))
  {
    hide Inv, SweepStep;
    match a
    case Pass(_) => DropKeeps(c, s, a);
    case DropRecord(_) => DropKeeps(c, s, a);
    case DropObject(_) => DropKeeps(c, s, a);
    case Appear(_, _) => CreateKeeps(c, s, a);
    case Rebuild(_, _) => CreateKeeps(c, s, a);
    case Insert(id) =>
      if id in s.born && id !in s.recorded && s.clock < s.born[id] + c.deadline { InsertKeeps(c, s, id); }
    case Aim(i) => if i < |s.sweepers| { SweepKeeps(c, s, i, a); }
    case ListRecords(i) => if i < |s.sweepers| { SweepKeeps(c, s, i, a); }
    case ListObjects(i) => if i < |s.sweepers| { SweepKeeps(c, s, i, a); }
    case Examine(i, _, _) => if i < |s.sweepers| { SweepKeeps(c, s, i, a); }
    case Finish(i) => if i < |s.sweepers| { SweepKeeps(c, s, i, a); }
  }

  lemma {:induction false} RunKeeps(c: Config, s: State, run: seq<Action>)
    requires Disciplined(c) && Inv(c, s) && BirthsBefore(s)
    ensures Inv(c, Run(c, s, run))
    decreases |run|
  {
    hide Step, Inv, BirthsBefore;
    if run != [] {
      StepKeeps(c, s, run[0]);
      BirthsStay(c, s, run[0]);
      RunKeeps(c, Step(c, s, run[0]), run[1..]);
    }
  }

  /* ---- The results ---- */

  /** No run of the daemon loses an object whose record exists. */
  ghost predicate NeverLoses(c: Config) {
    forall n: nat, run: seq<Action> :: Run(c, Initial(n), run).lost == {}
  }

  lemma DisciplinedIsSafe(c: Config, n: nat, run: seq<Action>)
    requires Disciplined(c)
    ensures Run(c, Initial(n), run).lost == {}
  {
    RunKeeps(c, Initial(n), run);
  }

  /** No record of the id exists, and none will: it was used up, or its create is past the deadline. */
  predicate Unrecordable(c: Config, s: State, id: Id) {
    id !in s.records && id in s.born && (id in s.recorded || s.born[id] + c.deadline <= s.clock)
  }

  lemma StepUnrecordable(c: Config, s: State, a: Action, id: Id)
    requires Unrecordable(c, s, id)
    ensures Unrecordable(c, Step(c, s, a), id)
  {
  }

  lemma {:induction false} RunUnrecordable(c: Config, s: State, run: seq<Action>, id: Id)
    requires Unrecordable(c, s, id)
    ensures Unrecordable(c, Run(c, s, run), id)
    decreases |run|
  {
    hide Step, Unrecordable;
    if run != [] {
      StepUnrecordable(c, s, run[0], id);
      RunUnrecordable(c, Step(c, s, run[0]), run[1..], id);
    }
  }

  /** Main result 1. With readable times and creates within the grace, a sweep never deletes an object
      whose create can still insert its record: from the moment a sweep may delete it, the id has no
      record in anything that can happen later. */
  lemma DeletedIsNeverRecorded(c: Config, n: nat, run: seq<Action>, i: nat, id: Id, more: seq<Action>)
    requires Disciplined(c) && i < |Run(c, Initial(n), run).sweepers|
    requires var p := Run(c, Initial(n), run).sweepers[i];
             p.Deleting? && id in p.listed && Doomed(p.cutoff, p.known, id, p.listed[id])
    ensures id !in Run(c, Run(c, Initial(n), run), more).records
  {
    hide Run;
    RunKeeps(c, Initial(n), run);
    var s := Run(c, Initial(n), run);
    ExamineSpares(c, s, i, id);
    assert SweeperOk(c, s, s.sweepers[i]) && Stamped(s, id, s.sweepers[i].listed[id]);
    RunUnrecordable(c, s, more, id);
  }

  /** The record arrives after the records were listed, with the object already judged old. */
  function Harm(c: Config): seq<Action> {
    [Pass(if c.stamped then 0 else c.grace), Appear(7, false), Pass(if c.stamped then c.grace else 0), Aim(0), ListRecords(0),
     ListObjects(0), Insert(7), Examine(0, 7, false)]
  }

  lemma HarmSetsUp(c: Config) returns (s: State)
    requires c.deadline > 0 && !Disciplined(c)
    ensures var r := Harm(c); s == Step(c, Step(c, Step(c, Initial(1), r[0]), r[1]), r[2])
    ensures s.clock == c.grace && s.records == {} && s.recorded == {} && s.sweepers == [Resting]
    ensures s.born.Keys == s.objects.Keys == {7} && Created(s.objects[7]) == 0 && c.grace < s.born[7] + c.deadline
  {
    var r := Harm(c);
    s := Step(c, Step(c, Step(c, Initial(1), r[0]), r[1]), r[2]);
  }

  lemma HarmLists(c: Config, s: State) returns (s': State)
    requires s.clock == c.grace && s.records == {} && s.recorded == {} && s.sweepers == [Resting]
    ensures var r := Harm(c); s' == Step(c, Step(c, Step(c, s, r[3]), r[4]), r[5])
    ensures s' == s.(sweepers := [Deleting(0, {}, s.objects)])
  {
    var r := Harm(c);
    var s1 := Step(c, s, r[3]);
    assert s1 == s.(sweepers := [Aiming(0)]);
    var s2 := Step(c, s1, r[4]);
    assert s2 == s.(sweepers := [Knowing(0, {})]);
    s' := Step(c, s2, r[5]);
  }

  lemma HarmDeletes(c: Config, s: State)
    requires s.born.Keys == s.objects.Keys == {7} && Created(s.objects[7]) == 0 && s.recorded == {}
    requires s.clock < s.born[7] + c.deadline && s.sweepers == [Deleting(0, {}, s.objects)]
    ensures var r := Harm(c); 7 in Step(c, Step(c, s, r[6]), r[7]).lost
  {
    var s1 := Step(c, s, Harm(c)[6]);
    assert 7 in s1.records && s1.sweepers == s.sweepers;
  }

  lemma UndisciplinedHarms(c: Config)
    requires c.deadline > 0 && !Disciplined(c)
    ensures 7 in Run(c, Initial(1), Harm(c)).lost
  {
    hide Step;
    var r := Harm(c);
    var s3 := HarmSetsUp(c);
    RunOfThree(c, Initial(1), r);
    var s6 := HarmLists(c, s3);
    RunOfThree(c, s3, r[3..]);
    assert r[3..][3..] == r[6..];
    HarmDeletes(c, s6);
    var s7 := Step(c, s6, r[6]);
    assert Run(c, s6, r[6..]) == Run(c, s7, r[7..]) by { assert r[6..][1..] == r[7..]; }
    assert Run(c, s7, r[7..]) == Step(c, s7, r[7]) by { assert r[7..][1..] == []; }
  }

  lemma RunOfThree(c: Config, s: State, r: seq<Action>)
    requires |r| >= 3
    ensures Run(c, s, r) == Run(c, Step(c, Step(c, Step(c, s, r[0]), r[1]), r[2]), r[3..])
  {
    hide Step;
    var s1 := Step(c, s, r[0]);
    assert Run(c, s, r) == Run(c, s1, r[1..]);
    var s2 := Step(c, s1, r[1]);
    assert r[1..][1..] == r[2..] && Run(c, s1, r[1..]) == Run(c, s2, r[2..]);
    assert r[2..][1..] == r[3..];
  }

  /** Main result 2. However creates, rebuilds, deletes and sweeps interleave, no sweep deletes an
      object whose record exists, exactly when the runtime reports readable creation times and
      every create inserts its record within the grace period. */
  lemma SweepSparesRecordedIff(c: Config)
    requires c.deadline > 0
    ensures NeverLoses(c) <==> (c.stamped && c.deadline <= c.grace)
  {
    if Disciplined(c) {
      forall n: nat, run: seq<Action> ensures Run(c, Initial(n), run).lost == {} { DisciplinedIsSafe(c, n, run); }
    } else {
      UndisciplinedHarms(c);
    }
  }

  /* ---- The sweep itself ---- */

  class Daemon {
    var records: set<Id>
    var objects: map<Id, Option<nat>>

    constructor ()
      ensures records == {} && objects == map[]
    {
      records, objects := {}, map[];
    }

    ghost function Orphans(now: nat, grace: nat): set<Id>
      reads this
    {
      set id | id in objects && id !in records && Created(objects[id]) <= now - grace
    }

    /** One uninterrupted sweep deletes exactly the old objects without a record, except those
        whose deletion fails. */
    method ReconcileOrphans(now: nat, grace: nat, failing: set<Id>) returns (deleted: nat)
      modifies this`objects
      ensures objects == old(objects) - (old(Orphans(now, grace)) - failing)
      ensures deleted == |old(Orphans(now, grace)) - failing|
    {
      ghost var target := Orphans(now, grace) - failing;
      var cutoff := now - grace;
      var known := records;
      var listed := objects;
      assert forall id :: id in listed ==> (id in target <==> Doomed(cutoff, known, id, listed[id]) && id !in failing);
      assert target <= listed.Keys;
      hide Doomed, Orphans;
      var todo := listed.Keys;
      deleted := 0;
      NothingDone(target, todo, listed);
      while todo != {}
        invariant todo <= listed.Keys
        invariant objects == listed - (target - todo) && deleted == |target - todo|
        decreases todo
      {
        var id :| id in todo;
        OneDone(target, todo, id, listed);
        if Doomed(cutoff, known, id, listed[id]) && id !in failing {
          objects := objects - {id};
          deleted := deleted + 1;
        }
        todo := todo - {id};
      }
      assert target - todo == target;
    }
  }

  lemma NothingDone(target: set<Id>, todo: set<Id>, listed: map<Id, Option<nat>>)
    requires target <= todo
    ensures target - todo == {} && listed - (target - todo) == listed
  {
  }

  lemma OneDone(target: set<Id>, todo: set<Id>, id: Id, listed: map<Id, Option<nat>>)
    requires id in todo
    ensures id in target ==>
              && target - (todo - {id}) == (target - todo) + {id} && |target - (todo - {id})| == |target - todo| + 1
              && listed - (target - (todo - {id})) == listed - (target - todo) - {id}
    ensures id !in target ==> target - (todo - {id}) == target - todo
  {
    if id in target {
      assert target - (todo - {id}) == (target - todo) + {id} && id !in target - todo;
    }
  }
}
