/** Two maintenance routines of backend/app/core/scheduler.py: the bounded deferral of sweeps while
    streams are active, and the batched move of old rows into archive tables. */
module Scheduler {
  import opened Prelude

  /* ---- Deferral ---- */

  /** A question whether the sweep should be put off, with the number of active streams, or the note
      that it ran. */
  datatype Event = Ask(streams: int) | Ran

  /** The consecutive skips of one sweep. A missing counter is zero. */
  function Counter(skips: nat, maxSkips: int, ev: Event): nat {
    if ev.Ran? || ev.streams <= 0 || skips >= maxSkips then 0 else skips + 1
  }

  predicate Defers(skips: nat, maxSkips: int, ev: Event) {
    ev.Ask? && ev.streams > 0 && skips < maxSkips
  }

  function CounterAfter(skips: nat, maxSkips: int, evs: seq<Event>): nat
    decreases |evs|
  {
    if evs == [] then skips else CounterAfter(Counter(skips, maxSkips, evs[0]), maxSkips, evs[1..])
  }

  /** Every question in the list is answered by a deferral. */
  predicate AllDefer(skips: nat, maxSkips: int, evs: seq<Event>)
    decreases |evs|
  {
    evs == [] || (Defers(skips, maxSkips, evs[0]) && AllDefer(Counter(skips, maxSkips, evs[0]), maxSkips, evs[1..]))
  }

  lemma {:induction false} CounterIsBounded(skips: nat, maxSkips: nat, evs: seq<Event>)
    requires skips <= maxSkips
    ensures CounterAfter(skips, maxSkips, evs) <= maxSkips
    decreases |evs|
  {
    if evs != [] { CounterIsBounded(Counter(skips, maxSkips, evs[0]), maxSkips, evs[1..]); }
  }

  lemma {:induction false} DeferralsCount(skips: nat, maxSkips: int, evs: seq<Event>)
    ensures AllDefer(skips, maxSkips, evs) <==>
              (forall k :: 0 <= k < |evs| ==> evs[k].Ask? && evs[k].streams > 0) && (evs == [] || skips + |evs| <= maxSkips)
    decreases |evs|
  {
    if evs != [] {
      var c := Counter(skips, maxSkips, evs[0]);
      DeferralsCount(c, maxSkips, evs[1..]);
      assert forall k :: 0 <= k < |evs[1..]| ==> evs[1..][k] == evs[k + 1];
      if forall k :: 0 <= k < |evs[1..]| ==> evs[1..][k].Ask? && evs[1..][k].streams > 0 {
        assert forall k :: 1 <= k < |evs| ==> evs[k] == evs[1..][k - 1];
      }
    }
  }

  /** Main result 1. Whatever happened before, streams can put a sweep off at most `maxSkips` times in
      a row, and from a fresh counter they can do so exactly that often. */
  lemma NeverStarves(before: seq<Event>, maxSkips: nat, evs: seq<Event>)
    ensures AllDefer(CounterAfter(0, maxSkips, before), maxSkips, evs) ==> |evs| <= maxSkips
    ensures |evs| <= maxSkips && (forall k :: 0 <= k < |evs| ==> evs[k].Ask? && evs[k].streams > 0) ==>
              AllDefer(0, maxSkips, evs)
  {
    CounterIsBounded(0, maxSkips, before);
    DeferralsCount(CounterAfter(0, maxSkips, before), maxSkips, evs);
    DeferralsCount(0, maxSkips, evs);
  }

  class Deferral {
    var counters: map<string, nat>

    constructor ()
      ensures counters == map[]
    {
      counters := map[];
    }

    function Skips(name: string): nat
      reads this
    {
      if name in counters then counters[name] else 0
    }

    method ShouldDefer(name: string, streams: int, configured: int) returns (defer: bool)
      modifies this
      ensures var maxSkips := if configured < 0 then 0 else configured;
              && defer == Defers(old(Skips(name)), maxSkips, Ask(streams))
              && Skips(name) == Counter(old(Skips(name)), maxSkips, Ask(streams))
      ensures forall other :: other != name ==> Skips(other) == old(Skips(other))
    {
      if streams <= 0 {
        counters := counters - {name};
        return false;
      }
      var maxSkips := if configured < 0 then 0 else configured;
      var skips := if name in counters then counters[name] else 0;
      if skips >= maxSkips {
        counters := counters[name := 0];
        return false;
      }
      counters := counters[name := skips + 1];
      return true;
    }

    method NoteRan(name: string)
      modifies this
      ensures Skips(name) == Counter(old(Skips(name)), 0, Ran)
      ensures forall other :: other != name ==> Skips(other) == old(Skips(other))
    {
      counters := counters - {name};
    }
  }

  /* ---- Archiving in batches ---- */

  /** A row of a hot table; `id` is its primary key. The archive has no key and may repeat a row. */
  datatype Row = Row(id: nat, created: int, data: string)

  function Eligible(hot: set<Row>, cutoff: int): set<Row> { set r | r in hot && r.created < cutoff }

  /** What a `LIMIT` without an order may select: any eligible rows, as many as the limit admits. */
  predicate Selection(hot: set<Row>, cutoff: int, batch: nat, rows: set<Row>) {
    && rows <= Eligible(hot, cutoff)
    && |rows| == if |Eligible(hot, cutoff)| < batch then |Eligible(hot, cutoff)| else batch
  }

  /** One query plan: the rows that it selects from each state of the hot table. */
  type Plan = set<Row> -> set<Row>

  ghost predicate Plans(plan: Plan, cutoff: int, batch: nat) {
    forall hot: set<Row> {:trigger plan(hot)} :: Selection(hot, cutoff, batch, plan(hot))
  }

  datatype Tables = Tables(hot: set<Row>, archive: multiset<Row>)

  /** The whole move: each round inserts what one plan selects and deletes what the other selects, in
      one transaction, and a short round is the last. */
  ghost function Move(ts: Tables, cutoff: int, batch: nat, insert: Plan, delete: Plan): (r: Tables)
    requires batch > 0 && Plans(insert, cutoff, batch) && Plans(delete, cutoff, batch)
    decreases |ts.hot|
  {
    var rows, gone := insert(ts.hot), delete(ts.hot);
    assert Selection(ts.hot, cutoff, batch, rows) && Selection(ts.hot, cutoff, batch, gone);
    if rows == {} then ts
    else
      var next := Tables(ts.hot - gone, ts.archive + multiset(rows));
      if |rows| < batch then next
      else
        Smaller(ts.hot, gone);
        Move(next, cutoff, batch, insert, delete)
  }

  /** In every round of the move, both plans select the same rows. */
  ghost predicate Agree(ts: Tables, cutoff: int, batch: nat, insert: Plan, delete: Plan)
    requires batch > 0 && Plans(insert, cutoff, batch) && Plans(delete, cutoff, batch)
    decreases |ts.hot|
  {
    var rows, gone := insert(ts.hot), delete(ts.hot);
    assert Selection(ts.hot, cutoff, batch, rows) && Selection(ts.hot, cutoff, batch, gone);
    rows == {} ||
    (rows == gone &&
     (|rows| < batch ||
      (Smaller(ts.hot, gone);
       Agree(Tables(ts.hot - gone, ts.archive + multiset(rows)), cutoff, batch, insert, delete))))
  }

  lemma Smaller(hot: set<Row>, gone: set<Row>)
    requires gone <= hot && gone != {}
    ensures |hot - gone| < |hot|
  {
    assert hot == (hot - gone) + gone;
  }

  function Copies(ts: Tables, r: Row): nat { (if r in ts.hot then 1 else 0) + ts.archive[r] }

  ghost predicate Conserved(before: Tables, after: Tables) { forall r: Row :: Copies(after, r) == Copies(before, r) }

  lemma OneRound(ts: Tables, rows: set<Row>, gone: set<Row>)
    requires rows <= ts.hot && gone <= ts.hot
    ensures var next := Tables(ts.hot - gone, ts.archive + multiset(rows));
            forall r: Row :: Copies(next, r) == Copies(ts, r) + (if r in rows then 1 else 0) - if r in gone then 1 else 0
  {
    forall r: Row ensures multiset(rows)[r] == if r in rows then 1 else 0 {
    }
  }

  lemma EqualSizes(a: set<Row>, b: set<Row>) returns (r: Row)
    requires |a| == |b| && a != b
    ensures r in b && r !in a
  {
    if b <= a {
      SubsetOfSameSize(b, a);
      assert false;
    }
    r :| r in b && r !in a;
  }

  /** A row that left the hot table is never archived later. */
  lemma {:induction false} GoneStaysGone(ts: Tables, cutoff: int, batch: nat, insert: Plan, delete: Plan, r: Row)
    requires batch > 0 && Plans(insert, cutoff, batch) && Plans(delete, cutoff, batch) && r !in ts.hot
    ensures Copies(Move(ts, cutoff, batch, insert, delete), r) == Copies(ts, r)
    decreases |ts.hot|
  {
    var rows, gone := insert(ts.hot), delete(ts.hot);
    assert Selection(ts.hot, cutoff, batch, rows) && Selection(ts.hot, cutoff, batch, gone);
    if rows != {} {
      OneRound(ts, rows, gone);
      if |rows| >= batch {
        Smaller(ts.hot, gone);
        GoneStaysGone(Tables(ts.hot - gone, ts.archive + multiset(rows)), cutoff, batch, insert, delete, r);
      }
    }
  }

  /** Main result 2. The batched move, which always ends, loses and duplicates nothing if and only if
      in each round the INSERT and the DELETE select the same rows. */
  lemma {:induction false} ArchiveConservesIff(ts: Tables, cutoff: int, batch: nat, insert: Plan, delete: Plan)
    requires batch > 0 && Plans(insert, cutoff, batch) && Plans(delete, cutoff, batch)
    ensures Conserved(ts, Move(ts, cutoff, batch, insert, delete)) <==> Agree(ts, cutoff, batch, insert, delete)
    decreases |ts.hot|
  {
    var rows, gone := insert(ts.hot), delete(ts.hot);
    assert Selection(ts.hot, cutoff, batch, rows) && Selection(ts.hot, cutoff, batch, gone);
    if rows != {} {
      var next := Tables(ts.hot - gone, ts.archive + multiset(rows));
      var end := Move(ts, cutoff, batch, insert, delete);
      OneRound(ts, rows, gone);
      Smaller(ts.hot, gone);
      if rows != gone {
        var r := EqualSizes(rows, gone);
        assert Copies(next, r) < Copies(ts, r) && r !in next.hot;
        GoneStaysGone(next, cutoff, batch, insert, delete, r);
        assert Copies(end, r) != Copies(ts, r);
      } else {
        assert Conserved(ts, next);
        if |rows| >= batch { ArchiveConservesIff(next, cutoff, batch, insert, delete); }
        assert forall r: Row :: Copies(next, r) == Copies(ts, r);
      }
    }
  }

  /** Some selection of at most `k` rows. */
  ghost function Pick(rows: set<Row>, k: nat): set<Row>
    decreases k
  {
    if k == 0 || rows == {} then {} else (var r :| r in rows; {r} + Pick(rows - {r}, k - 1))
  }

  lemma {:induction false} PickSize(rows: set<Row>, k: nat)
    ensures Pick(rows, k) <= rows && |Pick(rows, k)| == if |rows| < k then |rows| else k
    decreases k
  {
    if k > 0 && rows != {} {
      var r :| r in rows && Pick(rows, k) == {r} + Pick(rows - {r}, k - 1);
      PickSize(rows - {r}, k - 1);
    }
  }

  ghost function AnyPlan(cutoff: int, batch: nat): Plan { hot => Pick(Eligible(hot, cutoff), batch) }

  /** The plan that differs from another one on a single state of the table. */
  ghost function Instead(plan: Plan, hot: set<Row>, rows: set<Row>): Plan { h => if h == hot then rows else plan(h) }

  lemma SomePlanExists(cutoff: int, batch: nat)
    ensures Plans(AnyPlan(cutoff, batch), cutoff, batch)
  {
    forall hot: set<Row> ensures Selection(hot, cutoff, batch, AnyPlan(cutoff, batch)(hot)) {
      PickSize(Eligible(hot, cutoff), batch);
    }
  }

  /** Two plans that a `LIMIT` without an order admits, and that lose one row and repeat another. */
  lemma DisagreeingPlansLose(a: Row, b: Row, cutoff: int) returns (insert: Plan, delete: Plan)
    requires a != b && a.created < cutoff && b.created < cutoff
    ensures Plans(insert, cutoff, 1) && Plans(delete, cutoff, 1)
    ensures var end := Move(Tables({a, b}, multiset{}), cutoff, 1, insert, delete);
            Copies(end, a) == 2 && Copies(end, b) == 0
  {
    SomePlanExists(cutoff, 1);
    var plan := AnyPlan(cutoff, 1);
    insert, delete := Instead(plan, {a, b}, {a}), Instead(plan, {a, b}, {b});
    assert Eligible({a, b}, cutoff) == {a, b} && |{a, b}| == 2;
    assert Selection({a, b}, cutoff, 1, {a}) && Selection({a, b}, cutoff, 1, {b});
    forall hot: set<Row> ensures Selection(hot, cutoff, 1, insert(hot)) && Selection(hot, cutoff, 1, delete(hot)) {
      assert Selection(hot, cutoff, 1, plan(hot));
    }
    FirstRound(a, b, cutoff, insert, delete);
    LastRow(a, cutoff, insert, delete);
  }

  lemma FirstRound(a: Row, b: Row, cutoff: int, insert: Plan, delete: Plan)
    requires a != b && Plans(insert, cutoff, 1) && Plans(delete, cutoff, 1)
    requires insert({a, b}) == {a} && delete({a, b}) == {b}
    ensures Move(Tables({a, b}, multiset{}), cutoff, 1, insert, delete) == Move(Tables({a}, multiset{a}), cutoff, 1, insert, delete)
  {
    assert {a, b} - {b} == {a} && multiset({a}) == multiset{a} && multiset{} + multiset{a} == multiset{a};
    assert |{a}| == 1;
  }

  lemma LastRow(a: Row, cutoff: int, insert: Plan, delete: Plan)
    requires a.created < cutoff && Plans(insert, cutoff, 1) && Plans(delete, cutoff, 1)
    ensures Move(Tables({a}, multiset{a}), cutoff, 1, insert, delete) == Tables({}, multiset{a, a})
  {
    assert Eligible({a}, cutoff) == {a} && Eligible({}, cutoff) == {};
    assert Selection({a}, cutoff, 1, insert({a})) && Selection({a}, cutoff, 1, delete({a}));
    SubsetOfSameSize(insert({a}), {a});
    SubsetOfSameSize(delete({a}), {a});
    assert Selection({}, cutoff, 1, insert({}));
    assert {a} - {a} == {} && multiset({a}) == multiset{a} && multiset{a} + multiset{a} == multiset{a, a};
    assert Move(Tables({}, multiset{a, a}), cutoff, 1, insert, delete) == Tables({}, multiset{a, a});
  }

  /** Main result 3. Whatever the plans select, no eligible row is left behind. */
  lemma {:induction false} ArchiveLeavesNothing(ts: Tables, cutoff: int, batch: nat, insert: Plan, delete: Plan)
    requires batch > 0 && Plans(insert, cutoff, batch) && Plans(delete, cutoff, batch)
    ensures Eligible(Move(ts, cutoff, batch, insert, delete).hot, cutoff) == {}
    ensures forall r :: r in ts.hot && r.created >= cutoff ==> r in Move(ts, cutoff, batch, insert, delete).hot
    decreases |ts.hot|
  {
    var rows, gone := insert(ts.hot), delete(ts.hot);
    assert Selection(ts.hot, cutoff, batch, rows) && Selection(ts.hot, cutoff, batch, gone);
    var e := Eligible(ts.hot, cutoff);
    if rows == {} {
      assert |rows| == 0;
    } else {
      var next := Tables(ts.hot - gone, ts.archive + multiset(rows));
      if |rows| < batch {
        SubsetOfSameSize(gone, e);
      } else {
        Smaller(ts.hot, gone);
        ArchiveLeavesNothing(next, cutoff, batch, insert, delete);
      }
    }
  }

  lemma SubsetOfSameSize(a: set<Row>, b: set<Row>)
    requires a <= b && |a| == |b|
    ensures a == b
  {
    assert b == a + (b - a);
    assert |b - a| == 0;
  }

  /** The loop itself. */
  method RunArchive(ts: Tables, cutoff: int, batch: nat, insert: Plan, delete: Plan) returns (out: Tables, moved: nat)
    requires batch > 0 && Plans(insert, cutoff, batch) && Plans(delete, cutoff, batch)
    ensures out == Move(ts, cutoff, batch, insert, delete)
    ensures |out.archive| == |ts.archive| + moved
  {
    out, moved := ts, 0;
    while true
      invariant Move(out, cutoff, batch, insert, delete) == Move(ts, cutoff, batch, insert, delete)
      invariant |out.archive| == |ts.archive| + moved
      decreases |out.hot|
    {
      var rows := insert(out.hot);
      if rows == {} { return; }
      var gone := delete(out.hot);
      assert Selection(out.hot, cutoff, batch, rows) && Selection(out.hot, cutoff, batch, gone);
      Smaller(out.hot, gone);
      out := Tables(out.hot - gone, out.archive + multiset(rows));
      moved := moved + |rows|;
      if |rows| < batch {
        assert Move(ts, cutoff, batch, insert, delete) == out;
        return;
      }
    }
  }
}
