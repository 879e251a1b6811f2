/** `PrimaryDatabaseEngine` and the startup routing of backend/app/core/database_routing.py as they
    run without interruption: the borrowed counter, the drain barrier and the route object. */
module PrimaryEngine {
  import opened Prelude
  import opened Cutover
  import opened ConnectionPools

  function Again(t: Turn, intact: bool): Turn {
    if t.pc.Idle? then t else Think(t.disk, t.engine, t.uncertain, t.pc, !intact)
  }

  /** Seven thoughts in a row, enough for every route to end. */
  function Settle(d: Disk, e: Option<Engine>, u: bool, pc: Pc, intact: bool): Turn {
    var t := Turn(d, e, u, pc, false);
    Again(Again(Again(Again(Again(Again(Again(t, intact), intact), intact), intact), intact), intact), intact)
  }

  lemma ConnectSettles(d: Disk, u: bool, intact: bool)
    ensures var t := Settle(d, Some(OnSqlite), u, Reading(Connecting), intact);
            match d.manifest
            case NoManifest => t.handed == intact && t.engine == Some(OnSqlite) && t.disk == d
            case Active(j) => t.handed == intact && t.engine == Some(if intact then OnPostgres(j) else OnSqlite) && t.disk == d
            case Pending(j) =>
              if !intact || d.fenceJob != Some(j) || (d.sealed && d.marker != Some(j))
              then !t.handed && t.engine == Some(OnSqlite) && t.disk == d
              else t.handed && t.engine == Some(if d.sealed then OnPostgres(j) else OnSqlite)
                   && t.disk == d.(manifest := if d.sealed then Active(j) else NoManifest)
  {
  }

  /** What an undisturbed repair by the executor leaves: a pending or active manifest is followed to the
      side that the fence decides, or, where a proof fails, nothing changes and the doubt remains. */
  lemma RepairSettles(d: Disk, e: Engine, u: bool, intact: bool)
    requires DiskOk(d) && EngineOk(d, Some(e))
    ensures var t := Settle(d, Some(e), u, Reading(Repairing), intact);
            && t.pc.Idle? && !t.handed && DiskOk(t.disk)
            && if d.manifest.NoManifest? || !intact then t.disk == d && t.engine == Some(e) && t.uncertain == u
               else if d.sealed
               then t.disk == d.(manifest := Active(d.fenceJob.value)) && t.engine == Some(OnPostgres(d.fenceJob.value))
                    && !t.uncertain
               else t.disk == d.(manifest := NoManifest) && t.engine == Some(e) && !t.uncertain
  {
  }

  /** The durable facts, shared by every process. */
  class Facts {
    var disk: Disk

    constructor ()
      ensures disk == Disk(false, None, NoManifest, None)
    {
      disk := Disk(false, None, NoManifest, None);
    }

    /** `recover_activation`: the url of a route, or nothing for an error. */
    method RecoverActivation(job: Job, intact: bool) returns (route: Option<Engine>)
      modifies this
      ensures route == if !intact || old(disk).fenceJob != Some(job) then None
                       else if !old(disk).sealed then Some(OnSqlite)
                       else if old(disk).marker != Some(job) then None else Some(OnPostgres(job))
      ensures disk == if route.None? then old(disk)
                      else old(disk).(manifest := if route.value.OnSqlite? then NoManifest else Active(job))
    {
      if !intact || disk.fenceJob != Some(job) { return None; }
      if !disk.sealed {
        disk := disk.(manifest := NoManifest);
        return Some(OnSqlite);
      }
      if disk.marker != Some(job) { return None; }
      disk := disk.(manifest := Active(job));
      return Some(OnPostgres(job));
    }

    /** `_startup_url`, uninterrupted, is the starting thread of the interleaved machine. */
    method StartupUrl(intact: bool) returns (route: Option<Engine>)
      modifies this
      ensures route == Settle(old(disk), None, false, Reading(Starting), intact).engine
      ensures disk == Settle(old(disk), None, false, Reading(Starting), intact).disk
    {
      match disk.manifest
      case Pending(j) => route := RecoverActivation(j, intact);
      case Active(j) => return if !intact || disk.marker != Some(j) then None else Some(OnPostgres(j));
      case NoManifest => return if disk.sealed then None else Some(OnSqlite);
    }
  }

  function Elements(rs: seq<RecordId>): set<RecordId> { set r | r in rs }

  lemma ElementsGrow(rs: seq<RecordId>, k: nat)
    requires k < |rs|
    ensures Elements(rs[..k + 1]) == Elements(rs[..k]) + {rs[k]}
  {
    assert rs[..k + 1] == rs[..k] + [rs[k]];
  }

  /** The records released by any of the waits. */
  function Released(waits: seq<seq<RecordId>>): set<RecordId> {
    set n, r | 0 <= n < |waits| && r in waits[n] :: r
  }

  lemma NothingReleased(waits: seq<seq<RecordId>>)
    ensures Released(waits[..0]) == {}
  {
  }

  lemma ReleasedGrows(waits: seq<seq<RecordId>>, n: nat)
    requires n < |waits|
    ensures Released(waits[..n + 1]) == Released(waits[..n]) + Elements(waits[n])
  {
    var before, now := waits[..n], waits[..n + 1];
    forall r ensures r in Released(now) <==> r in Released(before) || r in waits[n] {
      if r in Released(now) {
        var k :| 0 <= k < |now| && r in now[k];
        assert k == n || (k < |before| && r in before[k]);
      }
      if r in Released(before) {
        var k :| 0 <= k < |before| && r in before[k];
        assert r in now[k];
      }
      if r in waits[n] { assert r in now[n]; }
    }
  }

  lemma ReleasedSoFar(waits: seq<seq<RecordId>>, n: nat)
    requires n <= |waits|
    ensures Released(waits[..n]) <= Released(waits)
  {
    forall r | r in Released(waits[..n]) ensures r in Released(waits) {
      var k :| 0 <= k < n && r in waits[..n][k];
      assert r in waits[k];
    }
  }

  lemma OneMoreWait(before: set<RecordId>, waits: seq<seq<RecordId>>, n: nat)
    requires n < |waits|
    ensures before - Released(waits[..n]) - Elements(waits[n]) == before - Released(waits[..n + 1])
  {
    hide Released, Elements;
    ReleasedGrows(waits, n);
  }

  lemma SomethingIsOut(before: set<RecordId>, waits: seq<seq<RecordId>>, out: set<RecordId>)
    requires out == before - Released(waits[..|waits|]) && |out| != 0
    ensures !(before <= Released(waits))
  {
    hide Released;
    assert waits[..|waits|] == waits;
    var r :| r in out;
  }

  lemma NothingIsOut(before: set<RecordId>, waits: seq<seq<RecordId>>, n: nat, out: set<RecordId>)
    requires n <= |waits| && out == before - Released(waits[..n]) && |out| == 0
    ensures before <= Released(waits) && out == {}
  {
    hide Released;
    ReleasedSoFar(waits, n);
    forall r | r in before ensures r in Released(waits) {
      assert r !in out;
    }
  }

  ghost predicate Counted(p: Pool) { p.borrowed == |p.marked| && p.sqlite <= p.leased <= p.marked }

  lemma PoolIsCounted(p: Pool)
    requires Counted(p)
    ensures p.borrowed == |p.marked| && (p.borrowed == 0 ==> p == EMPTY)
  {
  }

  class RoutedEngine {
    const facts: Facts
    var physical: Engine
    var uncertain: bool
    var barrier: bool
    var borrowed: int
    var marked: set<RecordId>
    var leased: set<RecordId>
    ghost var sqlite: set<RecordId>

    ghost function View(): Pool
      reads this`borrowed, this`marked, this`leased, this`sqlite
    {
      Pool(borrowed, marked, leased, sqlite)
    }

    /** Every SQLite connection that is out carries a lease. */
    ghost predicate Valid()
      reads this`borrowed, this`marked, this`leased, this`sqlite
    {
      Counted(View())
    }

    constructor (facts: Facts, physical: Engine)
      ensures Valid() && this.facts == facts && this.physical == physical && !barrier && !uncertain && View() == EMPTY
    {
      this.facts, this.physical, uncertain, barrier := facts, physical, false, false;
      borrowed, marked, leased, sqlite := 0, {}, {}, {};
    }

    method OnCheckout(r: RecordId)
      requires Valid() && r !in marked
      modifies this`borrowed, this`marked
      ensures Valid() && borrowed == old(borrowed) + 1 && marked == old(marked) + {r}
    {
      borrowed, marked := borrowed + 1, marked + {r};
    }

    method OnRelease(r: RecordId)
      requires Valid()
      modifies this`borrowed, this`marked, this`leased, this`sqlite
      ensures Valid() && View() == After(old(View()), Release(r))
    {
      leased, sqlite := leased - {r}, sqlite - {r};
      if r in marked {
        marked := marked - {r};
        borrowed := borrowed - 1;
      }
    }

    /** `connect` once the barrier is down and the shared lease is granted: refresh the route, open a
        connection, check its record out, and attach the lease to it. A failure gives the lease back
        and changes no record. From SQLite the durable facts decide: without a manifest the
        connection is on SQLite, an active manifest leads to its PostgreSQL, and a pending one is
        resolved by the fence first. */
    method Connect(r: RecordId, intact: bool) returns (ok: bool)
      requires Valid() && r !in marked && !barrier
      modifies this`physical, this`uncertain, this`borrowed, this`marked, this`leased, this`sqlite, facts
      ensures Valid() && uncertain == old(uncertain)
      ensures ok ==> !old(uncertain) && View() == After(old(View()), Lent(r, old(physical), physical))
      ensures !ok ==> View() == old(View())
      ensures ok && physical.OnSqlite? ==> r in leased
      ensures old(uncertain) ==> physical == old(physical) && facts.disk == old(facts.disk)
      ensures old(physical).OnPostgres? ==>
                ok == (intact && !old(uncertain)) && physical == old(physical) && facts.disk == old(facts.disk)
      ensures old(physical).OnSqlite? && !old(uncertain) ==>
                var d := old(facts.disk);
                match d.manifest
                case NoManifest => ok == intact && physical == OnSqlite && facts.disk == d
                case Active(j) => ok == intact && physical == (if intact then OnPostgres(j) else OnSqlite) && facts.disk == d
                case Pending(j) =>
                  && ok == (intact && d.fenceJob == Some(j) && (d.sealed ==> d.marker == Some(j)))
                  && physical == (if ok && d.sealed then OnPostgres(j) else OnSqlite)
                  && facts.disk == if !ok then d else d.(manifest := if d.sealed then Active(j) else NoManifest)
      ensures old(physical).OnSqlite? && !old(uncertain) ==>
                var t := Settle(old(facts.disk), Some(OnSqlite), false, Reading(Connecting), intact);
                ok == t.handed && Some(physical) == t.engine && facts.disk == t.disk
      ensures DiskOk(old(facts.disk)) ==> DiskOk(facts.disk) && (ok && physical.OnSqlite? ==> !facts.disk.sealed)
    {
      hide Settle;
      ConnectSettles(facts.disk, uncertain, intact);
      if uncertain { return false; }
      var lease := physical.OnSqlite?;
      var refreshed := RefreshRoute(intact);
      ok := refreshed && intact;
      if ok {
        OnCheckout(r);
        if lease { leased := leased + {r}; }
        if physical.OnSqlite? { sqlite := sqlite + {r}; }
      }
    }

    /** `activate`: there is no way back, and no second target. */
    method Activate(target: Engine) returns (ok: bool)
      modifies this`physical, this`uncertain
      ensures ok <==> target.OnPostgres? && (old(physical).OnSqlite? || old(physical) == target)
      ensures physical == if ok then target else old(physical)
      ensures uncertain == if ok then false else old(uncertain)
    {
      if target.OnSqlite? || (physical.OnPostgres? && physical != target) { return false; }
      physical, uncertain := target, false;
      return true;
    }

    /** `_refresh_route` under a shared lease. */
    method RefreshRoute(intact: bool) returns (ok: bool)
      requires Valid()
      modifies this`physical, this`uncertain, facts
      ensures var t := Settle(old(facts.disk), Some(old(physical)), old(uncertain), Reading(Connecting), intact);
              old(physical).OnSqlite? ==> ok == t.handed && Some(physical) == t.engine && facts.disk == t.disk
      ensures old(physical).OnPostgres? ==> ok && physical == old(physical) && facts.disk == old(facts.disk)
      ensures physical.OnSqlite? ==> old(physical).OnSqlite?
      ensures physical == old(physical) ==> uncertain == old(uncertain)
      ensures physical != old(physical) ==> !uncertain
    {
      hide Settle;
      ConnectSettles(facts.disk, uncertain, intact);
      if physical.OnPostgres? { return true; }
      if facts.disk.manifest.Pending? {
        var route := facts.RecoverActivation(facts.disk.manifest.job, intact);
        if route.None? { return false; }
      }
      if facts.disk.manifest.Active? {
        if !intact { return false; }
        ok := Activate(OnPostgres(facts.disk.manifest.job));
        return;
      }
      return intact;
    }

    /** `drain` up to the point where it yields. `waits` are the releases seen by each wait before
        the deadline, and `exclusive` says whether the file lease was granted in time. */
    method Drain(waits: seq<seq<RecordId>>, exclusive: bool) returns (entered: bool)
      requires Valid()
      modifies this`barrier, this`borrowed, this`marked, this`leased, this`sqlite
      ensures Valid()
      ensures entered <==> exclusive && old(marked) <= Released(waits)
      ensures entered ==> barrier && borrowed == 0 && View() == EMPTY
      ensures !entered ==> !barrier && (borrowed > 0 || !exclusive)
      ensures marked <= old(marked)
    {
      hide Released, Elements;
      ghost var before := marked;
      hide Counted;
      barrier := true;
      var n := 0;
      NothingReleased(waits);
      while borrowed != 0
        invariant Valid() && barrier && n <= |waits|
        invariant marked == before - Released(waits[..n])
        decreases |waits| - n + if borrowed != 0 then 1 else 0
      {
        if n == |waits| {
          PoolIsCounted(View());
          SomethingIsOut(before, waits, marked);
          barrier := false;
          return false;
        }
        OneMoreWait(before, waits, n);
        ReleaseAll(waits[n]);
        n := n + 1;
      }
      PoolIsCounted(View());
      NothingIsOut(before, waits, n, marked);
      if !exclusive {
        barrier := false;
        return false;
      }
      return true;
    }

    method ReleaseAll(rs: seq<RecordId>)
      requires Valid()
      modifies this`borrowed, this`marked, this`leased, this`sqlite
      ensures Valid() && marked == old(marked) - Elements(rs)
    {
      assert Elements(rs[..0]) == {};
      hide Elements;
      for k := 0 to |rs|
        invariant Valid() && marked == old(marked) - Elements(rs[..k])
      {
        ElementsGrow(rs, k);
        OnRelease(rs[k]);
      }
      assert rs[..|rs|] == rs;
    }

    /** The end of `drain`, reached from its body and from every failure of it. */
    method EndDrain()
      modifies this`barrier
      ensures !barrier
    {
      barrier := false;
    }
  }
}
