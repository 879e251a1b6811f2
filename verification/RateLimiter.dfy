/** The sliding window of backend/app/core/rate_limit.py against the rule over the full history. */
module RateLimiter {
  import opened Prelude

  datatype Hit = Hit(key: string, time: real)

  /** The eviction of stale keys starts above this many keys. */
  const CROWD: nat := 10000

  /** The times of one key's hits. */
  function Times(history: seq<Hit>, key: string): seq<real> {
    if history == [] then []
    else
      var n := |history| - 1;
      Times(history[..n], key) + if history[n].key == key then [history[n].time] else []
  }

  /** Those at or after the cutoff. */
  function Recent(times: seq<real>, cutoff: real): seq<real> {
    if times == [] then [] else (if times[0] >= cutoff then [times[0]] else []) + Recent(times[1..], cutoff)
  }

  predicate Sorted(times: seq<real>) { forall j, k :: 0 <= j < k < |times| ==> times[j] <= times[k] }

  /** The rule: fewer than `max` accepted hits of the key in the closed window that ends now. */
  predicate Fits(history: seq<Hit>, key: string, now: real, window: real, max: int) {
    |Recent(Times(history, key), now - window)| < max
  }

  /* ---- Windows of a list ---- */

  lemma {:induction false} RecentConcat(a: seq<real>, b: seq<real>, cutoff: real)
    ensures Recent(a + b, cutoff) == Recent(a, cutoff) + Recent(b, cutoff)
    decreases |a|
  {
    if a == [] {
      assert a + b == b;
    } else {
      assert (a + b)[0] == a[0] && (a + b)[1..] == a[1..] + b;
      RecentConcat(a[1..], b, cutoff);
    }
  }

  lemma {:induction false} RecentTwice(times: seq<real>, c: real, d: real)
    requires c <= d
    ensures Recent(Recent(times, c), d) == Recent(times, d)
    decreases |times|
  {
    if times != [] {
      RecentTwice(times[1..], c, d);
      var head := if times[0] >= c then [times[0]] else [];
      RecentConcat(head, Recent(times[1..], c), d);
      if head != [] { assert Recent(head, d) == (if times[0] >= d then [times[0]] else []) + Recent(head[1..], d); }
    }
  }

  lemma {:induction false} RecentAll(times: seq<real>, cutoff: real)
    requires forall k :: 0 <= k < |times| ==> times[k] >= cutoff
    ensures Recent(times, cutoff) == times
    decreases |times|
  {
    if times != [] { RecentAll(times[1..], cutoff); }
  }

  lemma {:induction false} RecentNone(times: seq<real>, cutoff: real)
    requires forall k :: 0 <= k < |times| ==> times[k] < cutoff
    ensures Recent(times, cutoff) == []
    decreases |times|
  {
    if times != [] { RecentNone(times[1..], cutoff); }
  }

  lemma {:induction false} RecentShrinks(times: seq<real>, c: real, d: real)
    requires c <= d
    ensures |Recent(times, d)| <= |Recent(times, c)|
    decreases |times|
  {
    if times != [] { RecentShrinks(times[1..], c, d); }
  }

  lemma TimesStep(history: seq<Hit>, hit: Hit, key: string)
    ensures Times(history + [hit], key) == if hit.key == key then Times(history, key) + [hit.time] else Times(history, key)
  {
    assert (history + [hit])[..|history|] == history;
    assert Times(history, key) + [] == Times(history, key);
  }

  /* ---- Whole histories ---- */

  /** The accepted hits of a list of calls, by the rule. */
  function Accepted(calls: seq<Hit>, window: real, max: int): seq<Hit> {
    if calls == [] then []
    else
      var n := |calls| - 1;
      var before := Accepted(calls[..n], window, max);
      if Fits(before, calls[n].key, calls[n].time, window, max) then before + [calls[n]] else before
  }

  /** The accepted hits of a key from `from` to `until`, both included. */
  function Within(times: seq<real>, from: real, until: real): nat {
    if times == [] then 0
    else Within(times[..|times| - 1], from, until) + if from <= times[|times| - 1] <= until then 1 else 0
  }

  lemma {:induction false} WithinRecent(times: seq<real>, from: real, until: real)
    ensures Within(times, from, until) <= |Recent(times, from)|
    decreases |times|
  {
    if times != [] {
      var n := |times| - 1;
      WithinRecent(times[..n], from, until);
      RecentConcat(times[..n], [times[n]], from);
      assert times == times[..n] + [times[n]];
      assert Recent([times[n]], from) == (if times[n] >= from then [times[n]] else []) + Recent([times[n]][1..], from);
    }
  }

  lemma WithinStep(times: seq<real>, t: real, from: real, until: real)
    ensures Within(times + [t], from, until) == Within(times, from, until) + if from <= t <= until then 1 else 0
  {
    assert (times + [t])[..|times|] == times;
  }

  /** Main result 1. Whatever the calls, no window of that length, wherever it starts, ever contains
      more than `max` accepted hits of a key. */
  lemma {:induction false} NoWindowOverflows(calls: seq<Hit>, window: real, max: nat, key: string, from: real)
    ensures Within(Times(Accepted(calls, window, max), key), from, from + window) <= max
    decreases |calls|
  {
    hide Times, Recent, Within;
    if calls == [] {
      NothingWithin(key, from, from + window);
    } else {
      var n := |calls| - 1;
      var before := Accepted(calls[..n], window, max);
      NoWindowOverflows(calls[..n], window, max, key, from);
      var hit := calls[n];
      if Fits(before, hit.key, hit.time, window, max) && hit.key == key {
        var times := Times(before, key);
        TimesStep(before, hit, key);
        WithinStep(times, hit.time, from, from + window);
        if from <= hit.time <= from + window {
          WithinRecent(times, from, from + window);
          RecentShrinks(times, hit.time - window, from);
        }
      } else {
        TimesStep(before, hit, key);
      }
    }
  }

  lemma NothingWithin(key: string, from: real, until: real)
    ensures Within(Times([], key), from, until) == 0
  {
  }

  /* ---- The limiter ---- */

  /** From `now` on, no call can tell the bucket from the full history of its key. */
  predicate Faithful(bucket: seq<real>, times: seq<real>, window: real, now: real) {
    && Sorted(bucket) && (forall k :: 0 <= k < |bucket| ==> bucket[k] <= now)
    && Recent(bucket, now - window) == Recent(times, now - window)
  }

  lemma StaysFaithful(bucket: seq<real>, times: seq<real>, window: real, now: real, later: real)
    requires Faithful(bucket, times, window, now) && now <= later
    ensures Faithful(bucket, times, window, later)
  {
    RecentTwice(bucket, now - window, later - window);
    RecentTwice(times, now - window, later - window);
  }

  lemma AppendIsFaithful(bucket: seq<real>, times: seq<real>, window: real, now: real)
    requires Faithful(bucket, times, window, now)
    ensures Faithful(bucket + [now], times + [now], window, now)
  {
    RecentConcat(bucket, [now], now - window);
    RecentConcat(times, [now], now - window);
    hide Recent;
  }

  lemma RecentIsFaithful(bucket: seq<real>, times: seq<real>, window: real, now: real)
    requires Faithful(bucket, times, window, now)
    ensures Faithful(Recent(bucket, now - window), times, window, now)
  {
    RecentTwice(bucket, now - window, now - window);
    RecentIsSorted(bucket, now - window);
    var r := Recent(bucket, now - window);
    forall k | 0 <= k < |r| ensures r[k] <= now { assert r[k] in r && r[k] in bucket; }
  }

  lemma {:induction false} RecentIsSorted(times: seq<real>, cutoff: real)
    requires Sorted(times)
    ensures Sorted(Recent(times, cutoff)) && (forall t :: t in Recent(times, cutoff) ==> t in times)
    decreases |times|
  {
    if times != [] { RecentIsSorted(times[1..], cutoff); }
  }

  predicate Stale(bucket: seq<real>, cutoff: real) { bucket == [] || bucket[|bucket| - 1] < cutoff }

  lemma StaleIsFaithful(bucket: seq<real>, times: seq<real>, window: real, now: real)
    requires Faithful(bucket, times, window, now) && Stale(bucket, now - window)
    ensures Faithful([], times, window, now)
  {
    RecentNone(bucket, now - window);
  }

  /** The pop loop leaves exactly the recent part of a sorted bucket. */
  method DropOld(bucket: seq<real>, cutoff: real) returns (r: seq<real>)
    requires Sorted(bucket)
    ensures r == Recent(bucket, cutoff)
  {
    r := bucket;
    while r != [] && r[0] < cutoff
      invariant Sorted(r) && Recent(r, cutoff) == Recent(bucket, cutoff)
      decreases |r|
    {
      r := r[1..];
    }
    RecentAll(r, cutoff);
  }

  function BucketOf(hits: map<string, seq<real>>, key: string): seq<real> {
    if key in hits then hits[key] else []
  }

  ghost predicate AllFaithful(hits: map<string, seq<real>>, history: seq<Hit>, window: real, now: real) {
    forall key :: Faithful(BucketOf(hits, key), Times(history, key), window, now)
  }

  lemma AllStay(hits: map<string, seq<real>>, history: seq<Hit>, window: real, now: real, later: real)
    requires AllFaithful(hits, history, window, now) && now <= later
    ensures AllFaithful(hits, history, window, later)
  {
    forall key ensures Faithful(BucketOf(hits, key), Times(history, key), window, later) {
      StaysFaithful(BucketOf(hits, key), Times(history, key), window, now, later);
    }
  }

  lemma AllDrop(hits: map<string, seq<real>>, history: seq<Hit>, window: real, now: real, key: string)
    requires AllFaithful(hits, history, window, now)
    ensures AllFaithful(hits[key := Recent(BucketOf(hits, key), now - window)], history, window, now)
  {
    RecentIsFaithful(BucketOf(hits, key), Times(history, key), window, now);
    var after := hits[key := Recent(BucketOf(hits, key), now - window)];
    forall k ensures Faithful(BucketOf(after, k), Times(history, k), window, now) {
      assert Faithful(BucketOf(hits, k), Times(history, k), window, now);
    }
  }

  lemma AllAppend(hits: map<string, seq<real>>, history: seq<Hit>, window: real, now: real, key: string)
    requires AllFaithful(hits, history, window, now)
    ensures AllFaithful(hits[key := BucketOf(hits, key) + [now]], history + [Hit(key, now)], window, now)
  {
    AppendIsFaithful(BucketOf(hits, key), Times(history, key), window, now);
    var after := hits[key := BucketOf(hits, key) + [now]];
    forall k ensures Faithful(BucketOf(after, k), Times(history + [Hit(key, now)], k), window, now) {
      assert Faithful(BucketOf(hits, k), Times(history, k), window, now);
      TimesStep(history, Hit(key, now), k);
    }
  }

  lemma AllEvict(hits: map<string, seq<real>>, kept: map<string, seq<real>>, history: seq<Hit>, window: real, now: real)
    requires AllFaithful(hits, history, window, now)
    requires forall k :: k in kept ==> k in hits && kept[k] == hits[k]
    requires forall k :: k in hits && k !in kept ==> Stale(hits[k], now - window)
    ensures AllFaithful(kept, history, window, now)
  {
    forall k ensures Faithful(BucketOf(kept, k), Times(history, k), window, now) {
      assert Faithful(BucketOf(hits, k), Times(history, k), window, now);
      if k in hits && k !in kept { StaleIsFaithful(hits[k], Times(history, k), window, now); }
    }
  }

  class SlidingWindowRateLimiter {
    const max: int
    const window: real
    var hits: map<string, seq<real>>
    ghost var calls: seq<Hit>
    ghost var clock: real

    ghost function History(): seq<Hit>
      reads this
    {
      Accepted(calls, window, max)
    }

    ghost predicate Valid()
      reads this
    {
      AllFaithful(hits, History(), window, clock)
    }

    constructor (max: int, window: real, now: real)
      ensures Valid() && this.max == max && this.window == window && calls == [] && clock == now
    {
      this.max, this.window, hits, calls, clock := max, window, map[], [], now;
    }

    /** Main result 2. Forgetting old hits and stale keys never changes an answer: a call is accepted
        exactly when the rule over the full history accepts it. */
    method Allow(key: string, now: real) returns (ok: bool)
      requires Valid() && clock <= now
      modifies this
      ensures Valid() && clock == now && calls == old(calls) + [Hit(key, now)]
      ensures ok <==> Fits(old(History()), key, now, window, max)
      ensures History() == if ok then old(History()) + [Hit(key, now)] else old(History())
    {
      hide Faithful, Recent, Times;
      ghost var before := History();
      AllStay(hits, before, window, clock, now);
      var bucket := if key in hits then hits[key] else [];
      assert Faithful(BucketOf(hits, key), Times(before, key), window, now);
      FaithfulCounts(bucket, Times(before, key), window, now);
      bucket := DropOld(bucket, now - window);
      AllDrop(hits, before, window, now, key);
      hits := hits[key := bucket];
      clock, calls := now, calls + [Hit(key, now)];
      assert calls[..|calls| - 1] == old(calls);
      if |bucket| >= max { return false; }
      AllAppend(hits, before, window, now, key);
      hits := hits[key := bucket + [now]];
      ok := true;
      if |hits| > CROWD { EvictStale(now - window); }
    }

    /** Delete every key whose newest hit has left the window, and no other. */
    method EvictStale(cutoff: real)
      requires Valid() && cutoff == clock - window
      modifies this`hits
      ensures Valid()
      ensures hits == map k | k in old(hits) && !Stale(old(hits)[k], clock - window) :: old(hits)[k]
    {
      hide Faithful, Recent, Times, Accepted;
      var stale := set k | k in hits && Stale(hits[k], cutoff);
      while stale != {}
        invariant stale <= hits.Keys
        invariant forall k :: k in hits ==> k in old(hits) && hits[k] == old(hits)[k]
        invariant forall k :: k in old(hits) && k !in hits ==> Stale(old(hits)[k], cutoff)
        invariant forall k :: k in hits && Stale(hits[k], cutoff) <==> k in stale
        decreases stale
      {
        var k :| k in stale;
        hits := hits - {k};
        stale := stale - {k};
      }
      AllEvict(old(hits), hits, History(), window, clock);
    }
  }

  lemma FaithfulCounts(bucket: seq<real>, times: seq<real>, window: real, now: real)
    requires Faithful(bucket, times, window, now)
    ensures Sorted(bucket) && Recent(bucket, now - window) == Recent(times, now - window)
  {
  }
}
