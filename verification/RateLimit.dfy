/** data_sources/polygon_data.py, `_rate_limit`: five requests a minute by a sliding window.
  * The clock is monotone and a sleep lasts at least as long as asked. */
module RateLimiting {
  import opened Seqs

  const LIMIT := 5
  const WINDOW := 60.0

  function Recent(now: real): real -> bool { (t: real) => now - t < WINDOW }

  function Pruned(times: seq<real>, now: real): seq<real> { Filter(Recent(now), times) }

  /** How long the call sleeps, from its pruned list. */
  function Wait(pruned: seq<real>, now: real): real {
    if |pruned| >= LIMIT && WINDOW - (now - pruned[0]) > 0.0 then WINDOW - (now - pruned[0]) else 0.0
  }

  /** One call: the clock when it starts, and when it records its request. */
  datatype Call = Call(now: real, later: real)

  /** The list the object keeps, with every request ever recorded. */
  datatype Limiter = Limiter(times: seq<real>, all: seq<real>)

  function Make(s: Limiter, c: Call): Limiter {
    Limiter(Pruned(s.times, c.now) + [c.later], s.all + [c.later])
  }

  function Last(s: seq<real>, default: real): real { if s == [] then default else s[|s| - 1] }

  /** The clock never runs back, and the sleep is not cut short. */
  predicate Timely(s: Limiter, c: Call) {
    Last(s.all, c.now) <= c.now && c.later >= c.now + Wait(Pruned(s.times, c.now), c.now)
  }

  function MakeAll(s: Limiter, run: seq<Call>): Limiter {
    if run == [] then s else Make(MakeAll(s, run[..|run| - 1]), run[|run| - 1])
  }

  predicate AllTimely(s: Limiter, run: seq<Call>) {
    run == [] || (AllTimely(s, run[..|run| - 1]) && Timely(MakeAll(s, run[..|run| - 1]), run[|run| - 1]))
  }

  predicate Sorted(s: seq<real>) { forall i, j | 0 <= i <= j < |s| :: s[i] <= s[j] }

  predicate Spaced(s: seq<real>) { forall i | 0 <= i < |s| - LIMIT :: s[i + LIMIT] - s[i] >= WINDOW }

  /** If the k-th latest request is recent it is kept, with everything after it. */
  lemma {:induction false} RecentKept(s: seq<real>, now: real, k: nat)
    requires Sorted(s) && 1 <= k <= |s| && now - s[|s| - k] < WINDOW
    ensures var p := Pruned(s, now); |p| >= k && p[|p| - k] == s[|s| - k]
  {
    var front := s[..|s| - 1];
    assert s[|s| - k] <= s[|s| - 1];
    if k > 1 { RecentKept(front, now, k - 1); }
  }

  /** If it is not, it is dropped with everything before it. */
  lemma {:induction false} OldDropped(s: seq<real>, now: real, k: nat)
    requires Sorted(s) && k >= 1 && (k <= |s| ==> now - s[|s| - k] >= WINDOW)
    ensures |Pruned(s, now)| < k
  {
    if s != [] {
      if k == 1 {
        FilterNone(Recent(now), s);
      } else {
        OldDropped(s[..|s| - 1], now, k - 1);
      }
    }
  }

  /** Pruning the whole history instead of the kept list would give the same: a request out of the
    * window never comes back. */
  lemma {:induction false} PrunedIsRecent(run: seq<Call>, now: real)
    requires AllTimely(Limiter([], []), run)
    requires Last(MakeAll(Limiter([], []), run).all, now) <= now
    ensures var s := MakeAll(Limiter([], []), run); Pruned(s.times, now) == Pruned(s.all, now)
  {
    if run != [] {
      var s, c := MakeAll(Limiter([], []), run[..|run| - 1]), run[|run| - 1];
      PrunedIsRecent(run[..|run| - 1], c.now);
      FilterAppend(Recent(now), Pruned(s.all, c.now), [c.later]);
      FilterAppend(Recent(now), s.all, [c.later]);
      FilterWithin(Recent(now), Recent(c.now), s.all);
    }
  }

  /** The part of a sorted, spaced history that pruning leaves: at most five requests. */
  lemma RecentAtMostFive(all: seq<real>, now: real)
    requires Sorted(all) && Spaced(all) && Last(all, now) <= now
    ensures var p := Pruned(all, now);
            && |p| <= LIMIT
            && (|p| == LIMIT <==> |all| >= LIMIT && now - all[|all| - LIMIT] < WINDOW)
            && (|p| == LIMIT ==> p[0] == all[|all| - LIMIT])
  {
    var n := |all|;
    if n >= 6 { assert all[n - 6 + LIMIT] - all[n - 6] >= WINDOW; }
    OldDropped(all, now, 6);
    if n >= LIMIT && now - all[n - LIMIT] < WINDOW {
      RecentKept(all, now, LIMIT);
    } else {
      OldDropped(all, now, LIMIT);
    }
  }

  lemma AppendSpaced(all: seq<real>, now: real, later: real)
    requires Sorted(all) && Spaced(all) && Last(all, now) <= now
    requires later >= now + Wait(Pruned(all, now), now)
    ensures Sorted(all + [later]) && Spaced(all + [later])
  {
    RecentAtMostFive(all, now);
    assert forall i | 0 <= i < |all| :: all[i] <= all[|all| - 1] <= later;
  }

  lemma {:induction false} RunSpaced(run: seq<Call>)
    requires AllTimely(Limiter([], []), run)
    ensures var s := MakeAll(Limiter([], []), run); |s.all| == |run| && Sorted(s.all) && Spaced(s.all)
  {
    if run != [] {
      var s, c := MakeAll(Limiter([], []), run[..|run| - 1]), run[|run| - 1];
      RunSpaced(run[..|run| - 1]);
      PrunedIsRecent(run[..|run| - 1], c.now);
      AppendSpaced(s.all, c.now, c.later);
    }
  }

  /** After any run the next wait is exactly what is missing to a minute since the fifth latest
    * request, if anything: the limiter neither admits a request too early nor delays it needlessly. */
  lemma WaitExact(run: seq<Call>, now: real)
    requires AllTimely(Limiter([], []), run)
    requires Last(MakeAll(Limiter([], []), run).all, now) <= now
    ensures var s := MakeAll(Limiter([], []), run);
            && |Pruned(s.times, now)| <= LIMIT
            && Wait(Pruned(s.times, now), now)
               == if |s.all| >= LIMIT && now - s.all[|s.all| - LIMIT] < WINDOW then WINDOW - (now - s.all[|s.all| - LIMIT]) else 0.0
  {
    RunSpaced(run);
    PrunedIsRecent(run, now);
    RecentAtMostFive(MakeAll(Limiter([], []), run).all, now);
  }

  /** Over any run, a request and the fifth one after it are at least a minute apart. */
  lemma FiveAMinute(run: seq<Call>, i: nat)
    requires AllTimely(Limiter([], []), run) && i + LIMIT < |run|
    ensures var s := MakeAll(Limiter([], []), run); |s.all| == |run| && s.all[i + LIMIT] - s.all[i] >= WINDOW
  {
    RunSpaced(run);
  }

  class PolygonSource {
    var requestTimes: seq<real>
    ghost var requests: seq<real>

    constructor ()
      ensures requestTimes == [] && requests == []
    {
      requestTimes, requests := [], [];
    }

    /** `now` and `later` are the two clock readings of the call. */
    method RateLimit(now: real, later: real)
      requires Timely(Limiter(requestTimes, requests), Call(now, later))
      modifies this
      ensures Limiter(requestTimes, requests) == Make(Limiter(old(requestTimes), old(requests)), Call(now, later))
    {
      var recent := [];
      for i := 0 to |requestTimes|
        invariant requestTimes == old(requestTimes) && requests == old(requests)
        invariant recent == Pruned(requestTimes[..i], now)
      {
        FilterOne(Recent(now), requestTimes[..i], requestTimes[i]);
        assert requestTimes[..i + 1] == requestTimes[..i] + [requestTimes[i]];
        if now - requestTimes[i] < WINDOW { recent := recent + [requestTimes[i]]; }
      }
      assert requestTimes[..|requestTimes|] == requestTimes;
      requestTimes := recent + [later];
      requests := requests + [later];
    }
  }
}
