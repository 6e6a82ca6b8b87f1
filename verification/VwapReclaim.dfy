/** vwap_utils.py, `detect_vwap_reclaim`: two index loops against a declarative pattern. */
module VwapReclaim {

  function Max(x: int, y: int): int { if x >= y then x else y }

  /** The first bar of the window: all but the two confirmation bars, `lookback` bars far. */
  function Start(n: nat, lookback: int): nat { Max(0, n - lookback - 2) }

  /** The last bar of the window below VWAP. */
  predicate IsDip(closes: seq<real>, vwaps: seq<real>, lookback: int, d: int)
    requires |closes| == |vwaps|
  {
    && Start(|closes|, lookback) <= d < |closes| - 2 && closes[d] < vwaps[d]
    && forall k | d < k < |closes| - 2 :: closes[k] >= vwaps[k]
  }

  predicate HasContext(closes: seq<real>, vwaps: seq<real>, lookback: int, d: int)
    requires |closes| == |vwaps| && d <= |closes|
  {
    exists k | Start(|closes|, lookback) <= k < d :: closes[k] > vwaps[k]
  }

  /** The documented pattern: two confirming bars, a recent enough dip, and a bar above before it. */
  predicate Reclaims(closes: seq<real>, vwaps: seq<real>, lookback: int, maxDipAge: int)
    requires |closes| == |vwaps|
  {
    var n := |closes|;
    && n >= 4 && closes[n - 1] > vwaps[n - 1] && closes[n - 2] > vwaps[n - 2]
    && exists d | 0 <= d < n - 2 ::
         IsDip(closes, vwaps, lookback, d) && n - 2 - d <= maxDipAge && HasContext(closes, vwaps, lookback, d)
  }

  lemma DipUnique(closes: seq<real>, vwaps: seq<real>, lookback: int, d: int, d': int)
    requires |closes| == |vwaps| && IsDip(closes, vwaps, lookback, d) && IsDip(closes, vwaps, lookback, d')
    ensures d == d'
  {
  }

  method DetectVwapReclaim(closes: seq<real>, vwaps: seq<real>, lookback: int := 6, maxDipAge: int := 4) returns (found: bool)
    requires |closes| == |vwaps|
    ensures found <==> Reclaims(closes, vwaps, lookback, maxDipAge)
  {
    var n := |closes|;
    if n < 4 { return false; }
    if closes[n - 1] <= vwaps[n - 1] || closes[n - 2] <= vwaps[n - 2] { return false; }
    var start := Start(n, lookback);
    var length := Max(0, n - 2 - start);
    var i := length - 1;
    while i >= 0 && closes[start + i] >= vwaps[start + i]
      invariant -1 <= i < length
      invariant forall k | start + i < k < n - 2 :: closes[k] >= vwaps[k]
    {
      i := i - 1;
    }
    if i < 0 { return false; }
    var dip := start + i;
    assert IsDip(closes, vwaps, lookback, dip);
    forall d | IsDip(closes, vwaps, lookback, d) ensures d == dip {
      DipUnique(closes, vwaps, lookback, d, dip);
    }
    var dipAge := (length - 1 - i) + 1;
    if dipAge > maxDipAge { return false; }
    for j := 0 to i
      invariant forall k | start <= k < start + j :: closes[k] <= vwaps[k]
    {
      if closes[start + j] > vwaps[start + j] {
        assert HasContext(closes, vwaps, lookback, dip);
        return true;
      }
    }
    return false;
  }

  /** The last `w` values are the same. */
  predicate SameEnd(c: seq<real>, d: seq<real>, w: nat) {
    w <= |c| && w <= |d| && forall k | |c| - w <= k < |c| :: c[k] == d[k - |c| + |d|]
  }

  lemma ReclaimShifts(c: seq<real>, v: seq<real>, d: seq<real>, u: seq<real>, lookback: int, maxDipAge: int)
    requires |c| == |v| && |d| == |u| && |d| >= 4 && lookback >= 0
    requires SameEnd(c, d, lookback + 2) && SameEnd(v, u, lookback + 2) && Reclaims(c, v, lookback, maxDipAge)
    ensures Reclaims(d, u, lookback, maxDipAge)
  {
    var n, s := |c|, |d| - |c|;
    var dip :| 0 <= dip < n - 2 && IsDip(c, v, lookback, dip) && n - 2 - dip <= maxDipAge && HasContext(c, v, lookback, dip);
    var k :| Start(n, lookback) <= k < dip && c[k] > v[k];
    assert c[k] == d[k + s] && v[k] == u[k + s];
    assert HasContext(d, u, lookback, dip + s);
    assert c[dip] == d[dip + s] && v[dip] == u[dip + s];
    forall j | dip + s < j < |d| - 2 ensures d[j] >= u[j] {
      assert c[j - s] == d[j] && v[j - s] == u[j];
    }
    assert IsDip(d, u, lookback, dip + s);
    assert c[n - 1] == d[|d| - 1] && v[n - 1] == u[|d| - 1] && c[n - 2] == d[|d| - 2] && v[n - 2] == u[|d| - 2];
  }

  lemma SameEndBack(c: seq<real>, d: seq<real>, w: nat)
    requires SameEnd(c, d, w)
    ensures SameEnd(d, c, w)
  {
  }

  /** Only the last `lookback + 2` bars matter: series of four bars or more that agree on them give
    * the same answer. */
  lemma OnlyRecentBars(c: seq<real>, v: seq<real>, d: seq<real>, u: seq<real>, lookback: nat, maxDipAge: int)
    requires |c| == |v| && |d| == |u| && |c| >= 4 && |d| >= 4
    requires SameEnd(c, d, lookback + 2) && SameEnd(v, u, lookback + 2)
    ensures Reclaims(c, v, lookback, maxDipAge) <==> Reclaims(d, u, lookback, maxDipAge)
  {
    SameEndBack(c, d, lookback + 2);
    SameEndBack(v, u, lookback + 2);
    if Reclaims(c, v, lookback, maxDipAge) { ReclaimShifts(c, v, d, u, lookback, maxDipAge); }
    if Reclaims(d, u, lookback, maxDipAge) { ReclaimShifts(d, u, c, v, lookback, maxDipAge); }
  }

  /** Looking further back, or accepting an older dip, never loses a reclaim. */
  lemma MoreIsNeverLess(closes: seq<real>, vwaps: seq<real>, lookback: int, lookback': int, maxDipAge: int, maxDipAge': int)
    requires |closes| == |vwaps| && lookback <= lookback' && maxDipAge <= maxDipAge'
    requires Reclaims(closes, vwaps, lookback, maxDipAge)
    ensures Reclaims(closes, vwaps, lookback', maxDipAge')
  {
    var n := |closes|;
    var d :| 0 <= d < n - 2 && IsDip(closes, vwaps, lookback, d) && n - 2 - d <= maxDipAge && HasContext(closes, vwaps, lookback, d);
    assert IsDip(closes, vwaps, lookback', d) && HasContext(closes, vwaps, lookback', d);
  }

  /** Closes for VWAPs of one: above in the first bar, below in the second, at VWAP, above in the last two. */
  function Sample(lookback: nat): seq<real> {
    seq(lookback + 2, i requires 0 <= i < lookback + 2 =>
      if i == 0 || i >= lookback then 2.0 else if i == 1 then 0.0 else 1.0)
  }

  function Ones(n: nat): seq<real> { seq(n, i => 1.0) }

  /** The bounds are tight: the detector sees `lookback` bars before the two confirming ones and no further,
    * and a dip is recent enough exactly up to `maxDipAge` bars. */
  lemma SampleExact(lookback: nat, maxDipAge: int)
    requires lookback >= 2
    ensures var c, v := Sample(lookback), Ones(lookback + 2);
            && (Reclaims(c, v, lookback, maxDipAge) <==> maxDipAge >= lookback - 1)
            && !Reclaims(c, v, lookback - 1, maxDipAge)
  {
    var c, v := Sample(lookback), Ones(lookback + 2);
    assert IsDip(c, v, lookback, 1) && c[0] > v[0];
    assert HasContext(c, v, lookback, 1);
    forall d | IsDip(c, v, lookback, d) ensures d == 1 { DipUnique(c, v, lookback, d, 1); }
  }
}
