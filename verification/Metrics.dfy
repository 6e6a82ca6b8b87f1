/** backtests/metrics.py: the drawdown loop against its definition, and the group summaries against
  * the totals and the simulator's accounts. */
module Metrics {
  import opened Seqs
  import opened FillModel
  import opened FillSimulation

  // ------------------------------------------------------------------ drawdown

  /** The highest equity up to and including point `j`. */
  function Peak(eq: seq<real>, j: nat): real
    requires j < |eq|
  {
    if j == 0 || eq[j] > Peak(eq, j - 1) then eq[j] else Peak(eq, j - 1)
  }

  function Ratio(fall: real, peak: real): real { if peak != 0.0 then fall / peak else 0.0 }

  /** The share of the peak that a fall is, up to sign; of a zero peak it is none. */
  lemma RatioMeans(fall: real, peak: real)
    ensures peak != 0.0 ==> Ratio(fall, peak) * peak == fall
    ensures peak == 0.0 ==> Ratio(fall, peak) == 0.0
    ensures var pct := Abs(Ratio(fall, peak)); pct >= 0.0 && (pct == Ratio(fall, peak) || pct == -Ratio(fall, peak))
  {
  }

  /** The worst fall below the peak so far, and the point where it was first reached. */
  datatype Fall = Fall(dd: real, at: nat)

  function WorstFall(eq: seq<real>, n: nat): Fall
    requires n <= |eq|
  {
    if n == 0 then Fall(0.0, 0)
    else
      var w, fall := WorstFall(eq, n - 1), eq[n - 1] - Peak(eq, n - 1);
      if fall < w.dd then Fall(fall, n - 1) else w
  }

  lemma {:induction false} PeakIsMax(eq: seq<real>, j: nat)
    requires j < |eq|
    ensures forall i | 0 <= i <= j :: eq[i] <= Peak(eq, j)
    ensures exists i :: 0 <= i <= j && eq[i] == Peak(eq, j)
  {
    if j == 0 || eq[j] > Peak(eq, j - 1) {
      if j != 0 { PeakIsMax(eq, j - 1); }
      assert eq[j] == Peak(eq, j);
    } else {
      PeakIsMax(eq, j - 1);
    }
  }

  /** No fall from any point to a later one is worse. */
  lemma {:induction false} WorstIsLeast(eq: seq<real>, n: nat, i: nat, j: nat)
    requires i <= j < n <= |eq|
    ensures WorstFall(eq, n).dd <= eq[j] - eq[i]
  {
    PeakIsMax(eq, n - 1);
    if j < n - 1 { WorstIsLeast(eq, n - 1, i, j); }
  }

  lemma {:induction false} WorstIsAttained(eq: seq<real>, n: nat)
    requires 0 < n <= |eq|
    ensures var w := WorstFall(eq, n); w.dd <= 0.0 && w.at < n && (w.dd < 0.0 ==> w.dd == eq[w.at] - Peak(eq, w.at))
  {
    if n > 1 { WorstIsAttained(eq, n - 1); }
  }

  /** The largest fall from any point to a later one. */
  ghost predicate IsDrawdown(eq: seq<real>, dd: real) {
    && (forall i, j | 0 <= i <= j < |eq| :: dd <= eq[j] - eq[i])
    && exists i, j :: 0 <= i <= j < |eq| && dd == eq[j] - eq[i]
  }

  lemma WorstIsDrawdown(eq: seq<real>)
    requires eq != []
    ensures IsDrawdown(eq, WorstFall(eq, |eq|).dd)
  {
    var w := WorstFall(eq, |eq|);
    forall i, j | 0 <= i <= j < |eq| ensures w.dd <= eq[j] - eq[i] { WorstIsLeast(eq, |eq|, i, j); }
    WorstIsAttained(eq, |eq|);
    PeakIsMax(eq, w.at);
    if w.dd < 0.0 {
      var i :| 0 <= i <= w.at && eq[i] == Peak(eq, w.at);
      assert w.dd == eq[w.at] - eq[i];
    } else {
      assert w.dd == eq[0] - eq[0];
    }
  }

  /** `_compute_max_drawdown`: one pass with a running maximum; the percentage is of the peak that
    * the worst fall was measured from. */
  method MaxDrawdown(eq: seq<real>) returns (dd: real, pct: real)
    ensures eq == [] ==> dd == 0.0 && pct == 0.0
    ensures eq != [] ==> IsDrawdown(eq, dd) && (dd == 0.0 ==> pct == 0.0)
    ensures dd < 0.0 ==> exists j :: 0 <= j < |eq| && dd == eq[j] - Peak(eq, j) && pct == Abs(Ratio(dd, Peak(eq, j)))
  {
    if eq == [] { return 0.0, 0.0; }
    var runningMax := eq[0];
    dd, pct := 0.0, 0.0;
    for k := 0 to |eq|
      invariant runningMax == if k == 0 then eq[0] else Peak(eq, k - 1)
      invariant dd == WorstFall(eq, k).dd && dd <= 0.0
      invariant WorstFall(eq, k).at < |eq|
      invariant pct == if dd == 0.0 then 0.0 else Ratio(dd, Peak(eq, WorstFall(eq, k).at))
    {
      if eq[k] > runningMax { runningMax := eq[k]; }
      var fall := eq[k] - runningMax;
      var fallPct := if runningMax != 0.0 then fall / runningMax else 0.0;
      if fall < dd { dd, pct := fall, fallPct; }
    }
    WorstIsDrawdown(eq);
    WorstIsAttained(eq, |eq|);
    pct := if pct < 0.0 then -pct else pct;
  }

  // ------------------------------------------------------------------ groups

  /** What every summary is computed from. */
  datatype Sheet = Sheet(num: nat, wins: nat, losses: nat, pnl: real, won: real, lost: real)

  const BLANK := Sheet(0, 0, 0, 0.0, 0.0, 0.0)

  function Plus(a: Sheet, b: Sheet): Sheet {
    Sheet(a.num + b.num, a.wins + b.wins, a.losses + b.losses, a.pnl + b.pnl, a.won + b.won, a.lost + b.lost)
  }

  function One(x: Trade): Sheet {
    Sheet(1, if x.pnl > 0.0 then 1 else 0, if x.pnl < 0.0 then 1 else 0, x.pnl,
          if x.pnl > 0.0 then x.pnl else 0.0, if x.pnl < 0.0 then x.pnl else 0.0)
  }

  function SheetOf(s: seq<Trade>): Sheet {
    if s == [] then BLANK else Plus(SheetOf(s[..|s| - 1]), One(s[|s| - 1]))
  }

  function Winning(): Trade -> bool { (x: Trade) => x.pnl > 0.0 }

  function Losing(): Trade -> bool { (x: Trade) => x.pnl < 0.0 }

  /** The sheet is the source's comprehensions: lengths and sums of filtered lists. */
  lemma {:induction false} SheetIsSums(s: seq<Trade>)
    ensures var c := SheetOf(s);
            && c.num == |s| && c.wins == |Filter(Winning(), s)| && c.losses == |Filter(Losing(), s)|
            && c.pnl == SumReal(TradePnl(), s)
            && c.won == SumReal(TradePnl(), Filter(Winning(), s)) && c.lost == SumReal(TradePnl(), Filter(Losing(), s))
  {
    if s != [] {
      var front, x := s[..|s| - 1], s[|s| - 1];
      SheetIsSums(front);
      if x.pnl > 0.0 { LastAdds(Filter(Winning(), front), x); }
      if x.pnl < 0.0 { LastAdds(Filter(Losing(), front), x); }
    }
  }

  lemma LastAdds(s: seq<Trade>, x: Trade)
    ensures SumReal(TradePnl(), s + [x]) == SumReal(TradePnl(), s) + x.pnl
  {
  }

  datatype Summary = Summary(
    num: nat, wins: nat, losses: nat, pnl: real, winRate: real, avgWin: real, avgLoss: real, profitFactor: real)

  /** The summary of one group; without losses its profit factor is zero. */
  function GroupSummary(c: Sheet): Summary {
    Summary(c.num, c.wins, c.losses, c.pnl,
            if c.num > 0 then c.wins as real / c.num as real else 0.0,
            if c.wins > 0 then c.won / c.wins as real else 0.0,
            if c.losses > 0 then c.lost / c.losses as real else 0.0,
            if c.lost != 0.0 then c.won / Abs(c.lost) else 0.0)
  }

  /** The overall summary; without losses its profit factor is a large constant, if anything was won. */
  function OverallSummary(c: Sheet): Summary {
    GroupSummary(c).(profitFactor := if c.lost != 0.0 then c.won / Abs(c.lost) else if c.won > 0.0 then 999.9 else 0.0)
  }

  function HasKey<K(==)>(key: Trade -> K, k: K): Trade -> bool { (x: Trade) => key(x) == k }

  function GroupOf<K(==)>(s: seq<Trade>, key: Trade -> K, k: K): seq<Trade> { Filter(HasKey(key, k), s) }

  predicate Distinct<K(==)>(keys: seq<K>) { forall i, j | 0 <= i < j < |keys| :: keys[i] != keys[j] }

  /** The sheets of the groups of the first `n` keys, added up. */
  function Summed<K(==)>(keys: seq<K>, n: nat, s: seq<Trade>, key: Trade -> K): Sheet
    requires n <= |keys|
  {
    if n == 0 then BLANK else Plus(Summed(keys, n - 1, s, key), SheetOf(GroupOf(s, key, keys[n - 1])))
  }

  lemma GroupGrows<K>(s: seq<Trade>, x: Trade, key: Trade -> K, k: K)
    ensures SheetOf(GroupOf(s + [x], key, k))
         == if key(x) == k then Plus(SheetOf(GroupOf(s, key, k)), One(x)) else SheetOf(GroupOf(s, key, k))
  {
  }

  lemma PlusLater(a: Sheet, b: Sheet, c: Sheet)
    ensures Plus(Plus(a, c), b) == Plus(Plus(a, b), c) == Plus(a, Plus(b, c)) && Plus(a, BLANK) == a
  {
  }

  /** The key is one of the first `n`. */
  predicate Among<K(==)>(keys: seq<K>, n: nat, k: K)
    requires n <= |keys|
  {
    n != 0 && (keys[n - 1] == k || Among(keys, n - 1, k))
  }

  lemma {:induction false} AmongIndex<K>(keys: seq<K>, n: nat, k: K)
    requires n <= |keys|
    ensures Among(keys, n, k) <==> exists i | 0 <= i < n :: keys[i] == k
  {
    if n != 0 { AmongIndex(keys, n - 1, k); }
  }

  /** One more trade adds its own sheet to exactly one of the distinct groups. */
  lemma {:induction false} SummedGrows<K>(keys: seq<K>, n: nat, s: seq<Trade>, x: Trade, key: Trade -> K)
    requires Distinct(keys) && n <= |keys|
    ensures Summed(keys, n, s + [x], key)
         == if Among(keys, n, key(x)) then Plus(Summed(keys, n, s, key), One(x)) else Summed(keys, n, s, key)
  {
    if n != 0 {
      SummedGrows(keys, n - 1, s, x, key);
      GroupGrows(s, x, key, keys[n - 1]);
      PlusLater(Summed(keys, n - 1, s, key), SheetOf(GroupOf(s, key, keys[n - 1])), One(x));
      AmongIndex(keys, n - 1, keys[n - 1]);
    }
  }

  lemma FilterNothing<A>(keep: A -> bool, s: seq<A>)
    requires |s| == 0
    ensures |Filter(keep, s)| == 0
  {
  }

  lemma SheetNothing(s: seq<Trade>)
    requires |s| == 0
    ensures SheetOf(s) == BLANK
  {
  }

  lemma {:induction false} SummedNothing<K>(keys: seq<K>, n: nat, none: seq<Trade>, key: Trade -> K)
    requires n <= |keys| && |none| == 0
    ensures Summed(keys, n, none, key) == BLANK
  {
    if n != 0 {
      SummedNothing(keys, n - 1, none, key);
      FilterNothing(HasKey(key, keys[n - 1]), none);
      SheetNothing(GroupOf(none, key, keys[n - 1]));
    }
  }

  /** The groups of distinct keys that cover all trades sum to the whole. */
  lemma {:induction false} GroupsSum<K>(keys: seq<K>, s: seq<Trade>, key: Trade -> K)
    requires Distinct(keys) && forall i | 0 <= i < |s| :: key(s[i]) in keys
    ensures Summed(keys, |keys|, s, key) == SheetOf(s)
  {
    if s == [] {
      SummedNothing(keys, |keys|, s, key);
    } else {
      var front, x := s[..|s| - 1], s[|s| - 1];
      assert s == front + [x];
      AmongIndex(keys, |keys|, key(x));
      GroupsSum(keys, front, key);
      SummedGrows(keys, |keys|, front, x, key);
    }
  }

  /** Counts and P&L of a dict of summaries, added up over the first `n` keys. */
  datatype Total = Total(num: int, wins: int, losses: int, pnl: real)

  function Totals<K(==)>(keys: seq<K>, n: nat, found: map<K, Summary>): Total
    requires n <= |keys| && forall i | 0 <= i < n :: keys[i] in found
  {
    if n == 0 then Total(0, 0, 0, 0.0)
    else
      var t, m := Totals(keys, n - 1, found), found[keys[n - 1]];
      Total(t.num + m.num, t.wins + m.wins, t.losses + m.losses, t.pnl + m.pnl)
  }

  lemma SummaryCounts(c: Sheet)
    ensures var m := GroupSummary(c); m.num == c.num && m.wins == c.wins && m.losses == c.losses && m.pnl == c.pnl
  {
  }

  ghost predicate Summarised<K>(keys: seq<K>, n: nat, found: map<K, Summary>, s: seq<Trade>, key: Trade -> K)
    requires n <= |keys|
  {
    forall i | 0 <= i < n :: keys[i] in found && found[keys[i]] == GroupSummary(SheetOf(GroupOf(s, key, keys[i])))
  }

  lemma {:induction false} TotalsAreSummed<K>(keys: seq<K>, n: nat, found: map<K, Summary>, s: seq<Trade>, key: Trade -> K)
    requires n <= |keys| && Summarised(keys, n, found, s, key)
    ensures var c := Summed(keys, n, s, key); Totals(keys, n, found) == Total(c.num, c.wins, c.losses, c.pnl)
  {
    if n != 0 {
      TotalsAreSummed(keys, n - 1, found, s, key);
      SummaryCounts(SheetOf(GroupOf(s, key, keys[n - 1])));
    }
  }

  predicate Occurs<K(==)>(s: seq<Trade>, key: Trade -> K, k: K) { exists i | 0 <= i < |s| :: key(s[i]) == k }

  /** The dict of lists: one list for each key that occurs, holding its trades in order. */
  ghost predicate Grouped<K(!new)>(keys: seq<K>, groups: map<K, seq<Trade>>, s: seq<Trade>, key: Trade -> K) {
    && Distinct(keys) && (forall k :: k in groups <==> k in keys) && (forall k :: k in keys <==> Occurs(s, key, k))
    && forall k :: k in keys ==> groups[k] == GroupOf(s, key, k)
  }

  lemma OccursOne<K>(s: seq<Trade>, x: Trade, key: Trade -> K, k: K)
    ensures Occurs(s + [x], key, k) <==> (Occurs(s, key, k) || key(x) == k)
    ensures !Occurs(s, key, k) ==> GroupOf(s, key, k) == []
  {
    assert (s + [x])[|s|] == x;
    if i :| 0 <= i < |s| && key(s[i]) == k {
      assert (s + [x])[i] == s[i];
    } else {
      FilterNone(HasKey(key, k), s);
    }
  }

  lemma GroupedGrows<K(!new)>(keys: seq<K>, groups: map<K, seq<Trade>>, s: seq<Trade>, x: Trade, key: Trade -> K)
    requires Grouped(keys, groups, s, key)
    ensures var k := key(x);
            Grouped(if k in groups then keys else keys + [k],
                    groups[k := (if k in groups then groups[k] else []) + [x]], s + [x], key)
  {
    var keys' := if key(x) in groups then keys else keys + [key(x)];
    forall k ensures k in keys' <==> Occurs(s + [x], key, k) { OccursOne(s, x, key, k); }
    forall k ensures GroupOf(s + [x], key, k) == GroupOf(s, key, k) + if key(x) == k then [x] else [] {
      FilterOne(HasKey(key, k), s, x);
    }
    OccursOne(s, x, key, key(x));
  }

  method GroupTrades<K(==, !new)>(s: seq<Trade>, key: Trade -> K) returns (keys: seq<K>, groups: map<K, seq<Trade>>)
    ensures Grouped(keys, groups, s, key)
  {
    keys, groups := [], map[];
    for n := 0 to |s|
      invariant Grouped(keys, groups, s[..n], key)
    {
      var x := s[n];
      var k := key(x);
      assert s[..n + 1] == s[..n] + [x];
      GroupedGrows(keys, groups, s[..n], x, key);
      if k in groups {
        groups := groups[k := groups[k] + [x]];
      } else {
        keys := keys + [k];
        groups := groups[k := [] + [x]];
      }
    }
    assert s[..|s|] == s;
  }

  /** `_compute_by_strategy` and `_compute_by_layer`: a dict of lists in order of first appearance,
    * then one summary for each list.  The summaries add up to the totals of all trades. */
  method ComputeBy<K(==, !new)>(s: seq<Trade>, key: Trade -> K) returns (keys: seq<K>, found: map<K, Summary>)
    ensures Distinct(keys) && forall k :: k in keys <==> Occurs(s, key, k)
    ensures found.Keys == (set k | k in keys) && Summarised(keys, |keys|, found, s, key)
    ensures Totals(keys, |keys|, found) == Total(|s|, |Filter(Winning(), s)|, |Filter(Losing(), s)|, SumReal(TradePnl(), s))
  {
    var groups;
    keys, groups := GroupTrades(s, key);
    found := map[];
    for n := 0 to |keys|
      invariant found.Keys == (set i | 0 <= i < n :: keys[i]) && Summarised(keys, n, found, s, key)
    {
      assert keys[n] in keys;
      found := found[keys[n] := GroupSummary(SheetOf(groups[keys[n]]))];
    }
    forall i | 0 <= i < |s| ensures key(s[i]) in keys { assert Occurs(s, key, key(s[i])); }
    GroupsSum(keys, s, key);
    TotalsAreSummed(keys, |keys|, found, s, key);
    SheetIsSums(s);
  }

  function ByLayer(): Trade -> Layer { (x: Trade) => x.layer }

  /** The P&L by layer adds up to the change of the simulator's equity, and without the options layer
    * to the change of its cash. */
  lemma LayersAreEquity(sim: FillSimulator, keys: seq<Layer>)
    requires sim.Balanced() && Distinct(keys) && forall i | 0 <= i < |sim.closedTrades| :: sim.closedTrades[i].layer in keys
    ensures Summed(keys, |keys|, sim.closedTrades, ByLayer()).pnl == sim.currentEquity - sim.startingEquity
    ensures SheetOf(GroupOf(sim.closedTrades, ByLayer(), Options)).pnl == sim.currentEquity - sim.cash
  {
    sim.MoneyConserved();
    GroupsSum(keys, sim.closedTrades, ByLayer());
    SheetIsSums(sim.closedTrades);
    OptionsGroup(sim.closedTrades);
  }

  lemma {:induction false} OptionsGroup(s: seq<Trade>)
    ensures SheetOf(GroupOf(s, ByLayer(), Options)).pnl == SumReal(OptionsPnl(), s)
  {
    if s != [] {
      var front, x := s[..|s| - 1], s[|s| - 1];
      assert s == front + [x];
      OptionsGroup(front);
      GroupGrows(front, x, ByLayer(), Options);
    }
  }

  lemma Share(x: real, d: real)
    requires d > 0.0
    ensures x / d * d == x
  {
  }

  /** The win rate times the trades is the wins; without trades it is zero. */
  lemma RateMeans(c: Sheet)
    ensures var m := GroupSummary(c); if c.num == 0 then m.winRate == 0.0 else m.winRate * c.num as real == c.wins as real
  {
    if c.num > 0 { Share(c.wins as real, c.num as real); }
  }

  /** The average win times the wins is what was won, and so for losses; without any it is zero. */
  lemma AveragesMean(c: Sheet)
    ensures var m := GroupSummary(c);
            && (if c.wins == 0 then m.avgWin == 0.0 else m.avgWin * c.wins as real == c.won)
            && (if c.losses == 0 then m.avgLoss == 0.0 else m.avgLoss * c.losses as real == c.lost)
  {
    if c.wins > 0 { Share(c.won, c.wins as real); }
    if c.losses > 0 { Share(c.lost, c.losses as real); }
  }

  /** The profit factor times what was lost is what was won; without losses it is zero in a group, and
    * overall a large constant if anything was won.  Otherwise the two summaries do not differ. */
  lemma FactorMeans(c: Sheet)
    requires c.lost <= 0.0
    ensures var m := GroupSummary(c); if c.lost == 0.0 then m.profitFactor == 0.0 else m.profitFactor * -c.lost == c.won
    ensures var all, m := OverallSummary(c), GroupSummary(c);
            && all.profitFactor == (if c.lost == 0.0 && c.won > 0.0 then 999.9 else m.profitFactor)
            && all == m.(profitFactor := all.profitFactor)
  {
    if c.lost != 0.0 { Share(c.won, -c.lost); }
  }

  /** When one group holds every trade, its summary is the overall one if and only if something was
    * lost or nothing was won: without losses the two profit factors differ. */
  lemma OneGroupExact<K>(s: seq<Trade>, key: Trade -> K, k: K)
    requires forall i | 0 <= i < |s| :: key(s[i]) == k
    ensures GroupSummary(SheetOf(GroupOf(s, key, k))) == OverallSummary(SheetOf(s)) <==> (SheetOf(s).losses > 0 || SheetOf(s).wins == 0)
  {
    FilterAll(HasKey(key, k), s);
    SignsOf(s);
  }

  lemma {:induction false} SignsOf(s: seq<Trade>)
    ensures var c := SheetOf(s);
            c.won >= 0.0 >= c.lost && (c.won > 0.0 <==> c.wins > 0) && (c.lost < 0.0 <==> c.losses > 0)
  {
    if s != [] { SignsOf(s[..|s| - 1]); }
  }
}
