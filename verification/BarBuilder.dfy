/** monitor/bar_builder.py: ticks folded into one-minute bars by two threads under one lock.
  *
  * The tick thread reads the clock inside the lock; the flush thread reads it outside and re-checks
  * inside.  The theorem is that every interleaving yields the batch group-by-minute of the ticks.
  */
module BarBuilding {
  import opened Wrappers
  import opened Seqs

  type Ticker = string

  /** An accepted tick; `minute` is the wall minute read under the lock. */
  datatype Tick = Tick(ticker: Ticker, price: real, size: int, minute: nat)

  datatype Bar = Bar(open: real, high: real, low: real, close: real, volume: int)

  /** `low` is infinite until the first tick. */
  datatype Acc = Acc(open: real, high: real, low: Option<real>, close: real, volume: int, pv: real, count: nat)

  const FRESH := Acc(0.0, 0.0, None, 0.0, 0, 0.0, 0)

  function AddTick(a: Acc, price: real, size: int): Acc {
    Acc(if a.count == 0 then price else a.open,
        if price > a.high then price else a.high,
        Some(if a.low.None? || price < a.low.value then price else a.low.value),
        price, a.volume + size, a.pv + price * size as real, a.count + 1)
  }

  function ToBar(a: Acc): Bar { Bar(a.open, a.high, if a.low.Some? then a.low.value else a.close, a.close, a.volume) }

  predicate IsValid(a: Acc) { a.count > 0 && a.close > 0.0 }

  function Vwap(a: Acc): real { if a.volume > 0 then a.pv / a.volume as real else a.close }

  // ------------------------------------------------------------------ the batch reference

  function OfTicker(t: Ticker): Tick -> bool { (x: Tick) => x.ticker == t }

  function InMinute(m: nat): Tick -> bool { (x: Tick) => x.minute == m }

  function FoldTicks(s: seq<Tick>): Acc {
    if s == [] then FRESH else AddTick(FoldTicks(s[..|s| - 1]), s[|s| - 1].price, s[|s| - 1].size)
  }

  /** The plain group-by-minute: one bar for each minute before `hi` that has a tick. */
  function Batch(s: seq<Tick>, hi: nat): seq<Bar> {
    if hi == 0 then []
    else
      var group := Filter(InMinute(hi - 1), s);
      Batch(s, hi - 1) + if group == [] then [] else [ToBar(FoldTicks(group))]
  }

  predicate Accepted(s: seq<Tick>) { forall i | 0 <= i < |s| :: s[i].price > 0.0 && s[i].size > 0 }

  function SizeOf(): Tick -> int { (x: Tick) => x.size }

  lemma {:induction false} FoldCounts(s: seq<Tick>)
    requires Accepted(s) && s != []
    ensures var a := FoldTicks(s);
            && a.count == |s| && IsValid(a) && a.open == s[0].price && a.close == s[|s| - 1].price
            && a.low.Some? && a.volume == SumInt(SizeOf(), s) && a.volume > 0
  {
    if |s| > 1 { FoldCounts(s[..|s| - 1]); }
  }

  /** The extremes bound every price and are attained. */
  ghost predicate Extremes(s: seq<Tick>, low: real, high: real) {
    && (forall x :: x in s ==> low <= x.price <= high)
    && (exists x :: x in s && x.price == low) && (exists x :: x in s && x.price == high)
  }

  lemma ExtremesStep(front: seq<Tick>, x: Tick, low: real, high: real)
    requires Extremes(front, low, high)
    ensures Extremes(front + [x], if x.price < low then x.price else low, if x.price > high then x.price else high)
  {
  }

  lemma {:induction false} FoldExtremes(s: seq<Tick>)
    requires Accepted(s) && s != []
    ensures FoldTicks(s).low.Some? && Extremes(s, FoldTicks(s).low.value, FoldTicks(s).high)
  {
    var front, x := s[..|s| - 1], s[|s| - 1];
    if front == [] {
      assert s == [x] && FoldTicks(front) == FRESH && x in s;
    } else {
      FoldExtremes(front);
      ExtremesStep(front, x, FoldTicks(front).low.value, FoldTicks(front).high);
      assert s == front + [x];
    }
  }

  /** A bound on the average so far and on the next price bounds the average with it. */
  lemma AverageBelow(low: real, low': real, v: real, pv: real, price: real, n: real)
    requires low' <= low && low' <= price && v >= 0.0 && n >= 0.0 && low * v <= pv
    ensures low' * (v + n) <= pv + price * n
  {
  }

  lemma AverageAbove(high: real, high': real, v: real, pv: real, price: real, n: real)
    requires high' >= high && high' >= price && v >= 0.0 && n >= 0.0 && pv <= high * v
    ensures pv + price * n <= high' * (v + n)
  {
  }

  /** The volume-weighted sum lies between the extremes times the volume. */
  predicate AverageWithin(a: Acc) {
    a.low.Some? && a.volume >= 0 && a.low.value * a.volume as real <= a.pv && a.pv <= a.high * a.volume as real
  }

  lemma TickAverage(a: Acc, price: real, size: int)
    requires price > 0.0 && size > 0 && (a == FRESH || AverageWithin(a))
    ensures AverageWithin(AddTick(a, price, size))
  {
    var b := AddTick(a, price, size);
    var low, high := if a == FRESH then price else a.low.value, if a == FRESH then price else a.high;
    AverageBelow(low, b.low.value, a.volume as real, a.pv, price, size as real);
    AverageAbove(high, b.high, a.volume as real, a.pv, price, size as real);
  }

  lemma {:induction false} FoldAverages(s: seq<Tick>)
    requires Accepted(s) && s != []
    ensures AverageWithin(FoldTicks(s))
  {
    var front, x := s[..|s| - 1], s[|s| - 1];
    if front != [] { FoldAverages(front); }
    TickAverage(FoldTicks(front), x.price, x.size);
  }

  function Worth(): Tick -> real { (x: Tick) => x.price * x.size as real }

  lemma {:induction false} FoldWorth(s: seq<Tick>)
    ensures FoldTicks(s).pv == SumReal(Worth(), s)
  {
    if s != [] { FoldWorth(s[..|s| - 1]); }
  }

  lemma QuotientTimes(pv: real, v: real)
    requires v > 0.0
    ensures pv / v * v == pv
  {
  }

  /** The VWAP of some ticks times their shares is what they traded for. */
  lemma VwapExact(s: seq<Tick>)
    requires Accepted(s) && s != []
    ensures Vwap(FoldTicks(s)) * SumInt(SizeOf(), s) as real == SumReal(Worth(), s)
  {
    FoldCounts(s);
    FoldWorth(s);
    QuotientTimes(FoldTicks(s).pv, FoldTicks(s).volume as real);
  }

  lemma DivideBetween(low: real, high: real, pv: real, v: real)
    requires v > 0.0 && low * v <= pv <= high * v
    ensures low <= pv / v <= high
  {
  }

  lemma AverageBounds(a: Acc)
    requires AverageWithin(a) && a.volume > 0
    ensures a.low.value <= Vwap(a) <= a.high
  {
    DivideBetween(a.low.value, a.high, a.pv, a.volume as real);
  }

  /** low <= VWAP <= high for every bar. */
  lemma VwapBounds(s: seq<Tick>)
    requires Accepted(s) && s != []
    ensures ToBar(FoldTicks(s)).low <= Vwap(FoldTicks(s)) <= ToBar(FoldTicks(s)).high
  {
    FoldCounts(s);
    FoldAverages(s);
    AverageBounds(FoldTicks(s));
  }

  /** The fold of some ticks is their bar: first and last price, attained extremes, summed volume. */
  lemma BarBounds(s: seq<Tick>)
    requires Accepted(s) && s != []
    ensures var b := ToBar(FoldTicks(s));
            && b.open == s[0].price && b.close == s[|s| - 1].price && b.volume == SumInt(SizeOf(), s)
            && Extremes(s, b.low, b.high) && b.low <= b.open <= b.high && b.low <= b.close <= b.high
  {
    FoldCounts(s);
    FoldExtremes(s);
    assert s[0] in s && s[|s| - 1] in s;
  }

  // ------------------------------------------------------------------ the builder

  datatype Builder = Builder(
    current: map<Ticker, Acc>, minute: nat, history: map<Ticker, seq<Bar>>,
    withTicks: set<Ticker>, seeded: set<Ticker>)

  function CurrentOf(b: Builder, t: Ticker): Acc { if t in b.current then b.current[t] else FRESH }

  function HistoryOf(b: Builder, t: Ticker): seq<Bar> { if t in b.history then b.history[t] else [] }

  /** `bars[-max:]`: the last `max` bars, or all of them when `max` is zero. */
  function Trim(s: seq<Bar>, max: nat): seq<Bar> { if max == 0 || |s| <= max then s else s[|s| - max..] }

  function Done(b: Builder): set<Ticker> { set t | t in b.current && IsValid(b.current[t]) }

  /** A ticker's history once the bars of the tickers in `done` are appended. */
  function FlushedHistory(b: Builder, done: set<Ticker>, t: Ticker, max: nat): seq<Bar>
    requires done <= b.current.Keys
  {
    if t in done then Trim(HistoryOf(b, t) + [ToBar(b.current[t])], max) else HistoryOf(b, t)
  }

  function Flush(b: Builder, max: nat): Builder {
    if b.current == map[] then b
    else
      b.(current := map[], withTicks := Done(b),
         history := map t | t in b.history.Keys + Done(b) :: FlushedHistory(b, Done(b), t, max))
  }

  /** Crossing into a later minute, from either thread. */
  function Cross(b: Builder, now: nat, max: nat): Builder {
    if now > b.minute then Flush(b, max).(minute := now) else b
  }

  function OnTrade(b: Builder, t: Ticker, price: real, size: int, now: nat, max: nat): Builder {
    if price <= 0.0 || size <= 0 then b
    else
      var c := Cross(b, now, max);
      c.(current := c.current[t := AddTick(CurrentOf(c, t), price, size)])
  }

  function GoodBar(): Bar -> bool { (x: Bar) => x.close > 0.0 }

  function Seed(b: Builder, t: Ticker, bars: seq<Bar>, minBars: nat, max: nat): Builder {
    var kept := Filter(GoodBar(), bars);
    if |bars| < minBars || |kept| < minBars then b
    else b.(history := b.history[t := Trim(kept, max)], seeded := b.seeded + {t})
  }

  predicate Covers(b: Builder, t: Ticker) { t in b.seeded && t in b.withTicks }

  // ------------------------------------------------------------------ the two threads

  /** The builder with the flush thread's unlocked reading, the clock, every accepted tick, and for
    * each ticker the bars flushed ever, and those seeded and flushed since it was last seeded. */
  datatype Sys = Sys(b: Builder, seen: Option<nat>, clock: nat, ticks: seq<Tick>,
                     flushed: map<Ticker, seq<Bar>>, since: map<Ticker, seq<Bar>>)

  datatype Action =
    | Trade(ticker: Ticker, price: real, size: int, now: nat)
    | Look(now: nat)
    | Commit
    | SeedTicker(ticker: Ticker, bars: seq<Bar>, minBars: nat)

  function Log(m: map<Ticker, seq<Bar>>, t: Ticker): seq<Bar> { if t in m then m[t] else [] }

  /** Appends the bar of every ticker this crossing flushes. */
  function Append(m: map<Ticker, seq<Bar>>, b: Builder, now: nat): map<Ticker, seq<Bar>> {
    if now <= b.minute then m
    else m + map t | t in Done(b) :: Log(m, t) + [ToBar(b.current[t])]
  }

  predicate ClockRuns(s: Sys, a: Action) { (a.Trade? || a.Look? ==> a.now >= s.clock) }

  function Act(s: Sys, a: Action, max: nat): Sys {
    match a
    case Trade(t, price, size, now) =>
      if price <= 0.0 || size <= 0 then s
      else Sys(OnTrade(s.b, t, price, size, now, max), s.seen, if now > s.clock then now else s.clock,
               s.ticks + [Tick(t, price, size, now)], Append(s.flushed, s.b, now), Append(s.since, s.b, now))
    case Look(now) =>
      s.(seen := if now > s.b.minute then Some(now) else None, clock := if now > s.clock then now else s.clock)
    case Commit =>
      if s.seen.None? then s
      else Sys(Cross(s.b, s.seen.value, max), None, s.clock, s.ticks,
               Append(s.flushed, s.b, s.seen.value), Append(s.since, s.b, s.seen.value))
    case SeedTicker(t, bars, minBars) =>
      var kept := Filter(GoodBar(), bars);
      s.(b := Seed(s.b, t, bars, minBars, max),
         since := if |bars| < minBars || |kept| < minBars then s.since else s.since[t := kept])
  }

  function RunActions(s: Sys, run: seq<Action>, max: nat): Sys
    decreases run
  {
    if run == [] then s else RunActions(Act(s, run[0], max), run[1..], max)
  }

  predicate ClockRunsAlong(s: Sys, run: seq<Action>, max: nat)
    decreases run
  {
    run == [] || (ClockRuns(s, run[0]) && ClockRunsAlong(Act(s, run[0], max), run[1..], max))
  }

  function Started(now: nat): Sys { Sys(Builder(map[], now, map[], {}, {}), None, now, [], map[], map[]) }

  // ------------------------------------------------------------------ streaming equals batch

  /** One ticker's part of the state is the batch of its ticks up to the current minute. */
  ghost predicate InStep(s: Sys, t: Ticker) {
    var mine := Filter(OfTicker(t), s.ticks);
    var now := Filter(InMinute(s.b.minute), mine);
    && Log(s.flushed, t) == Batch(mine, s.b.minute)
    && (t in s.b.current <==> now != [])
    && CurrentOf(s.b, t) == FoldTicks(now)
  }

  /** No tick is ahead of the builder, and nobody is ahead of the clock. */
  predicate InTime(s: Sys) {
    && Accepted(s.ticks) && (forall i | 0 <= i < |s.ticks| :: s.ticks[i].minute <= s.b.minute)
    && s.b.minute <= s.clock && (s.seen.Some? ==> s.seen.value <= s.clock)
  }

  lemma {:induction false} QuietMinutes(s: seq<Tick>, lo: nat, hi: nat)
    requires lo <= hi && forall i | 0 <= i < |s| :: s[i].minute < lo
    ensures Batch(s, hi) == Batch(s, lo)
  {
    if lo < hi {
      QuietMinutes(s, lo, hi - 1);
      FilterNone(InMinute(hi - 1), s);
    }
  }

  lemma {:induction false} LaterTick(s: seq<Tick>, x: Tick, hi: nat)
    requires x.minute >= hi
    ensures Batch(s + [x], hi) == Batch(s, hi)
  {
    if hi != 0 {
      LaterTick(s, x, hi - 1);
      FilterOne(InMinute(hi - 1), s, x);
    }
  }

  lemma {:induction false} FilterAccepted(keep: Tick -> bool, s: seq<Tick>, m: nat)
    requires Accepted(s) && forall i | 0 <= i < |s| :: s[i].minute <= m
    ensures Accepted(Filter(keep, s)) && forall i | 0 <= i < |Filter(keep, s)| :: Filter(keep, s)[i].minute <= m
  {
    if s != [] { FilterAccepted(keep, s[..|s| - 1], m); }
  }

  lemma {:induction false} AcceptedFilter(keep: Tick -> bool, s: seq<Tick>)
    requires Accepted(s)
    ensures Accepted(Filter(keep, s))
  {
    if s != [] { AcceptedFilter(keep, s[..|s| - 1]); }
  }

  /** When minute `m` is over, the batch grows by its one bar, and later minutes are still empty. */
  lemma BatchGrows(s: seq<Tick>, m: nat, now: nat)
    requires m < now && forall i | 0 <= i < |s| :: s[i].minute <= m
    ensures var group := Filter(InMinute(m), s);
            Batch(s, now) == Batch(s, m) + if group == [] then [] else [ToBar(FoldTicks(group))]
    ensures Filter(InMinute(now), s) == []
  {
    QuietMinutes(s, m + 1, now);
    FilterNone(InMinute(now), s);
  }

  /** In step, the builder has a valid accumulator for exactly the tickers of its minute. */
  lemma DoneExactly(s: Sys, t: Ticker)
    requires InStep(s, t) && InTime(s)
    ensures t in Done(s.b) <==> Filter(InMinute(s.b.minute), Filter(OfTicker(t), s.ticks)) != []
  {
    var mine := Filter(OfTicker(t), s.ticks);
    AcceptedFilter(OfTicker(t), s.ticks);
    AcceptedFilter(InMinute(s.b.minute), mine);
    var group := Filter(InMinute(s.b.minute), mine);
    if group != [] { FoldCounts(group); }
  }

  /** Crossing to a later minute flushes exactly the current minute's bar. */
  lemma CrossInStep(s: Sys, now: nat, t: Ticker, max: nat)
    requires InStep(s, t) && InTime(s) && now > s.b.minute
    ensures InStep(s.(b := Cross(s.b, now, max), flushed := Append(s.flushed, s.b, now)), t)
  {
    var mine := Filter(OfTicker(t), s.ticks);
    FilterAccepted(OfTicker(t), s.ticks, s.b.minute);
    BatchGrows(mine, s.b.minute, now);
    DoneExactly(s, t);
    assert t !in Cross(s.b, now, max).current;
  }

  lemma FoldOne(s: seq<Tick>, x: Tick)
    ensures FoldTicks(s + [x]) == AddTick(FoldTicks(s), x.price, x.size)
  {
  }

  /** A tick in the current minute extends the minute's group and no finished bar. */
  lemma TickGrows(mine: seq<Tick>, x: Tick)
    ensures Batch(mine + [x], x.minute) == Batch(mine, x.minute)
    ensures Filter(InMinute(x.minute), mine + [x]) == Filter(InMinute(x.minute), mine) + [x]
    ensures FoldTicks(Filter(InMinute(x.minute), mine + [x])) == AddTick(FoldTicks(Filter(InMinute(x.minute), mine)), x.price, x.size)
  {
    LaterTick(mine, x, x.minute);
    FilterOne(InMinute(x.minute), mine, x);
    FoldOne(Filter(InMinute(x.minute), mine), x);
  }

  lemma TradeInStep(s: Sys, u: Ticker, price: real, size: int, t: Ticker)
    requires InStep(s, t) && InTime(s) && price > 0.0 && size > 0
    ensures var b := s.b.(current := s.b.current[u := AddTick(CurrentOf(s.b, u), price, size)]);
            InStep(s.(b := b, ticks := s.ticks + [Tick(u, price, size, s.b.minute)]), t)
  {
    var x := Tick(u, price, size, s.b.minute);
    FilterOne(OfTicker(t), s.ticks, x);
    if t == u { TickGrows(Filter(OfTicker(t), s.ticks), x); }
  }

  /** The crossing part of an action, with its flush log. */
  function Crossed(s: Sys, now: nat, max: nat): Sys {
    s.(b := Cross(s.b, now, max), flushed := Append(s.flushed, s.b, now))
  }

  lemma TradeActInStep(s: Sys, a: Action, t: Ticker, max: nat)
    requires a.Trade? && a.price > 0.0 && a.size > 0 && InStep(s, t) && InTime(s) && a.now >= s.clock
    ensures InStep(Act(s, a, max), t)
  {
    var at := Crossed(s, a.now, max).(clock := a.now);
    if a.now > s.b.minute { CrossInStep(s, a.now, t, max); }
    assert at.b.minute == a.now;
    assert InStep(at, t) && InTime(at);
    TradeInStep(at, a.ticker, a.price, a.size, t);
  }

  lemma ActInTime(s: Sys, a: Action, max: nat)
    requires InTime(s) && ClockRuns(s, a)
    ensures InTime(Act(s, a, max))
  {
  }

  lemma ActInStep(s: Sys, a: Action, t: Ticker, max: nat)
    requires InStep(s, t) && InTime(s) && ClockRuns(s, a)
    ensures InStep(Act(s, a, max), t)
  {
    match a
    case Trade(u, price, size, now) => if price > 0.0 && size > 0 { TradeActInStep(s, a, t, max); }
    case Look(now) =>
    case Commit => if s.seen.Some? && s.seen.value > s.b.minute { CrossInStep(s, s.seen.value, t, max); }
    case SeedTicker(u, bars, minBars) =>
  }

  /** Streaming equals batch: under every interleaving with a clock that never goes back, the bars
    * flushed for a ticker are the group-by-minute of its accepted ticks before the current minute,
    * and its accumulator is the fold of the ticks of the current minute. */
  lemma {:induction false} StreamingIsBatch(s: Sys, run: seq<Action>, t: Ticker, max: nat)
    requires InStep(s, t) && InTime(s) && ClockRunsAlong(s, run, max)
    ensures InStep(RunActions(s, run, max), t) && InTime(RunActions(s, run, max))
    decreases run
  {
    if run != [] {
      ActInStep(s, run[0], t, max);
      ActInTime(s, run[0], max);
      StreamingIsBatch(Act(s, run[0], max), run[1..], t, max);
    }
  }

  lemma {:induction false} EmptyBatch(hi: nat)
    ensures Batch([], hi) == []
  {
    if hi != 0 { EmptyBatch(hi - 1); }
  }

  lemma StartedInStep(now: nat, t: Ticker)
    ensures InStep(Started(now), t) && InTime(Started(now))
  {
    EmptyBatch(now);
  }

  // ------------------------------------------------------------------ volume

  function SizeBefore(hi: nat): Tick -> int { (x: Tick) => if x.minute < hi then x.size else 0 }

  function VolumeOf(): Bar -> int { (x: Bar) => x.volume }

  lemma {:induction false} SizeSplits(s: seq<Tick>, m: nat)
    ensures SumInt(SizeBefore(m + 1), s) == SumInt(SizeBefore(m), s) + SumInt(SizeOf(), Filter(InMinute(m), s))
  {
    if s != [] {
      var front, x := s[..|s| - 1], s[|s| - 1];
      SizeSplits(front, m);
      FilterOne(InMinute(m), front, x);
      assert s == front + [x];
      if x.minute == m { SumIntOne(SizeOf(), Filter(InMinute(m), front), x); }
    }
  }

  lemma BatchVolumeGrows(s: seq<Tick>, m: nat)
    requires Accepted(s)
    ensures SumInt(VolumeOf(), Batch(s, m + 1))
         == SumInt(VolumeOf(), Batch(s, m)) + SumInt(SizeOf(), Filter(InMinute(m), s))
  {
    var group, sofar := Filter(InMinute(m), s), Batch(s, m);
    if group != [] {
      AcceptedFilter(InMinute(m), s);
      FoldCounts(group);
      SumIntOne(VolumeOf(), sofar, ToBar(FoldTicks(group)));
    } else {
      assert Batch(s, m + 1) == sofar;
    }
  }

  /** The shares traded in each minute before `hi`, minute by minute. */
  function MinuteVolumes(s: seq<Tick>, hi: nat): int {
    if hi == 0 then 0 else MinuteVolumes(s, hi - 1) + SumInt(SizeOf(), Filter(InMinute(hi - 1), s))
  }

  lemma {:induction false} BatchVolume(s: seq<Tick>, hi: nat)
    requires Accepted(s)
    ensures SumInt(VolumeOf(), Batch(s, hi)) == MinuteVolumes(s, hi)
  {
    if hi != 0 {
      BatchVolume(s, hi - 1);
      BatchVolumeGrows(s, hi - 1);
    }
  }

  lemma {:induction false} MinutesAreSizes(s: seq<Tick>, hi: nat)
    ensures MinuteVolumes(s, hi) == SumInt(SizeBefore(hi), s)
  {
    if hi == 0 {
      NoneBefore(s);
    } else {
      MinutesAreSizes(s, hi - 1);
      SizeSplits(s, hi - 1);
    }
  }

  lemma {:induction false} NoneBefore(s: seq<Tick>)
    ensures SumInt(SizeBefore(0), s) == 0
  {
    if s != [] { NoneBefore(s[..|s| - 1]); }
  }

  lemma {:induction false} AllBefore(s: seq<Tick>, hi: nat)
    requires forall i | 0 <= i < |s| :: s[i].minute < hi
    ensures SumInt(SizeBefore(hi), s) == SumInt(SizeOf(), s)
  {
    if s != [] { AllBefore(s[..|s| - 1], hi); }
  }

  /** Volume conservation: what was accepted for a ticker is in its flushed bars or in progress. */
  lemma VolumeConserved(s: Sys, t: Ticker)
    requires InStep(s, t) && InTime(s)
    ensures SumInt(SizeOf(), Filter(OfTicker(t), s.ticks))
         == SumInt(VolumeOf(), Log(s.flushed, t)) + CurrentOf(s.b, t).volume
  {
    var mine, m := Filter(OfTicker(t), s.ticks), s.b.minute;
    FilterAccepted(OfTicker(t), s.ticks, m);
    BatchVolume(mine, m);
    MinutesAreSizes(mine, m);
    SizeSplits(mine, m);
    AllBefore(mine, m + 1);
    var group := Filter(InMinute(m), mine);
    AcceptedFilter(InMinute(m), mine);
    if group != [] { FoldCounts(group); }
  }

  // ------------------------------------------------------------------ history and coverage

  /** The history is what was seeded last and every bar flushed since, cut to the rolling window. */
  ghost predicate Windowed(s: Sys, max: nat) { forall t :: HistoryOf(s.b, t) == Trim(Log(s.since, t), max) }

  lemma TrimAgain(s: seq<Bar>, x: Bar, max: nat)
    ensures Trim(Trim(s, max) + [x], max) == Trim(s + [x], max)
  {
  }

  lemma CrossHistory(b: Builder, log: map<Ticker, seq<Bar>>, now: nat, max: nat, t: Ticker)
    ensures var flushes := now > b.minute && t in Done(b);
            && HistoryOf(Cross(b, now, max), t)
               == (if flushes then Trim(HistoryOf(b, t) + [ToBar(b.current[t])], max) else HistoryOf(b, t))
            && Log(Append(log, b, now), t) == if flushes then Log(log, t) + [ToBar(b.current[t])] else Log(log, t)
  {
  }

  lemma CrossWindowed(s: Sys, now: nat, max: nat)
    requires Windowed(s, max)
    ensures forall t :: HistoryOf(Cross(s.b, now, max), t) == Trim(Log(Append(s.since, s.b, now), t), max)
  {
    forall t ensures HistoryOf(Cross(s.b, now, max), t) == Trim(Log(Append(s.since, s.b, now), t), max) {
      CrossHistory(s.b, s.since, now, max, t);
      if now > s.b.minute && t in Done(s.b) { TrimAgain(Log(s.since, t), ToBar(s.b.current[t]), max); }
    }
  }

  lemma SeedWindowed(s: Sys, t: Ticker, bars: seq<Bar>, minBars: nat, max: nat)
    requires Windowed(s, max)
    ensures Windowed(Act(s, SeedTicker(t, bars, minBars), max), max)
  {
    var e := Act(s, SeedTicker(t, bars, minBars), max);
    forall u ensures HistoryOf(e.b, u) == Trim(Log(e.since, u), max) {
      assert HistoryOf(s.b, u) == Trim(Log(s.since, u), max);
    }
  }

  lemma ActWindowed(s: Sys, a: Action, max: nat)
    requires Windowed(s, max)
    ensures Windowed(Act(s, a, max), max)
  {
    match a
    case Trade(_, price, size, now) => if price > 0.0 && size > 0 { CrossWindowed(s, now, max); }
    case Look(_) =>
    case Commit => if s.seen.Some? { CrossWindowed(s, s.seen.value, max); }
    case SeedTicker(t, bars, minBars) => SeedWindowed(s, t, bars, minBars, max);
  }

  lemma {:induction false} HistoryIsWindow(s: Sys, run: seq<Action>, max: nat)
    requires Windowed(s, max)
    ensures Windowed(RunActions(s, run, max), max)
    decreases run
  {
    if run != [] {
      ActWindowed(s, run[0], max);
      HistoryIsWindow(Act(s, run[0], max), run[1..], max);
    }
  }

  lemma StartedWindowed(now: nat, max: nat)
    ensures Windowed(Started(now), max)
  {
  }

  /** As many bars as were logged, up to `max`, and the latest of them, in order. */
  ghost predicate Latest(h: seq<Bar>, log: seq<Bar>, max: nat) {
    && |h| == (if |log| < max then |log| else max)
    && forall i | 0 <= i < |h| :: h[i] == log[|log| - |h| + i]
  }

  lemma TrimLatest(s: seq<Bar>, max: nat)
    requires max > 0
    ensures Latest(Trim(s, max), s, max)
  {
  }

  lemma WindowedLatest(s: Sys, max: nat, t: Ticker)
    requires Windowed(s, max) && max > 0
    ensures Latest(HistoryOf(s.b, t), Log(s.since, t), max)
  {
    TrimLatest(Log(s.since, t), max);
  }

  /** Over every run a history is the latest `max` of the bars seeded last and flushed since. */
  lemma HistoryIsLatest(s: Sys, run: seq<Action>, max: nat, t: Ticker)
    requires Windowed(s, max) && max > 0
    ensures var e := RunActions(s, run, max); Latest(HistoryOf(e.b, t), Log(e.since, t), max)
  {
    HistoryIsWindow(s, run, max);
    WindowedLatest(RunActions(s, run, max), max, t);
  }

  /** When a minute is crossed, the bar just finished is the last of its ticker's history, whatever the
    * window, and it is logged as the last flushed since the seed. */
  lemma NewestIsLast(b: Builder, log: map<Ticker, seq<Bar>>, now: nat, max: nat, t: Ticker)
    requires now > b.minute && t in b.current && b.current[t].count > 0 && b.current[t].close > 0.0
    ensures var h, l := HistoryOf(Cross(b, now, max), t), Log(Append(log, b, now), t);
            && h != [] && h[|h| - 1] == ToBar(b.current[t]) && l == Log(log, t) + [ToBar(b.current[t])]
  {
    CrossHistory(b, log, now, max, t);
  }

  /** What a seed keeps: the bars with a positive close, if there are enough of them. */
  lemma SeedKeeps(s: Sys, t: Ticker, bars: seq<Bar>, minBars: nat, max: nat)
    ensures var e, kept := Act(s, SeedTicker(t, bars, minBars), max), Filter(GoodBar(), bars);
            && (forall x :: x in kept <==> x in bars && x.close > 0.0)
            && e.since == (if |kept| < minBars then s.since else s.since[t := kept])
            && e.b.seeded == if |kept| < minBars then s.b.seeded else s.b.seeded + {t}
  {
    FilterMembers(GoodBar(), bars);
    FilterShorter(GoodBar(), bars);
  }

  /** Exactly the trades with a positive price and size are accepted, into the minute of the clock. */
  lemma TradeAccepted(s: Sys, t: Ticker, price: real, size: int, now: nat, max: nat)
    ensures Act(s, Trade(t, price, size, now), max).ticks
         == if price > 0.0 && size > 0 then s.ticks + [Tick(t, price, size, now)] else s.ticks
  {
  }

  ghost predicate Busy(s: seq<Tick>, m: nat) { exists x :: x in s && x.minute == m }

  ghost predicate TradedIn(s: seq<Tick>, t: Ticker, m: nat) { exists x :: x in s && x.ticker == t && x.minute == m }

  /** The latest minute before `hi` in which any ticker had a tick. */
  ghost function LastBusy(s: seq<Tick>, hi: nat): Option<nat> {
    if hi == 0 then None else if Busy(s, hi - 1) then Some(hi - 1) else LastBusy(s, hi - 1)
  }

  /** The accumulators are those of the current minute's tickers, and the tickers marked as having
    * ticks are those of the last minute before it in which anything traded. */
  ghost predicate Marked(s: Sys) {
    && InTime(s)
    && (forall t :: t in s.b.current <==> TradedIn(s.ticks, t, s.b.minute))
    && (forall t :: t in s.b.current ==> IsValid(s.b.current[t]))
    && (forall t :: t in s.b.withTicks <==>
          (LastBusy(s.ticks, s.b.minute).Some? && TradedIn(s.ticks, t, LastBusy(s.ticks, s.b.minute).value)))
  }

  lemma {:induction false} LaterBusy(s: seq<Tick>, x: Tick, hi: nat)
    requires x.minute >= hi
    ensures LastBusy(s + [x], hi) == LastBusy(s, hi)
    ensures LastBusy(s, hi).Some? ==> LastBusy(s, hi).value < hi
  {
    if hi != 0 {
      LaterBusy(s, x, hi - 1);
      assert forall y :: y in s ==> y in s + [x];
    }
  }

  lemma {:induction false} QuietBusy(s: seq<Tick>, lo: nat, hi: nat)
    requires lo <= hi && forall x :: x in s ==> x.minute < lo
    ensures LastBusy(s, hi) == LastBusy(s, lo)
  {
    if lo < hi { QuietBusy(s, lo, hi - 1); }
  }

  lemma CrossMarked(s: Sys, now: nat, max: nat)
    requires Marked(s) && now > s.b.minute && now <= s.clock
    ensures Marked(s.(b := Cross(s.b, now, max)))
  {
    var m := s.b.minute;
    assert forall x :: x in s.ticks ==> x.minute <= m;
    QuietBusy(s.ticks, m + 1, now);
    assert Done(s.b) == s.b.current.Keys;
    if x :| x in s.ticks && x.minute == m {
      assert TradedIn(s.ticks, x.ticker, m) && x.ticker in s.b.current;
    }
    if t :| t in s.b.current {
      assert TradedIn(s.ticks, t, m) && Busy(s.ticks, m);
    }
  }

  lemma TradeMarked(s: Sys, u: Ticker, price: real, size: int)
    requires Marked(s) && price > 0.0 && size > 0
    requires u in s.b.current ==> s.b.current[u].count > 0
    ensures var b := s.b.(current := s.b.current[u := AddTick(CurrentOf(s.b, u), price, size)]);
            Marked(s.(b := b, ticks := s.ticks + [Tick(u, price, size, s.b.minute)]))
  {
    var x := Tick(u, price, size, s.b.minute);
    var after := s.ticks + [x];
    LaterBusy(s.ticks, x, s.b.minute);
    assert forall t, m :: TradedIn(after, t, m) <==> (TradedIn(s.ticks, t, m) || (t == u && m == x.minute)) by {
      forall t, m ensures TradedIn(after, t, m) <==> (TradedIn(s.ticks, t, m) || (t == u && m == x.minute)) {
        assert x in after && forall y :: y in after <==> (y in s.ticks || y == x);
      }
    }
  }

  lemma TradeActMarked(s: Sys, a: Action, max: nat)
    requires a.Trade? && a.price > 0.0 && a.size > 0 && Marked(s) && a.now >= s.clock
    ensures Marked(Act(s, a, max))
  {
    var s1 := s.(clock := a.now);
    if a.now > s.b.minute { CrossMarked(s1, a.now, max); }
    var s2 := s1.(b := Cross(s.b, a.now, max));
    assert s2.b.minute == a.now && Marked(s2);
    TradeMarked(s2, a.ticker, a.price, a.size);
  }

  lemma ActMarked(s: Sys, a: Action, max: nat)
    requires Marked(s) && ClockRuns(s, a)
    ensures Marked(Act(s, a, max))
  {
    match a
    case Trade(u, price, size, now) =>
      if price > 0.0 && size > 0 { TradeActMarked(s, a, max); }
    case Look(now) =>
    case Commit => if s.seen.Some? && s.seen.value > s.b.minute { CrossMarked(s, s.seen.value, max); }
    case SeedTicker(u, bars, minBars) =>
  }

  lemma {:induction false} MarkedAlong(s: Sys, run: seq<Action>, max: nat)
    requires Marked(s) && ClockRunsAlong(s, run, max)
    ensures Marked(RunActions(s, run, max))
    decreases run
  {
    if run != [] {
      ActMarked(s, run[0], max);
      MarkedAlong(Act(s, run[0], max), run[1..], max);
    }
  }

  /** Exactly which tickers are covered: the seeded ones that traded in the last minute in which
    * anything did, which need not be the last minute flushed. */
  lemma CoverageExact(now: nat, run: seq<Action>, max: nat, t: Ticker)
    requires ClockRunsAlong(Started(now), run, max)
    ensures var e := RunActions(Started(now), run, max);
            var busy := LastBusy(e.ticks, e.b.minute);
            Covers(e.b, t) <==> (t in e.b.seeded && busy.Some? && TradedIn(e.ticks, t, busy.value))
  {
    NeverBusy(now);
    MarkedAlong(Started(now), run, max);
  }

  lemma {:induction false} NeverBusy(hi: nat)
    ensures LastBusy([], hi) == None
  {
    if hi != 0 { NeverBusy(hi - 1); }
  }

  lemma RunOne(s: Sys, a: Action, rest: seq<Action>, max: nat)
    ensures RunActions(s, [a] + rest, max) == RunActions(Act(s, a, max), rest, max)
  {
    assert ([a] + rest)[1..] == rest;
  }

  /** The idle flush thread sees minute `now` and commits it. */
  lemma FlushRun(s: Sys, now: nat, rest: seq<Action>, max: nat)
    ensures RunActions(s, [Look(now), Commit] + rest, max) == RunActions(Act(Act(s, Look(now), max), Commit, max), rest, max)
  {
    assert [Look(now), Commit] + rest == [Look(now)] + ([Commit] + rest);
    RunOne(s, Look(now), [Commit] + rest, max);
    RunOne(Act(s, Look(now), max), Commit, rest, max);
  }

  /** X is seeded and trades in minute 5; minutes 5 and 6 are flushed, the second without any tick. */
  function IdleRun(bar: Bar): seq<Action> {
    [SeedTicker("X", [bar], 1)] + ([Trade("X", 1.0, 1, 5)] + ([Look(6), Commit] + ([Look(7), Commit] + [])))
  }

  lemma IdleTraded(bar: Bar, max: nat)
    requires bar.close > 0.0
    ensures var s := Act(Act(Started(5), SeedTicker("X", [bar], 1), max), Trade("X", 1.0, 1, 5), max);
            && s.b.current == map["X" := AddTick(FRESH, 1.0, 1)] && s.b.seeded == {"X"} && s.b.minute == 5
            && s.ticks == [Tick("X", 1.0, 1, 5)] && s.seen == None
  {
    FilterAll(GoodBar(), [bar]);
  }

  lemma IdleFlushed(s: Sys, max: nat)
    requires s.b.current == map["X" := AddTick(FRESH, 1.0, 1)] && s.b.seeded == {"X"} && s.b.minute == 5
    ensures var e := Act(Act(Act(Act(s, Look(6), max), Commit, max), Look(7), max), Commit, max);
            Covers(e.b, "X") && e.b.minute == 7 && e.ticks == s.ticks
  {
    assert "X" in Done(s.b);
    var m := Act(Act(s, Look(6), max), Commit, max);
    assert m.b.withTicks == {"X"} && m.b.current == map[] && m.b.minute == 6;
  }

  /** So a ticker can be covered although it had no tick in the minute flushed last. */
  lemma IdleMinuteStaysCovered(bar: Bar, max: nat)
    requires bar.close > 0.0
    ensures var e := RunActions(Started(5), IdleRun(bar), max);
            Covers(e.b, "X") && e.b.minute == 7 && e.ticks == [Tick("X", 1.0, 1, 5)] && !TradedIn(e.ticks, "X", 6)
  {
    var s0, seed, trade := Started(5), SeedTicker("X", [bar], 1), Trade("X", 1.0, 1, 5);
    var s1 := Act(s0, seed, max);
    var s2 := Act(s1, trade, max);
    IdleTraded(bar, max);
    IdleFlushed(s2, max);
    RunOne(s0, seed, [trade] + ([Look(6), Commit] + ([Look(7), Commit] + [])), max);
    RunOne(s1, trade, [Look(6), Commit] + ([Look(7), Commit] + []), max);
    FlushRun(s2, 6, [Look(7), Commit] + [], max);
    FlushRun(Act(Act(s2, Look(6), max), Commit, max), 7, [], max);
  }

  // ------------------------------------------------------------------ the class

  method KeepGood(bars: seq<Bar>) returns (kept: seq<Bar>)
    ensures kept == Filter(GoodBar(), bars)
  {
    kept := [];
    for i := 0 to |bars|
      invariant kept == Filter(GoodBar(), bars[..i])
    {
      assert bars[..i + 1] == bars[..i] + [bars[i]];
      FilterOne(GoodBar(), bars[..i], bars[i]);
      if bars[i].close > 0.0 { kept := kept + [bars[i]]; }
    }
    assert bars[..|bars|] == bars;
  }

  class BarBuilder {
    const maxHistory: nat
    var current: map<Ticker, Acc>
    var currentMinute: nat
    var history: map<Ticker, seq<Bar>>
    var tickersWithTicks: set<Ticker>
    var seededTickers: set<Ticker>
    var seeded: bool
    var emitBars: bool
    var ticksReceived: nat

    function State(): Builder
      reads this
    {
      Builder(current, currentMinute, history, tickersWithTicks, seededTickers)
    }

    constructor (maxHistory: nat := 200, emitBars: bool := true)
      ensures this.maxHistory == maxHistory && State() == Builder(map[], 0, map[], {}, {}) && !seeded
    {
      this.maxHistory, this.emitBars := maxHistory, emitBars;
      current, currentMinute, history, tickersWithTicks, seededTickers := map[], 0, map[], {}, {};
      seeded, ticksReceived := false, 0;
    }

    /** Who gets a BAR event: flushed, seeded, emission enabled, and at least two bars of history. */
    predicate Emits(before: Builder, t: Ticker)
      reads this
    {
      emitBars && t in Done(before) && t in before.seeded && |HistoryOf(State(), t)| >= 2
    }

    /** Appends one completed bar to a ticker's history. */
    method FlushOne(t: Ticker, acc: Acc)
      modifies this`history
      ensures history == old(history)[t := Trim(HistoryOf(old(State()), t) + [ToBar(acc)], maxHistory)]
    {
      var bars := (if t in history then history[t] else []) + [ToBar(acc)];
      if |bars| > maxHistory { bars := Trim(bars, maxHistory); }
      history := history[t := bars];
    }

    /** `_flush_minute_locked`, under the lock; the events are emitted after it is released. */
    method FlushMinuteLocked() returns (toEmit: set<Ticker>)
      modifies this`current, this`history, this`tickersWithTicks
      ensures State() == Flush(old(State()), maxHistory)
      ensures forall t :: t in toEmit <==> Emits(old(State()), t)
      ensures forall t :: t in toEmit <==>
                && emitBars && t in old(current) && old(current)[t].count > 0 && old(current)[t].close > 0.0
                && t in old(seededTickers) && t in history && |history[t]| >= 2
    {
      toEmit := {};
      if current == map[] { return; }
      ghost var before := State();
      var left, flushed := current.Keys, {};
      while left != {}
        invariant left <= current.Keys && current == before.current
        invariant flushed == Done(before) - left
        invariant history.Keys == before.history.Keys + flushed
        invariant forall t :: t in history ==> history[t] == FlushedHistory(before, flushed, t, maxHistory)
        decreases left
      {
        var t :| t in left;
        left := left - {t};
        if IsValid(current[t]) {
          flushed := flushed + {t};
          FlushOne(t, current[t]);
        }
      }
      tickersWithTicks := flushed;
      current := map[];
      assert flushed == Done(before);
      toEmit := set t | t in flushed && emitBars && t in seededTickers && |history[t]| >= 2;
    }

    /** `on_trade`: the clock is read, and a later minute crossed, inside the lock. */
    method OnTick(ticker: Ticker, price: real, size: int, now: nat) returns (toEmit: set<Ticker>)
      modifies this`current, this`currentMinute, this`history, this`tickersWithTicks, this`ticksReceived
      ensures State() == OnTrade(old(State()), ticker, price, size, now, maxHistory)
      ensures ticksReceived == old(ticksReceived) + if price > 0.0 && size > 0 then 1 else 0
      ensures forall u :: u in toEmit <==>
                (price > 0.0 && size > 0 && now > old(currentMinute) && Emits(old(State()), u))
    {
      toEmit := {};
      if price <= 0.0 || size <= 0 { return; }
      ticksReceived := ticksReceived + 1;
      if now > currentMinute {
        toEmit := FlushMinuteLocked();
        currentMinute := now;
      }
      var acc := if ticker in current then current[ticker] else FRESH;
      current := current[ticker := AddTick(acc, price, size)];
    }

    /** The locked half of one turn of `_flush_loop`, with the minute read before the lock. */
    method FlushTurn(seen: nat) returns (toEmit: set<Ticker>)
      modifies this`current, this`currentMinute, this`history, this`tickersWithTicks
      ensures State() == Cross(old(State()), seen, maxHistory)
      ensures forall u :: u in toEmit <==> (seen > old(currentMinute) && Emits(old(State()), u))
    {
      toEmit := {};
      if seen > currentMinute {
        toEmit := FlushMinuteLocked();
        currentMinute := seen;
      }
    }

    /** `seed`: replaces one ticker's history; ten seeded tickers switch emission on. */
    method SeedHistory(ticker: Ticker, bars: seq<Bar>, minBars: nat := 15) returns (ok: bool)
      modifies this`history, this`seededTickers, this`seeded, this`emitBars
      ensures State() == Seed(old(State()), ticker, bars, minBars, maxHistory)
      ensures ok <==> |Filter(GoodBar(), bars)| >= minBars
      ensures seeded == (old(seeded) || (ok && |seededTickers| >= 10))
      ensures emitBars == (old(emitBars) || (seeded && !old(seeded)))
    {
      FilterShorter(GoodBar(), bars);
      if |bars| < minBars { return false; }
      var kept := KeepGood(bars);
      if |kept| < minBars { return false; }
      history := history[ticker := Trim(kept, maxHistory)];
      seededTickers := seededTickers + {ticker};
      if !seeded && |seededTickers| >= 10 { seeded, emitBars := true, true; }
      return true;
    }

    method CoversTicker(ticker: Ticker) returns (covered: bool)
      ensures covered == Covers(State(), ticker)
    {
      covered := ticker in seededTickers && ticker in tickersWithTicks;
    }
  }
}
