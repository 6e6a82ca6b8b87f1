/** What prices exits happen at, and how long an options position can live. */
module FillExits {
  import opened Wrappers
  import opened Seqs
  import opened FillModel
  import opened FillLaws

  // ------------------------------------------------------------------ the exit floor

  predicate ValidBar(b: Bar) { 0.0 < b.low <= b.open <= b.high && b.low <= b.close <= b.high }

  /** Both targets lie on the profitable side of the stop. */
  predicate Ordered(p: Position) {
    p.stop > 0.0 && if p.side.Long? then p.target1 >= p.stop && p.target2 >= p.stop
                    else p.target1 <= p.stop && p.target2 <= p.stop
  }

  /** No worse than the stop with its slippage: a floor for longs, a ceiling for shorts. */
  predicate WithinStop(p: Position, exit: real) {
    if p.side.Long? then exit >= p.stop * (1.0 - STOP_SLIPPAGE) else exit <= p.stop * (1.0 + STOP_SLIPPAGE)
  }

  /** The trade is one of position `p`, and respects its stop unless it is an end-of-day close of
    * a bar in which both levels traded and the target was judged nearer. */
  predicate Respects(p: Position, b: Bar, x: Trade) {
    && x.ref == p.ref && x.side == p.side
    && (Ordered(p) && (x.reason != Eod || !TargetNearer(p, b)) ==> WithinStop(p, x.exit))
  }

  /** The trade is made in position `q`'s own turn: by its stop and target checks or, on the last bar
    * of the day, by the close of what these left. */
  ghost predicate MadeBy(l: Layer, t: Ticker, bar: Bar, eod: bool, q: Position, x: Trade) {
    || x in ExitOne(l, t, bar, q).done
    || (eod && exists k :: k in ExitOne(l, t, bar, q).kept && x in EodOne(l, t, bar.close, k).done)
  }

  lemma ExitRespects(l: Layer, t: Ticker, b: Bar, p: Position)
    requires ValidBar(b)
    ensures forall x :: x in ExitOne(l, t, b, p).done ==> !p.filledThisBar && p.ticker == t && Respects(p, b, x)
  {
  }

  lemma EodRespects(l: Layer, t: Ticker, bar: Bar, q: Position, k: Position, x: Trade)
    requires ValidBar(bar) && !q.fillPending && q.exitReason.None? && !q.filledThisBar
    requires k in ExitOne(l, t, bar, q).kept && x in EodOne(l, t, bar.close, k).done
    ensures q.ticker == t && Respects(q, bar, x)
  {
  }

  function Cleared(p: Position): Position { p.(filledThisBar := false) }

  /** The floor of one position: every trade that a live position held before the bar makes in its own
    * turn respects that position's stop. */
  lemma TurnFloor(l: Layer, t: Ticker, bar: Bar, eod: bool, p: Position, x: Trade)
    requires ValidBar(bar) && !p.fillPending && p.exitReason.None? && MadeBy(l, t, bar, eod, Cleared(p), x)
    ensures p.ticker == t && Respects(p, bar, x)
  {
    var q := Cleared(p);
    if x in ExitOne(l, t, bar, q).done {
      ExitRespects(l, t, bar, q);
    } else {
      var k :| k in ExitOne(l, t, bar, q).kept && x in EodOne(l, t, bar.close, k).done;
      EodRespects(l, t, bar, q, k, x);
    }
    assert Respects(q, bar, x);
  }

  function HeldOf(b: Book, l: Layer): seq<Position> { if l == Pro then b.pro else b.pop }

  function PendingOf(b: Book, l: Layer): seq<Order> { if l == Pro then b.pendingPro else b.pendingPop }

  /** The trade was made in the turn of this position, held before the bar, and respects its stop. */
  ghost predicate OfHeld(b: Book, l: Layer, t: Ticker, bar: Bar, eod: bool, p: Position, x: Trade) {
    p in HeldOf(b, l) && p.ticker == t && MadeBy(l, t, bar, eod, Cleared(p), x) && Respects(p, bar, x)
  }

  /** The trade is the day's-end close of this order, filled in the very bar. */
  ghost predicate OfFilled(b: Book, l: Layer, t: Ticker, bar: Bar, eod: bool, o: Order, x: Trade) {
    eod && o in PendingOf(b, l) && o.ticker == t && x in EodOne(l, t, bar.close, Opened(l, bar.open, o)).done
  }

  /** Where an equity trade of a bar comes from. */
  ghost predicate Explained(b: Book, l: Layer, t: Ticker, bar: Bar, eod: bool, x: Trade) {
    (exists p :: OfHeld(b, l, t, bar, eod, p, x)) || (exists o :: OfFilled(b, l, t, bar, eod, o, x))
  }

  /** A position in the list once entries are in was either held before, or has just been filled. */
  ghost predicate FromList(b: Book, l: Layer, t: Ticker, bar: Bar, q: Position) {
    || (exists p :: p in HeldOf(b, l) && q == if p.ticker == t then Cleared(p) else p)
    || (exists o :: o in PendingOf(b, l) && o.ticker == t && q == Opened(l, bar.open, o))
  }

  lemma EnteredFrom(b: Book, l: Layer, t: Ticker, bar: Bar, q: Position)
    requires q in Scan(Clear(t), HeldOf(b, l)).kept + Scan(Fill(l, t, bar.open), PendingOf(b, l)).done
    ensures FromList(b, l, t, bar, q)
  {
    ScanSource(Clear(t), HeldOf(b, l));
    ScanSource(Fill(l, t, bar.open), PendingOf(b, l));
    if q in Scan(Clear(t), HeldOf(b, l)).kept {
      var p :| p in HeldOf(b, l) && q in Clear(t)(p).kept;
    } else {
      var o :| o in PendingOf(b, l) && q in Fill(l, t, bar.open)(o).done;
    }
  }

  /** A position filled in this bar is neither stopped nor targeted in it. */
  lemma FillBarUntouched(l: Layer, t: Ticker, bar: Bar, q: Position)
    requires q.filledThisBar
    ensures ExitOne(l, t, bar, q) == Outcome([q], [])
  {
  }

  /** A position of another ticker makes no trade. */
  lemma OthersIdle(l: Layer, t: Ticker, bar: Bar, eod: bool, q: Position, x: Trade)
    requires q.ticker != t
    ensures !MadeBy(l, t, bar, eod, q, x)
  {
  }

  lemma EnteredExplained(b: Book, l: Layer, t: Ticker, bar: Bar, eod: bool, q: Position, x: Trade)
    requires ValidBar(bar) && Holds(Live(), b) && FromList(b, l, t, bar, q) && MadeBy(l, t, bar, eod, q, x)
    ensures Explained(b, l, t, bar, eod, x)
  {
    if o :| o in PendingOf(b, l) && o.ticker == t && q == Opened(l, bar.open, o) {
      FillBarUntouched(l, t, bar, q);
      assert OfFilled(b, l, t, bar, eod, o, x);
    } else {
      var p :| p in HeldOf(b, l) && q == if p.ticker == t then Cleared(p) else p;
      if p.ticker != t { OthersIdle(l, t, bar, eod, q, x); }
      TurnFloor(l, t, bar, eod, p, x);
      assert OfHeld(b, l, t, bar, eod, p, x);
    }
  }

  lemma ListExplained(b: Book, l: Layer, t: Ticker, bar: Bar, eod: bool, x: Trade)
    requires ValidBar(bar) && Holds(Live(), b)
    requires var exits := Scan(Exit(l, t, bar), Scan(Clear(t), HeldOf(b, l)).kept + Scan(Fill(l, t, bar.open), PendingOf(b, l)).done);
             x in exits.done || (eod && x in Scan(CloseOut(l, t, bar.close), exits.kept).done)
    ensures Explained(b, l, t, bar, eod, x)
  {
    var entered := Scan(Clear(t), HeldOf(b, l)).kept + Scan(Fill(l, t, bar.open), PendingOf(b, l)).done;
    var exits := Scan(Exit(l, t, bar), entered);
    ScanSource(Exit(l, t, bar), entered);
    var q;
    if x in exits.done {
      q :| q in entered && x in Exit(l, t, bar)(q).done;
    } else {
      ScanSource(CloseOut(l, t, bar.close), exits.kept);
      var k :| k in exits.kept && x in CloseOut(l, t, bar.close)(k).done;
      q :| q in entered && k in Exit(l, t, bar)(q).kept;
      assert k in ExitOne(l, t, bar, q).kept && x in EodOne(l, t, bar.close, k).done;
    }
    assert MadeBy(l, t, bar, eod, q, x);
    EnteredFrom(b, l, t, bar, q);
    EnteredExplained(b, l, t, bar, eod, q, x);
  }

  lemma Appended<T>(base: seq<T>, pro: seq<T>, pop: seq<T>, opt: seq<T>, lastPro: seq<T>, lastPop: seq<T>, k: nat)
    requires |base| <= k < |base + pro + pop + opt + lastPro + lastPop|
    ensures var x := (base + pro + pop + opt + lastPro + lastPop)[k];
            x in pro || x in pop || x in opt || x in lastPro || x in lastPop
  {
    var x := (base + pro + pop + opt + lastPro + lastPop)[k];
    if k < |base + pro| { assert pro[k - |base|] == x; }
  }

  /** Where a trade recorded by a bar was made. */
  lemma NewTrade(b: Book, t: Ticker, bar: Bar, eod: bool, k: nat)
    requires |b.closed| <= k < |OnBar(b, t, Some(bar), eod).closed|
    ensures var x, e := OnBar(b, t, Some(bar), eod).closed[k], Entered(b, t, bar);
            var pro, pop := Scan(Exit(Pro, t, bar), e.pro), Scan(Exit(Pop, t, bar), e.pop);
            || x in pro.done || x in pop.done || x in Scan(OptExit(t, bar.close), e.options).done
            || (eod && x in Scan(CloseOut(Pro, t, bar.close), pro.kept).done)
            || (eod && x in Scan(CloseOut(Pop, t, bar.close), pop.kept).done)
  {
    var e, after := Entered(b, t, bar), OnBar(b, t, Some(bar), eod);
    var pro, pop := Scan(Exit(Pro, t, bar), e.pro), Scan(Exit(Pop, t, bar), e.pop);
    var opt := Scan(OptExit(t, bar.close), e.options).done;
    var lastPro := if eod then Scan(CloseOut(Pro, t, bar.close), pro.kept).done else [];
    var lastPop := if eod then Scan(CloseOut(Pop, t, bar.close), pop.kept).done else [];
    assert after.closed == b.closed + pro.done + pop.done + opt + lastPro + lastPop;
    Appended(b.closed, pro.done, pop.done, opt, lastPro, lastPop, k);
  }

  /** The exit floor, over a whole bar of a whole book: every equity trade the bar records is made in
    * the turn of a position held before the bar and respects that position's stop, or closes at the
    * day's end an order filled in this very bar. */
  lemma ExitFloor(b: Book, t: Ticker, bar: Bar, eod: bool, k: nat)
    requires ValidBar(bar) && Holds(Live(), b)
    requires var after := OnBar(b, t, Some(bar), eod);
             |b.closed| <= k < |after.closed| && after.closed[k].layer != Options
    ensures var x := OnBar(b, t, Some(bar), eod).closed[k];
            Explained(b, Pro, t, bar, eod, x) || Explained(b, Pop, t, bar, eod, x)
  {
    var x, e := OnBar(b, t, Some(bar), eod).closed[k], Entered(b, t, bar);
    NewTrade(b, t, bar, eod, k);
    OptTradesAreOptions(t, bar.close, e.options);
    var pro := Scan(Exit(Pro, t, bar), e.pro);
    if x in pro.done || (eod && x in Scan(CloseOut(Pro, t, bar.close), pro.kept).done) {
      ListExplained(b, Pro, t, bar, eod, x);
    } else {
      ListExplained(b, Pop, t, bar, eod, x);
    }
  }

  /** Nothing else in the book has the position's reference. */
  ghost predicate OnlyOf(b: Book, p: Position) {
    && (p in b.pro || p in b.pop) && (forall q :: (q in b.pro || q in b.pop) && q.ref == p.ref ==> q == p)
    && (forall o :: o in b.pendingPro || o in b.pendingPop ==> o.ref != p.ref)
  }

  lemma FilledRef(b: Book, l: Layer, t: Ticker, bar: Bar, eod: bool, o: Order, x: Trade)
    requires OfFilled(b, l, t, bar, eod, o, x)
    ensures x.ref == o.ref
  {
  }

  /** With distinct references: every equity trade a bar records under the reference of a held position
    * respects the stop of that position. */
  lemma ExitFloorOfRef(b: Book, t: Ticker, bar: Bar, eod: bool, k: nat, p: Position)
    requires ValidBar(bar) && Holds(Live(), b) && OnlyOf(b, p)
    requires var after := OnBar(b, t, Some(bar), eod);
             |b.closed| <= k < |after.closed| && after.closed[k].layer != Options && after.closed[k].ref == p.ref
    ensures Respects(p, bar, OnBar(b, t, Some(bar), eod).closed[k])
  {
    var x := OnBar(b, t, Some(bar), eod).closed[k];
    ExitFloor(b, t, bar, eod, k);
    var l := if Explained(b, Pro, t, bar, eod, x) then Pro else Pop;
    if o :| OfFilled(b, l, t, bar, eod, o, x) {
      FilledRef(b, l, t, bar, eod, o, x);
    }
    var q :| OfHeld(b, l, t, bar, eod, q, x);
    assert q == p;
  }

  lemma OptTradesAreOptions(t: Ticker, close: real, s: seq<OptPosition>)
    ensures forall x :: x in Scan(OptExit(t, close), s).done ==> x.layer == Options
  {
  }

  /** The exception is exact: of a live ordered position on the last bar of the day, some exit is below
    * its stop if and only if the first target was judged nearer than the stop, the second did not trade,
    * and the close less slippage is below the stop. */
  lemma FloorExact(l: Layer, t: Ticker, bar: Bar, p: Position)
    requires ValidBar(bar) && !p.fillPending && p.exitReason.None? && p.ticker == t && Ordered(p)
    ensures (forall x :: MadeBy(l, t, bar, true, Cleared(p), x) ==> WithinStop(p, x.exit)) <==>
            !(TargetNearer(p, bar) && !Target2Trades(p, bar) && !WithinStop(p, Slip(p.side, bar.close, TARGET_SLIPPAGE)))
  {
    var q := Cleared(p);
    if TargetNearer(p, bar) && !Target2Trades(p, bar) {
      var k := PartialOf(l, q).kept[0];
      assert ExitOne(l, t, bar, q).kept == [k];
      var x := TradeOf(l, k, k.qty, Slip(p.side, bar.close, TARGET_SLIPPAGE), Eod);
      assert EodOne(l, t, bar.close, k).done == [x] && MadeBy(l, t, bar, true, q, x);
      forall y | MadeBy(l, t, bar, true, q, y)
        ensures WithinStop(p, y.exit) || y.exit == x.exit
      {
        TurnFloor(l, t, bar, true, p, y);
      }
    } else {
      forall y | MadeBy(l, t, bar, true, q, y) ensures WithinStop(p, y.exit) { FloorWithoutException(l, t, bar, p, y); }
    }
  }

  lemma FloorWithoutException(l: Layer, t: Ticker, bar: Bar, p: Position, x: Trade)
    requires ValidBar(bar) && !p.fillPending && p.exitReason.None? && p.ticker == t && Ordered(p)
    requires MadeBy(l, t, bar, true, Cleared(p), x) && !(TargetNearer(p, bar) && !Target2Trades(p, bar))
    ensures WithinStop(p, x.exit)
  {
    TurnFloor(l, t, bar, true, p, x);
    if TargetNearer(p, bar) {
      assert ExitOne(l, t, bar, Cleared(p)).kept == [];
    }
  }

  /** The exception is real: stop 95 and first target 101 both trade, the target is nearer to the
    * open, and the half that is left is closed at 91 at the end of the day. */
  lemma NearerTargetBreaksFloor()
    ensures var p := Position(0, "T", Pro, "s", Long, 99.0, 95.0, 101.0, 200.0, 2, 2, false, false, false, None);
            var bar := Bar(100.0, 101.0, 90.0, 91.0);
            var half := ExitOne(Pro, "T", bar, p);
            && ValidBar(bar) && Ordered(p) && TargetNearer(p, bar) && |half.kept| == 1
            && var out := EodOne(Pro, "T", bar.close, half.kept[0]).done; |out| == 1 && !WithinStop(p, out[0].exit)
  {
  }

  // ------------------------------------------------------------------ what slippage costs

  /** The level that triggered a trade of position `p`. */
  function LevelOf(p: Position, reason: Reason, close: real): real {
    match reason
    case Stop => p.stop
    case Target1 => p.target1
    case Target2 => p.target2
    case _ => close
  }

  function RateOf(reason: Reason): real { if reason == Stop then STOP_SLIPPAGE else TARGET_SLIPPAGE }

  /** The price is worse than the level for the side of the position, by exactly the slippage rate. */
  predicate Slipped(side: Side, level: real, rate: real, price: real) {
    if side.Long? then level - price == level * rate else price - level == level * rate
  }

  /** The trade is of position `p`, at its level less slippage. */
  predicate AtLevel(p: Position, close: real, x: Trade) {
    && x.exit == Slip(p.side, LevelOf(p, x.reason, close), RateOf(x.reason))
    && x.pnl == Pnl(p, x.exit, x.qty) && x.entry == p.entry && x.side == p.side && x.strategy == p.strategy
  }

  lemma TradeAtLevel(l: Layer, p: Position, q: Position, qty: int, reason: Reason, close: real)
    requires q.side == p.side && q.entry == p.entry && q.strategy == p.strategy
    ensures AtLevel(p, close, TradeOf(l, q, qty, Slip(p.side, LevelOf(p, reason, close), RateOf(reason)), reason))
  {
  }

  lemma ExitAtLevel(l: Layer, t: Ticker, b: Bar, p: Position)
    ensures var done := ExitOne(l, t, b, p).done; forall k | 0 <= k < |done| :: AtLevel(p, b.close, done[k])
  {
  }

  lemma FoundAtLevel(l: Layer, t: Ticker, b: Bar, p: Position, x: Trade)
    requires x in ExitOne(l, t, b, p).done || x in EodOne(l, t, b.close, p).done
    ensures AtLevel(p, b.close, x)
  {
    var done := ExitOne(l, t, b, p).done;
    if k :| 0 <= k < |done| && done[k] == x {
      ExitAtLevel(l, t, b, p);
    } else {
      TradeAtLevel(l, p, p, p.qty, Eod, b.close);
    }
  }

  lemma AtLevelMeans(p: Position, close: real, x: Trade)
    requires AtLevel(p, close, x)
    ensures Slipped(p.side, LevelOf(p, x.reason, close), RateOf(x.reason), x.exit)
    ensures x.pnl == (if p.side.Long? then x.exit - p.entry else p.entry - x.exit) * x.qty as real
  {
  }

  /** Every equity exit is at the level that triggered it less its slippage, and its P&L is the price
    * change over its shares in the direction of the position. */
  lemma ExitsAtLevel(l: Layer, t: Ticker, b: Bar, p: Position, x: Trade)
    requires x in ExitOne(l, t, b, p).done || x in EodOne(l, t, b.close, p).done
    ensures Slipped(p.side, LevelOf(p, x.reason, b.close), RateOf(x.reason), x.exit)
    ensures x.pnl == (if p.side.Long? then x.exit - p.entry else p.entry - x.exit) * x.qty as real
    ensures x.entry == p.entry && x.side == p.side && x.strategy == p.strategy
  {
    FoundAtLevel(l, t, b, p, x);
    AtLevelMeans(p, b.close, x);
  }

  /** A position opened and closed at one price loses exactly both slippages, long or short. */
  lemma FlatRoundTrip(l: Layer, price: real, o: Order)
    ensures var p := Opened(l, price, o);
            var out := EodOne(l, o.ticker, price, p).done;
            && |out| == 1 && out[0].qty == o.qty
            && out[0].pnl == -(price * (SPREAD_FACTOR + TARGET_SLIPPAGE)) * o.qty as real
            && (p.side.Long? <==> IsLong(o))
  {
    var p := Opened(l, price, o);
    var exit := Slip(p.side, price, TARGET_SLIPPAGE);
    assert (if p.side.Long? then exit - p.entry else p.entry - exit) == -(price * (SPREAD_FACTOR + TARGET_SLIPPAGE));
  }

  // ------------------------------------------------------------------ the life of an options position

  function BarCount(op: Op, t: Ticker): nat {
    if op.BarOp? && op.bar.Some? && op.ticker == t then 1 else 0
  }

  function BarsOf(ops: seq<Op>, t: Ticker): nat {
    if ops == [] then 0 else BarCount(ops[0], t) + BarsOf(ops[1..], t)
  }

  /** How many bars an options order can be held for, counting the bar that fills it. */
  function Lifetime(o: OptOrder): int {
    if 390 * (Dte(o) - 10) > 1 then 390 * (Dte(o) - 10) else 1
  }

  /** `n` bars of its ticker after it was queued, order `o` is pending only if n is 0, and held only
    * if n is positive and within its lifetime. */
  ghost predicate Aged(b: Book, o: OptOrder, n: nat) {
    && (forall x :: x in b.pendingOptions && x.ref == o.ref ==> x == o && n == 0)
    && (forall x :: x in b.options && x.ref == o.ref ==>
          x.ticker == o.ticker && x.totalDte == Dte(o) && x.exitReason.None? && x.barsHeld == n && 1 <= n < Lifetime(o))
  }

  lemma EnteredOptions(b: Book, t: Ticker, close: real, o: OptOrder, n: nat, x: OptPosition)
    requires Aged(b, o, n) && x.ref == o.ref
    requires x in b.options + Scan(FillOpt(t, close), b.pendingOptions).done
    ensures x.ticker == o.ticker && x.totalDte == Dte(o) && x.exitReason.None? && x.barsHeld == n
    ensures if n == 0 then o.ticker == t else n < Lifetime(o)
  {
    ScanSource(FillOpt(t, close), b.pendingOptions);
    if x !in b.options {
      var y :| y in b.pendingOptions && x in FillOpt(t, close)(y).done;
    }
  }

  lemma OptionAges(b: Book, o: OptOrder, n: nat, t: Ticker, close: real, y: OptPosition, x: OptPosition)
    requires Aged(b, o, n) && y in b.options + Scan(FillOpt(t, close), b.pendingOptions).done
    requires x in OptOne(t, close, y).kept && x.ref == o.ref
    ensures x.ticker == o.ticker && x.totalDte == Dte(o) && x.exitReason.None?
    ensures x.barsHeld == (if t == o.ticker then n + 1 else n) && 1 <= x.barsHeld < Lifetime(o)
  {
    OptExitSplits(t, close, y);
    EnteredOptions(b, t, close, o, n, y);
    if t == o.ticker {
      assert x == y.(barsHeld := n + 1);
      assert Dte(o) as real - (n + 1) as real / BARS_PER_DAY > 10.0;
    } else {
      assert x == y && n > 0;
    }
  }

  lemma BarAges(b: Book, o: OptOrder, n: nat, t: Ticker, bar: Bar, eod: bool)
    requires Aged(b, o, n)
    ensures Aged(OnBar(b, t, Some(bar), eod), o, if t == o.ticker then n + 1 else n)
  {
    var after := OnBar(b, t, Some(bar), eod);
    var entered := b.options + Scan(FillOpt(t, bar.close), b.pendingOptions).done;
    assert after.pendingOptions == Scan(FillOpt(t, bar.close), b.pendingOptions).kept;
    assert after.options == Scan(OptExit(t, bar.close), entered).kept;
    ScanSource(FillOpt(t, bar.close), b.pendingOptions);
    ScanSource(OptExit(t, bar.close), entered);
    forall x | x in after.options && x.ref == o.ref
      ensures x.ticker == o.ticker && x.totalDte == Dte(o) && x.exitReason.None?
      ensures x.barsHeld == (if t == o.ticker then n + 1 else n) && 1 <= x.barsHeld < Lifetime(o)
    {
      var y :| y in entered && x in OptExit(t, bar.close)(y).kept;
      OptionAges(b, o, n, t, bar.close, y, x);
    }
    forall x | x in after.pendingOptions && x.ref == o.ref
      ensures x == o && n == 0 && t != o.ticker
    {
      var y :| y in b.pendingOptions && x in FillOpt(t, bar.close)(y).kept;
    }
  }

  lemma StepAges(b: Book, o: OptOrder, n: nat, op: Op)
    requires Aged(b, o, n) && (op.QueueOptions? ==> op.optOrder.ref != o.ref)
    ensures Aged(Step(b, op), o, n + BarCount(op, o.ticker))
  {
    if op.BarOp? && op.bar.Some? { BarAges(b, o, n, op.ticker, op.bar.value, op.eod); }
  }

  lemma {:induction false} RunAges(b: Book, o: OptOrder, n: nat, ops: seq<Op>)
    requires Aged(b, o, n)
    requires forall i | 0 <= i < |ops| && ops[i].QueueOptions? :: ops[i].optOrder.ref != o.ref
    ensures Aged(Run(b, ops), o, n + BarsOf(ops, o.ticker))
    decreases ops
  {
    if ops != [] {
      StepAges(b, o, n, ops[0]);
      RunAges(Step(b, ops[0]), o, n + BarCount(ops[0], o.ticker), ops[1..]);
    }
  }

  /** The lifetime from the days left: ten days or less and the fill bar is the last one. */
  lemma LifetimeDays(o: OptOrder)
    ensures o.daysLeft.None? ==> Lifetime(o) == 7800
    ensures o.daysLeft.Some? ==> Lifetime(o) == if o.daysLeft.value <= 10 then 1 else 390 * (o.daysLeft.value - 10)
  {
  }

  /** Bounded life: whatever the prices, once `Lifetime` bars of its ticker have been processed an
    * options order is neither pending nor held, and exactly one trade was recorded for it. */
  lemma OptionsLifetime(b: Book, o: OptOrder, ops: seq<Op>)
    requires Aged(b, o, 0) && Total(OptLots(o.ref), b) == 1
    requires forall x :: x in b.closed ==> x.ref != o.ref
    requires forall i | 0 <= i < |ops| && ops[i].QueueOptions? :: ops[i].optOrder.ref != o.ref
    requires BarsOf(ops, o.ticker) >= Lifetime(o)
    ensures var e := Run(b, ops);
            && (forall x :: x in e.pendingOptions ==> x.ref != o.ref)
            && (forall x :: x in e.options ==> x.ref != o.ref)
            && SumInt(OptLots(o.ref).trade, e.closed) == 1
  {
    var w, e := OptLots(o.ref), Run(b, ops);
    RunAges(b, o, 0, ops);
    OptLotsConserved(b, ops, o.ref);
    NoneQueued(o.ref, ops);
    SumZero(w.optOrder, e.pendingOptions);
    SumZero(w.opt, e.options);
    SumZero(w.order, e.pendingPro);
    SumZero(w.order, e.pendingPop);
    SumZero(w.pos, e.pro);
    SumZero(w.pos, e.pop);
  }

  lemma {:induction false} NoneQueued(ref: nat, ops: seq<Op>)
    requires forall i | 0 <= i < |ops| && ops[i].QueueOptions? :: ops[i].optOrder.ref != ref
    ensures AllQueued(OptLots(ref), ops) == 0
  {
    if ops != [] { NoneQueued(ref, ops[1..]); }
  }
}
