/** What a position keeps of the order it came from, exactly which exits a bar makes of it, and that a
  * bar leaves none of them out. */
module FillTerms {
  import opened Wrappers
  import opened Seqs
  import opened FillModel
  import opened FillLaws
  import opened FillExits

  // ------------------------------------------------------------------ the terms of an order, over runs

  /** A signal decides the side if there is one, else a direction, else the order is long. */
  predicate Buys(o: Order) {
    o.signal == Some("BUY") || (o.signal.None? && (o.direction == Some("long") || o.direction.None?))
  }

  /** The position has the order's terms; once half of it is sold, which takes two shares, its stop is at
    * the entry price and the other half is left. */
  predicate Descends(p: Position, o: Order) {
    && p.ticker == o.ticker && p.strategy == o.strategy && (p.side.Long? <==> Buys(o))
    && p.target1 == o.target1 && p.target2 == o.target2 && p.originalQty == o.qty
    && (if p.partialExited && o.qty >= 2 then p.stop == p.entry && p.qty == o.qty - o.qty / 2
        else p.stop == o.stop && p.qty == o.qty)
  }

  /** The trade has the order's terms: half of the shares at the first target, else all or what is left. */
  predicate TradedFrom(x: Trade, o: Order) {
    && x.ticker == o.ticker && x.strategy == o.strategy && (x.side.Long? <==> Buys(o))
    && (if x.reason == Target1 then o.qty >= 2 && x.qty == o.qty / 2
        else x.qty == o.qty || (o.qty >= 2 && x.qty == o.qty - o.qty / 2))
  }

  function TermsOf(o: Order): Kinds {
    Kinds((x: Order) => x.ref == o.ref ==> x == o, (x: OptOrder) => true,
          (p: Position) => p.ref == o.ref ==> Descends(p, o), (x: OptPosition) => true,
          (x: Trade) => x.ref == o.ref && x.layer != Options ==> TradedFrom(x, o))
  }

  lemma OpenedDescends(l: Layer, open: real, o: Order)
    ensures var p := Opened(l, open, o);
            Descends(p, o) && p.ref == o.ref && p.layer == l && p.filledThisBar && !p.partialExited
            && p.entry == if Buys(o) then open * (1.0 + SPREAD_FACTOR) else open * (1.0 - SPREAD_FACTOR)
  {
  }

  lemma HalfDescends(l: Layer, p: Position, o: Order)
    requires Descends(p, o) && !p.partialExited && p.ref == o.ref
    ensures var half := PartialOf(l, p);
            && |half.kept| == 1 && half.kept[0].ref == o.ref && half.kept[0].partialExited && Descends(half.kept[0], o)
            && forall k | 0 <= k < |half.done| :: TradedFrom(half.done[k], o)
  {
  }

  lemma WholeDescends(l: Layer, p: Position, o: Order, exit: real, reason: Reason)
    requires Descends(p, o) && reason != Target1
    ensures TradedFrom(TradeOf(l, p, p.qty, exit, reason), o)
  {
  }

  lemma ExitDescends(l: Layer, t: Ticker, b: Bar, p: Position, o: Order)
    requires Descends(p, o) && p.ref == o.ref
    ensures var e := ExitOne(l, t, b, p);
            && (forall k | 0 <= k < |e.kept| :: Descends(e.kept[k], o))
            && forall k | 0 <= k < |e.done| :: TradedFrom(e.done[k], o)
  {
    if Target1Trades(p, b) { HalfDescends(l, p, o); }
    var half := if Target1Trades(p, b) then PartialOf(l, p) else Outcome([p], []);
    WholeDescends(l, p, o, Slip(p.side, p.stop, STOP_SLIPPAGE), Stop);
    WholeDescends(l, half.kept[0], o, Slip(p.side, p.target2, TARGET_SLIPPAGE), Target2);
  }

  lemma ExitKeepsTerms(l: Layer, t: Ticker, b: Bar, o: Order)
    ensures Maps(Exit(l, t, b), TermsOf(o).pos, TermsOf(o).trade)
  {
    forall p | TermsOf(o).pos(p)
      ensures All(TermsOf(o).pos, Exit(l, t, b)(p).kept) && All(TermsOf(o).trade, Exit(l, t, b)(p).done)
    {
      ExitSplits(l, t, b, p);
      if p.ref == o.ref { ExitDescends(l, t, b, p, o); }
      ExitTermsOf(l, t, b, p, o);
    }
  }

  lemma ExitTermsOf(l: Layer, t: Ticker, b: Bar, p: Position, o: Order)
    requires var e := ExitOne(l, t, b, p);
             && Splits(l, p, e)
             && (p.ref == o.ref ==> (forall k | 0 <= k < |e.kept| :: Descends(e.kept[k], o)))
             && (p.ref == o.ref ==> (forall k | 0 <= k < |e.done| :: TradedFrom(e.done[k], o)))
    ensures All(TermsOf(o).pos, ExitOne(l, t, b, p).kept) && All(TermsOf(o).trade, ExitOne(l, t, b, p).done)
  {
  }

  lemma CloseKeepsTerms(l: Layer, t: Ticker, close: real, o: Order)
    ensures Maps(CloseOut(l, t, close), TermsOf(o).pos, TermsOf(o).trade)
  {
    forall p | TermsOf(o).pos(p)
      ensures All(TermsOf(o).pos, CloseOut(l, t, close)(p).kept) && All(TermsOf(o).trade, CloseOut(l, t, close)(p).done)
    {
      if p.ref == o.ref { WholeDescends(l, p, o, Slip(p.side, close, TARGET_SLIPPAGE), Eod); }
    }
  }

  lemma FillKeepsTerms(l: Layer, t: Ticker, open: real, o: Order)
    ensures Maps(Fill(l, t, open), TermsOf(o).order, TermsOf(o).pos)
  {
    OpenedDescends(l, open, o);
  }

  lemma ClearKeepsTerms(t: Ticker, o: Order)
    ensures Maps(Clear(t), TermsOf(o).pos, TermsOf(o).trade)
  {
  }

  lemma OptKeepsTerms(t: Ticker, close: real, o: Order)
    ensures Maps(OptExit(t, close), TermsOf(o).opt, TermsOf(o).trade)
  {
    forall p ensures All(TermsOf(o).trade, OptExit(t, close)(p).done) { OptExitSplits(t, close, p); }
  }

  lemma TermsStable(o: Order)
    ensures Stable(TermsOf(o))
  {
    forall l, t, x { FillKeepsTerms(l, t, x, o); }
    forall t { ClearKeepsTerms(t, o); }
    forall l, t, b { ExitKeepsTerms(l, t, b, o); }
    forall l, t, x { CloseKeepsTerms(l, t, x, o); }
    forall t, x { OptKeepsTerms(t, x, o); }
  }

  /** Over every run in which only this order has its reference, from a book that does not know it: every
    * position of it has its terms, with the stop moved to the entry exactly when half was sold, and every
    * trade of it has its terms. */
  lemma OrderTerms(b: Book, ops: seq<Op>, o: Order)
    requires Unknown(o.ref, b) && forall i | 0 <= i < |ops| :: Admits(TermsOf(o), ops[i])
    ensures var e := Run(b, ops);
            && (forall p :: (p in e.pro || p in e.pop) && p.ref == o.ref ==> Descends(p, o))
            && forall x :: x in e.closed && x.ref == o.ref && x.layer != Options ==> TradedFrom(x, o)
  {
    TermsStable(o);
    UnknownTerms(o, b);
    RunStable(TermsOf(o), b, ops);
  }

  lemma UnknownTerms(o: Order, b: Book)
    requires Unknown(o.ref, b)
    ensures Holds(TermsOf(o), b)
  {
  }

  // ------------------------------------------------------------------ the terms of an options order

  /** Whole days to expiry, at least one; thirty if the expiry is not known. */
  predicate Days(o: OptOrder, days: int) {
    if o.daysLeft.None? then days == 30 else days >= 1 && days >= o.daysLeft.value && (days == 1 || days == o.daysLeft.value)
  }

  predicate OptDescends(p: OptPosition, o: OptOrder) {
    && p.ticker == o.ticker && p.strategy == o.strategy && p.netDebit == o.netDebit
    && p.maxRisk == o.maxRisk && p.maxReward == o.maxReward && Days(o, p.totalDte)
  }

  predicate OptTradedFrom(x: Trade, o: OptOrder) {
    && x.ticker == o.ticker && x.strategy == o.strategy && x.side == Long && x.qty == 1
    && x.entry == (if o.netDebit >= 0.0 then o.netDebit else -o.netDebit) && x.exit == x.entry + x.pnl
  }

  function OptTermsOf(o: OptOrder): Kinds {
    Kinds((x: Order) => true, (x: OptOrder) => x.ref == o.ref ==> x == o,
          (p: Position) => true, (p: OptPosition) => p.ref == o.ref ==> OptDescends(p, o),
          (x: Trade) => x.ref == o.ref && x.layer == Options ==> OptTradedFrom(x, o))
  }

  /** An options position is entered at the bar's close, with no bars held. */
  lemma OptOpenedDescends(close: real, o: OptOrder)
    ensures var p := OptOpened(close, o);
            OptDescends(p, o) && p.ref == o.ref && p.entrySpot == close && p.barsHeld == 0 && p.exitReason.None?
  {
  }

  lemma OptExitDescends(t: Ticker, close: real, p: OptPosition, o: OptOrder)
    requires OptDescends(p, o)
    ensures var e := OptOne(t, close, p);
            && (forall k | 0 <= k < |e.kept| :: OptDescends(e.kept[k], o) && e.kept[k].entrySpot == p.entrySpot)
            && forall k | 0 <= k < |e.done| :: OptTradedFrom(e.done[k], o)
  {
  }

  lemma OptExitKeepsTerms(t: Ticker, close: real, o: OptOrder)
    ensures Maps(OptExit(t, close), OptTermsOf(o).opt, OptTermsOf(o).trade)
  {
    forall p | OptTermsOf(o).opt(p)
      ensures All(OptTermsOf(o).opt, OptExit(t, close)(p).kept) && All(OptTermsOf(o).trade, OptExit(t, close)(p).done)
    {
      OptExitSplits(t, close, p);
      if p.ref == o.ref { OptExitDescends(t, close, p, o); }
      OptTermsOfOutcome(p, OptExit(t, close)(p), o);
    }
  }

  lemma OptTermsOfOutcome(p: OptPosition, e: Outcome<OptPosition, Trade>, o: OptOrder)
    requires OptSplits(p, e)
    requires p.ref == o.ref ==> (forall k | 0 <= k < |e.kept| :: OptDescends(e.kept[k], o))
    requires p.ref == o.ref ==> (forall k | 0 <= k < |e.done| :: OptTradedFrom(e.done[k], o))
    ensures All(OptTermsOf(o).opt, e.kept) && All(OptTermsOf(o).trade, e.done)
  {
  }

  /** The equity passes make no options trades. */
  lemma EquityTradesKeep(f: Position -> Outcome<Position, Trade>, l: Layer, o: OptOrder)
    requires l != Options && forall p :: Splits(l, p, f(p))
    ensures Maps(f, OptTermsOf(o).pos, OptTermsOf(o).trade)
  {
    forall p ensures All(OptTermsOf(o).trade, f(p).done) { assert Splits(l, p, f(p)); }
  }

  lemma OptTermsStable(o: OptOrder)
    ensures Stable(OptTermsOf(o))
  {
    forall t, x { OptExitKeepsTerms(t, x, o); }
    forall t, x ensures Maps(FillOpt(t, x), OptTermsOf(o).optOrder, OptTermsOf(o).opt) { OptOpenedDescends(x, o); }
    forall l, t, b | l != Options ensures Maps(Exit(l, t, b), OptTermsOf(o).pos, OptTermsOf(o).trade) {
      forall p { ExitSplits(l, t, b, p); }
      EquityTradesKeep(Exit(l, t, b), l, o);
    }
    forall l, t, x | l != Options ensures Maps(CloseOut(l, t, x), OptTermsOf(o).pos, OptTermsOf(o).trade) {
      forall p { CloseOutSplits(l, t, x, p); }
      EquityTradesKeep(CloseOut(l, t, x), l, o);
    }
  }

  /** Over every run in which only this options order has its reference, from a book that does not know it,
    * every options position and trade of it has its terms. */
  lemma OptOrderTerms(b: Book, ops: seq<Op>, o: OptOrder)
    requires Holds(OptTermsOf(o), b) && forall i | 0 <= i < |ops| :: Admits(OptTermsOf(o), ops[i])
    ensures var e := Run(b, ops);
            && (forall p :: p in e.options && p.ref == o.ref ==> OptDescends(p, o))
            && forall x :: x in e.closed && x.ref == o.ref && x.layer == Options ==> OptTradedFrom(x, o)
  {
    OptTermsStable(o);
    RunStable(OptTermsOf(o), b, ops);
  }

  /** Exactly when an options position is closed, why, and at what P&L: first at its share of the reward,
    * then at half of the risk, then ten days before expiry. */
  lemma OptExitsExactly(t: Ticker, close: real, p: OptPosition)
    requires p.ticker == t && p.exitReason.None?
    ensures var held := p.(barsHeld := p.barsHeld + 1);
            var pnl := Estimate(held, close);
            var share := if p.strategy in {"bull_put_spread", "bear_call_spread", "iron_condor", "iron_butterfly"} then 0.5
                         else if p.strategy in {"long_straddle", "long_strangle"} then 0.6 else 0.8;
            var won, lost := pnl >= p.maxReward * share, pnl <= -(p.maxRisk * 0.5);
            var late := p.barsHeld + 1 >= 390 * (p.totalDte - 10);
            var e := OptOne(t, close, p);
            && (e.done == [] <==> !won && !lost && !late) && e.kept == (if e.done == [] then [held] else []) && |e.done| <= 1
            && (e.done != [] ==> e.done[0].pnl == pnl
                                 && e.done[0].reason == if won then ProfitTarget else if lost then StopLoss else DteClose)
  {
    LateBars(p.totalDte, p.barsHeld + 1);
  }

  lemma LateBars(dte: int, bars: int)
    ensures dte as real - bars as real / BARS_PER_DAY <= 10.0 <==> bars >= 390 * (dte - 10)
  {
  }

  // ------------------------------------------------------------------ exactly which exits

  function Reasons(s: seq<Trade>): set<Reason> { set k | 0 <= k < |s| :: s[k].reason }

  /** What the checks of a bar make of a position that is due for them, from its prices alone.  A level
    * touched trades; of a stop and a target in one bar the stop wins unless the open is strictly nearer to
    * the target, the second one if both traded. */
  lemma ExitsExactly(l: Layer, t: Ticker, b: Bar, p: Position)
    requires p.ticker == t && !p.fillPending && p.exitReason.None? && !p.filledThisBar
    ensures var stop := if p.side.Long? then b.low <= p.stop else b.high >= p.stop;
            var one := !p.partialExited && if p.side.Long? then b.high >= p.target1 else b.low <= p.target1;
            var two := if p.side.Long? then b.high >= p.target2 else b.low <= p.target2;
            var level := if two then p.target2 else p.target1;
            var stopped := stop && (!(one || two) || Abs(b.open - p.stop) <= Abs(b.open - level));
            var e := ExitOne(l, t, b, p);
            && (Stop in Reasons(e.done) <==> stopped)
            && (Target1 in Reasons(e.done) <==> !stopped && one && p.qty >= 2)
            && (Target2 in Reasons(e.done) <==> !stopped && two)
            && Reasons(e.done) <= {Stop, Target1, Target2}
            && (e.kept == [] <==> stopped || two)
            && (!stopped && !one && !two ==> e.kept == [p])
            && (e.kept != [] && one ==> e.kept[0].partialExited)
  {
    var e := ExitOne(l, t, b, p);
    if StopTrades(p, b) && !TargetNearer(p, b) {
      OneReason(e.done);
    } else if |e.done| == 1 {
      OneReason(e.done);
    } else if |e.done| == 2 {
      TwoReasons(e.done);
    }
  }

  lemma OneReason(s: seq<Trade>)
    requires |s| == 1
    ensures Reasons(s) == {s[0].reason}
  {
  }

  lemma TwoReasons(s: seq<Trade>)
    requires |s| == 2
    ensures Reasons(s) == {s[0].reason, s[1].reason}
  {
    assert s[0].reason in Reasons(s) && s[1].reason in Reasons(s);
  }

  /** Positions of other tickers, and those just filled, are left alone. */
  lemma NotDue(l: Layer, t: Ticker, b: Bar, p: Position)
    requires p.ticker != t || p.fillPending || p.exitReason.Some? || p.filledThisBar
    ensures ExitOne(l, t, b, p) == Outcome([p], [])
  {
  }

  /** The day's end closes every live position of the ticker whole, and no other. */
  lemma EodExactly(l: Layer, t: Ticker, close: real, p: Position)
    requires p.exitReason.None?
    ensures var e := EodOne(l, t, close, p);
            if p.ticker == t then e.kept == [] && |e.done| == 1 && e.done[0].reason == Eod && e.done[0].qty == p.qty
            else e == Outcome([p], [])
  {
  }

  // ------------------------------------------------------------------ nothing is left out

  lemma {:induction false} ScanReaches<A, T>(f: A -> Outcome<A, T>, s: seq<A>, a: A)
    requires a in s
    ensures forall x :: x in f(a).kept ==> x in Scan(f, s).kept
    ensures forall x :: x in f(a).done ==> x in Scan(f, s).done
  {
    var front, last := s[..|s| - 1], s[|s| - 1];
    assert s == front + [last];
    if a != last { ScanReaches(f, front, a); }
  }

  function EnteredList(b: Book, l: Layer, t: Ticker, bar: Bar): seq<Position> {
    Scan(Clear(t), HeldOf(b, l)).kept + Scan(Fill(l, t, bar.open), PendingOf(b, l)).done
  }

  lemma HeldEnters(b: Book, l: Layer, t: Ticker, bar: Bar, p: Position)
    requires p in HeldOf(b, l)
    ensures (if p.ticker == t then Cleared(p) else p) in EnteredList(b, l, t, bar)
  {
    ScanReaches(Clear(t), HeldOf(b, l), p);
    assert Clear(t)(p).kept == [if p.ticker == t then Cleared(p) else p];
  }

  /** What a position in the list makes of its turn is what the list has after the pass. */
  lemma TurnReaches(b: Book, l: Layer, t: Ticker, bar: Bar, q: Position)
    requires l != Options && q in EnteredList(b, l, t, bar)
    ensures var exits := Scan(Exit(l, t, bar), EnteredList(b, l, t, bar));
            && (forall k :: k in ExitOne(l, t, bar, q).kept ==> k in exits.kept)
            && forall x :: x in ExitOne(l, t, bar, q).done ==> x in exits.done
  {
    ScanReaches(Exit(l, t, bar), EnteredList(b, l, t, bar), q);
  }

  lemma ListAfter(b: Book, l: Layer, t: Ticker, bar: Bar)
    requires l != Options
    ensures HeldOf(OnBar(b, t, Some(bar), false), l) == Scan(Exit(l, t, bar), EnteredList(b, l, t, bar)).kept
  {
  }

  /** After a bar that does not end the day the lists hold, of every position held before, what its turn
    * left; every position of another ticker; and every order of the ticker, filled at the open. */
  lemma NothingForgotten(b: Book, l: Layer, t: Ticker, bar: Bar, p: Position, k: Position, o: Order)
    requires l != Options
    ensures var after := HeldOf(OnBar(b, t, Some(bar), false), l);
            && (p in HeldOf(b, l) && p.ticker == t && k in ExitOne(l, t, bar, Cleared(p)).kept ==> k in after)
            && (p in HeldOf(b, l) && p.ticker != t ==> p in after)
            && (o in PendingOf(b, l) && o.ticker == t ==> Opened(l, bar.open, o) in after)
  {
    ListAfter(b, l, t, bar);
    if p in HeldOf(b, l) {
      var q := if p.ticker == t then Cleared(p) else p;
      HeldEnters(b, l, t, bar, p);
      TurnReaches(b, l, t, bar, q);
      if p.ticker != t { NotDue(l, t, bar, p); }
    }
    if o in PendingOf(b, l) && o.ticker == t {
      var q := Opened(l, bar.open, o);
      ScanReaches(Fill(l, t, bar.open), PendingOf(b, l), o);
      assert Fill(l, t, bar.open)(o).done == [q];
      assert q in EnteredList(b, l, t, bar);
      TurnReaches(b, l, t, bar, q);
      NotDue(l, t, bar, q);
    }
  }

  lemma InTail<T>(base: seq<T>, tail: seq<T>, x: T)
    requires x in tail
    ensures exists k :: |base| <= k < |base + tail| && (base + tail)[k] == x
  {
    var i :| 0 <= i < |tail| && tail[i] == x;
    assert (base + tail)[|base| + i] == x;
  }

  /** The trades a bar adds to the book. */
  function Added(b: Book, t: Ticker, bar: Bar, eod: bool): seq<Trade> {
    var e := Entered(b, t, bar);
    var pro, pop := Scan(Exit(Pro, t, bar), e.pro), Scan(Exit(Pop, t, bar), e.pop);
    pro.done + pop.done + Scan(OptExit(t, bar.close), e.options).done
    + (if eod then Scan(CloseOut(Pro, t, bar.close), pro.kept).done + Scan(CloseOut(Pop, t, bar.close), pop.kept).done else [])
  }

  lemma Regrouped<T>(base: seq<T>, a: seq<T>, c: seq<T>, d: seq<T>, e: seq<T>, f: seq<T>)
    ensures base + a + c + d == base + (a + c + d + []) && base + a + c + d + e + f == base + (a + c + d + (e + f))
  {
  }

  lemma ClosedIsAdded(b: Book, t: Ticker, bar: Bar, eod: bool)
    ensures OnBar(b, t, Some(bar), eod).closed == b.closed + Added(b, t, bar, eod)
  {
    var e := Entered(b, t, bar);
    var pro, pop := Scan(Exit(Pro, t, bar), e.pro), Scan(Exit(Pop, t, bar), e.pop);
    Regrouped(b.closed, pro.done, pop.done, Scan(OptExit(t, bar.close), e.options).done,
              Scan(CloseOut(Pro, t, bar.close), pro.kept).done, Scan(CloseOut(Pop, t, bar.close), pop.kept).done);
  }

  lemma DoneIsAdded(b: Book, l: Layer, t: Ticker, bar: Bar, eod: bool, x: Trade)
    requires l != Options
    requires var exits := Scan(Exit(l, t, bar), EnteredList(b, l, t, bar));
             x in exits.done || (eod && x in Scan(CloseOut(l, t, bar.close), exits.kept).done)
    ensures x in Added(b, t, bar, eod)
  {
  }

  /** Every trade that a position held before the bar makes in its own turn is recorded by the bar. */
  lemma TurnRecorded(b: Book, l: Layer, t: Ticker, bar: Bar, eod: bool, p: Position, x: Trade)
    requires l != Options && p in HeldOf(b, l) && p.ticker == t && MadeBy(l, t, bar, eod, Cleared(p), x)
    ensures exists k :: |b.closed| <= k < |OnBar(b, t, Some(bar), eod).closed| && OnBar(b, t, Some(bar), eod).closed[k] == x
  {
    var q, exits := Cleared(p), Scan(Exit(l, t, bar), EnteredList(b, l, t, bar));
    HeldEnters(b, l, t, bar, p);
    TurnReaches(b, l, t, bar, q);
    if x !in ExitOne(l, t, bar, q).done {
      var k :| k in ExitOne(l, t, bar, q).kept && x in EodOne(l, t, bar.close, k).done;
      ScanReaches(CloseOut(l, t, bar.close), exits.kept, k);
    }
    DoneIsAdded(b, l, t, bar, eod, x);
    InTail(b.closed, Added(b, t, bar, eod), x);
    ClosedIsAdded(b, t, bar, eod);
  }

  /** The same for options: whatever was held, and every order of the ticker entered at the bar's close, is
    * judged at the close, and what that leaves or records is in the book. */
  lemma OptionsNotForgotten(b: Book, t: Ticker, bar: Bar, eod: bool, p: OptPosition)
    requires p in b.options || exists o :: o in b.pendingOptions && o.ticker == t && p == OptOpened(bar.close, o)
    ensures forall k :: k in OptOne(t, bar.close, p).kept ==> k in OnBar(b, t, Some(bar), eod).options
    ensures forall x :: x in OptOne(t, bar.close, p).done ==> x in Added(b, t, bar, eod)
  {
    var entered := b.options + Scan(FillOpt(t, bar.close), b.pendingOptions).done;
    if p !in b.options {
      var o :| o in b.pendingOptions && o.ticker == t && p == OptOpened(bar.close, o);
      ScanReaches(FillOpt(t, bar.close), b.pendingOptions, o);
      assert FillOpt(t, bar.close)(o).done == [p];
    }
    assert p in entered;
    ScanReaches(OptExit(t, bar.close), entered, p);
    assert OnBar(b, t, Some(bar), eod).options == Scan(OptExit(t, bar.close), entered).kept;
    assert Entered(b, t, bar).options == entered;
  }
}
