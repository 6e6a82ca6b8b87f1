/** backtests/fill_simulator.py: the simulator object, whose lists and accounts every bar rewrites.
  * Its methods refine the passes of `FillModel`; its accounts always agree with its trades. */
module FillSimulation {
  import opened Wrappers
  import opened Seqs
  import opened FillModel

  /** What the trades so far have added to the equity, and of that to the cash. */
  datatype Money = Money(pnl: real, cash: real)

  function Booked(s: seq<Trade>, n: nat): Money
    requires n <= |s|
  {
    if n == 0 then Money(0.0, 0.0)
    else
      var m, x := Booked(s, n - 1), s[n - 1];
      Money(m.pnl + x.pnl, if x.layer == Options then m.cash else m.cash + x.pnl)
  }

  lemma {:induction false} BookedPrefix(s: seq<Trade>, x: Trade, n: nat)
    requires n <= |s|
    ensures Booked(s + [x], n) == Booked(s, n)
  {
    if n != 0 { BookedPrefix(s, x, n - 1); }
  }

  function TradePnl(): Trade -> real { (x: Trade) => x.pnl }

  function OptionsPnl(): Trade -> real { (x: Trade) => if x.layer == Options then x.pnl else 0.0 }

  lemma {:induction false} BookedIsSum(s: seq<Trade>, n: nat)
    requires n <= |s|
    ensures Booked(s, n).pnl == SumReal(TradePnl(), s[..n])
    ensures Booked(s, n).pnl - Booked(s, n).cash == SumReal(OptionsPnl(), s[..n])
  {
    if n != 0 {
      BookedIsSum(s, n - 1);
      assert s[..n][..n - 1] == s[..n - 1];
    }
  }

  lemma BarInSteps(before: Book, entered: Book, checked: Book, judged: Book, after: Book, t: Ticker, b: Bar, eod: bool)
    requires entered == Entered(before, t, b) && checked == ExitPass(entered, t, b)
    requires judged == OptExitPass(checked, t, b.close)
    requires after == if eod then EodPass(judged, t, b.close) else judged
    ensures after == Step(before, BarOp(t, Some(b), eod))
  {
  }

  /** One pass over each equity list, recording the trades of the first before those of the second. */
  lemma EquityInSteps(was: Book, now: Book, half: seq<Trade>, f: Position -> Outcome<Position, Trade>, g: Position -> Outcome<Position, Trade>)
    requires half == was.closed + Scan(f, was.pro).done && now.closed == half + Scan(g, was.pop).done
    requires now == was.(pro := Scan(f, was.pro).kept, pop := Scan(g, was.pop).kept, closed := now.closed)
    ensures var pro, pop := Scan(f, was.pro), Scan(g, was.pop);
            now == was.(pro := pro.kept, pop := pop.kept, closed := was.closed + pro.done + pop.done)
  {
  }

  lemma Monotone(a: real, b: real, price: real)
    requires a <= b && price > 0.0
    ensures a * price <= b * price
  {
  }

  lemma Quotient(budget: real, price: real, n: real)
    requires price > 0.0
    ensures n <= budget / price <==> n * price <= budget
  {
    var q := budget / price;
    assert q * price == budget;
    if n <= q { Monotone(n, q, price); } else { assert (n - q) * price > 0.0; }
  }

  /** The whole part of budget over price is the most shares the budget buys. */
  lemma WholeShares(budget: real, price: real)
    requires price > 0.0
    ensures var n := (budget / price).Floor; n as real * price <= budget < (n + 1) as real * price
  {
    var n := (budget / price).Floor;
    Quotient(budget, price, n as real);
    Quotient(budget, price, (n + 1) as real);
  }

  class FillSimulator {
    const startingEquity: real
    var currentEquity: real
    var cash: real
    var cumulativePnl: real
    var pendingPro: seq<Order>
    var pendingPop: seq<Order>
    var pendingOptions: seq<OptOrder>
    var pro: seq<Position>
    var pop: seq<Position>
    var options: seq<OptPosition>
    var closedTrades: seq<Trade>

    function Lists(): Book
      reads this
    {
      Book(pendingPro, pendingPop, pendingOptions, pro, pop, options, closedTrades)
    }

    /** The running accounts are the starting equity plus the trades recorded so far. */
    predicate Balanced()
      reads this`cumulativePnl, this`currentEquity, this`cash, this`closedTrades
    {
      && currentEquity == startingEquity + cumulativePnl
      && Money(cumulativePnl, cash - startingEquity) == Booked(closedTrades, |closedTrades|)
    }

    constructor (tradeBudget: real := 1000.0)
      ensures startingEquity == tradeBudget && Lists() == EMPTY && Balanced()
    {
      startingEquity, currentEquity, cash, cumulativePnl := tradeBudget, tradeBudget, tradeBudget, 0.0;
      pendingPro, pendingPop, pendingOptions, pro, pop, options, closedTrades := [], [], [], [], [], [], [];
    }

    /** Money conservation: the equity change is the P&L of all trades, and what the cash lacks of
      * the equity is the P&L of the options trades. */
    lemma MoneyConserved()
      requires Balanced()
      ensures currentEquity - startingEquity == cumulativePnl == SumReal(TradePnl(), closedTrades)
      ensures currentEquity - cash == SumReal(OptionsPnl(), closedTrades)
    {
      BookedIsSum(closedTrades, |closedTrades|);
      assert closedTrades[..|closedTrades|] == closedTrades;
    }

    method QueueFromPro(o: Order)
      requires Balanced()
      modifies this`pendingPro
      ensures Balanced() && Lists() == Step(old(Lists()), QueuePro(o))
    {
      pendingPro := pendingPro + [o];
    }

    method QueueFromPop(o: Order)
      requires Balanced()
      modifies this`pendingPop
      ensures Balanced() && Lists() == Step(old(Lists()), QueuePop(o))
    {
      pendingPop := pendingPop + [o];
    }

    method QueueFromOptions(o: OptOrder)
      requires Balanced()
      modifies this`pendingOptions
      ensures Balanced() && Lists() == Step(old(Lists()), QueueOptions(o))
    {
      pendingOptions := pendingOptions + [o];
    }

    /** `queue_from_vwap`: without a quantity, as many whole shares as the trade budget buys, at least
      * one.  With one, the order is queued and the log statement after it then fails. */
    method QueueFromVwap(ref: nat, ticker: Ticker, action: string, price: real, stop: real, half: real, target: real,
                         quantity: Option<int>)
      returns (o: Order, raised: bool)
      requires Balanced()
      modifies this`pendingPro
      ensures Balanced() && Lists() == Step(old(Lists()), QueuePro(o))
      ensures IsLong(o) <==> action == "BUY"
      ensures o.ref == ref && o.strategy == "vwap_reclaim" && o.ticker == ticker
      ensures o.stop == stop && o.target1 == half && o.target2 == target
      ensures raised <==> quantity.Some?
      ensures quantity.Some? ==> o.qty == quantity.value
      ensures quantity.None? ==> o.qty >= 1 && (price <= 0.0 ==> o.qty == 1)
      ensures quantity.None? && price > 0.0 ==>
                (o.qty == 1 || o.qty as real * price <= startingEquity) && (o.qty + 1) as real * price > startingEquity
    {
      var qty := 1;
      if quantity.Some? {
        qty := quantity.value;
      } else if price > 0.0 {
        var shares := (startingEquity / price).Floor;
        WholeShares(startingEquity, price);
        if shares > 1 {
          qty := shares;
        } else {
          Monotone((shares + 1) as real, 2.0, price);
        }
      }
      var signal := if action == "BUY" then "BUY" else "SELL";
      var direction := if action == "BUY" then "long" else "short";
      o := Order(ref, ticker, "vwap_reclaim", Some(signal), Some(direction), stop, half, target, qty);
      pendingPro := pendingPro + [o];
      raised := quantity.Some?;
    }

    /** The bookkeeping that `_close_partial` and `_close_position` share. */
    method Record(x: Trade)
      requires Balanced() && x.layer != Options
      modifies this`closedTrades, this`cumulativePnl, this`currentEquity, this`cash
      ensures Balanced() && closedTrades == old(closedTrades) + [x]
    {
      BookedPrefix(closedTrades, x, |closedTrades|);
      closedTrades := closedTrades + [x];
      cumulativePnl := cumulativePnl + x.pnl;
      currentEquity := currentEquity + x.pnl;
      cash := cash + x.pnl;
    }

    /** `_close_options_position`: the cash is not touched. */
    method CloseOptions(o: OptPosition, pnl: real, reason: Reason)
      requires Balanced()
      modifies this`closedTrades, this`cumulativePnl, this`currentEquity
      ensures Balanced() && closedTrades == old(closedTrades) + [OptTrade(o, pnl, reason)]
    {
      var x := OptTrade(o, pnl, reason);
      BookedPrefix(closedTrades, x, |closedTrades|);
      closedTrades := closedTrades + [x];
      cumulativePnl := cumulativePnl + x.pnl;
      currentEquity := currentEquity + x.pnl;
    }

    method ClearFilled(t: Ticker, positions: seq<Position>) returns (cleared: seq<Position>)
      ensures cleared == Scan(Clear(t), positions).kept
    {
      cleared := [];
      for i := 0 to |positions|
        invariant cleared == Scan(Clear(t), positions[..i]).kept
      {
        ScanNext(Clear(t), positions, i);
        var p := positions[i];
        if p.ticker == t && p.filledThisBar { p := p.(filledThisBar := false); }
        cleared := cleared + [p];
      }
      assert positions[..|positions|] == positions;
    }

    method FillEntries(layer: Layer, t: Ticker, open: real, pending: seq<Order>)
      returns (rest: seq<Order>, filled: seq<Position>)
      ensures Outcome(rest, filled) == Scan(Fill(layer, t, open), pending)
    {
      rest, filled := [], [];
      for i := 0 to |pending|
        invariant Outcome(rest, filled) == Scan(Fill(layer, t, open), pending[..i])
      {
        ScanNext(Fill(layer, t, open), pending, i);
        var o := pending[i];
        if o.ticker == t {
          filled := filled + [Opened(layer, open, o)];
        } else {
          rest := rest + [o];
        }
      }
      assert pending[..|pending|] == pending;
    }

    method FillOptions(t: Ticker, close: real, pending: seq<OptOrder>)
      returns (rest: seq<OptOrder>, filled: seq<OptPosition>)
      ensures Outcome(rest, filled) == Scan(FillOpt(t, close), pending)
    {
      rest, filled := [], [];
      for i := 0 to |pending|
        invariant Outcome(rest, filled) == Scan(FillOpt(t, close), pending[..i])
      {
        ScanNext(FillOpt(t, close), pending, i);
        var o := pending[i];
        if o.ticker == t {
          filled := filled + [OptOpened(close, o)];
        } else {
          rest := rest + [o];
        }
      }
      assert pending[..|pending|] == pending;
    }

    /** The stop and target checks of one list; trades are recorded as they happen. */
    method CheckExits(layer: Layer, t: Ticker, b: Bar, positions: seq<Position>) returns (remaining: seq<Position>)
      requires Balanced() && layer != Options
      modifies this`closedTrades, this`cumulativePnl, this`currentEquity, this`cash
      ensures Balanced() && remaining == Scan(Exit(layer, t, b), positions).kept
      ensures closedTrades == old(closedTrades) + Scan(Exit(layer, t, b), positions).done
    {
      remaining := [];
      for i := 0 to |positions|
        invariant Balanced() && remaining == Scan(Exit(layer, t, b), positions[..i]).kept
        invariant closedTrades == old(closedTrades) + Scan(Exit(layer, t, b), positions[..i]).done
      {
        ScanNext(Exit(layer, t, b), positions, i);
        ghost var before := Scan(Exit(layer, t, b), positions[..i]).done;
        var kept := CheckExit(layer, t, b, positions[i]);
        remaining := remaining + kept;
        ghost var more := ExitOne(layer, t, b, positions[i]).done;
        assert old(closedTrades) + before + more == old(closedTrades) + (before + more);
      }
      assert positions[..|positions|] == positions;
    }

    method CheckExit(layer: Layer, t: Ticker, b: Bar, p: Position) returns (kept: seq<Position>)
      requires Balanced() && layer != Options
      modifies this`closedTrades, this`cumulativePnl, this`currentEquity, this`cash
      ensures Balanced() && kept == ExitOne(layer, t, b, p).kept
      ensures closedTrades == old(closedTrades) + ExitOne(layer, t, b, p).done
    {
      if p.ticker != t || p.fillPending || p.exitReason.Some? || p.filledThisBar { return [p]; }
      var stopHit, t1Hit, t2Hit := StopTrades(p, b), Target1Trades(p, b), Target2Trades(p, b);
      if stopHit && (t1Hit || t2Hit) {
        var distToStop := Abs(b.open - p.stop);
        var distToTarget := Abs(b.open - if t2Hit then p.target2 else p.target1);
        if distToStop <= distToTarget {
          t1Hit, t2Hit := false, false;
        } else {
          stopHit := false;
        }
      }
      if stopHit {
        Record(TradeOf(layer, p, p.qty, Slip(p.side, p.stop, STOP_SLIPPAGE), Stop));
        return [];
      }
      var rest := p;
      if t1Hit {
        var half := p.qty / 2;
        if half >= 1 {
          Record(TradeOf(layer, p, half, Slip(p.side, p.target1, TARGET_SLIPPAGE), Target1));
          rest := rest.(qty := rest.qty - half, stop := rest.entry);
        }
        rest := rest.(partialExited := true);
      }
      if t2Hit {
        Record(TradeOf(layer, rest, rest.qty, Slip(p.side, p.target2, TARGET_SLIPPAGE), Target2));
        return [];
      }
      return [rest];
    }

    method CheckOptions(t: Ticker, close: real, positions: seq<OptPosition>) returns (remaining: seq<OptPosition>)
      requires Balanced()
      modifies this`closedTrades, this`cumulativePnl, this`currentEquity
      ensures Balanced() && remaining == Scan(OptExit(t, close), positions).kept
      ensures closedTrades == old(closedTrades) + Scan(OptExit(t, close), positions).done
    {
      remaining := [];
      for i := 0 to |positions|
        invariant Balanced() && remaining == Scan(OptExit(t, close), positions[..i]).kept
        invariant closedTrades == old(closedTrades) + Scan(OptExit(t, close), positions[..i]).done
      {
        ScanNext(OptExit(t, close), positions, i);
        ghost var before := Scan(OptExit(t, close), positions[..i]).done;
        var kept := CheckOption(t, close, positions[i]);
        remaining := remaining + kept;
        ghost var more := OptOne(t, close, positions[i]).done;
        assert old(closedTrades) + before + more == old(closedTrades) + (before + more);
      }
      assert positions[..|positions|] == positions;
    }

    method CheckOption(t: Ticker, close: real, p: OptPosition) returns (kept: seq<OptPosition>)
      requires Balanced()
      modifies this`closedTrades, this`cumulativePnl, this`currentEquity
      ensures Balanced() && kept == OptOne(t, close, p).kept
      ensures closedTrades == old(closedTrades) + OptOne(t, close, p).done
    {
      if p.ticker != t || p.exitReason.Some? { return [p]; }
      var o := p.(barsHeld := p.barsHeld + 1);
      var pnl := Estimate(o, close);
      if pnl >= o.maxReward * ProfitPct(o.strategy) {
        CloseOptions(o, pnl, ProfitTarget);
        return [];
      }
      if pnl <= -(o.maxRisk * 0.5) {
        CloseOptions(o, pnl, StopLoss);
        return [];
      }
      if o.totalDte as real - o.barsHeld as real / BARS_PER_DAY <= 10.0 {
        CloseOptions(o, pnl, DteClose);
        return [];
      }
      return [o];
    }

    method CloseAtEod(layer: Layer, t: Ticker, close: real, positions: seq<Position>) returns (remaining: seq<Position>)
      requires Balanced() && layer != Options
      modifies this`closedTrades, this`cumulativePnl, this`currentEquity, this`cash
      ensures Balanced() && remaining == Scan(CloseOut(layer, t, close), positions).kept
      ensures closedTrades == old(closedTrades) + Scan(CloseOut(layer, t, close), positions).done
    {
      remaining := [];
      for i := 0 to |positions|
        invariant Balanced() && remaining == Scan(CloseOut(layer, t, close), positions[..i]).kept
        invariant closedTrades == old(closedTrades) + Scan(CloseOut(layer, t, close), positions[..i]).done
      {
        ScanNext(CloseOut(layer, t, close), positions, i);
        var p := positions[i];
        if p.ticker == t && p.exitReason.None? {
          Record(TradeOf(layer, p, p.qty, Slip(p.side, close, TARGET_SLIPPAGE), Eod));
        } else {
          remaining := remaining + [p];
        }
      }
      assert positions[..|positions|] == positions;
    }

    /** Steps 0 to 2 of `process_bar`: flags cleared, then pending entries filled. */
    method Enter(t: Ticker, b: Bar)
      modifies this`pendingPro, this`pendingPop, this`pendingOptions, this`pro, this`pop, this`options
      ensures Lists() == Entered(old(Lists()), t, b)
    {
      pro := ClearFilled(t, pro);
      pop := ClearFilled(t, pop);
      var filled, filledOptions;
      pendingPro, filled := FillEntries(Pro, t, b.open, pendingPro);
      pro := pro + filled;
      pendingPop, filled := FillEntries(Pop, t, b.open, pendingPop);
      pop := pop + filled;
      pendingOptions, filledOptions := FillOptions(t, b.close, pendingOptions);
      options := options + filledOptions;
    }

    /** Step 3: stops and targets of both lists. */
    method CheckStops(t: Ticker, b: Bar)
      requires Balanced()
      modifies this`pro, this`pop, this`closedTrades, this`cumulativePnl, this`currentEquity, this`cash
      ensures Balanced() && Lists() == ExitPass(old(Lists()), t, b)
    {
      ghost var was := Lists();
      pro := CheckExits(Pro, t, b, pro);
      ghost var half := closedTrades;
      pop := CheckExits(Pop, t, b, pop);
      EquityInSteps(was, Lists(), half, Exit(Pro, t, b), Exit(Pop, t, b));
    }

    /** Step 4: the options exits. */
    method CheckOptionsList(t: Ticker, close: real)
      requires Balanced()
      modifies this`options, this`closedTrades, this`cumulativePnl, this`currentEquity
      ensures Balanced() && Lists() == OptExitPass(old(Lists()), t, close)
    {
      options := CheckOptions(t, close, options);
    }

    /** Step 5: every live pro and pop position of the ticker is closed. */
    method CloseDay(t: Ticker, close: real)
      requires Balanced()
      modifies this`pro, this`pop, this`closedTrades, this`cumulativePnl, this`currentEquity, this`cash
      ensures Balanced() && Lists() == EodPass(old(Lists()), t, close)
    {
      ghost var was := Lists();
      pro := CloseAtEod(Pro, t, close, pro);
      ghost var half := closedTrades;
      pop := CloseAtEod(Pop, t, close, pop);
      EquityInSteps(was, Lists(), half, CloseOut(Pro, t, close), CloseOut(Pop, t, close));
    }

    /** `process_bar`: entries at the open, then stops and targets, options, and the day's end. */
    method ProcessBar(t: Ticker, bar: Option<Bar>, eod: bool)
      requires Balanced()
      modifies this
      ensures Balanced() && Lists() == Step(old(Lists()), BarOp(t, bar, eod))
    {
      if bar.None? { return; }
      ghost var before := Lists();
      Enter(t, bar.value);
      ghost var entered := Lists();
      CheckStops(t, bar.value);
      ghost var checked := Lists();
      CheckOptionsList(t, bar.value.close);
      ghost var judged := Lists();
      if eod { CloseDay(t, bar.value.close); }
      BarInSteps(before, entered, checked, judged, Lists(), t, bar.value, eod);
    }
  }
}
