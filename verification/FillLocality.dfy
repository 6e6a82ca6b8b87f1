/** Bars and orders of one ticker never affect another: the per-ticker refinement of the simulator. */
module FillLocality {
  import opened Wrappers
  import opened Seqs
  import opened FillModel
  import opened FillLaws

  function OfOrder(t: Ticker): Order -> bool { (o: Order) => o.ticker == t }
  function OfOptOrder(t: Ticker): OptOrder -> bool { (o: OptOrder) => o.ticker == t }
  function OfPosition(t: Ticker): Position -> bool { (p: Position) => p.ticker == t }
  function OfOption(t: Ticker): OptPosition -> bool { (o: OptPosition) => o.ticker == t }
  function OfTrade(t: Ticker): Trade -> bool { (x: Trade) => x.ticker == t }
  function OfOp(t: Ticker): Op -> bool { (op: Op) => TickerOf(op) == t }

  /** The part of the book that concerns one ticker, in its own order. */
  function Only(b: Book, t: Ticker): Book {
    Book(Filter(OfOrder(t), b.pendingPro), Filter(OfOrder(t), b.pendingPop), Filter(OfOptOrder(t), b.pendingOptions),
         Filter(OfPosition(t), b.pro), Filter(OfPosition(t), b.pop), Filter(OfOption(t), b.options),
         Filter(OfTrade(t), b.closed))
  }

  lemma {:induction false} FilterUniform<A>(keep: A -> bool, s: seq<A>)
    ensures (forall k | 0 <= k < |s| :: keep(s[k])) ==> Filter(keep, s) == s
    ensures (forall k | 0 <= k < |s| :: !keep(s[k])) ==> Filter(keep, s) == []
  {
    if forall k | 0 <= k < |s| :: keep(s[k]) { FilterAll(keep, s); }
    if forall k | 0 <= k < |s| :: !keep(s[k]) { FilterNone(keep, s); }
  }

  /** Whatever keeps the ticker of an element is separated by ticker. */
  lemma SplitSeparated(l: Layer, p: Position, f: Position -> Outcome<Position, Trade>, t: Ticker)
    requires Splits(l, p, f(p))
    ensures Separated(f, OfPosition(t), OfTrade(t), p)
  {
    FilterUniform(OfPosition(t), f(p).kept);
    FilterUniform(OfTrade(t), f(p).done);
  }

  lemma ClearOnly(b: Book, u: Ticker, t: Ticker)
    ensures Only(ClearPass(b, u), t) == ClearPass(Only(b, t), u)
  {
    forall p ensures Separated(Clear(u), OfPosition(t), OfTrade(t), p) {
      ClearSplits(Pro, u, p);
      SplitSeparated(Pro, p, Clear(u), t);
    }
    ScanSelects(Clear(u), OfPosition(t), OfTrade(t), b.pro);
    ScanSelects(Clear(u), OfPosition(t), OfTrade(t), b.pop);
  }

  lemma FillSeparated(l: Layer, u: Ticker, open: real, t: Ticker, o: Order)
    ensures Separated(Fill(l, u, open), OfOrder(t), OfPosition(t), o)
  {
  }

  lemma FillOnly(b: Book, u: Ticker, open: real, t: Ticker)
    ensures Only(FillPass(b, u, open), t) == FillPass(Only(b, t), u, open)
  {
    forall l, o { FillSeparated(l, u, open, t, o); }
    ScanSelects(Fill(Pro, u, open), OfOrder(t), OfPosition(t), b.pendingPro);
    ScanSelects(Fill(Pop, u, open), OfOrder(t), OfPosition(t), b.pendingPop);
    FilterAppend(OfPosition(t), b.pro, Scan(Fill(Pro, u, open), b.pendingPro).done);
    FilterAppend(OfPosition(t), b.pop, Scan(Fill(Pop, u, open), b.pendingPop).done);
  }

  lemma FillOptSeparated(u: Ticker, close: real, t: Ticker, o: OptOrder)
    ensures Separated(FillOpt(u, close), OfOptOrder(t), OfOption(t), o)
  {
  }

  lemma FillOptOnly(b: Book, u: Ticker, close: real, t: Ticker)
    ensures Only(FillOptPass(b, u, close), t) == FillOptPass(Only(b, t), u, close)
  {
    forall o { FillOptSeparated(u, close, t, o); }
    ScanSelects(FillOpt(u, close), OfOptOrder(t), OfOption(t), b.pendingOptions);
    FilterAppend(OfOption(t), b.options, Scan(FillOpt(u, close), b.pendingOptions).done);
  }

  /** A pass over the two equity lists that keeps every position's ticker commutes with `Only`. */
  lemma EquityOnly(b: Book, f: Position -> Outcome<Position, Trade>, g: Position -> Outcome<Position, Trade>, t: Ticker)
    requires forall p :: Separated(f, OfPosition(t), OfTrade(t), p)
    requires forall p :: Separated(g, OfPosition(t), OfTrade(t), p)
    ensures var pro, pop := Scan(f, b.pro), Scan(g, b.pop);
            var o := Only(b, t);
            var pro', pop' := Scan(f, o.pro), Scan(g, o.pop);
            Only(b.(pro := pro.kept, pop := pop.kept, closed := b.closed + pro.done + pop.done), t)
            == o.(pro := pro'.kept, pop := pop'.kept, closed := o.closed + pro'.done + pop'.done)
  {
    var pro, pop := Scan(f, b.pro), Scan(g, b.pop);
    ScanSelects(f, OfPosition(t), OfTrade(t), b.pro);
    ScanSelects(g, OfPosition(t), OfTrade(t), b.pop);
    FilterAppend(OfTrade(t), b.closed, pro.done);
    FilterAppend(OfTrade(t), b.closed + pro.done, pop.done);
  }

  lemma ExitOnly(b: Book, u: Ticker, bar: Bar, t: Ticker)
    ensures Only(ExitPass(b, u, bar), t) == ExitPass(Only(b, t), u, bar)
  {
    forall l, p ensures Separated(Exit(l, u, bar), OfPosition(t), OfTrade(t), p) {
      ExitSplits(l, u, bar, p);
      SplitSeparated(l, p, Exit(l, u, bar), t);
    }
    EquityOnly(b, Exit(Pro, u, bar), Exit(Pop, u, bar), t);
  }

  lemma EodOnly(b: Book, u: Ticker, close: real, t: Ticker)
    ensures Only(EodPass(b, u, close), t) == EodPass(Only(b, t), u, close)
  {
    forall l, p ensures Separated(CloseOut(l, u, close), OfPosition(t), OfTrade(t), p) {
      CloseOutSplits(l, u, close, p);
      SplitSeparated(l, p, CloseOut(l, u, close), t);
    }
    EquityOnly(b, CloseOut(Pro, u, close), CloseOut(Pop, u, close), t);
  }

  lemma OptExitSeparated(u: Ticker, close: real, t: Ticker, p: OptPosition)
    ensures Separated(OptExit(u, close), OfOption(t), OfTrade(t), p)
  {
  }

  lemma OptExitOnly(b: Book, u: Ticker, close: real, t: Ticker)
    ensures Only(OptExitPass(b, u, close), t) == OptExitPass(Only(b, t), u, close)
  {
    forall p { OptExitSeparated(u, close, t, p); }
    ScanSelects(OptExit(u, close), OfOption(t), OfTrade(t), b.options);
    FilterAppend(OfTrade(t), b.closed, Scan(OptExit(u, close), b.options).done);
  }

  lemma BarOnly(b: Book, u: Ticker, bar: Bar, eod: bool, t: Ticker)
    ensures Only(OnBar(b, u, Some(bar), eod), t) == OnBar(Only(b, t), u, Some(bar), eod)
  {
    ClearOnly(b, u, t);
    FillOnly(ClearPass(b, u), u, bar.open, t);
    FillOptOnly(FillPass(ClearPass(b, u), u, bar.open), u, bar.close, t);
    ExitOnly(Entered(b, u, bar), u, bar, t);
    OptExitOnly(ExitPass(Entered(b, u, bar), u, bar), u, bar.close, t);
    EodOnly(Judged(b, u, bar), u, bar.close, t);
  }

  /** The book holds nothing of ticker `u` that a bar of `u` could act on. */
  ghost predicate Without(b: Book, u: Ticker) {
    && (forall o :: o in b.pendingPro || o in b.pendingPop ==> o.ticker != u)
    && (forall o :: o in b.pendingOptions ==> o.ticker != u)
    && (forall p :: p in b.pro || p in b.pop ==> p.ticker != u)
    && (forall o :: o in b.options ==> o.ticker != u)
  }

  lemma OnlyWithout(b: Book, t: Ticker, u: Ticker)
    requires u != t
    ensures Without(Only(b, t), u)
  {
    FilterMembers(OfOrder(t), b.pendingPro);
    FilterMembers(OfOrder(t), b.pendingPop);
    FilterMembers(OfOptOrder(t), b.pendingOptions);
    FilterMembers(OfPosition(t), b.pro);
    FilterMembers(OfPosition(t), b.pop);
    FilterMembers(OfOption(t), b.options);
  }

  lemma ForeignClearIdle(b: Book, u: Ticker)
    requires Without(b, u)
    ensures ClearPass(b, u) == b
  {
    ScanIdle(Clear(u), b.pro);
    ScanIdle(Clear(u), b.pop);
  }

  lemma ForeignFillIdle(b: Book, u: Ticker, open: real)
    requires Without(b, u)
    ensures FillPass(b, u, open) == b
  {
    ScanIdle(Fill(Pro, u, open), b.pendingPro);
    ScanIdle(Fill(Pop, u, open), b.pendingPop);
  }

  lemma ForeignEntriesIdle(b: Book, u: Ticker, x: Bar)
    requires Without(b, u)
    ensures Entered(b, u, x) == b
  {
    ForeignClearIdle(b, u);
    ForeignFillIdle(b, u, x.open);
    ScanIdle(FillOpt(u, x.close), b.pendingOptions);
  }

  /** A bar of a ticker the book does not hold leaves the book as it is. */
  lemma ForeignBarIdle(b: Book, u: Ticker, bar: Option<Bar>, eod: bool)
    requires Without(b, u)
    ensures OnBar(b, u, bar, eod) == b
  {
    if bar.Some? {
      var x := bar.value;
      ForeignEntriesIdle(b, u, x);
      ScanIdle(Exit(Pro, u, x), b.pro);
      ScanIdle(Exit(Pop, u, x), b.pop);
      assert ExitPass(b, u, x) == b;
      ScanIdle(OptExit(u, x.close), b.options);
      assert Judged(b, u, x) == b;
      ScanIdle(CloseOut(Pro, u, x.close), b.pro);
      ScanIdle(CloseOut(Pop, u, x.close), b.pop);
    }
  }

  /** Any bar acts on a ticker's part of the book alone, and not at all if it is another's bar. */
  lemma BarStepOnly(b: Book, u: Ticker, bar: Option<Bar>, eod: bool, t: Ticker)
    ensures Only(OnBar(b, u, bar, eod), t) == if u == t then OnBar(Only(b, t), u, bar, eod) else Only(b, t)
  {
    if bar.Some? { BarOnly(b, u, bar.value, eod, t); }
    if u != t {
      OnlyWithout(b, t, u);
      ForeignBarIdle(Only(b, t), u, bar, eod);
    }
  }

  lemma StepOnly(b: Book, op: Op, t: Ticker)
    ensures Only(Step(b, op), t) == if TickerOf(op) == t then Step(Only(b, t), op) else Only(b, t)
  {
    match op
    case QueuePro(o) => FilterAppend(OfOrder(t), b.pendingPro, [o]); FilterUniform(OfOrder(t), [o]);
    case QueuePop(o) => FilterAppend(OfOrder(t), b.pendingPop, [o]); FilterUniform(OfOrder(t), [o]);
    case QueueOptions(o) => FilterAppend(OfOptOrder(t), b.pendingOptions, [o]); FilterUniform(OfOptOrder(t), [o]);
    case BarOp(u, bar, eod) => BarStepOnly(b, u, bar, eod, t);
  }

  lemma {:induction false} FilterFront<A>(keep: A -> bool, s: seq<A>)
    requires s != []
    ensures Filter(keep, s) == (if keep(s[0]) then [s[0]] else []) + Filter(keep, s[1..])
  {
    assert s == [s[0]] + s[1..];
    FilterAppend(keep, [s[0]], s[1..]);
    FilterUniform(keep, [s[0]]);
  }

  /** Refinement: what a run does to one ticker is what the calls for that ticker alone do. */
  lemma {:induction false} TickerRefinement(b: Book, ops: seq<Op>, t: Ticker)
    ensures Only(Run(b, ops), t) == Run(Only(b, t), Filter(OfOp(t), ops))
    decreases ops
  {
    if ops != [] {
      StepOnly(b, ops[0], t);
      TickerRefinement(Step(b, ops[0]), ops[1..], t);
      FilterFront(OfOp(t), ops);
      if TickerOf(ops[0]) == t {
        assert Filter(OfOp(t), ops)[1..] == Filter(OfOp(t), ops[1..]);
      } else {
        assert Filter(OfOp(t), ops) == Filter(OfOp(t), ops[1..]);
      }
    }
  }

  /** Calls for two different tickers commute, ticker by ticker, whatever ran before and after. */
  lemma TickersCommute(b: Book, x: Op, y: Op, rest: seq<Op>, t: Ticker)
    requires TickerOf(x) != TickerOf(y)
    ensures Only(Run(b, [x, y] + rest), t) == Only(Run(b, [y, x] + rest), t)
  {
    var xy, yx := [x, y] + rest, [y, x] + rest;
    TickerRefinement(b, xy, t);
    TickerRefinement(b, yx, t);
    FilterAppend(OfOp(t), [x, y], rest);
    FilterAppend(OfOp(t), [y, x], rest);
    FilterFront(OfOp(t), [x, y]);
    FilterFront(OfOp(t), [y, x]);
    FilterUniform(OfOp(t), [x]);
    FilterUniform(OfOp(t), [y]);
    assert [x, y][1..] == [y] && [y, x][1..] == [x];
  }
}
