/** Conservation laws of the fill simulator over arbitrary runs. */
module FillLaws {
  import opened Wrappers
  import opened Seqs
  import opened FillModel

  // ------------------------------------------------------------------ weighing a book

  /** A weight for each kind of thing a book holds. */
  datatype Law = Law(order: Order -> int, optOrder: OptOrder -> int, pos: Position -> int,
                     opt: OptPosition -> int, trade: Trade -> int)

  function Total(w: Law, b: Book): int {
    SumInt(w.order, b.pendingPro) + SumInt(w.order, b.pendingPop) + SumInt(w.optOrder, b.pendingOptions)
    + SumInt(w.pos, b.pro) + SumInt(w.pos, b.pop) + SumInt(w.opt, b.options) + SumInt(w.trade, b.closed)
  }

  function Queued(w: Law, op: Op): int {
    match op
    case QueuePro(o) => w.order(o)
    case QueuePop(o) => w.order(o)
    case QueueOptions(o) => w.optOrder(o)
    case BarOp(_, _, _) => 0
  }

  function AllQueued(w: Law, ops: seq<Op>): int {
    if ops == [] then 0 else Queued(w, ops[0]) + AllQueued(w, ops[1..])
  }

  /** The weight of the at most two things one element turns into. */
  function Few<A>(w: A -> int, s: seq<A>): int {
    if |s| == 0 then 0 else if |s| == 1 then w(s[0]) else w(s[0]) + w(s[1])
  }

  lemma {:induction false} ScanFinishesNone<A(!new), T>(f: A -> Outcome<A, T>, s: seq<A>)
    requires forall a :: f(a).done == []
    ensures Scan(f, s).done == []
  {
    if s != [] { ScanFinishesNone(f, s[..|s| - 1]); }
  }

  lemma FewIsSum<A>(w: A -> int, s: seq<A>)
    requires |s| <= 2
    ensures SumInt(w, s) == Few(w, s)
  {
  }

  /** No element of a pass gains weight in its turn. */
  ghost predicate Sheds<A(!new), T>(f: A -> Outcome<A, T>, wa: A -> int, wt: T -> int) {
    forall a {:trigger f(a)} ::
      |f(a).kept| <= 2 && |f(a).done| <= 2 && Few(wa, f(a).kept) + Few(wt, f(a).done) <= wa(a)
  }

  lemma ScanSheds<A(!new), T>(f: A -> Outcome<A, T>, wa: A -> int, wt: T -> int, s: seq<A>)
    requires Sheds(f, wa, wt)
    ensures SumInt(wa, Scan(f, s).kept) + SumInt(wt, Scan(f, s).done) <= SumInt(wa, s)
  {
    forall a ensures SumInt(wa, f(a).kept) + SumInt(wt, f(a).done) <= wa(a) {
      FewIsSum(wa, f(a).kept);
      FewIsSum(wt, f(a).done);
    }
    ScanWeighs(f, wa, wt, s);
  }

  /** No order or position gains weight in any pass of any bar. */
  ghost predicate NoGain(w: Law) {
    && (forall l, t, x :: Sheds(Fill(l, t, x), w.order, w.pos))
    && (forall t, x :: Sheds(FillOpt(t, x), w.optOrder, w.opt))
    && (forall t :: Sheds(Clear(t), w.pos, w.trade))
    && (forall l, t, b | l != Options :: Sheds(Exit(l, t, b), w.pos, w.trade))
    && (forall l, t, x | l != Options :: Sheds(CloseOut(l, t, x), w.pos, w.trade))
    && (forall t, x :: Sheds(OptExit(t, x), w.opt, w.trade))
  }

  lemma ClearShed(w: Law, b: Book, t: Ticker)
    requires NoGain(w)
    ensures Total(w, ClearPass(b, t)) <= Total(w, b)
  {
    ScanSheds(Clear(t), w.pos, w.trade, b.pro);
    ScanSheds(Clear(t), w.pos, w.trade, b.pop);
    ScanFinishesNone(Clear(t), b.pro);
    ScanFinishesNone(Clear(t), b.pop);
  }

  lemma FillShed(w: Law, b: Book, t: Ticker, open: real)
    requires NoGain(w)
    ensures Total(w, FillPass(b, t, open)) <= Total(w, b)
  {
    var pro, pop := Scan(Fill(Pro, t, open), b.pendingPro), Scan(Fill(Pop, t, open), b.pendingPop);
    ScanSheds(Fill(Pro, t, open), w.order, w.pos, b.pendingPro);
    ScanSheds(Fill(Pop, t, open), w.order, w.pos, b.pendingPop);
    SumIntAppend(w.pos, b.pro, pro.done);
    SumIntAppend(w.pos, b.pop, pop.done);
  }

  lemma FillOptShed(w: Law, b: Book, t: Ticker, close: real)
    requires NoGain(w)
    ensures Total(w, FillOptPass(b, t, close)) <= Total(w, b)
  {
    ScanSheds(FillOpt(t, close), w.optOrder, w.opt, b.pendingOptions);
    SumIntAppend(w.opt, b.options, Scan(FillOpt(t, close), b.pendingOptions).done);
  }

  lemma EquityShed(w: Law, b: Book, f: Position -> Outcome<Position, Trade>, g: Position -> Outcome<Position, Trade>)
    requires Sheds(f, w.pos, w.trade) && Sheds(g, w.pos, w.trade)
    ensures var pro, pop := Scan(f, b.pro), Scan(g, b.pop);
            Total(w, b.(pro := pro.kept, pop := pop.kept, closed := b.closed + pro.done + pop.done)) <= Total(w, b)
  {
    var pro, pop := Scan(f, b.pro), Scan(g, b.pop);
    ScanSheds(f, w.pos, w.trade, b.pro);
    ScanSheds(g, w.pos, w.trade, b.pop);
    SumIntAppend(w.trade, b.closed, pro.done);
    SumIntAppend(w.trade, b.closed + pro.done, pop.done);
  }

  lemma OptShed(w: Law, b: Book, t: Ticker, close: real)
    requires NoGain(w)
    ensures Total(w, OptExitPass(b, t, close)) <= Total(w, b)
  {
    ScanSheds(OptExit(t, close), w.opt, w.trade, b.options);
    SumIntAppend(w.trade, b.closed, Scan(OptExit(t, close), b.options).done);
  }

  lemma BarSheds(w: Law, b: Book, t: Ticker, bar: Bar, eod: bool)
    requires NoGain(w)
    ensures Total(w, OnBar(b, t, Some(bar), eod)) <= Total(w, b)
  {
    ClearShed(w, b, t);
    FillShed(w, ClearPass(b, t), t, bar.open);
    FillOptShed(w, FillPass(ClearPass(b, t), t, bar.open), t, bar.close);
    var entered := Entered(b, t, bar);
    EquityShed(w, entered, Exit(Pro, t, bar), Exit(Pop, t, bar));
    OptShed(w, ExitPass(entered, t, bar), t, bar.close);
    if eod {
      EquityShed(w, Judged(b, t, bar), CloseOut(Pro, t, bar.close), CloseOut(Pop, t, bar.close));
    }
  }

  lemma StepSheds(w: Law, b: Book, op: Op)
    requires NoGain(w)
    ensures Total(w, Step(b, op)) <= Total(w, b) + Queued(w, op)
  {
    match op
    case QueuePro(o) => SumIntOne(w.order, b.pendingPro, o);
    case QueuePop(o) => SumIntOne(w.order, b.pendingPop, o);
    case QueueOptions(o) => SumIntOne(w.optOrder, b.pendingOptions, o);
    case BarOp(t, bar, eod) => if bar.Some? { BarSheds(w, b, t, bar.value, eod); }
  }

  lemma {:induction false} RunSheds(w: Law, b: Book, ops: seq<Op>)
    requires NoGain(w)
    ensures Total(w, Run(b, ops)) <= Total(w, b) + AllQueued(w, ops)
    decreases ops
  {
    if ops != [] {
      StepSheds(w, b, ops[0]);
      RunSheds(w, Step(b, ops[0]), ops[1..]);
    }
  }

  // ------------------------------------------------------------------ the laws

  function Negated(w: Law): Law {
    Law((o: Order) => -w.order(o), (o: OptOrder) => -w.optOrder(o), (p: Position) => -w.pos(p),
        (o: OptPosition) => -w.opt(o), (x: Trade) => -w.trade(x))
  }

  lemma {:induction false} SumNegates<A(!new)>(w: A -> int, v: A -> int, s: seq<A>)
    requires forall a :: v(a) == -w(a)
    ensures SumInt(v, s) == -SumInt(w, s)
  {
    if s != [] { SumNegates(w, v, s[..|s| - 1]); }
  }

  lemma {:induction false} QueuedNegates(w: Law, ops: seq<Op>)
    ensures AllQueued(Negated(w), ops) == -AllQueued(w, ops)
  {
    if ops != [] { QueuedNegates(w, ops[1..]); }
  }

  lemma TotalNegates(w: Law, b: Book)
    ensures Total(Negated(w), b) == -Total(w, b)
  {
    var v := Negated(w);
    SumNegates(w.order, v.order, b.pendingPro);
    SumNegates(w.order, v.order, b.pendingPop);
    SumNegates(w.optOrder, v.optOrder, b.pendingOptions);
    SumNegates(w.pos, v.pos, b.pro);
    SumNegates(w.pos, v.pos, b.pop);
    SumNegates(w.opt, v.opt, b.options);
    SumNegates(w.trade, v.trade, b.closed);
  }

  /** A weight nothing gains or loses is conserved by every run. */
  lemma RunConserves(w: Law, b: Book, ops: seq<Op>)
    requires NoGain(w) && NoGain(Negated(w))
    ensures Total(w, Run(b, ops)) == Total(w, b) + AllQueued(w, ops)
  {
    RunSheds(w, b, ops);
    RunSheds(Negated(w), b, ops);
    TotalNegates(w, b);
    TotalNegates(w, Run(b, ops));
    QueuedNegates(w, ops);
  }

  function One(yes: bool): int { if yes then 1 else 0 }

  function Times(yes: bool, n: int): int { if yes then n else 0 }

  /** The shares of order `ref`: pending, held, or in an equity trade. */
  function Shares(ref: nat): Law {
    Law((o: Order) => Times(o.ref == ref, o.qty), (o: OptOrder) => 0, (p: Position) => Times(p.ref == ref, p.qty),
        (o: OptPosition) => 0, (x: Trade) => Times(x.ref == ref && x.layer != Options, x.qty))
  }

  /** Order `ref` itself: pending, held, or finally closed. */
  function Lots(ref: nat): Law {
    Law((o: Order) => One(o.ref == ref), (o: OptOrder) => 0, (p: Position) => One(p.ref == ref),
        (o: OptPosition) => 0, (x: Trade) => One(x.ref == ref && x.layer != Options && x.reason != Target1))
  }

  /** The partial exit of order `ref`: still to come, or done. */
  function Partials(ref: nat): Law {
    Law((o: Order) => One(o.ref == ref), (o: OptOrder) => 0, (p: Position) => One(p.ref == ref && !p.partialExited),
        (o: OptPosition) => 0, (x: Trade) => One(x.ref == ref && x.layer != Options && x.reason == Target1))
  }

  /** Options order `ref`: pending, held, or closed. */
  function OptLots(ref: nat): Law {
    Law((o: Order) => 0, (o: OptOrder) => One(o.ref == ref), (p: Position) => 0,
        (o: OptPosition) => One(o.ref == ref), (x: Trade) => One(x.ref == ref && x.layer == Options))
  }

  /** What a position turns into: at most one partial and one final trade, which with what is kept
    * account for all of its shares; `l` is the layer whose list it is in. */
  ghost predicate Splits(l: Layer, p: Position, o: Outcome<Position, Trade>) {
    && |o.kept| <= 1 && |o.done| <= 2
    && (forall k | 0 <= k < |o.kept| ::
          && o.kept[k].ref == p.ref && o.kept[k].ticker == p.ticker
          && o.kept[k].fillPending == p.fillPending && o.kept[k].exitReason == p.exitReason
          && o.kept[k].originalQty == p.originalQty)
    && (p.qty >= 1 ==> (forall k | 0 <= k < |o.kept| :: o.kept[k].qty >= 1))
    && (p.qty >= 1 ==> (forall k | 0 <= k < |o.done| :: o.done[k].qty >= 1))
    && (forall k | 0 <= k < |o.done| :: o.done[k].ref == p.ref && o.done[k].ticker == p.ticker && o.done[k].layer == l)
    && Few((k: Position) => k.qty, o.kept) + Few((x: Trade) => x.qty, o.done) == p.qty
    && |o.kept| + Few((x: Trade) => One(x.reason != Target1), o.done) == 1
    && Few((k: Position) => One(!k.partialExited), o.kept) + Few((x: Trade) => One(x.reason == Target1), o.done)
       <= One(!p.partialExited)
  }

  lemma ClearSplits(l: Layer, t: Ticker, p: Position)
    ensures Splits(l, p, Clear(t)(p))
  {
  }

  lemma PartialSplits(l: Layer, p: Position)
    requires !p.partialExited
    ensures Splits(l, p, PartialOf(l, p)) && |PartialOf(l, p).kept| == 1 && |PartialOf(l, p).done| <= 1
    ensures PartialOf(l, p).done != [] ==> PartialOf(l, p).done[0].reason == Target1
  {
  }

  lemma WholeSplits(l: Layer, p: Position, exit: real, reason: Reason)
    requires reason != Target1
    ensures Splits(l, p, Outcome([], [TradeOf(l, p, p.qty, exit, reason)])) && Splits(l, p, Outcome([p], []))
  {
  }

  /** What is left after at most one partial trade, sold at the second target. */
  lemma RestSplits(l: Layer, p: Position, half: Outcome<Position, Trade>, exit: real)
    requires Splits(l, p, half) && |half.kept| == 1 && |half.done| <= 1
    requires half.done != [] ==> half.done[0].reason == Target1
    ensures Splits(l, p, Outcome([], half.done + [TradeOf(l, half.kept[0], half.kept[0].qty, exit, Target2)]))
  {
  }

  lemma ExitSplits(l: Layer, t: Ticker, b: Bar, p: Position)
    ensures Splits(l, p, Exit(l, t, b)(p))
  {
    WholeSplits(l, p, Slip(p.side, p.stop, STOP_SLIPPAGE), Stop);
    if Target1Trades(p, b) { PartialSplits(l, p); }
    RestSplits(l, p, if Target1Trades(p, b) then PartialOf(l, p) else Outcome([p], []), Slip(p.side, p.target2, TARGET_SLIPPAGE));
  }

  lemma CloseOutSplits(l: Layer, t: Ticker, close: real, p: Position)
    ensures Splits(l, p, CloseOut(l, t, close)(p))
  {
  }

  /** An options position stays, one bar older, or becomes exactly one trade. */
  ghost predicate OptSplits(p: OptPosition, o: Outcome<OptPosition, Trade>) {
    || (|o.kept| == 1 && o.done == [] && (o.kept[0] == p || o.kept[0] == p.(barsHeld := p.barsHeld + 1)))
    || (o.kept == [] && |o.done| == 1 && o.done[0].ref == p.ref && o.done[0].ticker == p.ticker
        && o.done[0].layer == Options && o.done[0].qty == 1)
  }

  lemma OptExitSplits(t: Ticker, close: real, p: OptPosition)
    ensures OptSplits(p, OptExit(t, close)(p))
  {
  }

  /** Weighing what a position splits into never finds more than the position, or, if `even`, less. */
  ghost predicate Follows(w: Law, even: bool) {
    && (forall l, p, o {:trigger Splits(l, p, o)} | l != Options && Splits(l, p, o) ::
          var after := Few(w.pos, o.kept) + Few(w.trade, o.done);
          after <= w.pos(p) && (even ==> after == w.pos(p)))
    && (forall p, o {:trigger OptSplits(p, o)} | OptSplits(p, o) ::
          var after := Few(w.opt, o.kept) + Few(w.trade, o.done);
          after <= w.opt(p) && (even ==> after == w.opt(p)))
    && (forall l, x, o :: w.pos(Opened(l, x, o)) == w.order(o))
    && (forall x, o :: w.opt(OptOpened(x, o)) == w.optOrder(o))
  }

  lemma FollowsNoGain(w: Law, even: bool)
    requires Follows(w, even)
    ensures NoGain(w)
  {
    forall l, t, b | l != Options ensures Sheds(Exit(l, t, b), w.pos, w.trade) {
      forall p { ExitSplits(l, t, b, p); }
    }
    forall l, t, x | l != Options ensures Sheds(CloseOut(l, t, x), w.pos, w.trade) {
      forall p { CloseOutSplits(l, t, x, p); }
    }
    forall t ensures Sheds(Clear(t), w.pos, w.trade) {
      forall p { ClearSplits(Pro, t, p); }
    }
    forall t, x ensures Sheds(OptExit(t, x), w.opt, w.trade) {
      forall p { OptExitSplits(t, x, p); }
    }
  }

  lemma NegatedFollows(w: Law)
    requires Follows(w, true)
    ensures Follows(Negated(w), true)
  {
  }

  /** A law that splitting respects exactly is conserved by every run. */
  lemma EvenConserves(w: Law, b: Book, ops: seq<Op>)
    requires Follows(w, true)
    ensures Total(w, Run(b, ops)) == Total(w, b) + AllQueued(w, ops)
  {
    FollowsNoGain(w, true);
    NegatedFollows(w);
    FollowsNoGain(Negated(w), true);
    RunConserves(w, b, ops);
  }

  lemma SharesFollowOne(ref: nat, l: Layer, p: Position, o: Outcome<Position, Trade>)
    requires l != Options && Splits(l, p, o)
    ensures Few(Shares(ref).pos, o.kept) + Few(Shares(ref).trade, o.done) == Shares(ref).pos(p)
  {
  }

  lemma SharesFollow(ref: nat)
    ensures Follows(Shares(ref), true)
  {
    forall l, p, o | l != Options && Splits(l, p, o) { SharesFollowOne(ref, l, p, o); }
  }

  lemma LotsFollowOne(ref: nat, l: Layer, p: Position, o: Outcome<Position, Trade>)
    requires l != Options && Splits(l, p, o)
    ensures Few(Lots(ref).pos, o.kept) + Few(Lots(ref).trade, o.done) == Lots(ref).pos(p)
  {
  }

  lemma LotsFollow(ref: nat)
    ensures Follows(Lots(ref), true)
  {
    forall l, p, o | l != Options && Splits(l, p, o) { LotsFollowOne(ref, l, p, o); }
  }

  lemma OptLotsFollow(ref: nat)
    ensures Follows(OptLots(ref), true)
  {
  }

  lemma PartialsFollowOne(ref: nat, l: Layer, p: Position, o: Outcome<Position, Trade>)
    requires l != Options && Splits(l, p, o)
    ensures Few(Partials(ref).pos, o.kept) + Few(Partials(ref).trade, o.done) <= Partials(ref).pos(p)
  {
  }

  lemma PartialsFollow(ref: nat)
    ensures Follows(Partials(ref), false)
  {
    forall l, p, o | l != Options && Splits(l, p, o) { PartialsFollowOne(ref, l, p, o); }
  }

  /** Shares: what was queued under a reference is pending, held or traded, over every run. */
  lemma SharesConserved(b: Book, ops: seq<Op>, ref: nat)
    ensures Total(Shares(ref), Run(b, ops)) == Total(Shares(ref), b) + AllQueued(Shares(ref), ops)
  {
    SharesFollow(ref);
    EvenConserves(Shares(ref), b, ops);
  }

  /** Every queued order is in exactly one place: pending, held, or behind exactly one final trade;
    * and no order ever has more than one partial trade. */
  lemma LotsConserved(b: Book, ops: seq<Op>, ref: nat)
    ensures Total(Lots(ref), Run(b, ops)) == Total(Lots(ref), b) + AllQueued(Lots(ref), ops)
    ensures Total(Partials(ref), Run(b, ops)) <= Total(Partials(ref), b) + AllQueued(Partials(ref), ops)
  {
    LotsFollow(ref);
    EvenConserves(Lots(ref), b, ops);
    PartialsFollow(ref);
    FollowsNoGain(Partials(ref), false);
    RunSheds(Partials(ref), b, ops);
  }

  lemma OptLotsConserved(b: Book, ops: seq<Op>, ref: nat)
    ensures Total(OptLots(ref), Run(b, ops)) == Total(OptLots(ref), b) + AllQueued(OptLots(ref), ops)
  {
    OptLotsFollow(ref);
    EvenConserves(OptLots(ref), b, ops);
  }

  // ------------------------------------------------------------------ what holds of every element

  ghost predicate All<A(!new)>(p: A -> bool, s: seq<A>) { forall x :: x in s ==> p(x) }

  /** A property for each kind of thing a book holds. */
  datatype Kinds = Kinds(order: Order -> bool, optOrder: OptOrder -> bool, pos: Position -> bool,
                         opt: OptPosition -> bool, trade: Trade -> bool)

  ghost predicate Holds(k: Kinds, b: Book) {
    && All(k.order, b.pendingPro) && All(k.order, b.pendingPop) && All(k.optOrder, b.pendingOptions)
    && All(k.pos, b.pro) && All(k.pos, b.pop) && All(k.opt, b.options) && All(k.trade, b.closed)
  }

  predicate Admits(k: Kinds, op: Op) {
    match op
    case QueuePro(o) => k.order(o)
    case QueuePop(o) => k.order(o)
    case QueueOptions(o) => k.optOrder(o)
    case BarOp(_, _, _) => true
  }

  ghost predicate Maps<A(!new), T(!new)>(f: A -> Outcome<A, T>, pa: A -> bool, pt: T -> bool) {
    forall a {:trigger f(a)} | pa(a) :: All(pa, f(a).kept) && All(pt, f(a).done)
  }

  lemma ScanMaps<A(!new), T(!new)>(f: A -> Outcome<A, T>, pa: A -> bool, pt: T -> bool, s: seq<A>)
    requires Maps(f, pa, pt) && All(pa, s)
    ensures All(pa, Scan(f, s).kept) && All(pt, Scan(f, s).done)
  {
  }

  /** Every pass of every bar takes elements with the property to elements with the property. */
  ghost predicate Stable(k: Kinds) {
    && (forall l, t, x | l != Options :: Maps(Fill(l, t, x), k.order, k.pos))
    && (forall t, x :: Maps(FillOpt(t, x), k.optOrder, k.opt))
    && (forall t :: Maps(Clear(t), k.pos, k.trade))
    && (forall l, t, b | l != Options :: Maps(Exit(l, t, b), k.pos, k.trade))
    && (forall l, t, x | l != Options :: Maps(CloseOut(l, t, x), k.pos, k.trade))
    && (forall t, x :: Maps(OptExit(t, x), k.opt, k.trade))
  }

  lemma EntriesStable(k: Kinds, b: Book, t: Ticker, bar: Bar)
    requires Stable(k) && Holds(k, b)
    ensures Holds(k, Entered(b, t, bar))
  {
    ScanMaps(Clear(t), k.pos, k.trade, b.pro);
    ScanMaps(Clear(t), k.pos, k.trade, b.pop);
    ScanMaps(Fill(Pro, t, bar.open), k.order, k.pos, b.pendingPro);
    ScanMaps(Fill(Pop, t, bar.open), k.order, k.pos, b.pendingPop);
    ScanMaps(FillOpt(t, bar.close), k.optOrder, k.opt, b.pendingOptions);
  }

  lemma BarStable(k: Kinds, b: Book, t: Ticker, bar: Bar, eod: bool)
    requires Stable(k) && Holds(k, b)
    ensures Holds(k, OnBar(b, t, Some(bar), eod))
  {
    EntriesStable(k, b, t, bar);
    var b1 := Entered(b, t, bar);
    ScanMaps(Exit(Pro, t, bar), k.pos, k.trade, b1.pro);
    ScanMaps(Exit(Pop, t, bar), k.pos, k.trade, b1.pop);
    ScanMaps(OptExit(t, bar.close), k.opt, k.trade, b1.options);
    var b2 := Judged(b, t, bar);
    assert Holds(k, b2);
    ScanMaps(CloseOut(Pro, t, bar.close), k.pos, k.trade, b2.pro);
    ScanMaps(CloseOut(Pop, t, bar.close), k.pos, k.trade, b2.pop);
  }

  lemma {:induction false} RunStable(k: Kinds, b: Book, ops: seq<Op>)
    requires Stable(k) && Holds(k, b) && forall i | 0 <= i < |ops| :: Admits(k, ops[i])
    ensures Holds(k, Run(b, ops))
    decreases ops
  {
    if ops != [] {
      var op := ops[0];
      if op.BarOp? && op.bar.Some? { BarStable(k, b, op.ticker, op.bar.value, op.eod); }
      RunStable(k, Step(b, op), ops[1..]);
    }
  }

  /** At least one share in every order, position and trade, and no held position half closed. */
  function Sized(): Kinds {
    Kinds((o: Order) => o.qty >= 1, (o: OptOrder) => true,
          (p: Position) => p.qty >= 1 && !p.fillPending && p.exitReason.None?,
          (o: OptPosition) => o.exitReason.None?, (x: Trade) => x.qty >= 1)
  }

  function Live(): Kinds {
    Kinds((o: Order) => true, (o: OptOrder) => true, (p: Position) => !p.fillPending && p.exitReason.None?,
          (o: OptPosition) => o.exitReason.None?, (x: Trade) => true)
  }

  /** A property that survives splitting and opening holds of everything a run makes. */
  ghost predicate Survives(k: Kinds) {
    && (forall l, p, o {:trigger Splits(l, p, o)} | l != Options && Splits(l, p, o) && k.pos(p) ::
          All(k.pos, o.kept) && All(k.trade, o.done))
    && (forall p, o {:trigger OptSplits(p, o)} | OptSplits(p, o) && k.opt(p) :: All(k.opt, o.kept) && All(k.trade, o.done))
    && (forall l, x, o | l != Options && k.order(o) :: k.pos(Opened(l, x, o)))
    && (forall x, o | k.optOrder(o) :: k.opt(OptOpened(x, o)))
  }

  lemma SurvivesStable(k: Kinds)
    requires Survives(k)
    ensures Stable(k)
  {
    forall t, p { ClearSplits(Pro, t, p); }
    forall l, t, b, p { ExitSplits(l, t, b, p); }
    forall l, t, x, p { CloseOutSplits(l, t, x, p); }
    forall t, x, p { OptExitSplits(t, x, p); }
  }

  lemma SizedSurvives()
    ensures Survives(Sized())
  {
  }

  lemma LiveSurvives()
    ensures Survives(Live())
  {
  }

  /** A fresh simulator has every property, so the laws below apply to its runs. */
  lemma NothingHolds(k: Kinds)
    ensures Holds(k, EMPTY)
  {
  }

  /** If every order is for at least one share, so is every position and every trade. */
  lemma AtLeastOneShare(b: Book, ops: seq<Op>)
    requires Holds(Sized(), b) && forall i | 0 <= i < |ops| :: Admits(Sized(), ops[i])
    ensures Holds(Sized(), Run(b, ops))
  {
    SizedSurvives();
    SurvivesStable(Sized());
    RunStable(Sized(), b, ops);
  }

  /** A position in the lists is always filled and never already closed. */
  lemma AlwaysLive(b: Book, ops: seq<Op>)
    requires Holds(Live(), b)
    ensures Holds(Live(), Run(b, ops))
  {
    LiveSurvives();
    SurvivesStable(Live());
    RunStable(Live(), b, ops);
  }

  // ------------------------------------------------------------------ one order, from queue to last trade

  /** Positions of the order remember the quantity it was queued with. */
  function Original(ref: nat, q: int): Kinds {
    Kinds((o: Order) => o.ref == ref ==> o.qty == q, (o: OptOrder) => true,
          (p: Position) => p.ref == ref ==> p.originalQty == q, (o: OptPosition) => true, (x: Trade) => true)
  }

  lemma OriginalSurvives(ref: nat, q: int)
    ensures Survives(Original(ref, q))
  {
  }

  lemma {:induction false} QueuedOnce(ref: nat, ops: seq<Op>)
    ensures AllQueued(Lots(ref), ops) >= 0 && (AllQueued(Lots(ref), ops) == 0 ==> AllQueued(Shares(ref), ops) == 0)
    ensures AllQueued(Lots(ref), ops) == 0 ==> forall q, i | 0 <= i < |ops| :: Admits(Original(ref, q), ops[i])
    ensures AllQueued(Lots(ref), ops) == 1 ==> forall i | 0 <= i < |ops| :: Admits(Original(ref, AllQueued(Shares(ref), ops)), ops[i])
  {
    if ops != [] { QueuedOnce(ref, ops[1..]); }
  }

  /** A list in which an indicator counts nothing weighs nothing. */
  lemma {:induction false} ZeroCount<A(!new)>(one: A -> int, w: A -> int, s: seq<A>)
    requires forall a :: one(a) >= 0 && (one(a) == 0 ==> w(a) == 0)
    ensures SumInt(one, s) >= 0 && (SumInt(one, s) == 0 ==> SumInt(w, s) == 0)
  {
    if s != [] { ZeroCount(one, w, s[..|s| - 1]); }
  }

  /** A list in which an indicator counts one element weighs what that one does. */
  lemma {:induction false} OneCount<A(!new)>(one: A -> int, w: A -> int, s: seq<A>, a: A)
    requires forall a :: one(a) >= 0 && (one(a) == 0 ==> w(a) == 0)
    requires a in s && one(a) == 1
    ensures SumInt(one, s) >= 1 && (SumInt(one, s) == 1 ==> SumInt(w, s) == w(a))
  {
    var front, x := s[..|s| - 1], s[|s| - 1];
    assert s == front + [x];
    ZeroCount(one, w, front);
    if a in front { OneCount(one, w, front, a); }
  }

  /** The trades of an order other than its partial one. */
  function FinalTrades(ref: nat, s: seq<Trade>): int { SumInt(Lots(ref).trade, s) }

  function SharesTraded(ref: nat, s: seq<Trade>): int { SumInt(Shares(ref).trade, s) }

  lemma PlacesWeigh(ref: nat, b: Book)
    ensures var l, s := Lots(ref), Shares(ref);
            && SumInt(l.order, b.pendingPro) >= 0 && (SumInt(l.order, b.pendingPro) == 0 ==> SumInt(s.order, b.pendingPro) == 0)
            && SumInt(l.order, b.pendingPop) >= 0 && (SumInt(l.order, b.pendingPop) == 0 ==> SumInt(s.order, b.pendingPop) == 0)
            && SumInt(l.pos, b.pro) >= 0 && (SumInt(l.pos, b.pro) == 0 ==> SumInt(s.pos, b.pro) == 0)
            && SumInt(l.pos, b.pop) >= 0 && (SumInt(l.pos, b.pop) == 0 ==> SumInt(s.pos, b.pop) == 0)
            && SumInt(l.trade, b.closed) >= 0
  {
    var l, s := Lots(ref), Shares(ref);
    ZeroCount(l.order, s.order, b.pendingPro);
    ZeroCount(l.order, s.order, b.pendingPop);
    ZeroCount(l.pos, s.pos, b.pro);
    ZeroCount(l.pos, s.pos, b.pop);
    ZeroCount(l.trade, l.trade, b.closed);
  }

  /** In a book that holds the order in exactly one place, its shares are there or traded. */
  lemma PlacedOnce(ref: nat, b: Book, q: int, p: Position)
    requires Total(Lots(ref), b) == 1 && Total(Shares(ref), b) == q
    ensures FinalTrades(ref, b.closed) == 1 ==> SharesTraded(ref, b.closed) == q
    ensures (p in b.pro || p in b.pop) && p.ref == ref ==> p.qty + SharesTraded(ref, b.closed) == q && FinalTrades(ref, b.closed) == 0
  {
    PlacesWeigh(ref, b);
    NothingOptional(ref, b);
    if p.ref == ref && p in b.pro {
      OneCount(Lots(ref).pos, Shares(ref).pos, b.pro, p);
    } else if p.ref == ref && p in b.pop {
      OneCount(Lots(ref).pos, Shares(ref).pos, b.pop, p);
    }
  }

  /** Nothing in the book has the reference. */
  ghost predicate Unknown(ref: nat, b: Book) {
    && (forall i | 0 <= i < |b.pendingPro| :: b.pendingPro[i].ref != ref)
    && (forall i | 0 <= i < |b.pendingPop| :: b.pendingPop[i].ref != ref)
    && (forall i | 0 <= i < |b.pro| :: b.pro[i].ref != ref) && (forall i | 0 <= i < |b.pop| :: b.pop[i].ref != ref)
    && (forall i | 0 <= i < |b.closed| :: b.closed[i].ref != ref)
  }

  lemma UnknownWeighs(ref: nat, b: Book)
    requires Unknown(ref, b)
    ensures Total(Shares(ref), b) == 0 && Total(Lots(ref), b) == 0
  {
    NothingOptional(ref, b);
    SumZero(Shares(ref).order, b.pendingPro);
    SumZero(Shares(ref).order, b.pendingPop);
    SumZero(Shares(ref).pos, b.pro);
    SumZero(Shares(ref).pos, b.pop);
    SumZero(Shares(ref).trade, b.closed);
    SumZero(Lots(ref).order, b.pendingPro);
    SumZero(Lots(ref).order, b.pendingPop);
    SumZero(Lots(ref).pos, b.pro);
    SumZero(Lots(ref).pos, b.pop);
    SumZero(Lots(ref).trade, b.closed);
  }

  lemma UnknownOriginal(ref: nat, q: int, b: Book)
    requires Unknown(ref, b)
    ensures Holds(Original(ref, q), b)
  {
  }

  lemma OriginalKept(b: Book, ops: seq<Op>, ref: nat, q: int)
    requires Unknown(ref, b) && AllQueued(Lots(ref), ops) == 1 && AllQueued(Shares(ref), ops) == q
    ensures Holds(Original(ref, q), Run(b, ops))
  {
    UnknownOriginal(ref, q, b);
    QueuedOnce(ref, ops);
    OriginalSurvives(ref, q);
    SurvivesStable(Original(ref, q));
    RunStable(Original(ref, q), b, ops);
  }

  /** An order queued once, in any run from a book that does not know it: while a position of it is
    * held, what is held and what was traded make up its original quantity; once its final trade is
    * recorded, the trades alone do. */
  lemma OrderAccounted(b: Book, ops: seq<Op>, ref: nat, p: Position)
    requires Unknown(ref, b) && AllQueued(Lots(ref), ops) == 1
    ensures var e, q := Run(b, ops), AllQueued(Shares(ref), ops);
            && (FinalTrades(ref, e.closed) == 1 ==> SharesTraded(ref, e.closed) == q)
            && ((p in e.pro || p in e.pop) && p.ref == ref ==>
                  && p.originalQty == q && p.qty + SharesTraded(ref, e.closed) == q && FinalTrades(ref, e.closed) == 0)
  {
    UnknownWeighs(ref, b);
    SharesConserved(b, ops, ref);
    LotsConserved(b, ops, ref);
    OriginalKept(b, ops, ref, AllQueued(Shares(ref), ops));
    PlacedOnce(ref, Run(b, ops), AllQueued(Shares(ref), ops), p);
  }

  lemma NothingOptional(ref: nat, b: Book)
    ensures SumInt(Shares(ref).optOrder, b.pendingOptions) == 0 && SumInt(Shares(ref).opt, b.options) == 0
    ensures SumInt(Lots(ref).optOrder, b.pendingOptions) == 0 && SumInt(Lots(ref).opt, b.options) == 0
  {
    AllZero(Shares(ref).optOrder, b.pendingOptions);
    AllZero(Shares(ref).opt, b.options);
    AllZero(Lots(ref).optOrder, b.pendingOptions);
    AllZero(Lots(ref).opt, b.options);
  }

  lemma {:induction false} AllZero<A(!new)>(w: A -> int, s: seq<A>)
    requires forall a :: w(a) == 0
    ensures SumInt(w, s) == 0
  {
    if s != [] { AllZero(w, s[..|s| - 1]); }
  }
}
