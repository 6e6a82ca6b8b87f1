/** backtests/fill_simulator.py, as values: orders, positions, trades, and what one bar does.
  *
  * `ref` stands for the identity of the signal payload an order, and then its position, came from;
  * the source never branches on it.  Prices and P&L are reals, without rounding.
  */
module FillModel {
  import opened Wrappers
  import opened Seqs

  const SPREAD_FACTOR := 0.0010
  const STOP_SLIPPAGE := 0.0005
  const TARGET_SLIPPAGE := 0.0002
  const BARS_PER_DAY := 390.0

  type Ticker = string

  datatype Layer = Pro | Pop | Options
  datatype Side = Long | Short
  datatype Reason = Stop | Target1 | Target2 | Eod | ProfitTarget | StopLoss | DteClose
  datatype Bar = Bar(open: real, high: real, low: real, close: real)

  /** A pending pro or pop entry; `signal` and `direction` are attributes the payload may lack. */
  datatype Order = Order(
    ref: nat, ticker: Ticker, strategy: string, signal: Option<string>, direction: Option<string>,
    stop: real, target1: real, target2: real, qty: int)

  datatype Position = Position(
    ref: nat, ticker: Ticker, layer: Layer, strategy: string, side: Side, entry: real, stop: real,
    target1: real, target2: real, qty: int, originalQty: int, fillPending: bool, filledThisBar: bool,
    partialExited: bool, exitReason: Option<Reason>)

  /** A pending options entry; `daysLeft` is the expiry date less today, if it could be parsed. */
  datatype OptOrder = OptOrder(
    ref: nat, ticker: Ticker, strategy: string, netDebit: real, maxRisk: real, maxReward: real, daysLeft: Option<int>)

  datatype OptPosition = OptPosition(
    ref: nat, ticker: Ticker, strategy: string, netDebit: real, maxRisk: real, maxReward: real,
    entrySpot: real, barsHeld: nat, totalDte: int, exitReason: Option<Reason>)

  datatype Trade = Trade(
    ref: nat, ticker: Ticker, layer: Layer, strategy: string, side: Side, entry: real, exit: real,
    qty: int, reason: Reason, pnl: real)

  // ------------------------------------------------------------------ fills

  function IsLong(o: Order): bool {
    if o.signal.Some? then o.signal.value == "BUY"
    else if o.direction.Some? then o.direction.value == "long"
    else true
  }

  function Opened(layer: Layer, open: real, o: Order): Position {
    var entry := if IsLong(o) then open * (1.0 + SPREAD_FACTOR) else open * (1.0 - SPREAD_FACTOR);
    Position(o.ref, o.ticker, layer, o.strategy, if IsLong(o) then Long else Short, entry, o.stop,
             o.target1, o.target2, o.qty, o.qty, false, true, false, None)
  }

  function FillOne(layer: Layer, t: Ticker, open: real, o: Order): Outcome<Order, Position> {
    if o.ticker == t then Outcome([], [Opened(layer, open, o)]) else Outcome([o], [])
  }

  function ClearOne(t: Ticker, p: Position): Outcome<Position, Trade> {
    Outcome([if p.ticker == t then p.(filledThisBar := false) else p], [])
  }

  function Dte(o: OptOrder): int {
    if o.daysLeft.None? then 30 else if o.daysLeft.value < 1 then 1 else o.daysLeft.value
  }

  function OptOpened(close: real, o: OptOrder): OptPosition {
    OptPosition(o.ref, o.ticker, o.strategy, o.netDebit, o.maxRisk, o.maxReward, close, 0, Dte(o), None)
  }

  function FillOptOne(t: Ticker, close: real, o: OptOrder): Outcome<OptOrder, OptPosition> {
    if o.ticker == t then Outcome([], [OptOpened(close, o)]) else Outcome([o], [])
  }

  // ------------------------------------------------------------------ equity exits

  /** A price made worse for a seller of a long, or a buyer back of a short. */
  function Slip(side: Side, price: real, rate: real): real {
    if side.Long? then price * (1.0 - rate) else price * (1.0 + rate)
  }

  function Pnl(p: Position, exit: real, qty: int): real {
    if p.side.Long? then (exit - p.entry) * qty as real else (p.entry - exit) * qty as real
  }

  function TradeOf(layer: Layer, p: Position, qty: int, exit: real, reason: Reason): Trade {
    Trade(p.ref, p.ticker, layer, p.strategy, p.side, p.entry, exit, qty, reason, Pnl(p, exit, qty))
  }

  predicate StopTrades(p: Position, b: Bar) { if p.side.Long? then b.low <= p.stop else b.high >= p.stop }

  predicate Target1Trades(p: Position, b: Bar) {
    !p.partialExited && if p.side.Long? then b.high >= p.target1 else b.low <= p.target1
  }

  predicate Target2Trades(p: Position, b: Bar) { if p.side.Long? then b.high >= p.target2 else b.low <= p.target2 }

  function Abs(x: real): real { if x < 0.0 then -x else x }

  /** Stop and a target both trade in the bar, and the target is strictly nearer to the open. */
  predicate TargetNearer(p: Position, b: Bar) {
    && StopTrades(p, b) && (Target1Trades(p, b) || Target2Trades(p, b))
    && Abs(b.open - p.stop) > Abs(b.open - if Target2Trades(p, b) then p.target2 else p.target1)
  }

  /** Half the position sold at the first target, if half is at least one share. */
  function PartialOf(layer: Layer, p: Position): Outcome<Position, Trade> {
    var half := p.qty / 2;
    if half >= 1 then
      Outcome([p.(qty := p.qty - half, stop := p.entry, partialExited := true)],
              [TradeOf(layer, p, half, Slip(p.side, p.target1, TARGET_SLIPPAGE), Target1)])
    else Outcome([p.(partialExited := true)], [])
  }

  function ExitOne(layer: Layer, t: Ticker, b: Bar, p: Position): Outcome<Position, Trade> {
    if p.ticker != t || p.fillPending || p.exitReason.Some? || p.filledThisBar then Outcome([p], [])
    else if StopTrades(p, b) && !TargetNearer(p, b) then
      Outcome([], [TradeOf(layer, p, p.qty, Slip(p.side, p.stop, STOP_SLIPPAGE), Stop)])
    else
      var half := if Target1Trades(p, b) then PartialOf(layer, p) else Outcome([p], []);
      if Target2Trades(p, b) then
        var rest := half.kept[0];
        Outcome([], half.done + [TradeOf(layer, rest, rest.qty, Slip(p.side, p.target2, TARGET_SLIPPAGE), Target2)])
      else half
  }

  function EodOne(layer: Layer, t: Ticker, close: real, p: Position): Outcome<Position, Trade> {
    if p.ticker == t && p.exitReason.None? then
      Outcome([], [TradeOf(layer, p, p.qty, Slip(p.side, close, TARGET_SLIPPAGE), Eod)])
    else Outcome([p], [])
  }

  // ------------------------------------------------------------------ options exits

  const CREDIT := {"bull_put_spread", "bear_call_spread", "iron_condor", "iron_butterfly"}
  const VOLATILITY := {"long_straddle", "long_strangle"}

  function ProfitPct(strategy: string): real {
    if strategy in CREDIT then 0.5 else if strategy in VOLATILITY then 0.6 else 0.8
  }

  function Positive(x: real): real { if x < 0.0 then 0.0 else x }

  /** The move of the underlying since entry, and the share of the position's life used up. */
  function Move(o: OptPosition, spot: real): real
    requires o.entrySpot > 0.0
  {
    (spot - o.entrySpot) / o.entrySpot
  }

  function Decay(o: OptPosition): real {
    var days := o.barsHeld as real / BARS_PER_DAY;
    var used := days / (if o.totalDte < 1 then 1 else o.totalDte) as real;
    if used > 1.0 then 1.0 else used
  }

  /** What the move alone earns a debit position. */
  function Gain(strategy: string, move: real, reward: real): real {
    if strategy in {"long_call", "bull_call_spread"} then Positive(move) * reward * 2.5
    else if strategy in {"long_put", "bear_put_spread"} then Positive(-move) * reward * 2.5
    else Abs(move) * reward * 1.5
  }

  /** `_estimate_options_pnl`: a directional part and a linear time decay. */
  function Estimate(o: OptPosition, spot: real): real {
    if o.entrySpot <= 0.0 then 0.0
    else if o.strategy in CREDIT then o.maxReward * Decay(o) * 0.7 - Abs(Move(o, spot)) * o.maxRisk * 3.0
    else if o.strategy in VOLATILITY then Abs(Move(o, spot)) * o.maxReward * 2.0 - o.maxRisk * Decay(o) * 0.5
    else Gain(o.strategy, Move(o, spot), o.maxReward) - o.maxRisk * Decay(o) * 0.4
  }

  function OptTrade(o: OptPosition, pnl: real, reason: Reason): Trade {
    Trade(o.ref, o.ticker, Options, o.strategy, Long, Abs(o.netDebit), Abs(o.netDebit) + pnl, 1, reason, pnl)
  }

  function OptOne(t: Ticker, close: real, o: OptPosition): Outcome<OptPosition, Trade> {
    if o.ticker != t || o.exitReason.Some? then Outcome([o], [])
    else
      var held := o.(barsHeld := o.barsHeld + 1);
      var pnl := Estimate(held, close);
      if pnl >= o.maxReward * ProfitPct(o.strategy) then Outcome([], [OptTrade(held, pnl, ProfitTarget)])
      else if pnl <= -(o.maxRisk * 0.5) then Outcome([], [OptTrade(held, pnl, StopLoss)])
      else if o.totalDte as real - held.barsHeld as real / BARS_PER_DAY <= 10.0 then Outcome([], [OptTrade(held, pnl, DteClose)])
      else Outcome([held], [])
  }

  // ------------------------------------------------------------------ the passes of one bar

  function Fill(layer: Layer, t: Ticker, open: real): Order -> Outcome<Order, Position> {
    (o: Order) => FillOne(layer, t, open, o)
  }

  function FillOpt(t: Ticker, close: real): OptOrder -> Outcome<OptOrder, OptPosition> {
    (o: OptOrder) => FillOptOne(t, close, o)
  }

  function Clear(t: Ticker): Position -> Outcome<Position, Trade> {
    (p: Position) => ClearOne(t, p)
  }

  function Exit(layer: Layer, t: Ticker, b: Bar): Position -> Outcome<Position, Trade> {
    (p: Position) => ExitOne(layer, t, b, p)
  }

  function OptExit(t: Ticker, close: real): OptPosition -> Outcome<OptPosition, Trade> {
    (o: OptPosition) => OptOne(t, close, o)
  }

  function CloseOut(layer: Layer, t: Ticker, close: real): Position -> Outcome<Position, Trade> {
    (p: Position) => EodOne(layer, t, close, p)
  }

  /** Everything the simulator keeps in lists. */
  datatype Book = Book(
    pendingPro: seq<Order>, pendingPop: seq<Order>, pendingOptions: seq<OptOrder>,
    pro: seq<Position>, pop: seq<Position>, options: seq<OptPosition>, closed: seq<Trade>)

  const EMPTY := Book([], [], [], [], [], [], [])

  function ClearPass(b: Book, t: Ticker): Book {
    b.(pro := Scan(Clear(t), b.pro).kept, pop := Scan(Clear(t), b.pop).kept)
  }

  function FillPass(b: Book, t: Ticker, open: real): Book {
    var pro, pop := Scan(Fill(Pro, t, open), b.pendingPro), Scan(Fill(Pop, t, open), b.pendingPop);
    b.(pendingPro := pro.kept, pro := b.pro + pro.done, pendingPop := pop.kept, pop := b.pop + pop.done)
  }

  function FillOptPass(b: Book, t: Ticker, close: real): Book {
    var opt := Scan(FillOpt(t, close), b.pendingOptions);
    b.(pendingOptions := opt.kept, options := b.options + opt.done)
  }

  function ExitPass(b: Book, t: Ticker, bar: Bar): Book {
    var pro, pop := Scan(Exit(Pro, t, bar), b.pro), Scan(Exit(Pop, t, bar), b.pop);
    b.(pro := pro.kept, pop := pop.kept, closed := b.closed + pro.done + pop.done)
  }

  function OptExitPass(b: Book, t: Ticker, close: real): Book {
    var opt := Scan(OptExit(t, close), b.options);
    b.(options := opt.kept, closed := b.closed + opt.done)
  }

  function EodPass(b: Book, t: Ticker, close: real): Book {
    var pro, pop := Scan(CloseOut(Pro, t, close), b.pro), Scan(CloseOut(Pop, t, close), b.pop);
    b.(pro := pro.kept, pop := pop.kept, closed := b.closed + pro.done + pop.done)
  }

  /** The book once a bar's entries are in: what the exits are then judged on. */
  function Entered(b: Book, t: Ticker, bar: Bar): Book {
    FillOptPass(FillPass(ClearPass(b, t), t, bar.open), t, bar.close)
  }

  function Judged(b: Book, t: Ticker, bar: Bar): Book {
    OptExitPass(ExitPass(Entered(b, t, bar), t, bar), t, bar.close)
  }

  /** `process_bar`; a bar whose prices cannot be read is skipped. */
  function OnBar(b: Book, t: Ticker, bar: Option<Bar>, eod: bool): Book {
    if bar.None? then b
    else
      var judged := Judged(b, t, bar.value);
      if eod then EodPass(judged, t, bar.value.close) else judged
  }

  datatype Op =
    | QueuePro(order: Order)
    | QueuePop(order: Order)
    | QueueOptions(optOrder: OptOrder)
    | BarOp(ticker: Ticker, bar: Option<Bar>, eod: bool)

  function Step(b: Book, op: Op): Book {
    match op
    case QueuePro(o) => b.(pendingPro := b.pendingPro + [o])
    case QueuePop(o) => b.(pendingPop := b.pendingPop + [o])
    case QueueOptions(o) => b.(pendingOptions := b.pendingOptions + [o])
    case BarOp(t, bar, eod) => OnBar(b, t, bar, eod)
  }

  function Run(b: Book, ops: seq<Op>): Book
    decreases ops
  {
    if ops == [] then b else Run(Step(b, ops[0]), ops[1..])
  }

  function TickerOf(op: Op): Ticker {
    match op
    case QueuePro(o) => o.ticker
    case QueuePop(o) => o.ticker
    case QueueOptions(o) => o.ticker
    case BarOp(t, _, _) => t
  }

  lemma {:induction false} RunAppend(b: Book, ops: seq<Op>, more: seq<Op>)
    ensures Run(b, ops + more) == Run(Run(b, ops), more)
    decreases ops
  {
    if ops == [] {
      assert ops + more == more;
    } else {
      assert (ops + more)[1..] == ops[1..] + more;
      RunAppend(Step(b, ops[0]), ops[1..], more);
    }
  }
}
