/** backtests/engine.py: the session loop that drives the simulator, with strategies as an
  * arbitrary source of signals raised by each bar. */
module Engine {
  import opened Wrappers
  import opened Seqs
  import opened FillModel
  import opened FillLaws
  import opened FillLocality
  import opened FillSimulation

  /** One turn of the inner loop: a ticker's bar, and the orders its BAR event makes strategies queue. */
  datatype Beat = Beat(ticker: Ticker, bar: Bar, eod: bool, signals: seq<Op>)

  /** Signals are queue calls for the ticker whose bar raised them. */
  predicate OwnSignals(x: Beat) {
    forall i | 0 <= i < |x.signals| :: !x.signals[i].BarOp? && TickerOf(x.signals[i]) == x.ticker
  }

  /** The bar is filled before its event is emitted, so its own signals come after it. */
  function OpsOf(x: Beat): seq<Op> { [BarOp(x.ticker, Some(x.bar), x.eod)] + x.signals }

  function Play(b: Book, beats: seq<Beat>): Book {
    if beats == [] then b else Run(Play(b, beats[..|beats| - 1]), OpsOf(beats[|beats| - 1]))
  }

  function AllOps(beats: seq<Beat>): seq<Op> {
    if beats == [] then [] else AllOps(beats[..|beats| - 1]) + OpsOf(beats[|beats| - 1])
  }

  lemma {:induction false} PlayIsRun(b: Book, beats: seq<Beat>)
    ensures Play(b, beats) == Run(b, AllOps(beats))
  {
    if beats != [] {
      PlayIsRun(b, beats[..|beats| - 1]);
      RunAppend(b, AllOps(beats[..|beats| - 1]), OpsOf(beats[|beats| - 1]));
    }
  }

  // ------------------------------------------------------------------ one beat, seen by one ticker

  /** A beat of another ticker leaves a ticker's part of the book as it is. */
  lemma BeatOnly(b: Book, x: Beat, t: Ticker)
    requires OwnSignals(x)
    ensures Only(Run(b, OpsOf(x)), t) == if t == x.ticker then Run(Only(b, t), OpsOf(x)) else Only(b, t)
  {
    TickerRefinement(b, OpsOf(x), t);
    assert forall i | 0 <= i < |OpsOf(x)| :: TickerOf(OpsOf(x)[i]) == x.ticker;
    if t == x.ticker { FilterAll(OfOp(t), OpsOf(x)); } else { FilterNone(OfOp(t), OpsOf(x)); }
  }

  function ProOrders(ops: seq<Op>): seq<Order> {
    if ops == [] then [] else (if ops[0].QueuePro? then [ops[0].order] else []) + ProOrders(ops[1..])
  }

  function PopOrders(ops: seq<Op>): seq<Order> {
    if ops == [] then [] else (if ops[0].QueuePop? then [ops[0].order] else []) + PopOrders(ops[1..])
  }

  /** Queue calls append to the pending lists and touch nothing else the equity side reads. */
  ghost predicate Queues(b: Book, e: Book, pro: seq<Order>, pop: seq<Order>) {
    && e.pendingPro == b.pendingPro + pro && e.pendingPop == b.pendingPop + pop
    && e.pro == b.pro && e.pop == b.pop && e.closed == b.closed
  }

  lemma {:induction false} StepQueues(b: Book, op: Op)
    requires !op.BarOp?
    ensures Queues(b, Step(b, op), ProOrders([op]), PopOrders([op]))
  {
  }

  lemma QueuesTwice(b: Book, m: Book, e: Book, pro: seq<Order>, pop: seq<Order>, pro': seq<Order>, pop': seq<Order>)
    requires Queues(b, m, pro, pop) && Queues(m, e, pro', pop')
    ensures Queues(b, e, pro + pro', pop + pop')
  {
  }

  lemma {:induction false} OrdersSplit(ops: seq<Op>)
    requires ops != []
    ensures ProOrders(ops) == ProOrders([ops[0]]) + ProOrders(ops[1..])
    ensures PopOrders(ops) == PopOrders([ops[0]]) + PopOrders(ops[1..])
  {
  }

  lemma {:induction false} RunQueues(b: Book, ops: seq<Op>)
    requires forall i | 0 <= i < |ops| :: !ops[i].BarOp?
    ensures Queues(b, Run(b, ops), ProOrders(ops), PopOrders(ops))
    decreases ops
  {
    if ops != [] {
      var op, m := ops[0], Step(b, ops[0]);
      StepQueues(b, op);
      RunQueues(m, ops[1..]);
      QueuesTwice(b, m, Run(m, ops[1..]), ProOrders([op]), PopOrders([op]), ProOrders(ops[1..]), PopOrders(ops[1..]));
      OrdersSplit(ops);
    }
  }

  function OpenAll(l: Layer, open: real, orders: seq<Order>): seq<Position> {
    if orders == [] then []
    else OpenAll(l, open, orders[..|orders| - 1]) + [Opened(l, open, orders[|orders| - 1])]
  }

  lemma {:induction false} FillsAll(l: Layer, t: Ticker, open: real, pending: seq<Order>)
    requires forall i | 0 <= i < |pending| :: pending[i].ticker == t
    ensures Scan(Fill(l, t, open), pending) == Outcome([], OpenAll(l, open, pending))
  {
    if pending != [] { FillsAll(l, t, open, pending[..|pending| - 1]); }
  }

  lemma {:induction false} FilteredAt<A>(keep: A -> bool, s: seq<A>)
    ensures forall i | 0 <= i < |Filter(keep, s)| :: keep(Filter(keep, s)[i]) && Filter(keep, s)[i] in s
  {
    if s != [] {
      FilteredAt(keep, s[..|s| - 1]);
      assert s == s[..|s| - 1] + [s[|s| - 1]];
    }
  }

  lemma OnlyPendingOf(b: Book, t: Ticker)
    ensures forall i | 0 <= i < |Only(b, t).pendingPro| :: Only(b, t).pendingPro[i].ticker == t
    ensures forall i | 0 <= i < |Only(b, t).pendingPop| :: Only(b, t).pendingPop[i].ticker == t
  {
    FilteredAt(OfOrder(t), b.pendingPro);
    FilteredAt(OfOrder(t), b.pendingPop);
  }

  /** After a bar of the ticker nothing of it is pending. */
  lemma BarFillsAll(b: Book, t: Ticker, bar: Bar, eod: bool)
    ensures var o := OnBar(Only(b, t), t, Some(bar), eod); o.pendingPro == [] && o.pendingPop == []
  {
    OnlyPendingOf(b, t);
    FillsAll(Pro, t, bar.open, Only(b, t).pendingPro);
    FillsAll(Pop, t, bar.open, Only(b, t).pendingPop);
  }

  lemma RunBeat(b: Book, x: Beat)
    ensures Run(b, OpsOf(x)) == Run(OnBar(b, x.ticker, Some(x.bar), x.eod), x.signals)
  {
    assert OpsOf(x)[1..] == x.signals;
  }

  // ------------------------------------------------------------------ no look-ahead

  /** The signals raised by the ticker's latest bar. */
  function LatestSignals(beats: seq<Beat>, t: Ticker): seq<Op> {
    if beats == [] then []
    else if beats[|beats| - 1].ticker == t then beats[|beats| - 1].signals
    else LatestSignals(beats[..|beats| - 1], t)
  }

  /** At any point of any session, what is pending for a ticker is exactly what its latest bar raised. */
  lemma {:induction false} PendingIsLatest(beats: seq<Beat>, t: Ticker)
    requires forall i | 0 <= i < |beats| :: OwnSignals(beats[i])
    ensures var o := Only(Play(EMPTY, beats), t);
            && o.pendingPro == ProOrders(LatestSignals(beats, t))
            && o.pendingPop == PopOrders(LatestSignals(beats, t))
  {
    if beats != [] {
      var front, x := beats[..|beats| - 1], beats[|beats| - 1];
      var b := Play(EMPTY, front);
      BeatOnly(b, x, t);
      if x.ticker == t {
        BarFillsAll(b, t, x.bar, x.eod);
        RunBeat(Only(b, t), x);
        RunQueues(OnBar(Only(b, t), t, Some(x.bar), x.eod), x.signals);
      } else {
        PendingIsLatest(front, t);
      }
    }
  }

  lemma {:induction false} NewPositionsUntouched(l: Layer, t: Ticker, bar: Bar, orders: seq<Order>)
    ensures Scan(Exit(l, t, bar), OpenAll(l, bar.open, orders)) == Outcome(OpenAll(l, bar.open, orders), [])
  {
    if orders != [] {
      var front := orders[..|orders| - 1];
      NewPositionsUntouched(l, t, bar, front);
      var s := OpenAll(l, bar.open, front);
      assert (s + [Opened(l, bar.open, orders[|orders| - 1])])[..|s|] == s;
    }
  }

  /** What a list of held positions becomes in the stop and target checks of a bar. */
  function HeldAfter(held: seq<Position>, l: Layer, t: Ticker, bar: Bar): seq<Position> {
    Scan(Exit(l, t, bar), Scan(Clear(t), held).kept).kept
  }

  lemma ListJudged(held: seq<Position>, pending: seq<Order>, l: Layer, t: Ticker, bar: Bar)
    requires forall i | 0 <= i < |pending| :: pending[i].ticker == t
    ensures Scan(Exit(l, t, bar), Scan(Clear(t), held).kept + Scan(Fill(l, t, bar.open), pending).done).kept
         == HeldAfter(held, l, t, bar) + OpenAll(l, bar.open, pending)
  {
    FillsAll(l, t, bar.open, pending);
    ScanAppend(Exit(l, t, bar), Scan(Clear(t), held).kept, OpenAll(l, bar.open, pending));
    NewPositionsUntouched(l, t, bar, pending);
  }

  /** No look-ahead: the orders raised by a ticker's latest bar, and no others, are filled at the open
    * of its next bar, and are held untouched through that bar's stop and target checks. */
  lemma NoLookAhead(beats: seq<Beat>, t: Ticker, bar: Bar)
    requires forall i | 0 <= i < |beats| :: OwnSignals(beats[i])
    ensures var o := Only(Play(EMPTY, beats), t);
            var j := Only(Judged(Play(EMPTY, beats), t, bar), t);
            && j.pro == HeldAfter(o.pro, Pro, t, bar) + OpenAll(Pro, bar.open, ProOrders(LatestSignals(beats, t)))
            && j.pop == HeldAfter(o.pop, Pop, t, bar) + OpenAll(Pop, bar.open, PopOrders(LatestSignals(beats, t)))
            && j.pendingPro == [] && j.pendingPop == []
  {
    var b := Play(EMPTY, beats);
    PendingIsLatest(beats, t);
    BarOnly(b, t, bar, false, t);
    BarFillsAll(b, t, bar, false);
    OnlyPendingOf(b, t);
    ListJudged(Only(b, t).pro, Only(b, t).pendingPro, Pro, t, bar);
    ListJudged(Only(b, t).pop, Only(b, t).pendingPop, Pop, t, bar);
  }

  // ------------------------------------------------------------------ flat at the close

  predicate Flat(b: Book, t: Ticker) { Only(b, t).pro == [] && Only(b, t).pop == [] }

  lemma JudgedLive(b: Book, t: Ticker, bar: Bar)
    requires Holds(Live(), b)
    ensures Holds(Live(), Judged(b, t, bar))
  {
    LiveSurvives();
    SurvivesStable(Live());
    BarStable(Live(), b, t, bar, false);
  }

  lemma EodListFlat(l: Layer, t: Ticker, close: real, s: seq<Position>)
    requires forall p :: p in s ==> p.exitReason.None?
    ensures Scan(CloseOut(l, t, close), Filter(OfPosition(t), s)).kept == []
  {
  }

  lemma EodIsFlat(b: Book, t: Ticker, bar: Bar)
    requires Holds(Live(), b)
    ensures Flat(OnBar(b, t, Some(bar), true), t)
  {
    JudgedLive(b, t, bar);
    var j := Judged(b, t, bar);
    EodOnly(j, t, bar.close, t);
    EodListFlat(Pro, t, bar.close, j.pro);
    EodListFlat(Pop, t, bar.close, j.pop);
  }

  lemma PlayLive(b: Book, beats: seq<Beat>)
    requires Holds(Live(), b)
    ensures Holds(Live(), Play(b, beats))
  {
    PlayIsRun(b, beats);
    AlwaysLive(b, AllOps(beats));
  }

  lemma OwnBeatFlat(b: Book, x: Beat)
    requires OwnSignals(x) && x.eod && Holds(Live(), b)
    ensures Flat(Run(b, OpsOf(x)), x.ticker)
  {
    var t, o := x.ticker, Only(b, x.ticker);
    BeatOnly(b, x, t);
    RunBeat(o, x);
    EodIsFlat(b, t, x.bar);
    BarOnly(b, t, x.bar, true, t);
    RunQueues(OnBar(o, t, Some(x.bar), true), x.signals);
  }

  /** A ticker's own end-of-day beat leaves it flat, and another ticker's beat keeps it flat. */
  lemma BeatFlat(b: Book, x: Beat, t: Ticker)
    requires OwnSignals(x) && x.eod && Holds(Live(), b) && (x.ticker == t || Flat(b, t))
    ensures Flat(Run(b, OpsOf(x)), t)
  {
    if x.ticker == t {
      OwnBeatFlat(b, x);
    } else {
      BeatOnly(b, x, t);
    }
  }

  /** Once a ticker has had its end-of-day bar, no pro or pop position of it is open, through every
    * later beat of the final timestamp. */
  lemma {:induction false} FlatAfterEod(b: Book, beats: seq<Beat>, i: nat)
    requires Holds(Live(), b) && forall k | 0 <= k < |beats| :: OwnSignals(beats[k])
    requires i < |beats| && forall k | i <= k < |beats| :: beats[k].eod
    ensures Flat(Play(b, beats), beats[i].ticker)
  {
    var front, x := beats[..|beats| - 1], beats[|beats| - 1];
    PlayLive(b, front);
    if i < |front| { FlatAfterEod(b, front, i); }
    BeatFlat(Play(b, front), x, beats[i].ticker);
  }

  // ------------------------------------------------------------------ the session loop

  /** One timestamp: the bars of the tickers that have one, in the engine's ticker order. */
  datatype Tick = Tick(ticker: Ticker, bar: Bar, signals: seq<Op>)

  function FrameBeats(frame: seq<Tick>, eod: bool): seq<Beat> {
    if frame == [] then []
    else
      var x := frame[|frame| - 1];
      FrameBeats(frame[..|frame| - 1], eod) + [Beat(x.ticker, x.bar, eod, x.signals)]
  }

  /** The beats of the first `n` timestamps; only the last timestamp of the session is end of day. */
  function SessionBeats(session: seq<seq<Tick>>, n: nat): seq<Beat>
    requires n <= |session|
  {
    if n == 0 then [] else SessionBeats(session, n - 1) + FrameBeats(session[n - 1], n == |session|)
  }

  lemma {:induction false} PlayAppend(b: Book, beats: seq<Beat>, more: seq<Beat>)
    ensures Play(b, beats + more) == Play(Play(b, beats), more)
  {
    if more == [] {
      assert beats + more == beats;
    } else {
      assert (beats + more)[..|beats + more| - 1] == beats + more[..|more| - 1];
      PlayAppend(b, beats, more[..|more| - 1]);
    }
  }

  lemma {:induction false} FrameBeatsAt(frame: seq<Tick>, eod: bool)
    ensures |FrameBeats(frame, eod)| == |frame|
    ensures forall i | 0 <= i < |frame| ::
              FrameBeats(frame, eod)[i] == Beat(frame[i].ticker, frame[i].bar, eod, frame[i].signals)
  {
    if frame != [] { FrameBeatsAt(frame[..|frame| - 1], eod); }
  }

  predicate OwnFrame(frame: seq<Tick>, eod: bool) {
    forall i | 0 <= i < |frame| :: OwnSignals(Beat(frame[i].ticker, frame[i].bar, eod, frame[i].signals))
  }

  /** Every signal of the session is for the ticker whose bar raised it. */
  predicate OwnSession(session: seq<seq<Tick>>) {
    forall k | 0 <= k < |session| :: OwnFrame(session[k], k == |session| - 1)
  }

  lemma {:induction false} SessionOwn(session: seq<seq<Tick>>, n: nat)
    requires OwnSession(session) && n <= |session|
    ensures forall i | 0 <= i < |SessionBeats(session, n)| :: OwnSignals(SessionBeats(session, n)[i])
  {
    if n != 0 {
      SessionOwn(session, n - 1);
      FrameBeatsAt(session[n - 1], n == |session|);
    }
  }

  lemma LastFrame(session: seq<seq<Tick>>, i: nat)
    requires session != [] && i < |session[|session| - 1]|
    ensures var beats, k := SessionBeats(session, |session|), |SessionBeats(session, |session| - 1)| + i;
            && k < |beats| && beats[k].ticker == session[|session| - 1][i].ticker
            && forall j | k <= j < |beats| :: beats[j].eod
  {
    var last := session[|session| - 1];
    FrameBeatsAt(last, true);
    var earlier, beats := SessionBeats(session, |session| - 1), SessionBeats(session, |session|);
    assert beats == earlier + FrameBeats(last, true);
    assert forall j | |earlier| <= j < |beats| :: beats[j] == FrameBeats(last, true)[j - |earlier|];
  }

  /** The book after the first `k` timestamps of a session begun at `start`. */
  function After(start: Book, session: seq<seq<Tick>>, k: nat): Book
    requires k <= |session|
  {
    Play(start, SessionBeats(session, k))
  }

  /** Flat at the close: after a session begun with any live positions, no pro or pop position is open
    * for any ticker that had a bar at the final timestamp. */
  lemma FlatAtClose(b: Book, session: seq<seq<Tick>>, i: nat)
    requires Holds(Live(), b) && OwnSession(session) && session != [] && i < |session[|session| - 1]|
    ensures Flat(After(b, session, |session|), session[|session| - 1][i].ticker)
  {
    SessionOwn(session, |session|);
    LastFrame(session, i);
    FlatAfterEod(b, SessionBeats(session, |session|), |SessionBeats(session, |session| - 1)| + i);
  }

  lemma AfterNone(start: Book, session: seq<seq<Tick>>)
    ensures After(start, session, 0) == start
  {
  }

  lemma AfterNext(start: Book, session: seq<seq<Tick>>, k: nat)
    requires k < |session|
    ensures After(start, session, k + 1) == Play(After(start, session, k), FrameBeats(session[k], k == |session| - 1))
  {
    PlayAppend(start, SessionBeats(session, k), FrameBeats(session[k], k == |session| - 1));
  }

  /** The equity a book stands for: the starting equity and the P&L of its closed trades. */
  function EquityOf(starting: real, b: Book): real { starting + SumReal(TradePnl(), b.closed) }

  /** The equity points of the first `k` timestamps of a session. */
  function Curve(starting: real, start: Book, session: seq<seq<Tick>>, k: nat): seq<real>
    requires k <= |session|
  {
    if k == 0 then [] else Curve(starting, start, session, k - 1) + [EquityOf(starting, After(start, session, k))]
  }

  lemma EquityIsPnl(sim: FillSimulator)
    requires sim.Balanced()
    ensures sim.currentEquity == EquityOf(sim.startingEquity, sim.Lists())
  {
    sim.MoneyConserved();
  }

  /** What the signals of a frame ask for: orders of any ticker, but no bars. */
  predicate QueuesOnly(frame: seq<Tick>) {
    forall i, j | 0 <= i < |frame| && 0 <= j < |frame[i].signals| :: !frame[i].signals[j].BarOp?
  }

  class BacktestEngine {
    const sim: FillSimulator
    var equityCurve: seq<real>

    constructor (sim: FillSimulator)
      ensures this.sim == sim && equityCurve == []
    {
      this.sim, equityCurve := sim, [];
    }

    method Queue(signals: seq<Op>)
      requires sim.Balanced() && forall i | 0 <= i < |signals| :: !signals[i].BarOp?
      modifies sim`pendingPro, sim`pendingPop, sim`pendingOptions
      ensures sim.Balanced() && sim.Lists() == Run(old(sim.Lists()), signals)
    {
      ghost var start := sim.Lists();
      for i := 0 to |signals|
        invariant sim.Balanced() && sim.Lists() == Run(start, signals[..i])
      {
        assert signals[..i + 1] == signals[..i] + [signals[i]];
        RunAppend(start, signals[..i], [signals[i]]);
        assert Run(sim.Lists(), [signals[i]]) == Step(sim.Lists(), signals[i]);
        match signals[i] {
          case QueuePro(o) => sim.QueueFromPro(o);
          case QueuePop(o) => sim.QueueFromPop(o);
          case QueueOptions(o) => sim.QueueFromOptions(o);
        }
      }
      assert signals[..|signals|] == signals;
    }

    method PlayFrame(frame: seq<Tick>, eod: bool)
      requires sim.Balanced() && QueuesOnly(frame)
      modifies sim
      ensures sim.Balanced() && sim.Lists() == Play(old(sim.Lists()), FrameBeats(frame, eod))
    {
      ghost var start := sim.Lists();
      for i := 0 to |frame|
        invariant sim.Balanced() && sim.Lists() == Play(start, FrameBeats(frame[..i], eod))
      {
        var x := frame[i];
        ghost var beat := Beat(x.ticker, x.bar, eod, x.signals);
        assert frame[..i + 1][..i] == frame[..i];
        PlayAppend(start, FrameBeats(frame[..i], eod), [beat]);
        assert Play(sim.Lists(), [beat]) == Run(sim.Lists(), OpsOf(beat)) by { assert [beat][..0] == []; }
        assert OpsOf(beat)[1..] == x.signals;
        sim.ProcessBar(x.ticker, Some(x.bar), eod);
        Queue(x.signals);
      }
      assert frame[..|frame|] == frame;
    }

    /** `_process_session`: frame by frame, the last one being the end of the day.  The point recorded
      * for each timestamp is the starting equity plus the P&L of all trades closed by then. */
    method ProcessSession(session: seq<seq<Tick>>)
      requires sim.Balanced()
      requires forall k | 0 <= k < |session| :: QueuesOnly(session[k])
      modifies this, sim
      ensures sim.Balanced() && sim.Lists() == After(old(sim.Lists()), session, |session|)
      ensures equityCurve == old(equityCurve) + Curve(sim.startingEquity, old(sim.Lists()), session, |session|)
    {
      ghost var start := sim.Lists();
      AfterNone(start, session);
      for k := 0 to |session|
        invariant sim.Balanced() && sim.Lists() == After(start, session, k)
        invariant equityCurve == old(equityCurve) + Curve(sim.startingEquity, start, session, k)
      {
        AfterNext(start, session, k);
        PlayFrame(session[k], k == |session| - 1);
        EquityIsPnl(sim);
        equityCurve := equityCurve + [sim.currentEquity];
      }
    }
  }
}
