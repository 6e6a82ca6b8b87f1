/** What both replays say of a ticker, from the bus signals alone: db/event_sourcing_subscriber.py turns
  * actions into kinds of events, and the report and the projection turn these back into positions. */
module ReplaySignals {
  import opened Wrappers
  import opened Seqs
  import opened Replay

  /** What the signals of a ticker leave open: the latest OPENED signal since the latest CLOSED one, and
    * the latest PARTIAL_EXIT signal after it. */
  datatype Standing = Standing(opening: Signal, partial: Option<Signal>)

  function StandingOf(signals: seq<Signal>, t: string): Option<Standing> {
    if signals == [] then None
    else
      var before, p := StandingOf(signals[..|signals| - 1], t), signals[|signals| - 1];
      if p.ticker != t then before
      else if p.action == "OPENED" then Some(Standing(p, None))
      else if p.action == "CLOSED" then None
      else if p.action == "PARTIAL_EXIT" && before.Some? then Some(before.value.(partial := Some(p)))
      else before
  }

  predicate Ends(p: Signal, t: string) { p.ticker == t && (p.action == "OPENED" || p.action == "CLOSED") }

  /** Something is left open if and only if the latest OPENED or CLOSED signal of the ticker is OPENED. */
  lemma {:induction false} StandingExact(signals: seq<Signal>, t: string)
    ensures StandingOf(signals, t).Some? <==>
            exists i | 0 <= i < |signals| :: Ends(signals[i], t) && signals[i].action == "OPENED"
              && forall j | i < j < |signals| :: !Ends(signals[j], t)
  {
    if signals != [] {
      var front, p := signals[..|signals| - 1], signals[|signals| - 1];
      StandingExact(front, t);
      assert signals == front + [p];
      if !Ends(p, t) && StandingOf(front, t).Some? {
        var i :| 0 <= i < |front| && Ends(front[i], t) && front[i].action == "OPENED" && forall j | i < j < |front| :: !Ends(front[j], t);
        assert Ends(signals[i], t);
      }
      if !Ends(p, t) {
        assert forall i | 0 <= i < |front| :: signals[i] == front[i];
      }
    }
  }

  /** A quantity and an entry: the snapshot's, or the close detail's without one. */
  function QtyOf(p: Signal): Option<int> { if p.snap.Some? then Some(p.snap.value.qty) else p.detailQty }

  function EntryOf(p: Signal): Option<real> { if p.snap.Some? then Some(p.snap.value.entry) else p.detailEntry }

  /** A price of the snapshot, if there is one and it is not zero. */
  predicate Priced(x: Option<real>, p: Signal, field: Snap -> Option<real>) {
    if p.snap.Some? && field(p.snap.value) != Some(0.0) then x == field(p.snap.value) else x == None
  }

  /** The holding shows what its signals said: prices of the opening, quantity and P&L of the latest
    * partial exit if there was one. */
  predicate Shows(h: Holding, s: Standing, t: string) {
    && h.ticker == t && h.entry == EntryOf(s.opening)
    && Priced(h.stop, s.opening, (x: Snap) => x.stop) && Priced(h.target, s.opening, (x: Snap) => x.target)
    && Priced(h.half, s.opening, (x: Snap) => x.half)
    && (match s.partial
        case None => h.qty == QtyOf(s.opening) && h.unrealised == None && h.status == OPEN
        case Some(p) => h.qty == QtyOf(p) && h.unrealised == p.pnl && h.status == PARTIAL)
  }

  predicate Agrees(m: map<string, Holding>, s: Option<Standing>, t: string) {
    (PositionId(t) in m <==> s.Some?) && (s.Some? ==> Shows(m[PositionId(t)], s.value, t))
  }

  lemma IdsDiffer(t: string, u: string)
    requires PositionId(t) == PositionId(u)
    ensures t == u
  {
    assert PositionId(t)[9..] == t && PositionId(u)[9..] == u;
  }

  lemma AddedSignal(m: map<string, Holding>, s: Option<Standing>, t: string, e: Event, p: Signal, signals: seq<Signal>)
    requires Agrees(m, s, t) && Recorded(e, p) && s == StandingOf(signals, t)
    ensures Agrees(Account(m, e), StandingOf(signals + [p], t), t)
  {
    assert (signals + [p])[..|signals|] == signals;
    if p.ticker != t && PositionId(p.ticker) == PositionId(t) { IdsDiffer(p.ticker, t); }
  }

  lemma {:induction false} FoldFollows(rows: seq<Event>, signals: seq<Signal>, t: string)
    requires Records(rows, signals)
    ensures Agrees(Positions(rows), StandingOf(signals, t), t)
  {
    if rows != [] {
      var n := |rows| - 1;
      assert signals == signals[..n] + [signals[n]];
      FoldFollows(rows[..n], signals[..n], t);
      AddedSignal(Positions(rows[..n]), StandingOf(signals[..n], t), t, rows[n], signals[n], signals[..n]);
    }
  }

  lemma {:induction false} AllVisible(log: seq<Event>, at: Time)
    requires forall i | 0 <= i < |log| :: log[i].time <= at
    ensures Filter(Visible(at), log) == Filter(OfPositions(), log)
  {
    if log != [] { AllVisible(log[..|log| - 1], at); }
  }

  /** The report follows the signals: it holds a ticker if and only if its latest OPENED or CLOSED signal is
    * OPENED, with the terms of that signal and the quantity of the latest partial exit since. */
  lemma ReportFollowsSignals(log: seq<Event>, signals: seq<Signal>, t: string, at: Time)
    requires Records(Filter(OfPositions(), log), signals) && forall i | 0 <= i < |log| :: log[i].time <= at
    ensures Agrees(PositionsAt(log, at), StandingOf(signals, t), t)
  {
    AllVisible(log, at);
    FoldFollows(Filter(OfPositions(), log), signals, t);
  }

  /** So does the table, after any events and rebuilds and one more rebuild of the ticker. */
  lemma TableFollowsSignals(run: seq<Act>, signals: seq<Signal>, t: string, at: Time)
    requires var log := Run(Sys([], map[]), run).log;
             ShapedLog(log) && Records(Filter(OfPositions(), log), signals) && forall i | 0 <= i < |log| :: log[i].time <= at
    ensures var s := Run(Sys([], map[]), run);
            var table, standing := Rebuild(s.table, s.log, t), StandingOf(signals, t);
            && (t in table <==> standing.Some?)
            && (standing.Some? ==>
                  && table[t].entry == EntryOf(standing.value.opening)
                  && Priced(table[t].stop, standing.value.opening, (x: Snap) => x.stop)
                  && Priced(table[t].target1, standing.value.opening, (x: Snap) => x.target)
                  && Priced(table[t].target2, standing.value.opening, (x: Snap) => x.half)
                  && table[t].qty == QtyOf(if standing.value.partial.Some? then standing.value.partial.value else standing.value.opening)
                  && table[t].unrealised == (if standing.value.partial.Some? then standing.value.partial.value.pnl else None))
  {
    var log := Run(Sys([], map[]), run).log;
    ReplaysAgree(run, t, at);
    ReportFollowsSignals(log, signals, t, at);
  }

  /** Whoever calls `OnPosition` and reads the report finds the signals of the calls that built their row. */
  lemma SubscriberReported(sub: EventSourcingSubscriber, t: string, at: Time)
    requires sub.Told() && forall i | 0 <= i < |sub.log| :: sub.log[i].time <= at
    ensures Agrees(PositionsAt(sub.log, at), StandingOf(sub.signals, t), t)
  {
    ReportFollowsSignals(sub.log, sub.signals, t, at);
  }
}
