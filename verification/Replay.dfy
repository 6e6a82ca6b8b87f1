/** The event store and its replays: db/event_sourcing_subscriber.py writes position events,
  * db/projection_builder.py rebuilds the position table from them, and analytics/compliance.py
  * reconstructs the positions of a moment from the same events with its own fold.
  *
  * The store is kept in the order of `event_sequence`, the order every query asks for.
  */
module Replay {
  import opened Wrappers
  import opened Seqs

  type Id = nat
  type Time = int

  datatype Kind = PositionOpened | PartialExited | PositionClosed | PositionChanged | OtherKind(name: string)

  /** A JSON field read with a default: the key may be missing, or hold null, or a number. */
  datatype Field = Missing | Given(value: Option<int>)

  datatype Payload = Payload(
    ticker: string, action: string, qty: Field, entry: Option<real>, stop: Option<real>,
    target: Option<real>, half: Option<real>, pnl: Option<real>)

  datatype Event = Event(
    id: Id, sequence: nat, kind: Kind, aggregateType: string, aggregate: string, version: nat, time: Time, payload: Payload)

  function PositionId(ticker: string): string { "position_" + ticker }

  function OfAggregate(a: string): Event -> bool { (e: Event) => e.aggregate == a }

  function Visible(at: Time): Event -> bool { (e: Event) => e.aggregateType == "Position" && e.time <= at }

  // ------------------------------------------------------------------ what the subscriber writes

  /** A position snapshot; a price of zero counts as no price. */
  datatype Snap = Snap(qty: int, entry: real, stop: Option<real>, target: Option<real>, half: Option<real>)

  /** A POSITION event of the bus: without a snapshot, quantity and entry come from the close detail. */
  datatype Signal = Signal(
    id: Id, time: Time, ticker: string, action: string, snap: Option<Snap>,
    detailQty: Option<int>, detailEntry: Option<real>, pnl: Option<real>)

  function Nonzero(x: Option<real>): Option<real> { if x == Some(0.0) then None else x }

  function KindOf(action: string): Kind {
    if action == "OPENED" then PositionOpened
    else if action == "PARTIAL_EXIT" then PartialExited
    else if action == "CLOSED" then PositionClosed
    else PositionChanged
  }

  function PayloadOf(p: Signal): Payload {
    match p.snap
    case Some(s) => Payload(p.ticker, p.action, Given(Some(s.qty)), Some(s.entry), Nonzero(s.stop), Nonzero(s.target), Nonzero(s.half), p.pnl)
    case None => Payload(p.ticker, p.action, Given(p.detailQty), p.detailEntry, None, None, None, p.pnl)
  }

  /** The shape `_on_position` gives its events; no other handler uses its aggregates. */
  predicate Shaped(e: Event) {
    if e.aggregateType == "Position" then
      e.aggregate == PositionId(e.payload.ticker) && e.kind == KindOf(e.payload.action) && e.payload.qty.Given?
    else !("position_" <= e.aggregate)
  }

  predicate ShapedLog(log: seq<Event>) { forall i | 0 <= i < |log| :: Shaped(log[i]) }

  // ------------------------------------------------------------------ the replay of the projection

  /** The `position_state` dict, and a row of the table of that name. */
  datatype State = State(
    positionId: Id, action: string, qty: Option<int>, entry: Option<real>, stop: Option<real>,
    target1: Option<real>, target2: Option<real>, unrealised: Option<real>, openedId: Id, modifiedId: Id, modified: Time)

  function QtyOr(f: Field, default: Option<int>): Option<int> { if f.Missing? then default else f.value }

  function Apply(s: Option<State>, e: Event): Option<State> {
    var p := e.payload;
    match e.kind
    case PositionOpened =>
      Some(State(e.id, p.action, QtyOr(p.qty, None), p.entry, p.stop, p.target, p.half, None, e.id, e.id, e.time))
    case PartialExited =>
      if s.None? then s
      else Some(s.value.(qty := QtyOr(p.qty, None), unrealised := p.pnl, modifiedId := e.id, modified := e.time))
    case PositionClosed =>
      if s.None? then s else Some(s.value.(action := "CLOSED", modifiedId := e.id, modified := e.time))
    case _ => s
  }

  function Replayed(events: seq<Event>): Option<State> {
    if events == [] then None else Apply(Replayed(events[..|events| - 1]), events[|events| - 1])
  }

  function StateOf(log: seq<Event>, t: string): Option<State> { Replayed(Filter(OfAggregate(PositionId(t)), log)) }

  type Table = map<string, State>

  /** The final upsert or delete; a conflict keeps the ids of the row that is already there. */
  function Store(table: Table, t: string, s: Option<State>): Table {
    if s.None? then table
    else if s.value.action == "CLOSED" then table - {t}
    else if t in table then table[t := s.value.(positionId := table[t].positionId, openedId := table[t].openedId)]
    else table[t := s.value]
  }

  function Rebuild(table: Table, log: seq<Event>, t: string): Table { Store(table, t, StateOf(log, t)) }

  /** The events that change a state once there is one. */
  predicate Changes(e: Event) { e.kind.PositionOpened? || e.kind.PartialExited? || e.kind.PositionClosed? }

  /** A state names the latest of its events that opened, partly exited or closed. */
  lemma {:induction false} ModifiedLatest(events: seq<Event>)
    requires Replayed(events).Some?
    ensures exists i | 0 <= i < |events| ::
              && Changes(events[i]) && (forall j | i < j < |events| :: !Changes(events[j]))
              && Replayed(events).value.modifiedId == events[i].id && Replayed(events).value.modified == events[i].time
  {
    var front, e := events[..|events| - 1], events[|events| - 1];
    assert events == front + [e];
    if !Changes(e) {
      ModifiedLatest(front);
      var i :| 0 <= i < |front| && Changes(front[i]) && (forall j | i < j < |front| :: !Changes(front[j]))
               && Replayed(front).value.modifiedId == front[i].id && Replayed(front).value.modified == front[i].time;
      assert events[i] == front[i];
      assert forall j | i < j < |front| :: events[j] == front[j];
    }
  }

  // ------------------------------------------------------------------ the replay of the report

  datatype Status = OPEN | PARTIAL

  datatype Holding = Holding(
    ticker: string, qty: Option<int>, entry: Option<real>, stop: Option<real>, target: Option<real>,
    half: Option<real>, unrealised: Option<real>, status: Status)

  function Account(m: map<string, Holding>, e: Event): map<string, Holding> {
    var a, p := e.aggregate, e.payload;
    match e.kind
    case PositionOpened => m[a := Holding(p.ticker, QtyOr(p.qty, None), p.entry, p.stop, p.target, p.half, None, OPEN)]
    case PartialExited =>
      if a in m then m[a := m[a].(qty := QtyOr(p.qty, m[a].qty), unrealised := p.pnl, status := PARTIAL)] else m
    case PositionClosed => m - {a}
    case _ => m
  }

  function Positions(rows: seq<Event>): map<string, Holding> {
    if rows == [] then map[] else Account(Positions(rows[..|rows| - 1]), rows[|rows| - 1])
  }

  function PositionsAt(log: seq<Event>, at: Time): map<string, Holding> { Positions(Filter(Visible(at), log)) }

  // ------------------------------------------------------------------ the two replays agree

  /** The dict of one fold and an entry of the other describe the same position, or both say closed. */
  predicate Agree(s: Option<State>, m: map<string, Holding>, a: string) {
    && (a in m <==> (s.Some? && s.value.action != "CLOSED"))
    && (a in m ==>
          && s.value.qty == m[a].qty && s.value.entry == m[a].entry && s.value.stop == m[a].stop
          && s.value.target1 == m[a].target && s.value.target2 == m[a].half && s.value.unrealised == m[a].unrealised)
  }

  lemma StepAgrees(s: Option<State>, m: map<string, Holding>, e: Event)
    requires Shaped(e) && e.aggregateType == "Position" && Agree(s, m, e.aggregate)
    ensures Agree(Apply(s, e), Account(m, e), e.aggregate)
  {
  }

  lemma {:induction false} FoldsAgree(rows: seq<Event>, a: string)
    requires forall i | 0 <= i < |rows| :: Shaped(rows[i]) && rows[i].aggregateType == "Position"
    ensures Agree(Replayed(Filter(OfAggregate(a), rows)), Positions(rows), a)
  {
    if rows != [] {
      var front, e := rows[..|rows| - 1], rows[|rows| - 1];
      FoldsAgree(front, a);
      if e.aggregate == a {
        StepAgrees(Replayed(Filter(OfAggregate(a), front)), Positions(front), e);
        AddedLast(Filter(OfAggregate(a), front), e);
      }
    }
  }

  lemma AddedLast(events: seq<Event>, e: Event)
    ensures Replayed(events + [e]) == Apply(Replayed(events), e)
  {
  }

  /** What the report sees by the end of the log is what the projection selects for the ticker. */
  lemma {:induction false} SameEvents(log: seq<Event>, a: string, at: Time)
    requires ShapedLog(log) && "position_" <= a && forall i | 0 <= i < |log| :: log[i].time <= at
    ensures Filter(OfAggregate(a), Filter(Visible(at), log)) == Filter(OfAggregate(a), log)
    ensures var w := Filter(Visible(at), log);
            forall i | 0 <= i < |w| :: Shaped(w[i]) && w[i].aggregateType == "Position"
  {
    if log != [] {
      var front, e := log[..|log| - 1], log[|log| - 1];
      SameEvents(front, a, at);
      FilterOne(OfAggregate(a), Filter(Visible(at), front), e);
    }
  }

  lemma StatesAgree(log: seq<Event>, t: string, at: Time)
    requires ShapedLog(log) && forall i | 0 <= i < |log| :: log[i].time <= at
    ensures Agree(StateOf(log, t), PositionsAt(log, at), PositionId(t))
  {
    SameEvents(log, PositionId(t), at);
    FoldsAgree(Filter(Visible(at), log), PositionId(t));
  }

  /** Events after the moment asked about, and events of other aggregates, do not change the report. */
  lemma LaterIgnored(log: seq<Event>, e: Event, at: Time)
    requires e.time > at || e.aggregateType != "Position"
    ensures PositionsAt(log + [e], at) == PositionsAt(log, at)
  {
    FilterOne(Visible(at), log, e);
  }

  // ------------------------------------------------------------------ runs of events and rebuilds

  datatype Sys = Sys(log: seq<Event>, table: Table)

  /** Between events, the projection of any ticker may be rebuilt at any time. */
  datatype Act = Emit(event: Event) | RebuildTicker(ticker: string)

  function Do(s: Sys, a: Act): Sys {
    match a
    case Emit(e) => s.(log := s.log + [e])
    case RebuildTicker(t) => s.(table := Rebuild(s.table, s.log, t))
  }

  function Run(s: Sys, run: seq<Act>): Sys {
    if run == [] then s else Do(Run(s, run[..|run| - 1]), run[|run| - 1])
  }

  /** A ticker with a row has been opened at some time. */
  predicate Grounded(s: Sys, t: string) { t in s.table ==> StateOf(s.log, t).Some? }

  lemma StateStep(log: seq<Event>, e: Event, t: string)
    ensures StateOf(log + [e], t) == if e.aggregate == PositionId(t) then Apply(StateOf(log, t), e) else StateOf(log, t)
  {
  }

  lemma {:induction false} RunGrounded(run: seq<Act>, t: string)
    ensures Grounded(Run(Sys([], map[]), run), t)
  {
    if run != [] {
      var s, a := Run(Sys([], map[]), run[..|run| - 1]), run[|run| - 1];
      RunGrounded(run[..|run| - 1], t);
      if a.Emit? { StateStep(s.log, a.event, t); }
    }
  }

  /** The row of a ticker and its entry in the report say the same. */
  predicate RowAgrees(table: Table, m: map<string, Holding>, t: string) {
    (t in table <==> PositionId(t) in m) && Agree(if t in table then Some(table[t]) else None, m, PositionId(t))
  }

  lemma StoredAgrees(s: Sys, t: string, m: map<string, Holding>)
    requires Grounded(s, t) && Agree(StateOf(s.log, t), m, PositionId(t))
    ensures RowAgrees(Rebuild(s.table, s.log, t), m, t)
    ensures Rebuild(Rebuild(s.table, s.log, t), s.log, t) == Rebuild(s.table, s.log, t)
  {
  }

  /** The two replays agree: after any events and rebuilds from an empty table, rebuilding a ticker
    * leaves a row if and only if the report holds the position, with the same quantity, prices and
    * P&L; rebuilding once more changes nothing. */
  lemma ReplaysAgree(run: seq<Act>, t: string, at: Time)
    requires var log := Run(Sys([], map[]), run).log;
             ShapedLog(log) && forall i | 0 <= i < |log| :: log[i].time <= at
    ensures var s := Run(Sys([], map[]), run);
            var table := Rebuild(s.table, s.log, t);
            RowAgrees(table, PositionsAt(s.log, at), t) && Rebuild(table, s.log, t) == table
  {
    var s := Run(Sys([], map[]), run);
    RunGrounded(run, t);
    StatesAgree(s.log, t, at);
    StoredAgrees(s, t, PositionsAt(s.log, at));
  }

  /** The agreement needs the `qty` key: on a partial exit without it one fold keeps the old
    * quantity and the other forgets it. */
  lemma MissingQtyDisagrees(t: string, q: int)
    ensures var p := Payload(t, "OPENED", Given(Some(q)), None, None, None, None, None);
            var opening := Event(1, 1, PositionOpened, "Position", PositionId(t), 1, 0, p);
            var exit := Event(2, 2, PartialExited, "Position", PositionId(t), 2, 0, p.(action := "PARTIAL_EXIT", qty := Missing));
            var log := [opening, exit];
            && StateOf(log, t).Some? && StateOf(log, t).value.qty == None
            && PositionId(t) in PositionsAt(log, 0) && PositionsAt(log, 0)[PositionId(t)].qty == Some(q)
  {
    var p := Payload(t, "OPENED", Given(Some(q)), None, None, None, None, None);
    var opening := Event(1, 1, PositionOpened, "Position", PositionId(t), 1, 0, p);
    var exit := Event(2, 2, PartialExited, "Position", PositionId(t), 2, 0, p.(action := "PARTIAL_EXIT", qty := Missing));
    FilterAll(OfAggregate(PositionId(t)), [opening, exit]);
    FilterAll(Visible(0), [opening, exit]);
    assert [opening, exit][..1] == [opening] && [opening][..0] == [];
    assert Replayed([opening]) == Apply(None, opening) && Positions([opening]) == Account(map[], opening);
  }

  // ------------------------------------------------------------------ whose ids a row carries

  /** The position's ids in a row are those of the event that opened the position it describes. */
  predicate Current(table: Table, log: seq<Event>, t: string) {
    && t in table && StateOf(log, t).Some?
    && table[t].openedId == StateOf(log, t).value.openedId && table[t].positionId == StateOf(log, t).value.positionId
  }

  predicate Opens(e: Event, t: string) { e.aggregate == PositionId(t) && e.kind.PositionOpened? }

  predicate NoReopening(more: seq<Event>, t: string) {
    forall i | 0 <= i < |more| :: !Opens(more[i], t)
  }

  /** The state's opening id is that of the latest opening of the ticker among later events, if any. */
  lemma {:induction false} OpenedIdAfter(log: seq<Event>, more: seq<Event>, t: string)
    requires StateOf(log, t).Some?
    ensures StateOf(log + more, t).Some?
    ensures var id := StateOf(log + more, t).value.openedId;
            if NoReopening(more, t) then id == StateOf(log, t).value.openedId
            else exists i :: 0 <= i < |more| && more[i].id == id
  {
    if more == [] {
      assert log + more == log;
    } else {
      var front, e := more[..|more| - 1], more[|more| - 1];
      assert log + more == log + front + [e];
      OpenedIdAfter(log, front, t);
      StateStep(log + front, e, t);
      assert NoReopening(more, t) <==> NoReopening(front, t) && NoReopening([e], t) by { assert more == front + [e]; }
    }
  }

  /** The opening id of a replayed state is the id of one of its events. */
  lemma {:induction false} OpenedIdKnown(log: seq<Event>, t: string)
    requires StateOf(log, t).Some?
    ensures exists i :: 0 <= i < |log| && log[i].id == StateOf(log, t).value.openedId
  {
    var front, e := log[..|log| - 1], log[|log| - 1];
    assert log == front + [e];
    StateStep(front, e, t);
    if StateOf(front, t).Some? {
      OpenedIdKnown(front, t);
      var i :| 0 <= i < |front| && front[i].id == StateOf(front, t).value.openedId;
      assert log[i].id == front[i].id;
    }
    assert log[|log| - 1].id == e.id;
  }

  /** A replayed state carries one id twice, that of the event that opened it. */
  lemma {:induction false} OneId(events: seq<Event>)
    ensures Replayed(events).Some? ==> Replayed(events).value.positionId == Replayed(events).value.openedId
  {
    if events != [] { OneId(events[..|events| - 1]); }
  }

  /** A row outlives a position that closes and reopens between two rebuilds, with the old ids: a row
    * that was current still is after the next rebuild if and only if nothing reopened in between. */
  lemma StaleExact(table: Table, log: seq<Event>, more: seq<Event>, t: string)
    requires Current(table, log, t) && t in Rebuild(table, log + more, t)
    requires forall i, j | 0 <= i < |log| && 0 <= j < |more| :: log[i].id != more[j].id
    ensures Current(Rebuild(table, log + more, t), log + more, t) <==> NoReopening(more, t)
  {
    OneId(Filter(OfAggregate(PositionId(t)), log));
    OneId(Filter(OfAggregate(PositionId(t)), log + more));
    OpenedIdAfter(log, more, t);
    OpenedIdKnown(log, t);
    var i :| 0 <= i < |log| && log[i].id == StateOf(log, t).value.openedId;
    var id := StateOf(log + more, t).value.openedId;
    if !NoReopening(more, t) {
      var j :| 0 <= j < |more| && more[j].id == id;
      assert log[i].id != more[j].id;
    }
  }

  /** The ticker was opened again after its row was inserted. */
  predicate Reopened(run: seq<Act>, t: string) {
    run != [] && (
      var front, a := run[..|run| - 1], run[|run| - 1];
      match a
      case Emit(e) => Reopened(front, t) || Opens(e, t)
      case RebuildTicker(u) => Reopened(front, t) && (u != t || t in Run(Sys([], map[]), front).table))
  }

  /** What holds of a ticker's row at any point of a run: its ids are one known event's, and they are
    * those of the latest opening unless there was a later one. */
  ghost predicate Traced(s: Sys, t: string, reopened: bool) {
    t in s.table ==>
      && StateOf(s.log, t).Some? && s.table[t].positionId == s.table[t].openedId
      && (exists i :: 0 <= i < |s.log| && s.log[i].id == s.table[t].openedId)
      && (s.table[t].openedId == StateOf(s.log, t).value.openedId <==> !reopened)
  }

  lemma EmitTraced(s: Sys, e: Event, t: string, reopened: bool)
    requires Traced(s, t, reopened) && forall i | 0 <= i < |s.log| :: s.log[i].id != e.id
    ensures Traced(Do(s, Emit(e)), t, reopened || Opens(e, t))
  {
    StateStep(s.log, e, t);
    if t in s.table {
      var i :| 0 <= i < |s.log| && s.log[i].id == s.table[t].openedId;
      assert (s.log + [e])[i] == s.log[i];
    }
  }

  lemma RebuildTraced(s: Sys, u: string, t: string, reopened: bool)
    requires Traced(s, t, reopened)
    ensures Traced(Do(s, RebuildTicker(u)), t, reopened && (u != t || t in s.table))
  {
    if u == t && StateOf(s.log, t).Some? {
      OneId(Filter(OfAggregate(PositionId(t)), s.log));
      OpenedIdKnown(s.log, t);
    }
  }

  predicate DistinctIds(log: seq<Event>) { forall i, j | 0 <= i < j < |log| :: log[i].id != log[j].id }

  lemma DistinctFront(log: seq<Event>, e: Event)
    requires DistinctIds(log + [e])
    ensures DistinctIds(log) && forall i | 0 <= i < |log| :: log[i].id != e.id
  {
    var all := log + [e];
    assert forall i | 0 <= i < |log| :: all[i] == log[i] && all[i].id != all[|log|].id;
  }

  lemma {:induction false} RunTraced(run: seq<Act>, t: string)
    requires DistinctIds(Run(Sys([], map[]), run).log)
    ensures Traced(Run(Sys([], map[]), run), t, Reopened(run, t))
  {
    if run != [] {
      var front, a := run[..|run| - 1], run[|run| - 1];
      var s := Run(Sys([], map[]), front);
      if a.Emit? { DistinctFront(s.log, a.event); }
      RunTraced(front, t);
      match a {
        case Emit(x) => EmitTraced(s, x, t, Reopened(front, t));
        case RebuildTicker(u) => RebuildTraced(s, u, t, Reopened(front, t));
      }
    }
  }

  /** Over every run from an empty table, with distinct event ids: a row carries the ids of its ticker's
    * latest opening if and only if the ticker was not opened again since the row was inserted. */
  lemma RowIdsExact(run: seq<Act>, t: string)
    requires var s := Run(Sys([], map[]), run); DistinctIds(s.log) && t in s.table
    ensures var s := Run(Sys([], map[]), run); Current(s.table, s.log, t) <==> !Reopened(run, t)
  {
    RunTraced(run, t);
    OneId(Filter(OfAggregate(PositionId(t)), Run(Sys([], map[]), run).log));
  }

  lemma RunLast(s: Sys, front: seq<Act>, a: Act)
    ensures Run(s, front + [a]) == Do(Run(s, front), a)
  {
    assert (front + [a])[..|front|] == front;
  }

  lemma RunFive(s: Sys, a: Act, b: Act, c: Act, d: Act, e: Act)
    ensures Run(s, [a, b, c, d, e]) == Do(Do(Do(Do(Do(s, a), b), c), d), e)
  {
    RunLast(s, [], a);
    RunLast(s, [a], b);
    RunLast(s, [a, b], c);
    RunLast(s, [a, b, c], d);
    RunLast(s, [a, b, c, d], e);
    assert [] + [a] == [a] && [a] + [b] == [a, b] && [a, b] + [c] == [a, b, c];
    assert [a, b, c] + [d] == [a, b, c, d] && [a, b, c, d] + [e] == [a, b, c, d, e];
  }

  lemma EmitState(s: Sys, e: Event, t: string)
    requires e.aggregate == PositionId(t)
    ensures StateOf(Do(s, Emit(e)).log, t) == Apply(StateOf(s.log, t), e) && Do(s, Emit(e)).table == s.table
  {
    StateStep(s.log, e, t);
  }

  /** A position opens and is projected, closes, and another opens before the next rebuild: the row then
    * describes the second position and carries the id of the first. */
  lemma StaleRow(s: Sys, t: string, opening: Event, closing: Event, reopening: Event)
    requires t !in s.table && StateOf(s.log, t).None?
    requires opening.aggregate == closing.aggregate == reopening.aggregate == PositionId(t)
    requires opening.kind == reopening.kind == PositionOpened && closing.kind == PositionClosed
    requires opening.payload.action == reopening.payload.action == "OPENED" && opening.id != reopening.id
    ensures var e := Run(s, [Emit(opening), RebuildTicker(t), Emit(closing), Emit(reopening), RebuildTicker(t)]);
            && t in e.table && e.table[t].modifiedId == reopening.id && e.table[t].openedId == opening.id
            && !Current(e.table, e.log, t)
  {
    RunFive(s, Emit(opening), RebuildTicker(t), Emit(closing), Emit(reopening), RebuildTicker(t));
    EmitState(s, opening, t);
    var s2 := Do(Do(s, Emit(opening)), RebuildTicker(t));
    EmitState(s2, closing, t);
    EmitState(Do(s2, Emit(closing)), reopening, t);
  }

  // ------------------------------------------------------------------ the three objects

  /** Sequence numbers grow, and so do the versions within each aggregate. */
  predicate Numbered(log: seq<Event>) {
    && (forall i, j | 0 <= i < j < |log| :: log[i].sequence < log[j].sequence)
    && forall i, j | 0 <= i < j < |log| && log[i].aggregate == log[j].aggregate :: log[i].version < log[j].version
  }

  function VersionOf(versions: map<string, nat>, a: string): nat { if a in versions then versions[a] else 0 }

  /** The counters have reached every number in the log. */
  predicate Reached(log: seq<Event>, seqNo: nat, versions: map<string, nat>) {
    forall i | 0 <= i < |log| :: 1 <= log[i].sequence <= seqNo && 1 <= log[i].version <= VersionOf(versions, log[i].aggregate)
  }

  lemma {:induction false} SequenceLow(log: seq<Event>, seqNo: nat, versions: map<string, nat>, i: nat)
    requires Numbered(log) && Reached(log, seqNo, versions) && i < |log|
    ensures i + 1 <= log[i].sequence
  {
    if i > 0 { SequenceLow(log, seqNo, versions, i - 1); }
  }

  lemma {:induction false} SequenceHigh(log: seq<Event>, seqNo: nat, versions: map<string, nat>, i: nat)
    requires Numbered(log) && Reached(log, seqNo, versions) && i < |log|
    ensures log[i].sequence <= seqNo - (|log| - 1 - i)
    decreases |log| - i
  {
    if i < |log| - 1 { SequenceHigh(log, seqNo, versions, i + 1); }
  }

  /** Sequence numbers have no gaps, up to the counter, if and only if the log has as many events as the
    * counter says: a call that fails to build its row uses its number up. */
  lemma GaplessExact(log: seq<Event>, seqNo: nat, versions: map<string, nat>)
    requires Numbered(log) && Reached(log, seqNo, versions)
    ensures |log| <= seqNo
    ensures |log| == seqNo <==> forall n | 1 <= n <= seqNo :: Occurs(log, n)
  {
    forall i | 0 <= i < |log| ensures i + 1 <= log[i].sequence <= seqNo - (|log| - 1 - i) {
      SequenceLow(log, seqNo, versions, i);
      SequenceHigh(log, seqNo, versions, i);
    }
    if log != [] { assert log[0].sequence <= seqNo - (|log| - 1); }
    if |log| == seqNo {
      forall n | 1 <= n <= seqNo ensures Occurs(log, n) {
        assert log[n - 1].sequence == n;
      }
    } else if forall n | 1 <= n <= seqNo :: Occurs(log, n) {
      NumbersFit(log, seqNo);
    }
  }

  predicate Occurs(log: seq<Event>, n: nat) { exists i | 0 <= i < |log| :: log[i].sequence == n }

  /** If every number up to `n` occurs in a numbered log, the event numbered `n` has at least n - 1 before
    * it, so the log has at least `n` events. */
  lemma {:induction false} NumbersFit(log: seq<Event>, n: nat)
    requires Numbered(log) && forall m | 1 <= m <= n :: Occurs(log, m)
    ensures n <= |log| && forall i | 0 <= i < |log| && log[i].sequence == n && n > 0 :: n <= i + 1
  {
    if n > 0 {
      NumbersFit(log, n - 1);
      assert Occurs(log, n);
      var i :| 0 <= i < |log| && log[i].sequence == n;
      if n > 1 {
        assert Occurs(log, n - 1);
        var j :| 0 <= j < |log| && log[j].sequence == n - 1;
        assert j < i;
      }
    }
  }

  function OfPositions(): Event -> bool { (e: Event) => e.aggregateType == "Position" }

  /** The position events of a log are those of some signals, in order. */
  predicate Records(rows: seq<Event>, signals: seq<Signal>) {
    |rows| == |signals| && forall i | 0 <= i < |rows| :: Recorded(rows[i], signals[i])
  }

  predicate Recorded(e: Event, p: Signal) {
    && e.id == p.id && e.time == p.time && e.kind == KindOf(p.action) && e.payload == PayloadOf(p)
    && e.aggregateType == "Position" && e.aggregate == PositionId(p.ticker)
  }

  lemma OtherRecorded(log: seq<Event>, signals: seq<Signal>, e: Event)
    requires Records(Filter(OfPositions(), log), signals) && e.aggregateType != "Position"
    ensures Records(Filter(OfPositions(), log + [e]), signals)
  {
    FilterOne(OfPositions(), log, e);
  }

  lemma NumberedOne(log: seq<Event>, e: Event, seqNo: nat, versions: map<string, nat>)
    requires Numbered(log) && Reached(log, seqNo, versions)
    requires e.sequence == seqNo + 1 && e.version == VersionOf(versions, e.aggregate) + 1
    ensures Numbered(log + [e]) && Reached(log + [e], seqNo + 1, versions[e.aggregate := e.version])
    ensures Reached(log, seqNo + 1, versions[e.aggregate := e.version])
  {
  }

  lemma RecordedOne(log: seq<Event>, signals: seq<Signal>, e: Event, p: Signal)
    requires Records(Filter(OfPositions(), log), signals) && ShapedLog(log) && Recorded(e, p)
    ensures Records(Filter(OfPositions(), log + [e]), signals + [p]) && ShapedLog(log + [e])
  {
    FilterOne(OfPositions(), log, e);
  }

  class EventSourcingSubscriber {
    var eventSeq: nat
    var aggregateVersions: map<string, nat>
    /** The rows enqueued for `event_store`, in order. */
    var log: seq<Event>
    /** The position signals among what they record. */
    ghost var signals: seq<Signal>

    ghost predicate Valid()
      reads this
    {
      Numbered(log) && Reached(log, eventSeq, aggregateVersions)
    }

    ghost predicate Told()
      reads this
    {
      Records(Filter(OfPositions(), log), signals)
    }

    constructor ()
      ensures Valid() && Told() && log == [] && signals == [] && eventSeq == 0 && aggregateVersions == map[]
    {
      eventSeq, aggregateVersions, log, signals := 0, map[], [], [];
    }

    /** `_write_event`: both numbers are taken first, so an event whose row cannot be built, which goes to
      * the fallback file, leaves a gap. */
    method WriteEvent(kind: Kind, aggregateType: string, aggregate: string, payload: Payload, id: Id, time: Time, builds: bool)
      requires Valid()
      modifies this`eventSeq, this`aggregateVersions, this`log
      ensures Valid() && eventSeq == old(eventSeq) + 1
      ensures aggregateVersions == old(aggregateVersions)[aggregate := VersionOf(old(aggregateVersions), aggregate) + 1]
      ensures log == old(log) + if builds then [Event(id, old(eventSeq) + 1, kind, aggregateType, aggregate,
                                                      VersionOf(old(aggregateVersions), aggregate) + 1, time, payload)] else []
    {
      eventSeq := eventSeq + 1;
      var version := VersionOf(aggregateVersions, aggregate) + 1;
      var e := Event(id, eventSeq, kind, aggregateType, aggregate, version, time, payload);
      NumberedOne(log, e, eventSeq - 1, aggregateVersions);
      aggregateVersions := aggregateVersions[aggregate := version];
      if builds { log := log + [e]; }
    }

    method KindFor(action: string) returns (kind: Kind)
      ensures kind == KindOf(action)
    {
      kind :=
        if action == "OPENED" then PositionOpened
        else if action == "PARTIAL_EXIT" then PartialExited
        else if action == "CLOSED" then PositionClosed
        else PositionChanged;
    }

    method PayloadFor(p: Signal) returns (payload: Payload)
      ensures payload == PayloadOf(p)
    {
      var qty := if p.snap.Some? then Some(p.snap.value.qty) else p.detailQty;
      var entry := if p.snap.Some? then Some(p.snap.value.entry) else p.detailEntry;
      var stop := if p.snap.Some? then Nonzero(p.snap.value.stop) else None;
      var target := if p.snap.Some? then Nonzero(p.snap.value.target) else None;
      var half := if p.snap.Some? then Nonzero(p.snap.value.half) else None;
      payload := Payload(p.ticker, p.action, Given(qty), entry, stop, target, half, p.pnl);
    }

    /** `_on_position`: the event appended has the shape the replays rely on. */
    method OnPosition(p: Signal, builds: bool)
      requires Valid() && Told() && ShapedLog(log)
      modifies this
      ensures Valid() && Told() && ShapedLog(log)
      ensures signals == old(signals) + if builds then [p] else []
      ensures eventSeq == old(eventSeq) + 1
      ensures log == old(log) + if builds then [Event(p.id, old(eventSeq) + 1, KindOf(p.action), "Position", PositionId(p.ticker),
                                                      VersionOf(old(aggregateVersions), PositionId(p.ticker)) + 1, p.time, PayloadOf(p))] else []
    {
      var kind := KindFor(p.action);
      var payload := PayloadFor(p);
      ghost var was := log;
      WriteEvent(kind, "Position", PositionId(p.ticker), payload, p.id, p.time, builds);
      if builds {
        RecordedOne(was, signals, log[|was|], p);
        signals := signals + [p];
      } else {
        assert log == was;
      }
    }
  }

  class ProjectionBuilder {
    var eventStore: seq<Event>
    var positionState: Table
    var completedTrades: map<Id, Trade>

    /** `rebuild_position_state`: a loop over the ticker's events, then one upsert or delete. */
    method RebuildPositionState(ticker: string)
      modifies this`positionState
      ensures positionState == Rebuild(old(positionState), eventStore, ticker)
    {
      var events := Filter(OfAggregate(PositionId(ticker)), eventStore);
      var state: Option<State> := None;
      for i := 0 to |events|
        modifies {}
        invariant state == Replayed(events[..i])
      {
        assert events[..i + 1] == events[..i] + [events[i]];
        AddedLast(events[..i], events[i]);
        var e := events[i];
        var p := e.payload;
        if e.kind == PositionOpened {
          state := Some(State(e.id, p.action, QtyOr(p.qty, None), p.entry, p.stop, p.target, p.half, None, e.id, e.id, e.time));
        } else if e.kind == PartialExited {
          if state.Some? {
            state := Some(state.value.(qty := QtyOr(p.qty, None), unrealised := p.pnl, modifiedId := e.id, modified := e.time));
          }
        } else if e.kind == PositionClosed {
          if state.Some? {
            state := Some(state.value.(action := "CLOSED", modifiedId := e.id, modified := e.time));
          }
        }
      }
      assert events[..|events|] == events;
      if state.Some? && state.value.action != "CLOSED" {
        var row := state.value;
        if ticker in positionState {
          row := row.(positionId := positionState[ticker].positionId, openedId := positionState[ticker].openedId);
        }
        positionState := positionState[ticker := row];
      } else if state.Some? {
        positionState := positionState - {ticker};
      }
    }

    /** `rebuild_completed_trades`: the matched pairs, in whatever order the query returns them; a
      * closing without P&L raises, and the rows before it stay inserted. */
    method RebuildCompletedTrades(rows: seq<Trade>) returns (ok: bool)
      requires forall x :: x in rows <==> x in TradesOf(eventStore)
      modifies this`completedTrades
      ensures ok <==> forall x :: x in rows ==> x.pnl.Some?
      ensures ok ==> completedTrades == InsertAll(old(completedTrades), rows)
      ensures !ok ==> exists k | 0 <= k < |rows| :: rows[k].pnl.None? && completedTrades == InsertAll(old(completedTrades), rows[..k])
    {
      ghost var was := completedTrades;
      for i := 0 to |rows|
        invariant completedTrades == InsertAll(was, rows[..i])
        invariant forall k | 0 <= k < i :: rows[k].pnl.Some?
      {
        if rows[i].pnl.None? { return false; }
        assert rows[..i + 1][..i] == rows[..i];
        if rows[i].closedId !in completedTrades {
          completedTrades := completedTrades[rows[i].closedId := rows[i]];
        }
      }
      assert rows[..|rows|] == rows;
      return true;
    }
  }

  class ComplianceReporter {
    /** `positions_at`: every position it keeps is open or partly exited, so none is dropped at the end. */
    method ReportPositions(log: seq<Event>, at: Time) returns (positions: map<string, Holding>)
      ensures positions == PositionsAt(log, at)
    {
      var rows := Filter(Visible(at), log);
      positions := map[];
      for i := 0 to |rows|
        invariant positions == Positions(rows[..i])
      {
        assert rows[..i + 1][..i] == rows[..i];
        var e := rows[i];
        var a, p := e.aggregate, e.payload;
        if e.kind == PositionOpened {
          positions := positions[a := Holding(p.ticker, QtyOr(p.qty, None), p.entry, p.stop, p.target, p.half, None, OPEN)];
        } else if e.kind == PartialExited {
          if a in positions {
            positions := positions[a := positions[a].(qty := QtyOr(p.qty, positions[a].qty), unrealised := p.pnl, status := PARTIAL)];
          }
        } else if e.kind == PositionClosed {
          positions := positions - {a};
        }
      }
      assert rows[..|rows|] == rows;
    }
  }

  // ------------------------------------------------------------------ pairing opens with closes

  /** A completed trade: the two events it links, and what it copies from each. */
  datatype Trade = Trade(openedId: Id, closedId: Id, ticker: string, qty: Field, entry: Option<real>, pnl: Option<real>)

  function TradeOf(o: Event, c: Event): Trade {
    Trade(o.id, c.id, o.payload.ticker, o.payload.qty, o.payload.entry, c.payload.pnl)
  }

  /** The rows of the window: openings and closings of positions. */
  predicate IsEnd(e: Event) { e.aggregateType == "Position" && (e.kind == PositionOpened || e.kind == PositionClosed) }

  /** LAG over the aggregate: where the latest earlier opening or closing of the aggregate is. */
  function PrevEnd(log: seq<Event>, a: string, i: nat): (r: Option<nat>)
    requires i <= |log|
    ensures r.Some? ==> r.value < i && IsEnd(log[r.value]) && log[r.value].aggregate == a
    ensures r.Some? ==> forall k | r.value < k < i :: !(IsEnd(log[k]) && log[k].aggregate == a)
    ensures r.None? ==> forall k | 0 <= k < i :: !(IsEnd(log[k]) && log[k].aggregate == a)
  {
    if i == 0 then None
    else if IsEnd(log[i - 1]) && log[i - 1].aggregate == a then Some(i - 1)
    else PrevEnd(log, a, i - 1)
  }

  /** The join condition of the query, on event ids. */
  predicate Joins(log: seq<Event>, i: nat, j: nat)
    requires i < |log| && j < |log|
  {
    && IsEnd(log[i]) && IsEnd(log[j]) && log[i].aggregate == log[j].aggregate
    && log[i].kind == PositionOpened && log[j].kind == PositionClosed
    && var prev := PrevEnd(log, log[j].aggregate, j); prev.Some? && log[prev.value].id == log[i].id
  }

  /** With distinct ids the join pairs a close with the opening right before it in its aggregate. */
  lemma JoinsExactly(log: seq<Event>, i: nat, j: nat)
    requires i < |log| && j < |log| && DistinctIds(log)
    ensures Joins(log, i, j) <==>
            (IsEnd(log[j]) && log[j].kind == PositionClosed
             && PrevEnd(log, log[j].aggregate, j) == Some(i) && log[i].kind == PositionOpened)
  {
  }

  /** A matching: no opening and no closing is used by two completed trades. */
  lemma PairingIsMatching(log: seq<Event>, i: nat, j: nat, i': nat, j': nat)
    requires i < |log| && j < |log| && i' < |log| && j' < |log| && DistinctIds(log)
    requires Joins(log, i, j) && Joins(log, i', j')
    ensures i == i' <==> j == j'
    ensures i < j
  {
  }

  /** The trade that event `j` completes, if it does. */
  function PairAt(log: seq<Event>, j: nat): seq<Trade>
    requires j < |log|
  {
    var prev := PrevEnd(log, log[j].aggregate, j);
    if IsEnd(log[j]) && log[j].kind == PositionClosed && prev.Some? && log[prev.value].kind == PositionOpened then
      [TradeOf(log[prev.value], log[j])]
    else []
  }

  function TradesUpTo(log: seq<Event>, n: nat): seq<Trade>
    requires n <= |log|
  {
    if n == 0 then [] else TradesUpTo(log, n - 1) + PairAt(log, n - 1)
  }

  function TradesOf(log: seq<Event>): seq<Trade> { TradesUpTo(log, |log|) }

  lemma PairFound(log: seq<Event>, j: nat, x: Trade)
    requires j < |log| && DistinctIds(log)
    ensures x in PairAt(log, j) <==> exists i :: 0 <= i < |log| && Joins(log, i, j) && x == TradeOf(log[i], log[j])
  {
  }

  lemma {:induction false} TradesFound(log: seq<Event>, n: nat, x: Trade)
    requires n <= |log| && DistinctIds(log)
    ensures x in TradesUpTo(log, n) <==> exists i, j :: 0 <= i < |log| && 0 <= j < n && Joins(log, i, j) && x == TradeOf(log[i], log[j])
  {
    if n != 0 {
      TradesFound(log, n - 1, x);
      PairFound(log, n - 1, x);
    }
  }

  /** The trades are exactly the pairs of the query's join. */
  lemma TradesAreJoins(log: seq<Event>, x: Trade)
    requires DistinctIds(log)
    ensures x in TradesOf(log) <==> exists i, j :: 0 <= i < |log| && 0 <= j < |log| && Joins(log, i, j) && x == TradeOf(log[i], log[j])
  {
    TradesFound(log, |log|, x);
  }

  /** What a completed trade copies: identity, ticker, quantity and entry from the opening right before the
    * closing in its aggregate, and the P&L from the closing. */
  lemma TradeTerms(log: seq<Event>, x: Trade)
    requires DistinctIds(log) && x in TradesOf(log)
    ensures exists i, j :: 0 <= i < j < |log| && log[i].kind == PositionOpened && log[j].kind == PositionClosed
              && log[i].aggregate == log[j].aggregate && PrevEnd(log, log[j].aggregate, j) == Some(i)
              && x.openedId == log[i].id && x.closedId == log[j].id && x.ticker == log[i].payload.ticker
              && x.qty == log[i].payload.qty && x.entry == log[i].payload.entry && x.pnl == log[j].payload.pnl
  {
    TradesAreJoins(log, x);
    var i, j :| 0 <= i < |log| && 0 <= j < |log| && Joins(log, i, j) && x == TradeOf(log[i], log[j]);
    JoinsExactly(log, i, j);
  }

  // ------------------------------------------------------------------ counting

  predicate OpenAt(log: seq<Event>, a: string, n: nat)
    requires n <= |log|
  {
    var prev := PrevEnd(log, a, n); prev.Some? && log[prev.value].kind == PositionOpened
  }

  function Amount(x: Option<real>): real { if x.Some? then x.value else 0.0 }

  function TradeAmount(): Trade -> real { (x: Trade) => Amount(x.pnl) }

  /** What the first `n` events hold: openings, those of a position already open, closings with their
    * P&L, and of these the ones that close nothing. */
  datatype Tally = Tally(opens: nat, overwrites: nat, closes: nat, orphans: nat, pnl: real, orphanPnl: real)

  function Counted(log: seq<Event>, n: nat): Tally
    requires n <= |log|
  {
    if n == 0 then Tally(0, 0, 0, 0, 0.0, 0.0)
    else
      var c, e, filled := Counted(log, n - 1), log[n - 1], OpenAt(log, log[n - 1].aggregate, n - 1);
      if !IsEnd(e) then c
      else if e.kind == PositionOpened then
        c.(opens := c.opens + 1, overwrites := c.overwrites + if filled then 1 else 0)
      else
        c.(closes := c.closes + 1, orphans := c.orphans + (if filled then 0 else 1),
           pnl := c.pnl + Amount(e.payload.pnl), orphanPnl := c.orphanPnl + if filled then 0.0 else Amount(e.payload.pnl))
  }

  lemma ReportStep(log: seq<Event>, n: nat, at: Time)
    requires n < |log| && log[n].time <= at
    ensures PositionsAt(log[..n + 1], at)
         == if log[n].aggregateType == "Position" then Account(PositionsAt(log[..n], at), log[n]) else PositionsAt(log[..n], at)
  {
    var rows := Filter(Visible(at), log[..n]);
    assert log[..n + 1] == log[..n] + [log[n]];
    FilterOne(Visible(at), log[..n], log[n]);
    assert (rows + [log[n]])[..|rows|] == rows;
  }

  /** An aggregate is in the report if and only if its latest opening or closing is an opening. */
  lemma {:induction false} HeldIffOpen(log: seq<Event>, n: nat, at: Time, a: string)
    requires n <= |log| && forall i | 0 <= i < n :: log[i].time <= at
    ensures a in PositionsAt(log[..n], at) <==> OpenAt(log, a, n)
  {
    if n != 0 {
      HeldIffOpen(log, n - 1, at, a);
      ReportStep(log, n - 1, at);
    }
  }

  lemma AccountSize(m: map<string, Holding>, e: Event)
    ensures |Account(m, e)| == if e.kind == PositionOpened && e.aggregate !in m then |m| + 1
                               else if e.kind == PositionClosed && e.aggregate in m then |m| - 1 else |m|
  {
  }

  /** Every opening is in a trade, still open, or was overwritten by another opening. */
  lemma {:induction false} OpensAccounted(log: seq<Event>, n: nat, at: Time)
    requires n <= |log| && forall i | 0 <= i < n :: log[i].time <= at
    ensures Counted(log, n).opens == |TradesUpTo(log, n)| + |PositionsAt(log[..n], at)| + Counted(log, n).overwrites
  {
    if n != 0 {
      var e := log[n - 1];
      OpensAccounted(log, n - 1, at);
      ReportStep(log, n - 1, at);
      HeldIffOpen(log, n - 1, at, e.aggregate);
      AccountSize(PositionsAt(log[..n - 1], at), e);
    }
  }

  lemma ClosesStep(log: seq<Event>, j: nat)
    requires j < |log|
    ensures var c, d, e := Counted(log, j), Counted(log, j + 1), log[j];
            var closing, filled := IsEnd(e) && e.kind == PositionClosed, OpenAt(log, e.aggregate, j);
            && d.closes == c.closes + (if closing then 1 else 0)
            && d.orphans == c.orphans + (if closing && !filled then 1 else 0)
            && d.pnl == c.pnl + (if closing then Amount(e.payload.pnl) else 0.0)
            && d.orphanPnl == c.orphanPnl + if closing && !filled then Amount(e.payload.pnl) else 0.0
  {
  }

  lemma PairWeighs(log: seq<Event>, j: nat)
    requires j < |log|
    ensures var closes := IsEnd(log[j]) && log[j].kind == PositionClosed && OpenAt(log, log[j].aggregate, j);
            && |PairAt(log, j)| == (if closes then 1 else 0)
            && SumReal(TradeAmount(), PairAt(log, j)) == if closes then Amount(log[j].payload.pnl) else 0.0
  {
  }

  lemma {:induction false} ClosesCounted(log: seq<Event>, n: nat)
    requires n <= |log|
    ensures Counted(log, n).closes == |TradesUpTo(log, n)| + Counted(log, n).orphans
  {
    if n != 0 {
      ClosesCounted(log, n - 1);
      PairWeighs(log, n - 1);
      ClosesStep(log, n - 1);
    }
  }

  /** Every closing, with its P&L, is in a trade or closed nothing. */
  lemma {:induction false} ClosesAccounted(log: seq<Event>, n: nat)
    requires n <= |log|
    ensures var c := Counted(log, n);
            && c.closes == |TradesUpTo(log, n)| + c.orphans
            && c.pnl == SumReal(TradeAmount(), TradesUpTo(log, n)) + c.orphanPnl
  {
    ClosesCounted(log, n);
    if n != 0 {
      ClosesAccounted(log, n - 1);
      SumRealAppend(TradeAmount(), TradesUpTo(log, n - 1), PairAt(log, n - 1));
      PairWeighs(log, n - 1);
      ClosesStep(log, n - 1);
    }
  }

  /** Openings and closings alternate in each aggregate, starting with an opening. */
  predicate Alternates(log: seq<Event>) {
    forall j | 0 <= j < |log| && IsEnd(log[j]) :: log[j].kind == PositionOpened <==> !OpenAt(log, log[j].aggregate, j)
  }

  lemma {:induction false} AlternatingCounts(log: seq<Event>, n: nat)
    requires n <= |log| && Alternates(log)
    ensures Counted(log, n).overwrites == 0 && Counted(log, n).orphans == 0 && Counted(log, n).orphanPnl == 0.0
  {
    if n != 0 { AlternatingCounts(log, n - 1); }
  }

  /** On an alternating log the openings are the completed trades and the open positions, and the
    * trades' P&L is that of all closings. */
  lemma AlternatingAccounted(log: seq<Event>, at: Time)
    requires Alternates(log) && forall i | 0 <= i < |log| :: log[i].time <= at
    ensures Counted(log, |log|).opens == |TradesOf(log)| + |PositionsAt(log, at)|
    ensures SumReal(TradeAmount(), TradesOf(log)) == Counted(log, |log|).pnl
  {
    OpensAccounted(log, |log|, at);
    ClosesAccounted(log, |log|);
    AlternatingCounts(log, |log|);
    assert log[..|log|] == log;
  }

  // ------------------------------------------------------------------ rebuilding the trades

  /** INSERT … ON CONFLICT DO NOTHING, row by row. */
  function InsertAll(table: map<Id, Trade>, rows: seq<Trade>): map<Id, Trade> {
    if rows == [] then table
    else
      var m, x := InsertAll(table, rows[..|rows| - 1]), rows[|rows| - 1];
      if x.closedId in m then m else m[x.closedId := x]
  }

  /** No two different rows have the same key. */
  ghost predicate Keyed(rows: seq<Trade>) {
    forall x, y :: x in rows && y in rows && x.closedId == y.closedId ==> x == y
  }

  lemma {:induction false} Inserted(table: map<Id, Trade>, rows: seq<Trade>)
    requires Keyed(rows)
    ensures var m := InsertAll(table, rows);
            && (forall id :: id in table ==> id in m && m[id] == table[id])
            && (forall x :: x in rows ==> x.closedId in m && (x.closedId !in table ==> m[x.closedId] == x))
            && (forall id :: id in m && id !in table ==> m[id] in rows && m[id].closedId == id)
  {
    if rows != [] {
      var front := rows[..|rows| - 1];
      assert rows == front + [rows[|rows| - 1]];
      Inserted(table, front);
    }
  }

  lemma TradesKeyed(log: seq<Event>)
    requires DistinctIds(log)
    ensures Keyed(TradesOf(log))
  {
    forall x, y | x in TradesOf(log) && y in TradesOf(log) && x.closedId == y.closedId
      ensures x == y
    {
      TradesAreJoins(log, x);
      TradesAreJoins(log, y);
      var i, j :| 0 <= i < |log| && 0 <= j < |log| && Joins(log, i, j) && x == TradeOf(log[i], log[j]);
      var k, l :| 0 <= k < |log| && 0 <= l < |log| && Joins(log, k, l) && y == TradeOf(log[k], log[l]);
      assert j == l;
      PairingIsMatching(log, i, j, k, l);
    }
  }

  /** The order in which the query returns the trades does not matter. */
  lemma OrderIrrelevant(table: map<Id, Trade>, rows: seq<Trade>, rows': seq<Trade>)
    requires Keyed(rows) && forall x :: x in rows <==> x in rows'
    ensures InsertAll(table, rows) == InsertAll(table, rows')
  {
    Inserted(table, rows);
    Inserted(table, rows');
  }

  lemma {:induction false} PrevEndExtends(log: seq<Event>, more: seq<Event>, a: string, i: nat)
    requires i <= |log|
    ensures PrevEnd(log + more, a, i) == PrevEnd(log, a, i)
  {
    if i != 0 { PrevEndExtends(log, more, a, i - 1); }
  }

  lemma {:induction false} TradesExtend(log: seq<Event>, more: seq<Event>, n: nat)
    requires n <= |log|
    ensures TradesUpTo(log + more, n) == TradesUpTo(log, n)
  {
    if n != 0 {
      TradesExtend(log, more, n - 1);
      PrevEndExtends(log, more, log[n - 1].aggregate, n - 1);
    }
  }

  lemma {:induction false} TradesStay(log: seq<Event>, n: nat, m: nat)
    requires n <= m <= |log|
    ensures forall x :: x in TradesUpTo(log, n) ==> x in TradesUpTo(log, m)
  {
    if n < m { TradesStay(log, n, m - 1); }
  }

  lemma InsertedTwice(rows: seq<Trade>, rows': seq<Trade>)
    requires Keyed(rows') && forall x :: x in rows ==> x in rows'
    ensures InsertAll(InsertAll(map[], rows), rows') == InsertAll(map[], rows')
  {
    var first, once := InsertAll(map[], rows), InsertAll(map[], rows');
    Inserted(map[], rows);
    Inserted(map[], rows');
    Inserted(first, rows');
    var twice := InsertAll(first, rows');
    forall id ensures (id in twice <==> id in once) && (id in once ==> twice[id] == once[id]) {
      if id in first { assert first[id] in rows'; }
      if id in twice && id !in first { assert twice[id] in rows'; }
      if id in once { assert once[id] in rows'; }
    }
  }

  /** Rebuilding as the log grows ends with the table of a single rebuild from nothing, in any order
    * of rows; in particular a second rebuild changes nothing. */
  lemma IncrementalRebuild(log: seq<Event>, more: seq<Event>, rows: seq<Trade>, rows': seq<Trade>)
    requires DistinctIds(log + more)
    requires forall x :: x in rows <==> x in TradesOf(log)
    requires forall x :: x in rows' <==> x in TradesOf(log + more)
    ensures InsertAll(InsertAll(map[], rows), rows') == InsertAll(map[], rows')
  {
    var all := log + more;
    TradesKeyed(all);
    TradesExtend(log, more, |log|);
    TradesStay(all, |log|, |all|);
    InsertedTwice(rows, rows');
  }
}
