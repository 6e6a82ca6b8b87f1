/** db/writer.py: the batching writer, as the atomic sections between its await points.
  *
  * Any number of drains may be in flight (a stop can overlap the flush loop), and a stop cancels the
  * one it finds in the flush loop; the order theorem is
  * for runs in which a drain begins only when none is. */
module DbWriting {
  import opened Seqs

  type Table = string

  /** `number` is the position of the enqueue call that made the row. */
  datatype Row = Row(table: Table, number: nat)

  /** The locals of one `_drain`: rows of tables not yet tried, rows written, whether a table failed. */
  datatype Drain = Drain(pending: seq<Row>, written: nat, failed: bool)

  datatype Limits = Limits(batchMax: nat, queueMax: nat, threshold: nat, reset: real)

  /** `stored` and `lost` are the rows the database took and the rows dropped; `issued` all rows made;
    * `gone` the drains cancelled in flight; `results` how many rows each finished drain wrote. */
  datatype Writer = Writer(
    issued: seq<Row>, callbacks: seq<Row>, queue: seq<Row>, drains: seq<Drain>, gone: seq<Drain>,
    stored: seq<Row>, lost: seq<Row>, rowsWritten: nat, rowsDropped: nat, failures: nat, open: bool, openSince: real, results: seq<nat>)

  const INITIAL := Writer([], [], [], [], [], [], [], 0, 0, 0, false, 0.0, [])

  datatype Action =
    | Enqueue(table: Table, now: real, loopAlive: bool)
    | RunCallback
    | BeginDrain
    | TryTable(i: nat, table: Table, ok: bool)
    | FinishDrain(i: nat, now: real)
    | CancelDrain(i: nat)

  function OfTable(t: Table): Row -> bool { (r: Row) => r.table == t }

  function NotOfTable(t: Table): Row -> bool { (r: Row) => r.table != t }

  function Drop(w: Writer, rows: seq<Row>): Writer {
    w.(lost := w.lost + rows, rowsDropped := w.rowsDropped + |rows|)
  }

  function OnEnqueue(w: Writer, lim: Limits, t: Table, now: real, alive: bool): Writer {
    var row := Row(t, |w.issued|);
    var w1 := w.(issued := w.issued + [row]);
    if w.open && now - w.openSince < lim.reset then Drop(w1, [row])
    else
      var w2 := if w.open then w1.(open := false, failures := 0) else w1;
      if alive then w2.(callbacks := w2.callbacks + [row]) else Drop(w2, [row])
  }

  function OnCallback(w: Writer, lim: Limits): Writer {
    if w.callbacks == [] then w
    else
      var w1 := w.(callbacks := w.callbacks[1..]);
      if |w.queue| < lim.queueMax then w1.(queue := w.queue + [w.callbacks[0]]) else Drop(w1, [w.callbacks[0]])
  }

  function OnBegin(w: Writer, lim: Limits): Writer {
    var k := if |w.queue| < lim.batchMax then |w.queue| else lim.batchMax;
    if k == 0 then w else w.(queue := w.queue[k..], drains := w.drains + [Drain(w.queue[..k], 0, false)])
  }

  /** One table's rows of one batch: written in a statement of their own, or dropped together. */
  function OnTable(w: Writer, i: nat, t: Table, ok: bool): Writer {
    if i >= |w.drains| || Filter(OfTable(t), w.drains[i].pending) == [] then w
    else
      var d := w.drains[i];
      var rows, rest := Filter(OfTable(t), d.pending), Filter(NotOfTable(t), d.pending);
      if ok then w.(drains := w.drains[i := Drain(rest, d.written + |rows|, d.failed)], stored := w.stored + rows)
      else Drop(w.(drains := w.drains[i := Drain(rest, d.written, true)]), rows)
  }

  function OnFinish(w: Writer, lim: Limits, i: nat, now: real): Writer {
    if i >= |w.drains| || w.drains[i].pending != [] then w
    else
      var d := w.drains[i];
      var failures := (if d.written > 0 then 0 else w.failures) + if d.failed then 1 else 0;
      var opens := d.failed && failures >= lim.threshold;
      w.(drains := w.drains[..i] + w.drains[i + 1..], rowsWritten := w.rowsWritten + d.written,
         failures := failures, open := w.open || opens, openSince := if opens then now else w.openSince,
         results := w.results + [d.written])
  }

  /** A drain of the flush loop cancelled while it awaits an insert: the cancellation is no `Exception`,
    * so neither its remaining rows nor those it has written are counted anywhere. */
  function OnCancel(w: Writer, i: nat): Writer {
    if i >= |w.drains| then w
    else w.(drains := w.drains[..i] + w.drains[i + 1..], gone := w.gone + [w.drains[i]])
  }

  function Act(w: Writer, lim: Limits, a: Action): Writer {
    match a
    case Enqueue(t, now, alive) => OnEnqueue(w, lim, t, now, alive)
    case RunCallback => OnCallback(w, lim)
    case BeginDrain => OnBegin(w, lim)
    case TryTable(i, t, ok) => OnTable(w, i, t, ok)
    case FinishDrain(i, now) => OnFinish(w, lim, i, now)
    case CancelDrain(i) => OnCancel(w, i)
  }

  function Run(w: Writer, lim: Limits, run: seq<Action>): Writer
    decreases run
  {
    if run == [] then w else Run(Act(w, lim, run[0]), lim, run[1..])
  }

  // ------------------------------------------------------------------ conservation

  function PendingOf(f: Row -> int): Drain -> int { (d: Drain) => SumInt(f, d.pending) }

  function WrittenOf(): Drain -> int { (d: Drain) => d.written }

  /** However rows are weighed, those issued weigh what those in each place do together. */
  predicate Conserved(w: Writer, f: Row -> int) {
    SumInt(f, w.issued) == SumInt(f, w.callbacks) + SumInt(f, w.queue) + SumInt(PendingOf(f), w.drains)
                           + SumInt(PendingOf(f), w.gone) + SumInt(f, w.stored) + SumInt(f, w.lost)
  }

  /** The counters count what they say; rows written by a drain still in flight are not counted yet,
    * and those of a cancelled one never are. */
  predicate Counted(w: Writer) {
    && w.rowsDropped == |w.lost| && w.rowsWritten + SumInt(WrittenOf(), w.drains) + SumInt(WrittenOf(), w.gone) == |w.stored|
    && forall i | 0 <= i < |w.issued| :: w.issued[i].number == i
  }

  lemma IssueConserves(w: Writer, e: Writer, row: Row, f: Row -> int)
    requires Conserved(w, f) && e.queue == w.queue && e.drains == w.drains && e.gone == w.gone && e.stored == w.stored
    requires e.issued == w.issued + [row]
    requires (e.callbacks == w.callbacks && e.lost == w.lost + [row]) || (e.callbacks == w.callbacks + [row] && e.lost == w.lost)
    ensures Conserved(e, f)
  {
  }

  lemma EnqueueConserves(w: Writer, lim: Limits, t: Table, now: real, alive: bool, f: Row -> int)
    requires Conserved(w, f)
    ensures Conserved(OnEnqueue(w, lim, t, now, alive), f)
  {
    IssueConserves(w, OnEnqueue(w, lim, t, now, alive), Row(t, |w.issued|), f);
  }

  lemma PutConserves(w: Writer, e: Writer, f: Row -> int)
    requires Conserved(w, f) && e.issued == w.issued && e.drains == w.drains && e.gone == w.gone && e.stored == w.stored
    requires w.callbacks != [] && e.callbacks == w.callbacks[1..]
    requires (e.queue == w.queue + [w.callbacks[0]] && e.lost == w.lost) || (e.queue == w.queue && e.lost == w.lost + [w.callbacks[0]])
    ensures Conserved(e, f)
  {
    SumIntFront(f, w.callbacks);
    SumIntOne(f, w.queue, w.callbacks[0]);
    SumIntOne(f, w.lost, w.callbacks[0]);
  }

  lemma CallbackConserves(w: Writer, lim: Limits, f: Row -> int)
    requires Conserved(w, f)
    ensures Conserved(OnCallback(w, lim), f)
  {
    if w.callbacks != [] { PutConserves(w, OnCallback(w, lim), f); }
  }

  lemma BeginConserves(w: Writer, lim: Limits, f: Row -> int)
    requires Conserved(w, f)
    ensures Conserved(OnBegin(w, lim), f)
  {
    var k := if |w.queue| < lim.batchMax then |w.queue| else lim.batchMax;
    assert w.queue == w.queue[..k] + w.queue[k..];
    SumIntAppend(f, w.queue[..k], w.queue[k..]);
    SumIntOne(PendingOf(f), w.drains, Drain(w.queue[..k], 0, false));
  }

  lemma SwapDrain(g: Drain -> int, ds: seq<Drain>, i: nat, d: Drain)
    requires i < |ds|
    ensures SumInt(g, ds[i := d]) == SumInt(g, ds) - g(ds[i]) + g(d)
  {
    SumIntSwap(g, ds, i, [d]);
    SumIntOne(g, [], d);
    assert [] + [d] == [d] && ds[..i] + [d] + ds[i + 1..] == ds[i := d];
  }

  lemma TableConserves(w: Writer, i: nat, t: Table, ok: bool, f: Row -> int)
    requires Conserved(w, f)
    ensures Conserved(OnTable(w, i, t, ok), f)
  {
    if i < |w.drains| && Filter(OfTable(t), w.drains[i].pending) != [] {
      var d := w.drains[i];
      var rows := Filter(OfTable(t), d.pending);
      SumIntParts(f, OfTable(t), NotOfTable(t), d.pending);
      SwapDrain(PendingOf(f), w.drains, i, OnTable(w, i, t, ok).drains[i]);
      SumIntAppend(f, w.stored, rows);
      SumIntAppend(f, w.lost, rows);
    }
  }

  lemma FinishConserves(w: Writer, lim: Limits, i: nat, now: real, f: Row -> int)
    requires Conserved(w, f)
    ensures Conserved(OnFinish(w, lim, i, now), f)
  {
    if i < |w.drains| {
      SumIntSwap(PendingOf(f), w.drains, i, []);
      assert w.drains[..i] + [] + w.drains[i + 1..] == w.drains[..i] + w.drains[i + 1..];
    }
  }

  /** Cancelling moves a drain from those in flight to those gone. */
  lemma CancelMoves(w: Writer, i: nat, g: Drain -> int)
    ensures var e := OnCancel(w, i); SumInt(g, e.drains) + SumInt(g, e.gone) == SumInt(g, w.drains) + SumInt(g, w.gone)
  {
    if i < |w.drains| {
      SumIntSwap(g, w.drains, i, []);
      assert w.drains[..i] + [] + w.drains[i + 1..] == w.drains[..i] + w.drains[i + 1..];
      SumIntOne(g, w.gone, w.drains[i]);
    }
  }

  lemma CancelConserves(w: Writer, i: nat, f: Row -> int)
    requires Conserved(w, f)
    ensures Conserved(OnCancel(w, i), f)
  {
    CancelMoves(w, i, PendingOf(f));
  }

  lemma CancelCounts(w: Writer, i: nat)
    requires Counted(w)
    ensures Counted(OnCancel(w, i))
  {
    CancelMoves(w, i, WrittenOf());
  }

  lemma ActConserves(w: Writer, lim: Limits, a: Action, f: Row -> int)
    requires Conserved(w, f)
    ensures Conserved(Act(w, lim, a), f)
  {
    match a
    case Enqueue(t, now, alive) => EnqueueConserves(w, lim, t, now, alive, f);
    case RunCallback => CallbackConserves(w, lim, f);
    case BeginDrain => BeginConserves(w, lim, f);
    case TryTable(i, t, ok) => TableConserves(w, i, t, ok, f);
    case FinishDrain(i, now) => FinishConserves(w, lim, i, now, f);
    case CancelDrain(i) => CancelConserves(w, i, f);
  }

  lemma BeginCounts(w: Writer, lim: Limits)
    requires Counted(w)
    ensures Counted(OnBegin(w, lim))
  {
  }

  lemma TableCounts(w: Writer, i: nat, t: Table, ok: bool)
    requires Counted(w)
    ensures Counted(OnTable(w, i, t, ok))
  {
    var e := OnTable(w, i, t, ok);
    if e != w {
      SwapDrain(WrittenOf(), w.drains, i, e.drains[i]);
      assert e.drains == w.drains[i := e.drains[i]];
    }
  }

  lemma FinishCounts(w: Writer, lim: Limits, i: nat, now: real)
    requires Counted(w)
    ensures Counted(OnFinish(w, lim, i, now))
  {
    if i < |w.drains| {
      SumIntSwap(WrittenOf(), w.drains, i, []);
      assert w.drains[..i] + [] + w.drains[i + 1..] == w.drains[..i] + w.drains[i + 1..];
    }
  }

  lemma QueueCounts(w: Writer, lim: Limits, a: Action)
    requires Counted(w) && (a.Enqueue? || a.RunCallback?)
    ensures Counted(Act(w, lim, a))
  {
  }

  lemma ActCounts(w: Writer, lim: Limits, a: Action)
    requires Counted(w)
    ensures Counted(Act(w, lim, a))
  {
    match a
    case Enqueue(_, _, _) => QueueCounts(w, lim, a);
    case RunCallback => QueueCounts(w, lim, a);
    case BeginDrain => BeginCounts(w, lim);
    case TryTable(i, t, ok) => TableCounts(w, i, t, ok);
    case FinishDrain(i, now) => FinishCounts(w, lim, i, now);
    case CancelDrain(i) => CancelCounts(w, i);
  }

  lemma {:induction false} RunConserves(w: Writer, lim: Limits, run: seq<Action>, f: Row -> int)
    requires Conserved(w, f) && Counted(w)
    ensures Conserved(Run(w, lim, run), f) && Counted(Run(w, lim, run))
    decreases run
  {
    if run != [] {
      ActConserves(w, lim, run[0], f);
      ActCounts(w, lim, run[0]);
      RunConserves(Act(w, lim, run[0]), lim, run[1..], f);
    }
  }

  function Ones(): Row -> int { (r: Row) => 1 }

  function Is(r: Row): Row -> int { (x: Row) => if x == r then 1 else 0 }

  /** The rows of drains that no counter shows: those pending, and those written but not added up. */
  function Uncounted(ds: seq<Drain>): int { SumInt(PendingOf(Ones()), ds) + SumInt(WrittenOf(), ds) }

  lemma CallsCounted(w: Writer)
    requires Conserved(w, Ones()) && Counted(w)
    ensures |w.issued| == w.rowsWritten + w.rowsDropped + |w.queue| + |w.callbacks|
                          + Uncounted(w.drains) + Uncounted(w.gone)
  {
    OnesCount(w.issued);
    OnesCount(w.queue);
    OnesCount(w.callbacks);
    OnesCount(w.stored);
    OnesCount(w.lost);
  }

  lemma InitialConserved(f: Row -> int)
    ensures Conserved(INITIAL, f) && Counted(INITIAL)
  {
  }

  /** Count conservation: at every step of every run, each enqueue call is counted exactly once, if the
    * rows that cancelled drains held are added to what the writer can see. */
  lemma EveryCallCounted(lim: Limits, run: seq<Action>, w: Writer)
    requires w == Run(INITIAL, lim, run)
    ensures |w.issued| == w.rowsWritten + w.rowsDropped + |w.queue| + |w.callbacks|
                          + Uncounted(w.drains) + Uncounted(w.gone)
  {
    InitialConserved(Ones());
    RunConserves(INITIAL, lim, run, Ones());
    CallsCounted(w);
  }

  lemma {:induction false} OnesCount(s: seq<Row>)
    ensures SumInt(Ones(), s) == |s|
  {
    if s != [] { OnesCount(s[..|s| - 1]); }
  }

  lemma {:induction false} NumberedOnce(s: seq<Row>, r: Row)
    requires forall i | 0 <= i < |s| :: s[i].number == i
    ensures 0 <= SumInt(Is(r), s) <= if r.number < |s| then 1 else 0
  {
    if s != [] { NumberedOnce(s[..|s| - 1], r); }
  }

  lemma {:induction false} IsCount(s: seq<Row>, r: Row)
    ensures SumInt(Is(r), s) >= 0 && (r in s ==> SumInt(Is(r), s) >= 1)
  {
    if s != [] {
      IsCount(s[..|s| - 1], r);
      assert s == s[..|s| - 1] + [s[|s| - 1]];
    }
  }

  lemma {:induction false} IsPending(ds: seq<Drain>, r: Row)
    ensures SumInt(PendingOf(Is(r)), ds) >= 0
    ensures forall i | 0 <= i < |ds| && r in ds[i].pending :: SumInt(PendingOf(Is(r)), ds) >= 1
  {
    if ds != [] {
      IsPending(ds[..|ds| - 1], r);
      IsCount(ds[|ds| - 1].pending, r);
    }
  }

  /** Row `r` is written or dropped at most once, never both, and then is nowhere else. */
  predicate Once(w: Writer, r: Row) {
    && SumInt(Is(r), w.stored) + SumInt(Is(r), w.lost) <= 1
    && (r in w.stored || r in w.lost ==>
          && r.number < |w.issued| && r !in w.queue && r !in w.callbacks
          && (forall i | 0 <= i < |w.drains| :: r !in w.drains[i].pending)
          && forall i | 0 <= i < |w.gone| :: r !in w.gone[i].pending)
  }

  lemma ConservedOnce(w: Writer, r: Row)
    requires Conserved(w, Is(r)) && Counted(w)
    ensures Once(w, r)
  {
    NumberedOnce(w.issued, r);
    IsCount(w.callbacks, r);
    IsCount(w.queue, r);
    IsCount(w.stored, r);
    IsCount(w.lost, r);
    IsPending(w.drains, r);
    IsPending(w.gone, r);
  }

  lemma EveryRowOnce(lim: Limits, run: seq<Action>, r: Row)
    ensures Once(Run(INITIAL, lim, run), r)
  {
    InitialConserved(Is(r));
    RunConserves(INITIAL, lim, run, Is(r));
    ConservedOnce(Run(INITIAL, lim, run), r);
  }

  lemma {:induction false} UncountedNone(ds: seq<Drain>)
    ensures Uncounted(ds) >= 0
    ensures Uncounted(ds) == 0 <==> forall i | 0 <= i < |ds| :: ds[i].pending == [] && ds[i].written == 0
  {
    if ds != [] {
      UncountedNone(ds[..|ds| - 1]);
      OnesCount(ds[|ds| - 1].pending);
    }
  }

  /** Once nothing is scheduled, queued or in flight, the counters account for every enqueue call if and
    * only if no cancelled drain held a row. */
  lemma QuietExact(lim: Limits, run: seq<Action>)
    requires var w := Run(INITIAL, lim, run); w.callbacks == [] && w.queue == [] && w.drains == []
    ensures var w := Run(INITIAL, lim, run);
            |w.issued| == w.rowsWritten + w.rowsDropped <==>
            forall i | 0 <= i < |w.gone| :: w.gone[i].pending == [] && w.gone[i].written == 0
  {
    var w := Run(INITIAL, lim, run);
    EveryCallCounted(lim, run, w);
    UncountedNone(w.drains);
    UncountedNone(w.gone);
  }

  /** It does happen: a row is enqueued, queued and taken by a drain, the drain is cancelled, and the row
    * is neither written, dropped, scheduled, queued nor in flight. */
  lemma CancelledRowVanishes(lim: Limits, t: Table)
    requires lim.queueMax >= 1 && lim.batchMax >= 1
    ensures var w := Run(INITIAL, lim, [Enqueue(t, 0.0, true), RunCallback, BeginDrain, CancelDrain(0)]);
            && |w.issued| == 1 && w.rowsWritten == 0 && w.rowsDropped == 0
            && w.callbacks == [] && w.queue == [] && w.drains == [] && w.gone == [Drain([Row(t, 0)], 0, false)]
  {
    var a, b, c, d := Enqueue(t, 0.0, true), RunCallback, BeginDrain, CancelDrain(0);
    assert [a, b, c, d][1..] == [b, c, d] && [b, c, d][1..] == [c, d] && [c, d][1..] == [d] && [d][1..] == [];
    var w1 := Act(INITIAL, lim, a);
    var w2 := Act(w1, lim, b);
    var w3 := Act(w2, lim, c);
    assert w2.queue == [Row(t, 0)] && w2.queue[..1] == [Row(t, 0)] && w2.queue[1..] == [];
    assert w3.drains == [Drain([Row(t, 0)], 0, false)];
    assert Run(w3, lim, [d]) == Act(w3, lim, d);
    assert Run(w2, lim, [c, d]) == Run(w3, lim, [d]);
    assert Run(w1, lim, [b, c, d]) == Run(w2, lim, [c, d]);
  }

  // ------------------------------------------------------------------ order

  predicate Increasing(s: seq<Row>) { forall i, j | 0 <= i < j < |s| :: s[i].number < s[j].number }

  predicate Below(s: seq<Row>, n: nat) { forall i | 0 <= i < |s| :: s[i].number < n }

  /** The batch in flight, when at most one drain is. */
  function Batch(w: Writer): seq<Row> { if w.drains == [] then [] else w.drains[0].pending }

  function Mine(t: Table, s: seq<Row>): seq<Row> { Filter(OfTable(t), s) }

  /** A table's rows that are not dropped, from the oldest written to the newest scheduled. */
  function Line(w: Writer, t: Table): seq<Row> {
    Mine(t, w.stored) + Mine(t, Batch(w)) + Mine(t, w.queue) + Mine(t, w.callbacks)
  }

  predicate Sorted(s: seq<Row>, n: nat) { Increasing(s) && Below(s, n) }

  predicate Ordered(w: Writer, t: Table) { |w.drains| <= 1 && Sorted(Line(w, t), |w.issued|) }

  lemma DropMiddle(a: seq<Row>, b: seq<Row>, c: seq<Row>, n: nat)
    requires Sorted(a + b + c, n)
    ensures Sorted(a + c, n)
  {
    var whole := a + b + c;
    assert forall i | 0 <= i < |a + c| :: (a + c)[i] == whole[if i < |a| then i else i + |b|];
  }

  lemma AddLast(a: seq<Row>, r: Row, n: nat)
    requires Sorted(a, n) && r.number == n
    ensures Sorted(a + [r], n + 1) && Sorted(a, n + 1)
  {
  }

  /** The four ways the line of a table changes, on the parts of the line alone. */
  lemma LineGrows(a: seq<Row>, b: seq<Row>, c: seq<Row>, d: seq<Row>, r: Row, n: nat)
    requires Sorted(a + b + c + d, n) && r.number == n
    ensures Sorted(a + b + c + (d + [r]), n + 1) && Sorted(a + b + c + d, n + 1)
  {
    AddLast(a + b + c + d, r, n);
    assert a + b + c + (d + [r]) == a + b + c + d + [r];
  }

  lemma LinePasses(a: seq<Row>, b: seq<Row>, c: seq<Row>, m: seq<Row>, d: seq<Row>, n: nat)
    requires Sorted(a + b + c + (m + d), n)
    ensures Sorted(a + b + (c + m) + d, n) && Sorted(a + b + c + d, n)
  {
    assert a + b + c + (m + d) == a + b + (c + m) + d;
    assert a + b + c + (m + d) == (a + b + c) + m + d;
    DropMiddle(a + b + c, m, d, n);
  }

  lemma LineTaken(a: seq<Row>, m: seq<Row>, c: seq<Row>, d: seq<Row>, n: nat)
    requires Sorted(a + [] + (m + c) + d, n)
    ensures Sorted(a + m + c + d, n)
  {
    assert a + [] + (m + c) + d == a + m + c + d;
  }

  lemma LineStored(a: seq<Row>, b: seq<Row>, c: seq<Row>, d: seq<Row>, n: nat)
    requires Sorted(a + b + c + d, n)
    ensures Sorted((a + b) + [] + c + d, n) && Sorted(a + [] + c + d, n)
  {
    assert a + b + c + d == (a + b) + [] + c + d;
    assert a + b + c + d == a + b + (c + d);
    DropMiddle(a, b, c + d, n);
    assert a + [] + c + d == a + (c + d);
  }

  lemma IssueOrdered(w: Writer, e: Writer, row: Row, t: Table)
    requires Ordered(w, t) && e.queue == w.queue && e.drains == w.drains && e.stored == w.stored
    requires e.issued == w.issued + [row] && row.number == |w.issued|
    requires e.callbacks == w.callbacks || e.callbacks == w.callbacks + [row]
    ensures Ordered(e, t)
  {
    FilterOne(OfTable(t), w.callbacks, row);
    assert Batch(e) == Batch(w);
    LineGrows(Mine(t, w.stored), Mine(t, Batch(w)), Mine(t, w.queue), Mine(t, w.callbacks), row, |w.issued|);
    assert Mine(t, e.callbacks) == Mine(t, w.callbacks) || Mine(t, e.callbacks) == Mine(t, w.callbacks) + [row];
  }

  lemma EnqueueOrdered(w: Writer, lim: Limits, u: Table, now: real, alive: bool, t: Table)
    requires Ordered(w, t)
    ensures Ordered(OnEnqueue(w, lim, u, now, alive), t)
  {
    IssueOrdered(w, OnEnqueue(w, lim, u, now, alive), Row(u, |w.issued|), t);
  }

  lemma CallbackMine(w: Writer, t: Table)
    requires w.callbacks != []
    ensures var r := w.callbacks[0];
            && Mine(t, w.callbacks) == Mine(t, [r]) + Mine(t, w.callbacks[1..])
            && Mine(t, w.queue + [r]) == Mine(t, w.queue) + Mine(t, [r])
  {
    var r, rest := w.callbacks[0], w.callbacks[1..];
    assert w.callbacks == [r] + rest;
    FilterAppend(OfTable(t), [r], rest);
    FilterAppend(OfTable(t), w.queue, [r]);
  }

  lemma CallbackOrdered(w: Writer, lim: Limits, t: Table)
    requires Ordered(w, t)
    ensures Ordered(OnCallback(w, lim), t)
  {
    if w.callbacks != [] {
      CallbackMine(w, t);
      LinePasses(Mine(t, w.stored), Mine(t, Batch(w)), Mine(t, w.queue), Mine(t, [w.callbacks[0]]),
                 Mine(t, w.callbacks[1..]), |w.issued|);
    }
  }

  lemma BeginOrdered(w: Writer, lim: Limits, t: Table)
    requires Ordered(w, t) && w.drains == []
    ensures Ordered(OnBegin(w, lim), t)
  {
    var e := OnBegin(w, lim);
    if e != w {
      var k := |Batch(e)|;
      assert w.queue == w.queue[..k] + w.queue[k..] && Batch(e) == w.queue[..k];
      FilterAppend(OfTable(t), w.queue[..k], w.queue[k..]);
      LineTaken(Mine(t, w.stored), Mine(t, w.queue[..k]), Mine(t, w.queue[k..]), Mine(t, w.callbacks), |w.issued|);
    }
  }

  lemma FinishOrdered(w: Writer, lim: Limits, i: nat, now: real, t: Table)
    requires Ordered(w, t)
    ensures Ordered(OnFinish(w, lim, i, now), t)
  {
  }

  /** A table's turn: its rows move to the database or drop out; other tables' rows stay. */
  lemma TableMine(batch: seq<Row>, stored: seq<Row>, u: Table, t: Table)
    ensures var rows, rest := Filter(OfTable(u), batch), Filter(NotOfTable(u), batch);
            && Mine(t, rest) == (if t == u then [] else Mine(t, batch))
            && Mine(t, stored + rows) == if t == u then Mine(t, stored) + Mine(t, batch) else Mine(t, stored)
  {
    FilterAppend(OfTable(t), stored, Filter(OfTable(u), batch));
    if t == u {
      FilterWithin(OfTable(t), OfTable(t), batch);
      FilterApart(OfTable(t), NotOfTable(t), batch);
    } else {
      FilterApart(OfTable(t), OfTable(u), batch);
      FilterWithin(OfTable(t), NotOfTable(u), batch);
    }
  }

  lemma TableOrdered(w: Writer, i: nat, u: Table, ok: bool, t: Table)
    requires Ordered(w, t)
    ensures Ordered(OnTable(w, i, u, ok), t)
  {
    var e := OnTable(w, i, u, ok);
    if e != w {
      TableMine(Batch(w), w.stored, u, t);
      assert Batch(e) == Filter(NotOfTable(u), Batch(w));
      LineStored(Mine(t, w.stored), Mine(t, Batch(w)), Mine(t, w.queue), Mine(t, w.callbacks), |w.issued|);
    }
  }

  lemma CancelOrdered(w: Writer, i: nat, t: Table)
    requires Ordered(w, t)
    ensures Ordered(OnCancel(w, i), t)
  {
    LineStored(Mine(t, w.stored), Mine(t, Batch(w)), Mine(t, w.queue), Mine(t, w.callbacks), |w.issued|);
  }

  lemma ActOrdered(w: Writer, lim: Limits, a: Action, t: Table)
    requires Ordered(w, t) && (a.BeginDrain? ==> w.drains == [])
    ensures Ordered(Act(w, lim, a), t)
  {
    match a
    case Enqueue(u, now, alive) => EnqueueOrdered(w, lim, u, now, alive, t);
    case RunCallback => CallbackOrdered(w, lim, t);
    case TryTable(i, u, ok) => TableOrdered(w, i, u, ok, t);
    case BeginDrain => BeginOrdered(w, lim, t);
    case FinishDrain(i, now) => FinishOrdered(w, lim, i, now, t);
    case CancelDrain(i) => CancelOrdered(w, i, t);
  }

  /** Before `stop`, only the flush loop drains, and it begins a drain when the last has finished. */
  predicate OneDrainAtATime(w: Writer, lim: Limits, run: seq<Action>)
    decreases run
  {
    run == [] || ((run[0].BeginDrain? ==> w.drains == []) && OneDrainAtATime(Act(w, lim, run[0]), lim, run[1..]))
  }

  lemma {:induction false} RunOrdered(w: Writer, lim: Limits, run: seq<Action>, t: Table)
    requires Ordered(w, t) && OneDrainAtATime(w, lim, run)
    ensures Ordered(Run(w, lim, run), t)
    decreases run
  {
    if run != [] {
      ActOrdered(w, lim, run[0], t);
      RunOrdered(Act(w, lim, run[0]), lim, run[1..], t);
    }
  }

  /** Order: the rows written to a table are in the order of its enqueue calls, over every run in
    * which drains do not overlap, whatever fails and whatever is dropped. */
  lemma WrittenInOrder(lim: Limits, run: seq<Action>, t: Table)
    requires OneDrainAtATime(INITIAL, lim, run)
    ensures Increasing(Filter(OfTable(t), Run(INITIAL, lim, run).stored))
  {
    RunOrdered(INITIAL, lim, run, t);
    var w := Run(INITIAL, lim, run);
    var kept := Mine(t, w.stored);
    assert forall i | 0 <= i < |kept| :: kept[i] == Line(w, t)[i];
  }

  // ------------------------------------------------------------------ the circuit breaker

  /** The latest `n` finished drains wrote nothing. */
  predicate Dry(results: seq<nat>, n: int) {
    n <= |results| && forall j | 0 <= j < |results| && |results| - n <= j :: results[j] == 0
  }

  /** All but the first of the counted failures wrote nothing, and a drain that wrote nothing failed. */
  predicate Tripping(w: Writer) {
    && Dry(w.results, w.failures - 1)
    && forall i | 0 <= i < |w.drains| :: w.drains[i].pending == [] && w.drains[i].written == 0 ==> w.drains[i].failed
  }

  lemma ActTrips(w: Writer, lim: Limits, a: Action)
    requires Tripping(w)
    ensures Tripping(Act(w, lim, a))
  {
  }

  lemma {:induction false} RunTrips(w: Writer, lim: Limits, run: seq<Action>)
    requires Tripping(w)
    ensures Tripping(Run(w, lim, run))
    decreases run
  {
    if run != [] {
      ActTrips(w, lim, run[0]);
      RunTrips(Act(w, lim, run[0]), lim, run[1..]);
    }
  }

  /** The breaker opens, at any step of any run, only if the latest threshold - 1 non-empty drains
    * wrote nothing at all: partial failures alone never open it. */
  lemma OpensOnlyWhenDry(lim: Limits, run: seq<Action>, a: Action)
    requires lim.threshold >= 2
    ensures var w := Run(INITIAL, lim, run);
            !w.open && Act(w, lim, a).open ==> Dry(Act(w, lim, a).results, lim.threshold - 1)
  {
    RunTrips(INITIAL, lim, run);
    ActTrips(Run(INITIAL, lim, run), lim, a);
  }

  /** While the breaker is closed the counted failures are below its threshold. */
  predicate Armed(w: Writer, lim: Limits) { Tripping(w) && (!w.open ==> w.failures < lim.threshold) }

  lemma ActArmed(w: Writer, lim: Limits, a: Action)
    requires lim.threshold >= 1 && Armed(w, lim)
    ensures Armed(Act(w, lim, a), lim)
  {
  }

  lemma {:induction false} RunArmed(w: Writer, lim: Limits, run: seq<Action>)
    requires lim.threshold >= 1 && Armed(w, lim)
    ensures Armed(Run(w, lim, run), lim)
    decreases run
  {
    if run != [] {
      ActArmed(w, lim, run[0]);
      RunArmed(Act(w, lim, run[0]), lim, run[1..]);
    }
  }

  predicate EverOpen(w: Writer, lim: Limits, run: seq<Action>)
    decreases run
  {
    w.open || (run != [] && EverOpen(Act(w, lim, run[0]), lim, run[1..]))
  }

  lemma {:induction false} ResultsGrow(w: Writer, lim: Limits, run: seq<Action>)
    ensures w.results <= Run(w, lim, run).results
    decreases run
  {
    if run != [] { ResultsGrow(Act(w, lim, run[0]), lim, run[1..]); }
  }

  /** The drains that finish during the run all write nothing. */
  predicate AllDry(w: Writer, lim: Limits, run: seq<Action>) {
    var now := Run(w, lim, run).results; forall j | |w.results| <= j < |now| :: now[j] == 0
  }

  lemma FinishDry(w: Writer, lim: Limits, a: Action)
    requires Tripping(w) && !w.open
    requires var now := Act(w, lim, a).results; forall j | |w.results| <= j < |now| :: now[j] == 0
    ensures Act(w, lim, a).failures == w.failures + |Act(w, lim, a).results| - |w.results|
  {
    if a.FinishDrain? && a.i < |w.drains| && w.drains[a.i].pending == [] {
      assert Act(w, lim, a).results[|w.results|] == w.drains[a.i].written;
    }
  }

  lemma {:induction false} DryFailures(w: Writer, lim: Limits, run: seq<Action>)
    requires Tripping(w) && AllDry(w, lim, run) && !EverOpen(w, lim, run)
    ensures Run(w, lim, run).failures == w.failures + |Run(w, lim, run).results| - |w.results|
    decreases run
  {
    if run != [] {
      var m := Act(w, lim, run[0]);
      ActTrips(w, lim, run[0]);
      ResultsGrow(m, lim, run[1..]);
      assert forall j | 0 <= j < |m.results| :: m.results[j] == Run(w, lim, run).results[j];
      assert w.results <= m.results;
      FinishDry(w, lim, run[0]);
      DryFailures(m, lim, run[1..]);
    }
  }

  lemma {:induction false} EverOpenAtEnd(w: Writer, lim: Limits, run: seq<Action>)
    requires Run(w, lim, run).open
    ensures EverOpen(w, lim, run)
    decreases run
  {
    if run != [] { EverOpenAtEnd(Act(w, lim, run[0]), lim, run[1..]); }
  }

  /** And it does open: in no run do `threshold` drains in a row write nothing without the breaker
    * being open at some point. */
  lemma DryRunOpens(lim: Limits, before: seq<Action>, run: seq<Action>)
    requires lim.threshold >= 1
    requires var w := Run(INITIAL, lim, before);
             AllDry(w, lim, run) && |Run(w, lim, run).results| - |w.results| >= lim.threshold
    ensures EverOpen(Run(INITIAL, lim, before), lim, run)
  {
    var w := Run(INITIAL, lim, before);
    RunArmed(INITIAL, lim, before);
    RunArmed(w, lim, run);
    if !EverOpen(w, lim, run) {
      DryFailures(w, lim, run);
      if Run(w, lim, run).open { EverOpenAtEnd(w, lim, run); }
    }
  }

  // ------------------------------------------------------------------ the class

  class DBWriter {
    const limits: Limits
    var queue: seq<Row>
    var rowsWritten: nat
    var rowsDropped: nat
    var cbFailures: nat
    var cbOpen: bool
    var cbOpenSince: real
    /** What lives in the event loop, in suspended drains and in the database. */
    var callbacks: seq<Row>
    var drains: seq<Drain>
    ghost var gone: seq<Drain>
    var stored: seq<Row>
    ghost var issued: seq<Row>
    ghost var lost: seq<Row>
    ghost var results: seq<nat>
    var calls: nat

    ghost function State(): Writer
      reads this
    {
      Writer(issued, callbacks, queue, drains, gone, stored, lost, rowsWritten, rowsDropped, cbFailures, cbOpen, cbOpenSince, results)
    }

    ghost predicate Valid()
      reads this
    {
      calls == |issued|
    }

    constructor (limits: Limits)
      ensures this.limits == limits && Valid() && State() == INITIAL
    {
      this.limits := limits;
      queue, callbacks, drains, gone, stored, issued, lost, results := [], [], [], [], [], [], [], [];
      rowsWritten, rowsDropped, cbFailures, cbOpen, cbOpenSince, calls := 0, 0, 0, false, 0.0, 0;
    }

    /** `enqueue`, from any thread; the put itself is scheduled on the event loop. */
    method EnqueueRow(table: Table, now: real, loopAlive: bool)
      requires Valid()
      modifies this
      ensures Valid() && State() == Act(old(State()), limits, Enqueue(table, now, loopAlive))
    {
      var record := Row(table, calls);
      issued, calls := issued + [record], calls + 1;
      if cbOpen {
        if now - cbOpenSince < limits.reset {
          rowsDropped, lost := rowsDropped + 1, lost + [record];
          return;
        }
        cbOpen, cbFailures := false, 0;
      }
      if loopAlive {
        callbacks := callbacks + [record];
      } else {
        rowsDropped, lost := rowsDropped + 1, lost + [record];
      }
    }

    /** `_safe_put`, run by the event loop. */
    method SafePut()
      requires Valid() && callbacks != []
      modifies this`callbacks, this`queue, this`rowsDropped, this`lost
      ensures Valid() && State() == Act(old(State()), limits, RunCallback)
    {
      var r := callbacks[0];
      callbacks := callbacks[1..];
      if |queue| < limits.queueMax {
        queue := queue + [r];
      } else {
        rowsDropped, lost := rowsDropped + 1, lost + [r];
      }
    }

    /** The part of `_drain` before its first await: the batch is taken off the queue. */
    method TakeBatch()
      requires Valid()
      modifies this`queue, this`drains
      ensures Valid() && State() == Act(old(State()), limits, BeginDrain)
    {
      if queue == [] { return; }
      var batch := [];
      while |batch| < limits.batchMax && queue != []
        invariant batch + queue == old(queue) && |batch| <= limits.batchMax && drains == old(drains)
        decreases |queue|
      {
        batch, queue := batch + [queue[0]], queue[1..];
      }
      assert batch == old(queue)[..|batch|] && queue == old(queue)[|batch|..];
      if batch == [] { return; }
      drains := drains + [Drain(batch, 0, false)];
    }

    /** The rows of one table in a batch, and the others. */
    method Split(pending: seq<Row>, table: Table) returns (rows: seq<Row>, rest: seq<Row>)
      ensures rows == Filter(OfTable(table), pending) && rest == Filter(NotOfTable(table), pending)
    {
      rows, rest := [], [];
      for k := 0 to |pending|
        invariant rows == Filter(OfTable(table), pending[..k]) && rest == Filter(NotOfTable(table), pending[..k])
      {
        assert pending[..k + 1] == pending[..k] + [pending[k]];
        FilterOne(OfTable(table), pending[..k], pending[k]);
        FilterOne(NotOfTable(table), pending[..k], pending[k]);
        if pending[k].table == table { rows := rows + [pending[k]]; } else { rest := rest + [pending[k]]; }
      }
      assert pending[..|pending|] == pending;
    }

    /** One turn of the table loop of `_drain`, as the insert comes back. */
    method TableTurn(i: nat, table: Table, ok: bool)
      requires Valid() && i < |drains|
      modifies this`drains, this`stored, this`lost, this`rowsDropped
      ensures Valid() && State() == Act(old(State()), limits, TryTable(i, table, ok))
    {
      var d := drains[i];
      var rows, rest := Split(d.pending, table);
      if rows == [] { return; }
      if ok {
        stored := stored + rows;
        drains := drains[i := Drain(rest, d.written + |rows|, d.failed)];
      } else {
        rowsDropped, lost := rowsDropped + |rows|, lost + rows;
        drains := drains[i := Drain(rest, d.written, true)];
      }
    }

    /** The end of `_drain`: counters and circuit breaker. */
    method EndDrain(i: nat, now: real)
      requires Valid() && i < |drains| && drains[i].pending == []
      modifies this`drains, this`rowsWritten, this`cbFailures, this`cbOpen, this`cbOpenSince, this`results
      ensures Valid() && State() == Act(old(State()), limits, FinishDrain(i, now))
    {
      var d := drains[i];
      if d.written > 0 {
        rowsWritten := rowsWritten + d.written;
        cbFailures := 0;
      }
      if d.failed {
        cbFailures := cbFailures + 1;
        if cbFailures >= limits.threshold { cbOpen, cbOpenSince := true, now; }
      }
      drains, results := drains[..i] + drains[i + 1..], results + [d.written];
    }

    /** The cancellation of the flush task by `stop`, as it reaches a drain that awaits an insert. */
    method CancelFlush(i: nat)
      requires Valid() && i < |drains|
      modifies this`drains, this`gone
      ensures Valid() && State() == Act(old(State()), limits, CancelDrain(i))
    {
      gone, drains := gone + [drains[i]], drains[..i] + drains[i + 1..];
    }

    /** What `SessionManager.stop` reports as emitted: never more than the enqueue calls, and all of
      * them only when nothing is scheduled, queued or in flight and no cancelled drain held a row. */
    method Report() returns (emitted: nat, persisted: nat, dropped: nat)
      requires Valid() && Conserved(State(), Ones()) && Counted(State())
      ensures emitted == persisted + dropped && persisted <= |stored| && emitted <= calls
      ensures emitted == calls <==> (callbacks == [] && queue == [] && Uncounted(drains) == 0 && Uncounted(gone) == 0)
    {
      persisted, dropped := rowsWritten, rowsDropped;
      emitted := persisted + dropped;
      OnesCount(issued);
      OnesCount(queue);
      OnesCount(callbacks);
      OnesCount(stored);
      OnesCount(lost);
      SumsPositive(drains);
      SumsPositive(gone);
    }
  }

  lemma {:induction false} SumsPositive(ds: seq<Drain>)
    ensures SumInt(PendingOf(Ones()), ds) >= 0 && SumInt(WrittenOf(), ds) >= 0
  {
    if ds != [] {
      SumsPositive(ds[..|ds| - 1]);
      OnesCount(ds[|ds| - 1].pending);
    }
  }
}
