/** What becomes of every row, and what the open breaker does to calls, over runs of the writer. */
module DbLaws {
  import opened Seqs
  import opened DbWriting

  // ------------------------------------------------------------------ the open breaker

  /** The run's calls come before `until`, and its failing drains end no earlier than `since`. */
  predicate Within(run: seq<Action>, since: real, until: real) {
    forall i | 0 <= i < |run| :: (run[i].Enqueue? ==> run[i].now < until) && (run[i].FinishDrain? ==> run[i].now >= since)
  }

  /** Everything issued since is lost, and nothing was scheduled since. */
  ghost predicate AllRefused(w: Writer, e: Writer) {
    && w.issued <= e.issued && (forall r :: r in w.lost ==> r in e.lost)
    && (forall i | |w.issued| <= i < |e.issued| :: e.issued[i] in e.lost)
    && forall r :: r in e.callbacks ==> r in w.callbacks
  }

  lemma ActRefuses(w: Writer, lim: Limits, a: Action, since: real)
    requires w.open && w.openSince >= since
    requires (a.Enqueue? ==> a.now < since + lim.reset) && (a.FinishDrain? ==> a.now >= since)
    ensures var e := Act(w, lim, a); e.open && e.openSince >= since && AllRefused(w, e)
  {
  }

  lemma RefusedTwice(w: Writer, m: Writer, e: Writer)
    requires AllRefused(w, m) && AllRefused(m, e)
    ensures AllRefused(w, e)
  {
    forall i | |w.issued| <= i < |e.issued| ensures e.issued[i] in e.lost {
      if i < |m.issued| { assert m.issued[i] == e.issued[i]; }
    }
  }

  /** From the moment the breaker opened until `reset` later it stays open, and every row enqueued is lost
    * and none is scheduled, whatever else happens. */
  lemma {:induction false} OpenRefuses(w: Writer, lim: Limits, run: seq<Action>, since: real)
    requires w.open && w.openSince >= since && Within(run, since, since + lim.reset)
    ensures var e := Run(w, lim, run); e.open && e.openSince >= since && AllRefused(w, e)
    decreases run
  {
    if run != [] {
      var m := Act(w, lim, run[0]);
      ActRefuses(w, lim, run[0], since);
      OpenRefuses(m, lim, run[1..], since);
      RefusedTwice(w, m, Run(m, lim, run[1..]));
    }
  }

  /** A drain that opens the breaker stamps it with the time the drain ended. */
  lemma OpensNow(w: Writer, lim: Limits, i: nat, now: real)
    requires !w.open && Act(w, lim, FinishDrain(i, now)).open
    ensures Act(w, lim, FinishDrain(i, now)).openSince == now
  {
  }

  /** Exactly when a call schedules its row: the loop is alive, and the breaker is closed or has been open
    * for `reset`.  Any other call loses its row at once; the call that finds the reset over closes it. */
  lemma EnqueueExact(w: Writer, lim: Limits, t: Table, now: real, alive: bool)
    ensures var e, row := Act(w, lim, Enqueue(t, now, alive)), Row(t, |w.issued|);
            var passes := !w.open || now >= w.openSince + lim.reset;
            && e.issued == w.issued + [row] && e.queue == w.queue && e.drains == w.drains && e.stored == w.stored
            && e.callbacks == (if passes && alive then w.callbacks + [row] else w.callbacks)
            && e.lost == (if passes && alive then w.lost else w.lost + [row])
            && e.open == !passes && e.failures == (if w.open && passes then 0 else w.failures)
  {
  }

  /** So after the breaker was open for `reset`, whatever happened meanwhile, the first call closes it, and
    * with a live loop its row is scheduled. */
  lemma ReopensAfterReset(w: Writer, lim: Limits, run: seq<Action>, since: real, t: Table, now: real, alive: bool)
    requires w.open && w.openSince >= since && Within(run, since, since + lim.reset)
    requires now >= Run(w, lim, run).openSince + lim.reset
    ensures var m := Run(w, lim, run);
            var e := Act(m, lim, Enqueue(t, now, alive));
            && m.open && !e.open && e.failures == 0
            && (alive ==> e.callbacks == m.callbacks + [Row(t, |m.issued|)] && e.lost == m.lost)
  {
    OpenRefuses(w, lim, run, since);
    EnqueueExact(Run(w, lim, run), lim, t, now, alive);
  }

  // ------------------------------------------------------------------ the fate of a row

  /** The step is the turn of the row's table in a drain that holds it, and the insert came back so. */
  predicate Turn(w: Writer, a: Action, r: Row, ok: bool) {
    a.TryTable? && a.ok == ok && a.i < |w.drains| && r.table == a.table && r in w.drains[a.i].pending
  }

  /** The step enqueues the row while the breaker refuses calls or the loop is closed. */
  predicate Refused(w: Writer, lim: Limits, a: Action, r: Row) {
    && a.Enqueue? && r == Row(a.table, |w.issued|)
    && (!a.loopAlive || (w.open && a.now < w.openSince + lim.reset))
  }

  /** The step is the row's callback, and finds the queue full. */
  predicate Overflows(w: Writer, lim: Limits, a: Action, r: Row) {
    a.RunCallback? && w.callbacks != [] && r == w.callbacks[0] && |w.queue| >= lim.queueMax
  }

  predicate Wrote(w: Writer, lim: Limits, run: seq<Action>, r: Row)
    decreases run
  {
    run != [] && (Turn(w, run[0], r, true) || Wrote(Act(w, lim, run[0]), lim, run[1..], r))
  }

  predicate Lost(w: Writer, lim: Limits, run: seq<Action>, r: Row)
    decreases run
  {
    run != [] && (Turn(w, run[0], r, false) || Refused(w, lim, run[0], r) || Overflows(w, lim, run[0], r)
                  || Lost(Act(w, lim, run[0]), lim, run[1..], r))
  }

  lemma TurnFate(w: Writer, i: nat, t: Table, ok: bool, r: Row)
    ensures var e, a := OnTable(w, i, t, ok), TryTable(i, t, ok);
            && (r in e.stored <==> r in w.stored || Turn(w, a, r, true))
            && (r in e.lost <==> r in w.lost || Turn(w, a, r, false))
  {
    if i < |w.drains| { FilterMembers(OfTable(t), w.drains[i].pending); }
  }

  lemma ActFate(w: Writer, lim: Limits, a: Action, r: Row)
    ensures var e := Act(w, lim, a);
            && (r in e.stored <==> r in w.stored || Turn(w, a, r, true))
            && (r in e.lost <==> r in w.lost || Turn(w, a, r, false) || Refused(w, lim, a, r) || Overflows(w, lim, a, r))
  {
    match a
    case TryTable(i, t, ok) => TurnFate(w, i, t, ok, r);
    case Enqueue(_, _, _) =>
    case RunCallback =>
    case BeginDrain =>
    case FinishDrain(_, _) =>
    case CancelDrain(_) =>
  }

  lemma {:induction false} RunFate(w: Writer, lim: Limits, run: seq<Action>, r: Row)
    ensures r in Run(w, lim, run).stored <==> r in w.stored || Wrote(w, lim, run, r)
    ensures r in Run(w, lim, run).lost <==> r in w.lost || Lost(w, lim, run, r)
    decreases run
  {
    if run != [] {
      ActFate(w, lim, run[0], r);
      RunFate(Act(w, lim, run[0]), lim, run[1..], r);
    }
  }

  /** Over every run a row is stored if and only if its table's turn came back well, and lost if and only if
    * its turn failed, its call was refused, or its callback found the queue full. */
  lemma FateExact(lim: Limits, run: seq<Action>, r: Row)
    ensures r in Run(INITIAL, lim, run).stored <==> Wrote(INITIAL, lim, run, r)
    ensures r in Run(INITIAL, lim, run).lost <==> Lost(INITIAL, lim, run, r)
  {
    RunFate(INITIAL, lim, run, r);
  }

  // ------------------------------------------------------------------ bounds

  predicate Bounded(w: Writer, lim: Limits) {
    |w.queue| <= lim.queueMax && forall i | 0 <= i < |w.drains| :: |w.drains[i].pending| <= lim.batchMax
  }

  lemma ActBounded(w: Writer, lim: Limits, a: Action)
    requires Bounded(w, lim)
    ensures Bounded(Act(w, lim, a), lim)
  {
    if a.TryTable? && a.i < |w.drains| { FilterShorter(NotOfTable(a.table), w.drains[a.i].pending); }
  }

  /** The queue and the batches stay within their limits, over every run. */
  lemma {:induction false} RunBounded(w: Writer, lim: Limits, run: seq<Action>)
    requires Bounded(w, lim)
    ensures Bounded(Run(w, lim, run), lim)
    decreases run
  {
    if run != [] {
      ActBounded(w, lim, run[0]);
      RunBounded(Act(w, lim, run[0]), lim, run[1..]);
    }
  }

  /** A drain takes the oldest queued rows, a full batch if there are as many; an empty queue makes none. */
  lemma BatchExact(w: Writer, lim: Limits)
    requires lim.batchMax >= 1
    ensures var e := Act(w, lim, BeginDrain);
            if w.queue == [] then e == w
            else |e.drains| == |w.drains| + 1 &&
                 var d := e.drains[|w.drains|];
                 d.pending + e.queue == w.queue && |d.pending| <= lim.batchMax && (|d.pending| == lim.batchMax || e.queue == [])
                 && d.written == 0 && !d.failed
  {
  }
}
