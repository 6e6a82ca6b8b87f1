/** monitor/distributed_registry.py: one shared state file, many processes, each with its own
  * memory of the content it last wrote.  Every call is atomic under the exclusive file lock. */
module Registry {
  import opened Wrappers
  import opened SafeState

  type Ticker = string
  type Layer = string
  type Pid = nat
  type Positions = map<Ticker, Layer>

  /** The result of one call: the disk, the caller's `_last_hash`, and the answer, if it survives. */
  datatype Turn = Turn(disk: Disk<Positions>, last: Option<Positions>, answer: Option<bool>)

  /** The positions in the primary, read raw; a missing file counts as no positions. */
  function Held(d: Disk<Positions>): Positions {
    if d.cur.file.Whole? then d.cur.file.doc.content else map[]
  }

  function Save(d: Disk<Positions>, last: Option<Positions>, content: Positions, roomy: bool, f: Fates): Turn {
    var (after, v) := Write(d, Attempt(content, last, roomy, f));
    Turn(after, if v == Written then Some(content) else last, if v == Died then None else Some(true))
  }

  function Acquire(d: Disk<Positions>, last: Option<Positions>, max: nat, t: Ticker, l: Layer, roomy: bool, f: Fates): Turn {
    var held := Held(d);
    if t in held then Turn(d, last, Some(held[t] == l))
    else if |held| >= max then Turn(d, last, Some(false))
    else Save(d, last, held[t := l], roomy, f)
  }

  function Release(d: Disk<Positions>, last: Option<Positions>, t: Ticker, roomy: bool, f: Fates): Turn {
    if t in Held(d) then Save(d, last, Held(d) - {t}, roomy, f) else Turn(d, last, Some(true))
  }

  /** Exactly when a fresh True answer is in the file: the content is not the one this process wrote
    * last, there is room, and the write reaches the replace.  The answer ignores all three. */
  lemma AcquireLandsExact(d: Disk<Positions>, last: Option<Positions>, max: nat, t: Ticker, l: Layer, roomy: bool, f: Fates)
    requires t !in Held(d) && Acquire(d, last, max, t, l, roomy, f).answer == Some(true)
    ensures var after := Held(Acquire(d, last, max, t, l, roomy, f).disk);
            (t in after && after[t] == l) <==> (last != Some(Held(d)[t := l]) && roomy && f.tmp.Done? && f.swap.Done?)
  {
  }

  /** The same for a release: a True answer to one who finds the ticker held means it is gone from the
    * file exactly when the content is new to the caller, there is room, and the replace is reached. */
  lemma ReleaseLandsExact(d: Disk<Positions>, last: Option<Positions>, t: Ticker, roomy: bool, f: Fates)
    requires t in Held(d) && Release(d, last, t, roomy, f).answer == Some(true)
    ensures t !in Held(Release(d, last, t, roomy, f).disk) <==>
            (last != Some(Held(d) - {t}) && roomy && f.tmp.Done? && f.swap.Done?)
  {
  }

  /** `reset`, from whatever the caller remembers: an answered one has emptied the file exactly under
    * the same conditions, so a process that last wrote no positions cannot reset a file that has some. */
  lemma ResetLandsExact(d: Disk<Positions>, last: Option<Positions>, roomy: bool, f: Fates)
    requires Held(d) != map[] && Save(d, last, map[], roomy, f).answer == Some(true)
    ensures Held(Save(d, last, map[], roomy, f).disk) == map[] <==>
            (last != Some(map[]) && roomy && f.tmp.Done? && f.swap.Done?)
  {
  }

  // ------------------------------------------------------------------ the system of processes

  /** `told` holds the pairs answered True and not yet released by the layer's own process. */
  datatype Sys = Sys(disk: Disk<Positions>, mem: map<Pid, Positions>, told: set<(Ticker, Layer)>)

  datatype Op =
    | TryAcquire(pid: Pid, ticker: Ticker, layer: Layer)
    | GiveBack(pid: Pid, ticker: Ticker)
    | Restart(pid: Pid)

  function Last(s: Sys, pid: Pid): Option<Positions> {
    if pid in s.mem then Some(s.mem[pid]) else None
  }

  function Remember(mem: map<Pid, Positions>, pid: Pid, last: Option<Positions>): map<Pid, Positions> {
    if last.Some? then mem[pid := last.value] else mem
  }

  /** One call without disk faults; `home` says which process a layer lives in. */
  function Step(s: Sys, home: Layer -> Pid, max: nat, op: Op): Sys {
    match op
    case TryAcquire(pid, t, l) =>
      var turn := Acquire(s.disk, Last(s, pid), max, t, l, true, ALL_DONE);
      Sys(turn.disk, Remember(s.mem, pid, turn.last), if turn.answer == Some(true) then s.told + {(t, l)} else s.told)
    case GiveBack(pid, t) =>
      var turn := Release(s.disk, Last(s, pid), t, true, ALL_DONE);
      Sys(turn.disk, Remember(s.mem, pid, turn.last), set p | p in s.told && !(p.0 == t && home(p.1) == pid))
    case Restart(pid) => s.(mem := s.mem - {pid})
  }

  function Run(s: Sys, home: Layer -> Pid, max: nat, ops: seq<Op>): Sys
    decreases ops
  {
    if ops == [] then s else Run(Step(s, home, max, ops[0]), home, max, ops[1..])
  }

  /** A layer is acquired from its own process, and a held ticker is released from its holder's. */
  predicate Disciplined(s: Sys, home: Layer -> Pid, op: Op) {
    match op
    case TryAcquire(pid, _, l) => home(l) == pid
    case GiveBack(pid, t) => t in Held(s.disk) ==> home(Held(s.disk)[t]) == pid
    case Restart(_) => true
  }

  predicate AllDisciplined(s: Sys, home: Layer -> Pid, max: nat, ops: seq<Op>)
    decreases ops
  {
    ops == [] || (Disciplined(s, home, ops[0]) && AllDisciplined(Step(s, home, max, ops[0]), home, max, ops[1..]))
  }

  /** What process `pid` itself holds of ticker `t`. */
  function OwnShare(m: Positions, home: Layer -> Pid, pid: Pid, t: Ticker): Option<Layer> {
    if t in m && home(m[t]) == pid then Some(m[t]) else None
  }

  /** Everything a process remembers writing agrees with the file on that process's own entries. */
  ghost predicate Agrees(mem: map<Pid, Positions>, held: Positions, home: Layer -> Pid) {
    forall pid, t {:trigger OwnShare(mem[pid], home, pid, t)} | pid in mem ::
      OwnShare(mem[pid], home, pid, t) == OwnShare(held, home, pid, t)
  }

  /** The file holds exactly the outstanding True answers, within the limit. */
  ghost predicate Records(told: set<(Ticker, Layer)>, held: Positions, max: nat) {
    |held| <= max && forall t, l :: (t, l) in told <==> (t in held && held[t] == l)
  }

  ghost predicate Safe(s: Sys, home: Layer -> Pid, max: nat) {
    && s.disk.cur.file.Whole? && Clean(s.disk.cur, s.disk.cur.file.doc)
    && Records(s.told, Held(s.disk), max) && Agrees(s.mem, Held(s.disk), home)
  }

  /** Changing one's own entry of the file cannot give back the content one remembers writing. */
  lemma OwnChangeIsNew(mem: map<Pid, Positions>, held: Positions, now: Positions, home: Layer -> Pid, pid: Pid, t: Ticker)
    requires Agrees(mem, held, home) && OwnShare(now, home, pid, t) != OwnShare(held, home, pid, t)
    requires forall u | u != t :: (u in now <==> u in held) && (u in now ==> now[u] == held[u])
    requires t in now ==> home(now[t]) == pid
    requires t in held ==> home(held[t]) == pid
    ensures pid in mem ==> mem[pid] != now
    ensures Agrees(mem[pid := now], now, home)
  {
    if pid in mem {
      assert OwnShare(mem[pid], home, pid, t) == OwnShare(held, home, pid, t);
    }
    forall p, u | p in mem[pid := now]
      ensures OwnShare(mem[pid := now][p], home, p, u) == OwnShare(now, home, p, u)
    {
      if p != pid {
        assert OwnShare(mem[p], home, p, u) == OwnShare(held, home, p, u);
      }
    }
  }

  /** A faultless write of new content puts it in the primary under its own checksum. */
  lemma SaveLands(d: Disk<Positions>, last: Option<Positions>, content: Positions)
    requires last != Some(content)
    ensures var turn := Save(d, last, content, true, ALL_DONE);
            && turn.answer == Some(true) && turn.last == Some(content)
            && turn.disk.cur == Slot(Whole(NextDoc(d, content)), SumOf(NextDoc(d, content)))
  {
  }

  lemma AcquireKeepsSafe(s: Sys, home: Layer -> Pid, max: nat, pid: Pid, t: Ticker, l: Layer)
    requires Safe(s, home, max) && home(l) == pid
    ensures Safe(Step(s, home, max, TryAcquire(pid, t, l)), home, max)
  {
    var held := Held(s.disk);
    if t !in held && |held| < max {
      OwnChangeIsNew(s.mem, held, held[t := l], home, pid, t);
      SaveLands(s.disk, Last(s, pid), held[t := l]);
      assert Records(s.told + {(t, l)}, held[t := l], max);
    } else {
      assert t in held && held[t] == l ==> s.told + {(t, l)} == s.told;
    }
  }

  lemma ReleaseKeepsSafe(s: Sys, home: Layer -> Pid, max: nat, pid: Pid, t: Ticker)
    requires Safe(s, home, max) && Disciplined(s, home, GiveBack(pid, t))
    ensures Safe(Step(s, home, max, GiveBack(pid, t)), home, max)
  {
    var held := Held(s.disk);
    var told := set p | p in s.told && !(p.0 == t && home(p.1) == pid);
    if t in held {
      OwnChangeIsNew(s.mem, held, held - {t}, home, pid, t);
      SaveLands(s.disk, Last(s, pid), held - {t});
      assert (held - {t}).Keys == held.Keys - {t};
      assert Records(told, held - {t}, max);
    } else {
      assert told == s.told;
    }
  }

  lemma StepKeepsSafe(s: Sys, home: Layer -> Pid, max: nat, op: Op)
    requires Safe(s, home, max) && Disciplined(s, home, op)
    ensures Safe(Step(s, home, max, op), home, max)
  {
    match op
    case TryAcquire(pid, t, l) => AcquireKeepsSafe(s, home, max, pid, t, l);
    case GiveBack(pid, t) => ReleaseKeepsSafe(s, home, max, pid, t);
    case Restart(pid) =>
  }

  /** Registry safety: over every disciplined run the "unchanged content" skip drops no update, so
    * the file is exactly the set of outstanding True answers. */
  lemma {:induction false} RegistrySafe(s: Sys, home: Layer -> Pid, max: nat, ops: seq<Op>)
    requires Safe(s, home, max) && AllDisciplined(s, home, max, ops)
    ensures Safe(Run(s, home, max, ops), home, max)
    decreases ops
  {
    if ops != [] {
      StepKeepsSafe(s, home, max, ops[0]);
      RegistrySafe(Step(s, home, max, ops[0]), home, max, ops[1..]);
    }
  }

  /** No two layers are told they hold one ticker, and the validated queries see the same state. */
  lemma OneHolder(s: Sys, home: Layer -> Pid, max: nat, ops: seq<Op>, t: Ticker, a: Layer, b: Layer)
    requires Safe(s, home, max) && AllDisciplined(s, home, max, ops)
    ensures var e := Run(s, home, max, ops);
            && ((t, a) in e.told && (t, b) in e.told ==> a == b)
            && Read(e.disk).Some? && Read(e.disk).value.content == Held(e.disk) && |Held(e.disk)| <= max
  {
    RegistrySafe(s, home, max, ops);
  }

  /** A file without faults that holds nothing, and processes that have written nothing, are safe. */
  lemma StartedSafe(d: Disk<Positions>, home: Layer -> Pid, max: nat)
    requires d.cur.file.Whole? && Clean(d.cur, d.cur.file.doc) && d.cur.file.doc.content == map[]
    ensures Safe(Sys(d, map[], {}), home, max)
  {
  }

  ghost predicate Same(told: set<(Ticker, Layer)>, held: Positions) {
    forall p :: p in told <==> (p.0 in held && held[p.0] == p.1)
  }

  /** As many True answers are outstanding as the file has entries. */
  lemma {:induction false} ToldSize(told: set<(Ticker, Layer)>, held: Positions)
    requires Same(told, held)
    ensures |told| == |held|
    decreases |held|
  {
    if t :| t in held {
      var pair := (t, held[t]);
      assert pair in told && (held - {t}).Keys == held.Keys - {t};
      assert Same(told - {pair}, held - {t});
      ToldSize(told - {pair}, held - {t});
    } else {
      assert forall p :: p !in told;
    }
  }

  lemma RecordsSame(told: set<(Ticker, Layer)>, held: Positions, max: nat)
    requires Records(told, held, max)
    ensures Same(told, held)
  {
    forall p ensures p in told <==> (p.0 in held && held[p.0] == p.1) {
      assert p == (p.0, p.1);
    }
  }

  /** A layer may have a ticker that no other layer was told it holds, if it was told so itself or the
    * outstanding answers are below the limit. */
  ghost predicate MayHave(told: set<(Ticker, Layer)>, max: nat, t: Ticker, l: Layer) {
    (forall b :: (t, b) in told ==> b == l) && ((t, l) in told || |told| < max)
  }

  /** Exactly which calls are answered True, from the outstanding answers alone: in particular a holder
    * asking again is, and the limit refuses nobody too early. */
  lemma AcquireAnswerExact(s: Sys, home: Layer -> Pid, max: nat, pid: Pid, t: Ticker, l: Layer)
    requires Safe(s, home, max) && home(l) == pid
    ensures Acquire(s.disk, Last(s, pid), max, t, l, true, ALL_DONE).answer == Some(MayHave(s.told, max, t, l))
    ensures (t, l) in Step(s, home, max, TryAcquire(pid, t, l)).told <==> MayHave(s.told, max, t, l)
  {
    var held := Held(s.disk);
    RecordsSame(s.told, held, max);
    ToldSize(s.told, held);
    if t in held {
      assert (t, held[t]) in s.told;
    } else {
      assert forall b :: (t, b) !in s.told;
      if |held| < max {
        OwnChangeIsNew(s.mem, held, held[t := l], home, pid, t);
        SaveLands(s.disk, Last(s, pid), held[t := l]);
      }
    }
  }

  /** The same after any disciplined run. */
  lemma AnswersAfterRun(s: Sys, home: Layer -> Pid, max: nat, ops: seq<Op>, pid: Pid, t: Ticker, l: Layer)
    requires Safe(s, home, max) && AllDisciplined(s, home, max, ops) && home(l) == pid
    ensures var e := Run(s, home, max, ops);
            Acquire(e.disk, Last(e, pid), max, t, l, true, ALL_DONE).answer == Some(MayHave(e.told, max, t, l))
  {
    RegistrySafe(s, home, max, ops);
    AcquireAnswerExact(Run(s, home, max, ops), home, max, pid, t, l);
  }

  // ------------------------------------------------------------------ processes that die

  predicate DoneOrDies(f: Fate) { f.Done? || f.Crashed? }

  /** Every primitive is done or is where the process dies; only the checksum may also fail. */
  predicate Mortal(f: Fates) {
    && DoneOrDies(f.tmp) && DoneOrDies(f.prev2) && DoneOrDies(f.prev2Sum)
    && DoneOrDies(f.prev) && DoneOrDies(f.prevSum) && DoneOrDies(f.swap)
  }

  /** The memory of the callers after a call: a process that died in it has none. */
  function MemoryAfter(mem: map<Pid, Positions>, pid: Pid, turn: Turn): map<Pid, Positions> {
    if turn.answer == None then mem - {pid} else Remember(mem, pid, turn.last)
  }

  /** One call in which the process may die.  Calling for a release gives up the answer it is about,
    * whether or not the call survives. */
  function MortalStep(s: Sys, home: Layer -> Pid, max: nat, op: Op, f: Fates): Sys {
    match op
    case TryAcquire(pid, t, l) =>
      var turn := Acquire(s.disk, Last(s, pid), max, t, l, true, f);
      Sys(turn.disk, MemoryAfter(s.mem, pid, turn), if turn.answer == Some(true) then s.told + {(t, l)} else s.told)
    case GiveBack(pid, t) =>
      var turn := Release(s.disk, Last(s, pid), t, true, f);
      Sys(turn.disk, MemoryAfter(s.mem, pid, turn), set p | p in s.told && !(p.0 == t && home(p.1) == pid))
    case Restart(pid) => s.(mem := s.mem - {pid})
  }

  function MortalRun(s: Sys, home: Layer -> Pid, max: nat, run: seq<(Op, Fates)>): Sys
    decreases run
  {
    if run == [] then s else MortalRun(MortalStep(s, home, max, run[0].0, run[0].1), home, max, run[1..])
  }

  predicate AllMortal(s: Sys, home: Layer -> Pid, max: nat, run: seq<(Op, Fates)>)
    decreases run
  {
    run == [] || (Disciplined(s, home, run[0].0) && Mortal(run[0].1)
                  && AllMortal(MortalStep(s, home, max, run[0].0, run[0].1), home, max, run[1..]))
  }

  /** Every outstanding True answer is in the file, which may also hold what a process died over. */
  ghost predicate Kept(s: Sys, home: Layer -> Pid, max: nat) {
    && s.disk.cur.file.Whole? && |Held(s.disk)| <= max && Agrees(s.mem, Held(s.disk), home)
    && forall t, l :: (t, l) in s.told ==> t in Held(s.disk) && Held(s.disk)[t] == l
  }

  /** New content either replaces the old, and is remembered if the process survives, or the process
    * dies before the replace. */
  lemma SaveLandsOrDies(d: Disk<Positions>, last: Option<Positions>, content: Positions, f: Fates)
    requires last != Some(content) && Mortal(f) && d.cur.file.Whole?
    ensures var turn := Save(d, last, content, true, f);
            && turn.disk.cur.file.Whole?
            && ((Held(turn.disk) == content && (turn.answer == None || (turn.answer == Some(true) && turn.last == Some(content))))
                || (Held(turn.disk) == Held(d) && turn.answer == None))
  {
  }

  lemma ForgetAgrees(mem: map<Pid, Positions>, held: Positions, home: Layer -> Pid, pid: Pid)
    requires Agrees(mem, held, home)
    ensures Agrees(mem - {pid}, held, home)
  {
    forall p, t | p in mem - {pid} ensures OwnShare((mem - {pid})[p], home, p, t) == OwnShare(held, home, p, t) {
      assert OwnShare(mem[p], home, p, t) == OwnShare(held, home, p, t);
    }
  }

  /** What a write of changed content, by the process whose entry changes, makes of the memories. */
  lemma ChangeAgrees(s: Sys, home: Layer -> Pid, pid: Pid, t: Ticker, now: Positions, f: Fates)
    requires s.disk.cur.file.Whole? && Agrees(s.mem, Held(s.disk), home) && Mortal(f)
    requires OwnShare(now, home, pid, t) != OwnShare(Held(s.disk), home, pid, t)
    requires forall u | u != t :: (u in now <==> u in Held(s.disk)) && (u in now ==> now[u] == Held(s.disk)[u])
    requires t in now ==> home(now[t]) == pid
    requires t in Held(s.disk) ==> home(Held(s.disk)[t]) == pid
    ensures var turn := Save(s.disk, Last(s, pid), now, true, f);
            && turn.disk.cur.file.Whole? && Agrees(MemoryAfter(s.mem, pid, turn), Held(turn.disk), home)
            && (turn.answer == None || (turn.answer == Some(true) && Held(turn.disk) == now))
            && (Held(turn.disk) == now || Held(turn.disk) == Held(s.disk))
  {
    OwnChangeIsNew(s.mem, Held(s.disk), now, home, pid, t);
    SaveLandsOrDies(s.disk, Last(s, pid), now, f);
    ForgetAgrees(s.mem, Held(s.disk), home, pid);
    ForgetAgrees(s.mem[pid := now], now, home, pid);
    assert s.mem[pid := now] - {pid} == s.mem - {pid};
  }

  lemma MortalAcquire(s: Sys, home: Layer -> Pid, max: nat, pid: Pid, t: Ticker, l: Layer, f: Fates)
    requires Kept(s, home, max) && home(l) == pid && Mortal(f)
    ensures Kept(MortalStep(s, home, max, TryAcquire(pid, t, l), f), home, max)
  {
    var held := Held(s.disk);
    if t !in held && |held| < max {
      ChangeAgrees(s, home, pid, t, held[t := l], f);
    }
  }

  lemma MortalRelease(s: Sys, home: Layer -> Pid, max: nat, pid: Pid, t: Ticker, f: Fates)
    requires Kept(s, home, max) && Disciplined(s, home, GiveBack(pid, t)) && Mortal(f)
    ensures Kept(MortalStep(s, home, max, GiveBack(pid, t), f), home, max)
  {
    var held := Held(s.disk);
    if t in held {
      ChangeAgrees(s, home, pid, t, held - {t}, f);
      assert (held - {t}).Keys == held.Keys - {t};
      assert |(held - {t}).Keys| <= |held.Keys|;
    }
  }

  lemma MortalKeeps(s: Sys, home: Layer -> Pid, max: nat, op: Op, f: Fates)
    requires Kept(s, home, max) && Disciplined(s, home, op) && Mortal(f)
    ensures Kept(MortalStep(s, home, max, op, f), home, max)
  {
    match op
    case TryAcquire(pid, t, l) => MortalAcquire(s, home, max, pid, t, l, f);
    case GiveBack(pid, t) => MortalRelease(s, home, max, pid, t, f);
    case Restart(pid) => ForgetAgrees(s.mem, Held(s.disk), home, pid);
  }

  /** Registry safety with dying processes: wherever in their disk primitives processes die, and whether
    * or not checksums are written, every True answer not given back is in the file, the file is within
    * the limit, and no two layers hold True answers for one ticker. */
  lemma {:induction false} RegistryOutlivesDeaths(s: Sys, home: Layer -> Pid, max: nat, run: seq<(Op, Fates)>)
    requires Kept(s, home, max) && AllMortal(s, home, max, run)
    ensures var e := MortalRun(s, home, max, run);
            Kept(e, home, max) && forall t, a, b :: (t, a) in e.told && (t, b) in e.told ==> a == b
    decreases run
  {
    if run != [] {
      MortalKeeps(s, home, max, run[0].0, run[0].1);
      RegistryOutlivesDeaths(MortalStep(s, home, max, run[0].0, run[0].1), home, max, run[1..]);
    }
  }

  /** Every safe state is a possible start, a fresh one among them. */
  lemma SafeIsKept(s: Sys, home: Layer -> Pid, max: nat)
    requires Safe(s, home, max)
    ensures Kept(s, home, max)
  {
  }

  // ------------------------------------------------------------------ without the discipline

  /** Exactly when a release keeps a safe state safe: it comes from the holder's process, or the skip
    * drops it, because the caller remembers writing just the content without the ticker. */
  lemma ReleaseSafeExact(s: Sys, home: Layer -> Pid, max: nat, pid: Pid, t: Ticker)
    requires Safe(s, home, max) && t in Held(s.disk)
    ensures Safe(Step(s, home, max, GiveBack(pid, t)), home, max) <==>
            (home(Held(s.disk)[t]) == pid || Last(s, pid) == Some(Held(s.disk) - {t}))
  {
    var held, e := Held(s.disk), Step(s, home, max, GiveBack(pid, t));
    if home(held[t]) == pid {
      ReleaseKeepsSafe(s, home, max, pid, t);
    } else {
      assert (t, held[t]) in s.told;
      assert e.told == s.told;
      if Last(s, pid) == Some(held - {t}) {
        assert e.disk == s.disk && e.mem == s.mem;
      } else {
        SaveLands(s.disk, Last(s, pid), held - {t});
        assert (t, held[t]) in e.told && t !in Held(e.disk);
      }
    }
  }

  /** So from a fresh start one foreign release lets a second layer be told it holds a ticker whose
    * first holder was told so and never released it. */
  lemma ForeignReleaseBreaksSafety(d: Disk<Positions>, home: Layer -> Pid, max: nat)
    requires home("A") == 1 && home("B") == 2 && max >= 1 && Held(d) == map[]
    ensures var e := Run(Sys(d, map[], {}), home, max, [TryAcquire(1, "X", "A"), GiveBack(2, "X"), TryAcquire(2, "X", "B")]);
            e.told == {("X", "A"), ("X", "B")} && Held(e.disk) == map["X" := "B"]
  {
    var o1, o2, o3 := TryAcquire(1, "X", "A"), GiveBack(2, "X"), TryAcquire(2, "X", "B");
    var s1 := Step(Sys(d, map[], {}), home, max, o1);
    AcquiredThenDropped(d, home, max);
    var s2 := Step(s1, home, max, o2);
    assert map["X" := "B"] == map[]["X" := "B"] && "X" in map["X" := "B"];
    SaveLands(s2.disk, Last(s2, 2), map["X" := "B"]);
    assert [o1, o2, o3][1..] == [o2, o3] && [o2, o3][1..] == [o3];
    assert Run(s2, home, max, [o3]) == Step(s2, home, max, o3);
    assert Run(s1, home, max, [o2, o3]) == Run(s2, home, max, [o3]);
  }

  /** The state after A was acquired and another process released it. */
  function Dropped(d: Disk<Positions>, home: Layer -> Pid, max: nat): Sys {
    Step(Step(Sys(d, map[], {}), home, max, TryAcquire(1, "X", "A")), home, max, GiveBack(2, "X"))
  }

  lemma AcquiredThenDropped(d: Disk<Positions>, home: Layer -> Pid, max: nat)
    requires home("A") == 1 && max >= 1 && Held(d) == map[]
    ensures var s := Dropped(d, home, max);
            Held(s.disk) == map[] && s.told == {("X", "A")} && s.mem == map[1 := map["X" := "A"], 2 := map[]]
  {
    SaveLands(d, None, map["X" := "A"]);
    var s1 := Step(Sys(d, map[], {}), home, max, TryAcquire(1, "X", "A"));
    assert s1.mem == map[1 := map["X" := "A"]] && Held(s1.disk) == map["X" := "A"];
    assert map["X" := "A"] - {"X"} == map[];
    SaveLands(s1.disk, None, map[]);
  }

  /** The skip then drops an acquire: the next one by A's own process is answered True, and neither
    * the file nor anything else on disk changes. */
  lemma ForeignReleaseDropsAcquire(d: Disk<Positions>, home: Layer -> Pid, max: nat)
    requires home("A") == 1 && max >= 1 && Held(d) == map[]
    ensures var s := Dropped(d, home, max);
            var turn := Acquire(s.disk, Last(s, 1), max, "X", "A", true, ALL_DONE);
            turn.answer == Some(true) && turn.disk == s.disk && "X" !in Held(turn.disk)
  {
    AcquiredThenDropped(d, home, max);
    assert map[]["X" := "A"] == map["X" := "A"];
  }

  // ------------------------------------------------------------------ the class

  class DistributedPositionRegistry {
    const file: SafeStateFile<Positions>
    const globalMax: nat

    constructor (file: SafeStateFile<Positions>, globalMax: nat := 75)
      ensures this.file == file && this.globalMax == globalMax
    {
      this.file, this.globalMax := file, globalMax;
    }

    function Turned(answer: Option<bool>): Turn
      reads file, file.store
    {
      Turn(file.store.Snapshot(), file.lastHash, answer)
    }

    /** `try_acquire`: the write's own answer is ignored, so True means only "not refused". */
    method TryAcquireTicker(ticker: Ticker, layer: Layer, roomy: bool, f: Fates) returns (answer: Option<bool>)
      modifies file.store, file`lastHash
      ensures Turned(answer) == Acquire(old(file.store.Snapshot()), old(file.lastHash), globalMax, ticker, layer, roomy, f)
    {
      var positions := if file.store.cur.Whole? then file.store.cur.doc.content else map[];
      if ticker in positions && positions[ticker] == layer { return Some(true); }
      if ticker in positions { return Some(false); }
      if |positions| >= globalMax { return Some(false); }
      positions := positions[ticker := layer];
      var v := file.WriteInner(positions, roomy, f);
      return if v == Died then None else Some(true);
    }

    method ReleaseTicker(ticker: Ticker, roomy: bool, f: Fates) returns (answer: Option<bool>)
      modifies file.store, file`lastHash
      ensures Turned(answer) == Release(old(file.store.Snapshot()), old(file.lastHash), ticker, roomy, f)
    {
      if !file.store.cur.Whole? { return Some(true); }
      var positions := file.store.cur.doc.content;
      if ticker !in positions { return Some(true); }
      var v := file.WriteInner(positions - {ticker}, roomy, f);
      return if v == Died then None else Some(true);
    }

    /** `reset`: one write of no positions, whose answer says nothing about whether it was skipped. */
    method ResetPositions(roomy: bool, f: Fates) returns (answer: Option<bool>)
      modifies file.store, file`lastHash
      ensures Turned(answer) == Save(old(file.store.Snapshot()), old(file.lastHash), map[], roomy, f)
    {
      var v := file.WriteInner(map[], roomy, f);
      return if v == Died then None else Some(true);
    }

    /** `is_held`, `held_by` and `count`, from the validated read. */
    method Query(ticker: Ticker) returns (heldBy: Option<Layer>, count: nat)
      modifies file`lastReadVersion
      ensures var doc := Read(file.store.Snapshot());
              var positions := if doc.Some? then doc.value.content else map[];
              heldBy == (if ticker in positions then Some(positions[ticker]) else None) && count == |positions|
    {
      var doc := file.ReadState();
      if doc == None { return None, 0; }
      var positions := doc.value.content;
      return if ticker in positions then Some(positions[ticker]) else None, |positions|;
    }
  }
}
