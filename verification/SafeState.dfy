/** lifecycle/safe_state.py: the checksummed state file with two rolling backups.
  *
  * A write is a sequence of disk primitives (write tmp, copy a file, copy a sidecar, replace,
  * write the checksum).  The environment gives each primitive a fate; every combination of
  * operating-system errors and crash points is one value of `Fates`.
  */
module SafeState {
  import opened Wrappers

  /** The JSON document: the metadata version and the part hashed for the unchanged test. */
  datatype Doc<C> = Doc(version: nat, content: C)

  /** A torn file is a proper prefix of the intended text: it is not JSON and has no valid hash. */
  datatype File<C> = Absent | Torn | Whole(doc: Doc<C>)

  /** A `.sha256` sidecar.  Hashes are taken to be injective, so a sidecar names one document. */
  datatype Sidecar<C> = NoSum | BadSum | SumOf(doc: Doc<C>)

  datatype Slot<C> = Slot(file: File<C>, sum: Sidecar<C>)

  datatype Disk<C> = Disk(cur: Slot<C>, prev: Slot<C>, prev2: Slot<C>, tmp: File<C>)

  /** What happens at one primitive: it is done, it raises OSError, or the process dies in it.
    * `torn` says whether the destination had already been truncated. */
  datatype Fate = Done | Failed(torn: bool) | Crashed(torn: bool)

  datatype Fates = Fates(tmp: Fate, prev2: Fate, prev2Sum: Fate, prev: Fate, prevSum: Fate, swap: Fate, sum: Fate)

  const ALL_DONE := Fates(Done, Done, Done, Done, Done, Done, Done)

  /** How control leaves a group of primitives. */
  datatype Flow = Go | Raised | Dead

  /** How `_write_inner` ends: three ways to return False, one to return True, or a crash. */
  datatype Verdict = Unchanged | NoRoom | Refused | Written | Died

  /** One call of `write` by some instance whose in-memory `_last_hash` is `last`. */
  datatype Attempt<C> = Attempt(content: C, last: Option<C>, roomy: bool, fates: Fates)

  // ------------------------------------------------------------------ reading

  function ReadSlot<C(==)>(s: Slot<C>): Option<Doc<C>> {
    if s.file.Whole? && (s.sum.NoSum? || s.sum == SumOf(s.file.doc)) then Some(s.file.doc) else None
  }

  /** `read`: the primary, then `.prev`, then `.prev2`. */
  function Read<C(==)>(d: Disk<C>): Option<Doc<C>> {
    if ReadSlot(d.cur).Some? then ReadSlot(d.cur)
    else if ReadSlot(d.prev).Some? then ReadSlot(d.prev)
    else ReadSlot(d.prev2)
  }

  /** The version `_write_inner` continues from: the primary read raw, without its checksum. */
  function CurVersion<C>(d: Disk<C>): nat {
    if d.cur.file.Whole? then d.cur.file.doc.version else 0
  }

  // ------------------------------------------------------------------ writing

  function Put<T>(before: T, torn: T, after: T, fate: Fate): T {
    match fate
    case Done => after
    case Failed(t) => if t then torn else before
    case Crashed(t) => if t then torn else before
  }

  function FlowOf(fate: Fate): Flow {
    match fate
    case Done => Go
    case Failed(_) => Raised
    case Crashed(_) => Dead
  }

  /** Copies a file and, if it has one, its sidecar over the next older slot. */
  function CopySlot<C>(src: Slot<C>, dst: Slot<C>, file: Fate, sum: Fate): (Slot<C>, Flow) {
    if src.file.Absent? then (dst, Go)
    else if !file.Done? then (dst.(file := Put(dst.file, Torn, src.file, file)), FlowOf(file))
    else if src.sum.NoSum? then (dst.(file := src.file), Go)
    else (Slot(src.file, Put(dst.sum, BadSum, src.sum, sum)), FlowOf(sum))
  }

  function Rotate<C>(d: Disk<C>, f: Fates): (Disk<C>, Flow) {
    var (older, flow) := CopySlot(d.prev, d.prev2, f.prev2, f.prev2Sum);
    if flow != Go then (d.(prev2 := older), flow)
    else
      var (newer, flow') := CopySlot(d.cur, d.prev, f.prev, f.prevSum);
      (d.(prev2 := older, prev := newer), flow')
  }

  /** From the rotation on: an OSError inside the rotation is swallowed, one in the replace is not. */
  function Commit<C>(d: Disk<C>, doc: Doc<C>, f: Fates): (Disk<C>, Verdict) {
    var (rotated, flow) := Rotate(d, f);
    if flow == Dead then (rotated, Died)
    else if f.swap.Failed? then (rotated.(tmp := Absent), Refused)
    else if f.swap.Crashed? then (rotated, Died)
    else
      var sum := Put(rotated.cur.sum, BadSum, SumOf(doc), f.sum);
      (rotated.(cur := Slot(Whole(doc), sum), tmp := Absent), if f.sum.Crashed? then Died else Written)
  }

  function NextDoc<C>(d: Disk<C>, content: C): Doc<C> { Doc(CurVersion(d) + 1, content) }

  function Write<C(==)>(d: Disk<C>, a: Attempt<C>): (Disk<C>, Verdict) {
    if a.last == Some(a.content) then (d, Unchanged)
    else if !a.roomy then (d, NoRoom)
    else
      match a.fates.tmp
      case Failed(_) => (d.(tmp := Absent), Refused)
      case Crashed(torn) => (d.(tmp := if torn then Torn else d.tmp), Died)
      case Done =>
        var doc := NextDoc(d, a.content);
        Commit(d.(tmp := Whole(doc)), doc, a.fates)
  }

  // ------------------------------------------------------------------ crash tolerance

  predicate Clean<C(==)>(s: Slot<C>, doc: Doc<C>) { s == Slot(Whole(doc), SumOf(doc)) }

  /** A slot that reads as nothing: torn or too new, under a sidecar that is bad or too old. */
  predicate Spoiled<C>(s: Slot<C>, v: nat) {
    && (s.file.Torn? || (s.file.Whole? && s.file.doc.version > v))
    && (s.sum.BadSum? || (s.sum.SumOf? && s.sum.doc.version <= v))
  }

  /** `doc` is readable, and would still be after 2 - strikes more interrupted writes. */
  predicate Covered<C(==)>(d: Disk<C>, doc: Doc<C>, strikes: nat) {
    || Clean(d.cur, doc)
    || (strikes >= 1 && d.cur.file.Whole? && Spoiled(d.cur, doc.version) && Clean(d.prev, doc))
    || (strikes >= 2 && d.cur.file.Whole? && Spoiled(d.cur, doc.version)
        && Spoiled(d.prev, doc.version) && Clean(d.prev2, doc))
  }

  /** The attempt got past the tests and the tmp file, so it went on to touch the three copies. */
  predicate Started<C(==)>(a: Attempt<C>) {
    a.last != Some(a.content) && a.roomy && a.fates.tmp.Done?
  }

  /** The new document was put in place together with its checksum. */
  predicate Completes<C(==)>(d: Disk<C>, a: Attempt<C>) {
    Started(a) && Rotate(d, a.fates).1 != Dead && a.fates.swap.Done? && a.fates.sum.Done?
  }

  /** A swallowed rotation error followed by a replace whose checksum was not written. */
  predicate Blind<C(==)>(d: Disk<C>, a: Attempt<C>) {
    Started(a) && Rotate(d, a.fates).1 == Raised && a.fates.swap.Done? && !a.fates.sum.Done?
  }

  /** The disk with the last completed document and the interrupted writes counted since. */
  datatype Book<C> = Book(disk: Disk<C>, doc: Doc<C>, strikes: nat)

  function Track<C(==)>(b: Book<C>, a: Attempt<C>): Book<C> {
    var after := Write(b.disk, a).0;
    if Completes(b.disk, a) then Book(after, NextDoc(b.disk, a.content), 0)
    else Book(after, b.doc, if Started(a) then b.strikes + 1 else b.strikes)
  }

  function TrackAll<C(==)>(b: Book<C>, run: seq<Attempt<C>>): Book<C>
    decreases run
  {
    if run == [] then b else TrackAll(Track(b, run[0]), run[1..])
  }

  /** No blind write, and never more than two interrupted writes since the last complete one. */
  predicate Tolerable<C(==)>(b: Book<C>, run: seq<Attempt<C>>)
    decreases run
  {
    b.strikes <= 2 && (run == [] || (!Blind(b.disk, run[0]) && Tolerable(Track(b, run[0]), run[1..])))
  }

  lemma CoveredReads<C>(d: Disk<C>, doc: Doc<C>, strikes: nat)
    requires Covered(d, doc, strikes)
    ensures Read(d) == Some(doc)
  {
  }

  /** One attempt, whatever its fates, moves the cover at most one slot back. */
  lemma StrikeKeepsCover<C>(b: Book<C>, a: Attempt<C>)
    requires Covered(b.disk, b.doc, b.strikes) && !Blind(b.disk, a) && Track(b, a).strikes <= 2
    ensures Covered(Track(b, a).disk, Track(b, a).doc, Track(b, a).strikes)
    ensures Track(b, a).doc.version >= b.doc.version
  {
  }

  lemma {:induction false} TolerableKeepsCover<C>(b: Book<C>, run: seq<Attempt<C>>)
    requires Covered(b.disk, b.doc, b.strikes) && Tolerable(b, run)
    ensures var e := TrackAll(b, run);
            Covered(e.disk, e.doc, e.strikes) && Read(e.disk) == Some(e.doc) && e.doc.version >= b.doc.version
    decreases run
  {
    if run == [] {
      CoveredReads(b.disk, b.doc, b.strikes);
    } else {
      StrikeKeepsCover(b, run[0]);
      TolerableKeepsCover(Track(b, run[0]), run[1..]);
    }
  }

  /** The state of the book right after attempt `a` completed on a disk in any condition. */
  function Completed<C(==)>(d: Disk<C>, a: Attempt<C>): Book<C> {
    Book(Write(d, a).0, NextDoc(d, a.content), 0)
  }

  /** Crash tolerance: once a write has completed, and while at most two of the writes after the
    * latest complete one were interrupted, `read` returns exactly the last completed document. */
  lemma CrashTolerance<C>(d: Disk<C>, a: Attempt<C>, run: seq<Attempt<C>>)
    requires Completes(d, a) && Tolerable(Completed(d, a), run)
    ensures var e := TrackAll(Completed(d, a), run);
            && Read(e.disk) == Some(e.doc) && e.doc.version > CurVersion(d)
            && (PrimaryHighest(d) ==> forall s | s in [d.cur, d.prev, d.prev2] :: Older(s, e.doc.version))
  {
    TolerableKeepsCover(Completed(d, a), run);
  }

  lemma {:induction false} TrackAllSplits<C>(b: Book<C>, run: seq<Attempt<C>>, more: seq<Attempt<C>>)
    requires Tolerable(b, run + more)
    ensures Tolerable(b, run) && Tolerable(TrackAll(b, run), more)
    ensures TrackAll(b, run + more) == TrackAll(TrackAll(b, run), more)
    decreases run
  {
    if run == [] {
      assert run + more == more;
    } else {
      assert (run + more)[1..] == run[1..] + more;
      TrackAllSplits(Track(b, run[0]), run[1..], more);
    }
  }

  /** Two reads in one tolerable run never see the version go back. */
  lemma ReadsNeverGoBack<C>(d: Disk<C>, a: Attempt<C>, run: seq<Attempt<C>>, more: seq<Attempt<C>>)
    requires Completes(d, a) && Tolerable(Completed(d, a), run + more)
    ensures var first := Read(TrackAll(Completed(d, a), run).disk);
            var second := Read(TrackAll(Completed(d, a), run + more).disk);
            first.Some? && second.Some? && first.value.version <= second.value.version
  {
    var b := Completed(d, a);
    TrackAllSplits(b, run, more);
    TolerableKeepsCover(b, run);
    TolerableKeepsCover(TrackAll(b, run), more);
  }

  function WriteAll<C(==)>(d: Disk<C>, run: seq<Attempt<C>>): Disk<C>
    decreases run
  {
    if run == [] then d else WriteAll(Write(d, run[0]).0, run[1..])
  }

  /** A write that dies right after the replace, before its checksum. */
  function DiesBeforeSum<C>(content: C): Attempt<C> {
    Attempt(content, None, true, ALL_DONE.(sum := Crashed(false)))
  }

  /** A write that dies while copying `.prev` over `.prev2`. */
  function DiesInBackup<C>(content: C): Attempt<C> {
    Attempt(content, None, true, ALL_DONE.(prev2 := Crashed(true)))
  }

  lemma TwoStrikes<C>(d: Disk<C>, doc: Doc<C>, x: C, y: C)
    requires Clean(d.cur, doc)
    ensures var e := Write(Write(d, DiesBeforeSum(x)).0, DiesBeforeSum(y)).0;
            Spoiled(e.cur, doc.version) && Spoiled(e.prev, doc.version) && Clean(e.prev2, doc)
  {
  }

  /** Two is tight: from every healthy disk, two such writes and a third that dies while copying
    * `.prev` leave nothing readable. */
  lemma ThirdStrikeLosesAll<C>(d: Disk<C>, doc: Doc<C>, x: C, y: C, z: C)
    requires Clean(d.cur, doc)
    ensures var e := WriteAll(d, [DiesBeforeSum(x), DiesBeforeSum(y), DiesInBackup(z)]); Read(e) == None
  {
    TwoStrikes(d, doc, x, y);
    var a, b, c := DiesBeforeSum(x), DiesBeforeSum(y), DiesInBackup(z);
    var d1 := Write(d, a).0;
    var d2 := Write(d1, b).0;
    assert [a, b, c][1..] == [b, c] && [b, c][1..] == [c] && [c][1..] == [];
    assert WriteAll(d1, [b, c]) == WriteAll(d2, [c]) == Write(d2, c).0;
    assert Write(d2, c).0.prev2.file == Torn;
  }

  // ------------------------------------------------------------------ exactness

  predicate Older<C>(s: Slot<C>, v: nat) {
    (s.file.Whole? ==> s.file.doc.version < v) && (s.sum.SumOf? ==> s.sum.doc.version < v)
  }

  /** The rotation failed only in its very last primitive, onto a `.prev` that never had a sidecar. */
  predicate BareBackup<C>(d: Disk<C>, f: Fates) {
    && CopySlot(d.prev, d.prev2, f.prev2, f.prev2Sum).1 == Go
    && f.prev.Done? && d.prev.sum.NoSum? && f.prevSum == Failed(false)
  }

  /** A completed write leaves both backups strictly older than itself. */
  lemma CompletedIsNewest<C>(d: Disk<C>, done: Attempt<C>)
    requires PrimaryHighest(d) && Completes(d, done)
    ensures var b := Completed(d, done);
            Clean(b.disk.cur, b.doc) && Older(b.disk.prev, b.doc.version) && Older(b.disk.prev2, b.doc.version)
  {
  }

  lemma OneWriteOverClean<C>(d: Disk<C>, doc: Doc<C>, a: Attempt<C>)
    requires Clean(d.cur, doc) && Older(d.prev, doc.version) && Older(d.prev2, doc.version)
    ensures var r := Read(Write(d, a).0);
            (r.Some? && r.value.version >= doc.version) <==> (!Blind(d, a) || BareBackup(d, a.fates))
  {
  }

  /** Exactly which single write after a completed one can lose the completed state: a blind one. */
  lemma OneWriteExact<C>(d: Disk<C>, done: Attempt<C>, a: Attempt<C>)
    requires PrimaryHighest(d) && Completes(d, done)
    ensures var b := Completed(d, done);
            var r := Read(Write(b.disk, a).0);
            (r.Some? && r.value.version >= b.doc.version) <==> (!Blind(b.disk, a) || BareBackup(b.disk, a.fates))
  {
    CompletedIsNewest(d, done);
    var b := Completed(d, done);
    OneWriteOverClean(b.disk, b.doc, a);
  }

  // ------------------------------------------------------------------ versions

  predicate SumBelow<C>(s: Sidecar<C>, v: nat) { s.SumOf? ==> s.doc.version <= v }

  predicate SlotBelow<C>(s: Slot<C>, v: nat) {
    (s.file.Whole? ==> s.file.doc.version <= v) && SumBelow(s.sum, v)
  }

  /** The primary is never torn and carries the highest version of any copy or sidecar. */
  predicate PrimaryHighest<C>(d: Disk<C>) {
    && !d.cur.file.Torn?
    && SlotBelow(d.cur, CurVersion(d)) && SlotBelow(d.prev, CurVersion(d)) && SlotBelow(d.prev2, CurVersion(d))
  }

  lemma WriteKeepsPrimaryHighest<C>(d: Disk<C>, a: Attempt<C>)
    requires PrimaryHighest(d)
    ensures var e := Write(d, a).0;
            PrimaryHighest(e) && (e.cur.file == d.cur.file || CurVersion(e) == CurVersion(d) + 1)
  {
    if Started(a) {
      var rotated := Rotate(d, a.fates).0;
      assert rotated.cur == d.cur && PrimaryHighest(rotated);
    }
  }

  /** Whatever is interrupted, a replaced primary carries a version above every earlier one. */
  lemma {:induction false} PrimariesGrow<C>(d: Disk<C>, run: seq<Attempt<C>>)
    requires PrimaryHighest(d)
    ensures var e := WriteAll(d, run);
            PrimaryHighest(e) && (e.cur.file == d.cur.file || CurVersion(e) > CurVersion(d))
    decreases run
  {
    if run != [] {
      WriteKeepsPrimaryHighest(d, run[0]);
      PrimariesGrow(Write(d, run[0]).0, run[1..]);
    }
  }

  /** A write that returned True is the state that `read` returns if and only if its checksum was
    * written, or there was no sidecar and none was begun: a stale sidecar hides the new primary. */
  lemma AcknowledgedExact<C>(d: Disk<C>, a: Attempt<C>)
    requires PrimaryHighest(d) && Write(d, a).1 == Written
    ensures Read(Write(d, a).0) == Some(NextDoc(d, a.content)) <==>
            (a.fates.sum.Done? || (d.cur.sum.NoSum? && a.fates.sum == Failed(false)))
  {
  }

  /** What each way of returning means for the files: a write that was not needed or found no room leaves
    * the disk alone, a refused one leaves the primary, a True one is in the primary; the last two leave no
    * temporary file. */
  lemma VerdictMeans<C>(d: Disk<C>, a: Attempt<C>)
    ensures var (e, v) := Write(d, a);
            && (v == Unchanged <==> a.last == Some(a.content)) && (v == NoRoom <==> a.last != Some(a.content) && !a.roomy)
            && (v == Unchanged || v == NoRoom ==> e == d)
            && (v == Refused ==> e.cur == d.cur && e.tmp == Absent)
            && (v == Written ==> e.cur.file == Whole(Doc(CurVersion(d) + 1, a.content)) && e.tmp == Absent)
  {
  }

  /** A rotation that nothing interrupts moves every copy that exists one place back; a sidecar moves only
    * if there is one. */
  lemma RotationShifts<C>(d: Disk<C>, f: Fates)
    requires f.prev2.Done? && f.prev2Sum.Done? && f.prev.Done? && f.prevSum.Done?
    ensures var (e, flow) := Rotate(d, f);
            && flow == Go && e.cur == d.cur && e.tmp == d.tmp
            && e.prev.file == (if d.cur.file.Absent? then d.prev.file else d.cur.file)
            && e.prev.sum == (if d.cur.file.Absent? || d.cur.sum.NoSum? then d.prev.sum else d.cur.sum)
            && e.prev2.file == (if d.prev.file.Absent? then d.prev2.file else d.prev.file)
            && e.prev2.sum == (if d.prev.file.Absent? || d.prev.sum.NoSum? then d.prev2.sum else d.prev.sum)
  {
  }

  /** A blind write makes a read go back: over a healthy disk one write completes and is read, the next
    * cannot copy the primary nor write its checksum, and the read after it returns the older document. */
  lemma ReadGoesBack<C>(d: Disk<C>, doc: Doc<C>, x: C, y: C)
    requires Clean(d.cur, doc)
    ensures var first := Write(d, Attempt(x, None, true, ALL_DONE)).0;
            var second := Write(first, Attempt(y, None, true, ALL_DONE.(prev := Failed(false), sum := Failed(false))));
            && Read(first) == Some(Doc(doc.version + 1, x)) && second.1 == Written && Read(second.0) == Some(doc)
  {
  }

  // ------------------------------------------------------------------ the class

  /** The files on disk, shared by every instance. */
  class DiskStore<C(==)> {
    var cur: File<C>
    var curSum: Sidecar<C>
    var prev: File<C>
    var prevSum: Sidecar<C>
    var prev2: File<C>
    var prev2Sum: Sidecar<C>
    var tmp: File<C>

    constructor ()
      ensures Snapshot() == Disk(Slot(Absent, NoSum), Slot(Absent, NoSum), Slot(Absent, NoSum), Absent)
    {
      cur, curSum, prev, prevSum, prev2, prev2Sum, tmp := Absent, NoSum, Absent, NoSum, Absent, NoSum, Absent;
    }

    function Snapshot(): Disk<C>
      reads this
    {
      Disk(Slot(cur, curSum), Slot(prev, prevSum), Slot(prev2, prev2Sum), tmp)
    }
  }

  class SafeStateFile<C(==)> {
    const store: DiskStore<C>
    var lastHash: Option<C>
    var lastReadVersion: nat

    constructor (store: DiskStore<C>)
      ensures this.store == store && lastHash == None && lastReadVersion == 0
    {
      this.store, lastHash, lastReadVersion := store, None, 0;
    }

    /** `_write_inner`, under the exclusive lock; `Died` stands for the process dying in the call. */
    method WriteInner(content: C, roomy: bool, f: Fates) returns (v: Verdict)
      modifies store, this`lastHash
      ensures (store.Snapshot(), v) == Write(old(store.Snapshot()), Attempt(content, old(lastHash), roomy, f))
      ensures lastHash == if v == Written then Some(content) else old(lastHash)
    {
      var version := 1 + if store.cur.Whole? then store.cur.doc.version else 0;
      var doc := Doc(version, content);
      if lastHash == Some(content) { return Unchanged; }
      if !roomy { return NoRoom; }
      match f.tmp {
        case Failed(_) => store.tmp := Absent; return Refused;
        case Crashed(torn) => if torn { store.tmp := Torn; } return Died;
        case Done => store.tmp := Whole(doc);
      }
      var flow := RotateBackups(f);
      if flow == Dead { return Died; }
      if f.swap.Failed? { store.tmp := Absent; return Refused; }
      if f.swap.Crashed? { return Died; }
      store.cur, store.tmp := store.tmp, Absent;
      store.curSum := Put(store.curSum, BadSum, SumOf(doc), f.sum);
      if f.sum.Crashed? { return Died; }
      lastHash := Some(content);
      return Written;
    }

    /** `_rotate_backups`: prev to prev2, then current to prev, giving up at the first error. */
    method RotateBackups(f: Fates) returns (flow: Flow)
      modifies store
      ensures (store.Snapshot(), flow) == Rotate(old(store.Snapshot()), f)
    {
      if !store.prev.Absent? {
        store.prev2 := Put(store.prev2, Torn, store.prev, f.prev2);
        if !f.prev2.Done? { return FlowOf(f.prev2); }
        if !store.prevSum.NoSum? {
          store.prev2Sum := Put(store.prev2Sum, BadSum, store.prevSum, f.prev2Sum);
          if !f.prev2Sum.Done? { return FlowOf(f.prev2Sum); }
        }
      }
      if !store.cur.Absent? {
        store.prev := Put(store.prev, Torn, store.cur, f.prev);
        if !f.prev.Done? { return FlowOf(f.prev); }
        if !store.curSum.NoSum? {
          store.prevSum := Put(store.prevSum, BadSum, store.curSum, f.prevSum);
          if !f.prevSum.Done? { return FlowOf(f.prevSum); }
        }
      }
      return Go;
    }

    /** `read`, under the shared lock.  A version below the last one seen is logged, not refused. */
    method ReadState() returns (doc: Option<Doc<C>>)
      modifies this`lastReadVersion
      ensures doc == Read(store.Snapshot())
      ensures lastReadVersion == if doc.Some? && doc.value.version > old(lastReadVersion)
                                 then doc.value.version else old(lastReadVersion)
    {
      doc := ReadSlot(Slot(store.cur, store.curSum));
      if doc == None { doc := ReadSlot(Slot(store.prev, store.prevSum)); }
      if doc == None { doc := ReadSlot(Slot(store.prev2, store.prev2Sum)); }
      if doc.Some? && doc.value.version >= lastReadVersion {
        lastReadVersion := doc.value.version;
      }
    }
  }
}
