/** Filters, sums and the keep-or-finish loop that every list pass of the simulator is. */
module Seqs {

  function Filter<A>(keep: A -> bool, s: seq<A>): seq<A> {
    if s == [] then []
    else if keep(s[|s| - 1]) then Filter(keep, s[..|s| - 1]) + [s[|s| - 1]]
    else Filter(keep, s[..|s| - 1])
  }

  lemma {:induction false} FilterMembers<A(!new)>(keep: A -> bool, s: seq<A>)
    ensures forall x :: x in Filter(keep, s) <==> (x in s && keep(x))
  {
    if s != [] {
      FilterMembers(keep, s[..|s| - 1]);
      assert s == s[..|s| - 1] + [s[|s| - 1]];
    }
  }

  function SumInt<A>(w: A -> int, s: seq<A>): int {
    if s == [] then 0 else SumInt(w, s[..|s| - 1]) + w(s[|s| - 1])
  }

  function SumReal<A>(w: A -> real, s: seq<A>): real {
    if s == [] then 0.0 else SumReal(w, s[..|s| - 1]) + w(s[|s| - 1])
  }

  lemma {:induction false} FilterAppend<A>(keep: A -> bool, s: seq<A>, t: seq<A>)
    ensures Filter(keep, s + t) == Filter(keep, s) + Filter(keep, t)
  {
    if t == [] {
      assert s + t == s;
    } else {
      assert (s + t)[..|s + t| - 1] == s + t[..|t| - 1];
      FilterAppend(keep, s, t[..|t| - 1]);
    }
  }

  lemma {:induction false} FilterShorter<A>(keep: A -> bool, s: seq<A>)
    ensures |Filter(keep, s)| <= |s|
  {
    if s != [] { FilterShorter(keep, s[..|s| - 1]); }
  }

  lemma {:induction false} FilterAll<A>(keep: A -> bool, s: seq<A>)
    requires forall i | 0 <= i < |s| :: keep(s[i])
    ensures Filter(keep, s) == s
  {
    if s != [] {
      FilterAll(keep, s[..|s| - 1]);
      assert s == s[..|s| - 1] + [s[|s| - 1]];
    }
  }

  lemma {:induction false} FilterNone<A>(keep: A -> bool, s: seq<A>)
    requires forall i | 0 <= i < |s| :: !keep(s[i])
    ensures Filter(keep, s) == []
  {
    if s != [] { FilterNone(keep, s[..|s| - 1]); }
  }

  lemma {:induction false} SumIntAppend<A>(w: A -> int, s: seq<A>, t: seq<A>)
    ensures SumInt(w, s + t) == SumInt(w, s) + SumInt(w, t)
  {
    if t == [] {
      assert s + t == s;
    } else {
      assert (s + t)[..|s + t| - 1] == s + t[..|t| - 1];
      SumIntAppend(w, s, t[..|t| - 1]);
    }
  }

  lemma SumIntOne<A>(w: A -> int, s: seq<A>, x: A)
    ensures SumInt(w, s + [x]) == SumInt(w, s) + w(x)
  {
  }

  lemma FilterOne<A>(keep: A -> bool, s: seq<A>, x: A)
    ensures keep(x) ==> Filter(keep, s + [x]) == Filter(keep, s) + [x]
    ensures !keep(x) ==> Filter(keep, s + [x]) == Filter(keep, s)
  {
  }

  lemma {:induction false} SumRealAppend<A>(w: A -> real, s: seq<A>, t: seq<A>)
    ensures SumReal(w, s + t) == SumReal(w, s) + SumReal(w, t)
  {
    if t == [] {
      assert s + t == s;
    } else {
      assert (s + t)[..|s + t| - 1] == s + t[..|t| - 1];
      SumRealAppend(w, s, t[..|t| - 1]);
    }
  }

  /** Replacing one element by any others moves the sum by the difference. */
  lemma SumIntSwap<A>(w: A -> int, s: seq<A>, i: nat, mid: seq<A>)
    requires i < |s|
    ensures SumInt(w, s[..i] + mid + s[i + 1..]) + w(s[i]) == SumInt(w, s) + SumInt(w, mid)
  {
    assert s == s[..i] + [s[i]] + s[i + 1..];
    SumIntAppend(w, s[..i] + [s[i]], s[i + 1..]);
    SumIntOne(w, s[..i], s[i]);
    SumIntAppend(w, s[..i] + mid, s[i + 1..]);
    SumIntAppend(w, s[..i], mid);
  }

  lemma SumIntFront<A>(w: A -> int, s: seq<A>)
    requires s != []
    ensures SumInt(w, s) == w(s[0]) + SumInt(w, s[1..])
  {
    assert s == [s[0]] + s[1..];
    SumIntAppend(w, [s[0]], s[1..]);
    SumIntOne(w, [], s[0]);
    assert [] + [s[0]] == [s[0]];
  }

  lemma {:induction false} SumZero<A>(w: A -> int, s: seq<A>)
    requires forall i | 0 <= i < |s| :: w(s[i]) == 0
    ensures SumInt(w, s) == 0
  {
    if s != [] { SumZero(w, s[..|s| - 1]); }
  }

  lemma {:induction false} SumIntParts<A(!new)>(w: A -> int, p: A -> bool, q: A -> bool, s: seq<A>)
    requires forall x :: q(x) == !p(x)
    ensures SumInt(w, Filter(p, s)) + SumInt(w, Filter(q, s)) == SumInt(w, s)
  {
    if s != [] {
      var front, x := s[..|s| - 1], s[|s| - 1];
      SumIntParts(w, p, q, front);
      if p(x) { SumIntOne(w, Filter(p, front), x); } else { SumIntOne(w, Filter(q, front), x); }
    }
  }

  lemma {:induction false} FilterWithin<A(!new)>(p: A -> bool, q: A -> bool, s: seq<A>)
    requires forall x :: p(x) ==> q(x)
    ensures Filter(p, Filter(q, s)) == Filter(p, s)
  {
    if s != [] {
      var front, x := s[..|s| - 1], s[|s| - 1];
      FilterWithin(p, q, front);
      FilterOne(p, Filter(q, front), x);
    }
  }

  lemma {:induction false} FilterApart<A(!new)>(p: A -> bool, q: A -> bool, s: seq<A>)
    requires forall x :: p(x) ==> !q(x)
    ensures Filter(p, Filter(q, s)) == []
  {
    if s != [] {
      var front, x := s[..|s| - 1], s[|s| - 1];
      FilterApart(p, q, front);
      FilterOne(p, Filter(q, front), x);
    }
  }

  /** What one pass makes of an element: what stays in the list, and what it finishes as. */
  datatype Outcome<A, T> = Outcome(kept: seq<A>, done: seq<T>)

  function Join<A, T>(a: Outcome<A, T>, b: Outcome<A, T>): Outcome<A, T> {
    Outcome(a.kept + b.kept, a.done + b.done)
  }

  /** A pass over a list, front to back. */
  function Scan<A, T>(f: A -> Outcome<A, T>, s: seq<A>): Outcome<A, T> {
    if s == [] then Outcome([], []) else Join(Scan(f, s[..|s| - 1]), f(s[|s| - 1]))
  }

  lemma ScanNext<A, T>(f: A -> Outcome<A, T>, s: seq<A>, i: nat)
    requires i < |s|
    ensures Scan(f, s[..i + 1]) == Join(Scan(f, s[..i]), f(s[i]))
  {
    assert s[..i + 1][..i] == s[..i];
  }

  /** Nothing in the pass comes from anywhere but an element of the list. */
  lemma {:induction false} ScanSource<A(!new), T(!new)>(f: A -> Outcome<A, T>, s: seq<A>)
    ensures forall x :: x in Scan(f, s).kept ==> exists a :: a in s && x in f(a).kept
    ensures forall x :: x in Scan(f, s).done ==> exists a :: a in s && x in f(a).done
  {
    if s != [] {
      ScanSource(f, s[..|s| - 1]);
      assert s == s[..|s| - 1] + [s[|s| - 1]];
    }
  }

  lemma {:induction false} ScanAppend<A, T>(f: A -> Outcome<A, T>, s: seq<A>, t: seq<A>)
    ensures Scan(f, s + t) == Join(Scan(f, s), Scan(f, t))
  {
    if t == [] {
      assert s + t == s;
    } else {
      assert (s + t)[..|s + t| - 1] == s + t[..|t| - 1];
      ScanAppend(f, s, t[..|t| - 1]);
    }
  }

  /** A pass that leaves every element alone changes nothing. */
  lemma {:induction false} ScanIdle<A, T>(f: A -> Outcome<A, T>, s: seq<A>)
    requires forall i | 0 <= i < |s| :: f(s[i]) == Outcome([s[i]], [])
    ensures Scan(f, s) == Outcome(s, [])
  {
    if s != [] {
      ScanIdle(f, s[..|s| - 1]);
      assert s == s[..|s| - 1] + [s[|s| - 1]];
    }
  }

  /** The element finishes as members of its own class. */
  ghost predicate Separated<A, T>(f: A -> Outcome<A, T>, inA: A -> bool, inT: T -> bool, a: A) {
    && Filter(inA, f(a).kept) == (if inA(a) then f(a).kept else [])
    && Filter(inT, f(a).done) == (if inA(a) then f(a).done else [])
  }

  /** Scanning and then selecting a class is selecting it and then scanning. */
  ghost predicate Selects<A, T>(f: A -> Outcome<A, T>, inA: A -> bool, inT: T -> bool, s: seq<A>) {
    && Filter(inA, Scan(f, s).kept) == Scan(f, Filter(inA, s)).kept
    && Filter(inT, Scan(f, s).done) == Scan(f, Filter(inA, s)).done
  }

  lemma ScanSelectsLast<A, T>(f: A -> Outcome<A, T>, inA: A -> bool, inT: T -> bool, front: seq<A>, last: A)
    requires Selects(f, inA, inT, front) && Separated(f, inA, inT, last)
    ensures Selects(f, inA, inT, front + [last])
  {
    var s, mine := front + [last], Filter(inA, front);
    assert s[..|s| - 1] == front;
    FilterAppend(inA, Scan(f, front).kept, f(last).kept);
    FilterAppend(inT, Scan(f, front).done, f(last).done);
    if inA(last) {
      assert Filter(inA, s) == mine + [last] && (mine + [last])[..|mine|] == mine;
    } else {
      assert Filter(inA, s) == mine;
    }
  }

  lemma SelectsNothing<A, T>(f: A -> Outcome<A, T>, inA: A -> bool, inT: T -> bool)
    ensures Selects(f, inA, inT, [])
  {
  }

  /** A pass that never mixes classes commutes with selecting one class. */
  lemma {:induction false} ScanSelects<A(!new), T>(f: A -> Outcome<A, T>, inA: A -> bool, inT: T -> bool, s: seq<A>)
    requires forall a :: Separated(f, inA, inT, a)
    ensures Selects(f, inA, inT, s)
  {
    if s == [] {
      SelectsNothing(f, inA, inT);
    } else {
      var front, last := s[..|s| - 1], s[|s| - 1];
      assert s == front + [last];
      ScanSelects(f, inA, inT, front);
      ScanSelectsLast(f, inA, inT, front, last);
    }
  }

  /** If no element weighs more after its turn than before, neither does the list. */
  lemma {:induction false} ScanWeighs<A(!new), T>(f: A -> Outcome<A, T>, wa: A -> int, wt: T -> int, s: seq<A>)
    requires forall a :: SumInt(wa, f(a).kept) + SumInt(wt, f(a).done) <= wa(a)
    ensures SumInt(wa, Scan(f, s).kept) + SumInt(wt, Scan(f, s).done) <= SumInt(wa, s)
  {
    if s != [] {
      var front, last := s[..|s| - 1], s[|s| - 1];
      ScanWeighs(f, wa, wt, front);
      SumIntAppend(wa, Scan(f, front).kept, f(last).kept);
      SumIntAppend(wt, Scan(f, front).done, f(last).done);
    }
  }
}
