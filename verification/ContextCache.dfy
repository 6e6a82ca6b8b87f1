/** monitor/edge_context.py, SignalContextCache: contexts by event id, taken once, the oldest store
  * evicted first.  Every method runs under the cache's lock, so a history is a sequence of calls. */
module ContextCache {
  import opened Wrappers
  import opened Seqs

  type Key = string
  type Context = map<string, string>

  /** One item of the ordered dict; the oldest store comes first. */
  datatype Entry = Entry(key: Key, context: Context)

  function Not(k: Key): Entry -> bool { (x: Entry) => x.key != k }

  function Found(s: seq<Entry>, k: Key): Option<Context> {
    if s == [] then None
    else if s[|s| - 1].key == k then Some(s[|s| - 1].context)
    else Found(s[..|s| - 1], k)
  }

  /** `popitem(last=False)` until the size is right. */
  function Evict(s: seq<Entry>, max: nat): seq<Entry> { if |s| > max then s[|s| - max..] else s }

  function Stored(s: seq<Entry>, k: Key, v: Context, max: nat): seq<Entry> {
    Evict(Filter(Not(k), s) + [Entry(k, v)], max)
  }

  /** What `get` and `peek` answer: the empty dict for no id, an empty id, or an unknown id. */
  function Answer(s: seq<Entry>, id: Option<Key>): Context {
    if id.None? || id.value == "" || Found(s, id.value).None? then map[] else Found(s, id.value).value
  }

  function Taken(s: seq<Entry>, id: Option<Key>): seq<Entry> {
    if id.None? || id.value == "" then s else Filter(Not(id.value), s)
  }

  datatype Call = Store(key: Key, context: Context) | Get(id: Option<Key>) | Peek(id: Option<Key>)

  function After(h: seq<Call>, max: nat): seq<Entry> {
    if h == [] then []
    else
      var s := After(h[..|h| - 1], max);
      match h[|h| - 1]
      case Store(k, v) => Stored(s, k, v, max)
      case Get(id) => Taken(s, id)
      case Peek(_) => s
  }

  // ------------------------------------------------------------------ the guarantee, from the history alone

  /** The context last stored for a key. */
  function Latest(h: seq<Call>, k: Key): Context {
    if h == [] then map[]
    else if h[|h| - 1].Store? && h[|h| - 1].key == k then h[|h| - 1].context
    else Latest(h[..|h| - 1], k)
  }

  predicate Takes(c: Call, k: Key) { c.Get? && c.id == Some(k) }

  /** The other keys stored after the key's own latest store, and not taken since. */
  function Newer(h: seq<Call>, k: Key): set<Key> {
    if h == [] then {}
    else
      var c, before := h[|h| - 1], Newer(h[..|h| - 1], k);
      if c.Store? then (if c.key == k then {} else before + {c.key})
      else if c.Get? && c.id.Some? && c.id.value != "" then before - {c.id.value}
      else before
  }

  /** The key was stored, not taken since, and at no store since were `max` newer keys waiting. */
  predicate Kept(h: seq<Call>, k: Key, max: nat) {
    h != [] && (
      var c, front := h[|h| - 1], h[..|h| - 1];
      if c.Store? then (if c.key == k then max > 0 else Kept(front, k, max) && |Newer(h, k)| < max)
      else Kept(front, k, max) && !Takes(c, k))
  }

  // ------------------------------------------------------------------ the ordered dict

  predicate DistinctKeys(s: seq<Entry>) { forall i, j | 0 <= i < j < |s| :: s[i].key != s[j].key }

  predicate Has(s: seq<Entry>, k: Key) { exists i | 0 <= i < |s| :: s[i].key == k }

  /** The keys after the last occurrence of a key. */
  function Tail(s: seq<Entry>, k: Key): set<Key> {
    if s == [] || s[|s| - 1].key == k then {} else Tail(s[..|s| - 1], k) + {s[|s| - 1].key}
  }

  lemma HasAppend(s: seq<Entry>, x: Entry)
    ensures forall k :: Has(s + [x], k) <==> (Has(s, k) || k == x.key)
    ensures DistinctKeys(s) && !Has(s, x.key) ==> DistinctKeys(s + [x])
  {
    forall k ensures Has(s + [x], k) <==> (Has(s, k) || k == x.key) {
      assert (s + [x])[|s|] == x;
      if Has(s, k) {
        var i :| 0 <= i < |s| && s[i].key == k;
        assert (s + [x])[i].key == k;
      }
    }
  }

  lemma LastIsNew(s: seq<Entry>, x: Entry)
    requires DistinctKeys(s + [x])
    ensures DistinctKeys(s) && !Has(s, x.key)
  {
    var all := s + [x];
    assert forall i | 0 <= i < |s| :: all[i] == s[i] && all[i].key != all[|s|].key;
  }

  lemma {:induction false} TailSize(s: seq<Entry>, i: nat)
    requires DistinctKeys(s) && i < |s|
    ensures |Tail(s, s[i].key)| == |s| - 1 - i
    ensures forall k :: k in Tail(s, s[i].key) ==> Has(s, k)
  {
    if i < |s| - 1 {
      var front, x := s[..|s| - 1], s[|s| - 1];
      assert s == front + [x];
      LastIsNew(front, x);
      HasAppend(front, x);
      TailSize(front, i);
    }
  }

  lemma {:induction false} TailDrop(s: seq<Entry>, k: Key)
    requires s != [] && s[0].key != k && Has(s, k)
    ensures Tail(s[1..], k) == Tail(s, k) && Found(s[1..], k) == Found(s, k)
  {
    if s[|s| - 1].key != k {
      var front := s[..|s| - 1];
      var i :| 0 <= i < |s| && s[i].key == k;
      assert front[i].key == k;
      TailDrop(front, k);
      assert s[1..][..|s| - 2] == front[1..];
    }
  }

  /** `r` has the key with its context, followed by the same keys as in `s`, without `j`. */
  ghost predicate Follows(r: seq<Entry>, s: seq<Entry>, j: Key, k: Key) {
    Has(r, k) && Tail(r, k) == Tail(s, k) - {j} && Found(r, k) == Found(s, k)
  }

  lemma FollowsStep(r: seq<Entry>, s: seq<Entry>, x: Entry, j: Key, k: Key)
    requires j != k && (x.key != k ==> Follows(r, s, j, k))
    ensures Follows(if x.key != j then r + [x] else r, s + [x], j, k)
  {
  }

  lemma {:induction false} TailFilter(s: seq<Entry>, j: Key, k: Key)
    requires j != k && Has(s, k)
    ensures Follows(Filter(Not(j), s), s, j, k)
  {
    var front, x := s[..|s| - 1], s[|s| - 1];
    assert s == front + [x];
    if x.key != k {
      HasAppend(front, x);
      TailFilter(front, j, k);
    }
    FollowsStep(Filter(Not(j), front), front, x, j, k);
  }

  lemma {:induction false} FilterHas(s: seq<Entry>, j: Key)
    requires DistinctKeys(s)
    ensures var r := Filter(Not(j), s); DistinctKeys(r) && |r| <= |s| && forall k :: Has(r, k) <==> (Has(s, k) && k != j)
  {
    if s != [] {
      var front, x := s[..|s| - 1], s[|s| - 1];
      FilterHas(front, j);
      var r := Filter(Not(j), front);
      HasAppend(front, x);
      HasAppend(r, x);
      assert s == front + [x];
      assert !Has(front, x.key);
    }
  }

  lemma {:induction false} FoundIffHas(s: seq<Entry>, k: Key)
    ensures Found(s, k).Some? <==> Has(s, k)
  {
    if s != [] {
      var front, x := s[..|s| - 1], s[|s| - 1];
      FoundIffHas(front, k);
      HasAppend(front, x);
      assert s == front + [x];
    }
  }

  // ------------------------------------------------------------------ the cache is exact

  /** What the history says about a key is what the dict holds. */
  ghost predicate Exact(s: seq<Entry>, k: Key, kept: bool, latest: Context, newer: set<Key>) {
    && (Has(s, k) <==> kept)
    && (kept ==> Found(s, k) == Some(latest) && Tail(s, k) == newer)
  }

  /** Dropping the surplus item drops a key exactly when `max` items follow it. */
  lemma EvictExact(s: seq<Entry>, k: Key, latest: Context, newer: set<Key>, max: nat, kept: bool)
    requires DistinctKeys(s) && |s| <= max + 1 && Exact(s, k, kept, latest, newer)
    ensures Exact(Evict(s, max), k, kept && |newer| < max, latest, newer) && DistinctKeys(Evict(s, max))
  {
    if kept {
      var i :| 0 <= i < |s| && s[i].key == k;
      TailSize(s, i);
      if |s| > max {
        var e := Evict(s, max);
        if i == 0 {
          assert !Has(e, k) by { assert forall j | 0 <= j < |e| :: e[j] == s[j + 1]; }
        } else {
          TailDrop(s, k);
          assert e[i - 1].key == k && e == s[1..];
        }
      }
    } else if |s| > max {
      assert forall j | 0 <= j < max :: Evict(s, max)[j] == s[j + 1];
    }
  }

  lemma StoreOther(s: seq<Entry>, j: Key, v: Context, k: Key, kept: bool, latest: Context, newer: set<Key>)
    requires DistinctKeys(s) && j != k && Exact(s, k, kept, latest, newer)
    ensures Exact(Filter(Not(j), s) + [Entry(j, v)], k, kept, latest, newer + {j})
  {
    var r := Filter(Not(j), s);
    FilterHas(s, j);
    HasAppend(r, Entry(j, v));
    if kept { TailFilter(s, j, k); }
    assert (r + [Entry(j, v)])[..|r|] == r;
  }

  lemma StoreDistinct(s: seq<Entry>, j: Key, v: Context)
    requires DistinctKeys(s)
    ensures var full := Filter(Not(j), s) + [Entry(j, v)];
            DistinctKeys(full) && |full| <= |s| + 1 && Exact(full, j, true, v, {})
  {
    FilterHas(s, j);
    HasAppend(Filter(Not(j), s), Entry(j, v));
  }

  lemma StoreExact(s: seq<Entry>, j: Key, v: Context, max: nat, k: Key, kept: bool, latest: Context, newer: set<Key>)
    requires DistinctKeys(s) && |s| <= max && Exact(s, k, kept, latest, newer)
    ensures DistinctKeys(Stored(s, j, v, max)) && |Stored(s, j, v, max)| <= max
    ensures if j == k then Exact(Stored(s, j, v, max), k, max > 0, v, {})
            else Exact(Stored(s, j, v, max), k, kept && |newer + {j}| < max, latest, newer + {j})
  {
    var full := Filter(Not(j), s) + [Entry(j, v)];
    StoreDistinct(s, j, v);
    if j == k {
      EvictExact(full, k, v, {}, max, true);
    } else {
      StoreOther(s, j, v, k, kept, latest, newer);
      EvictExact(full, k, latest, newer + {j}, max, kept);
    }
  }

  lemma TakeExact(s: seq<Entry>, j: Key, k: Key, kept: bool, latest: Context, newer: set<Key>)
    requires DistinctKeys(s) && Exact(s, k, kept, latest, newer)
    ensures var r := Filter(Not(j), s);
            DistinctKeys(r) && |r| <= |s| && Exact(r, k, kept && j != k, latest, newer - {j})
  {
    FilterHas(s, j);
    if kept && j != k { TailFilter(s, j, k); }
  }

  /** After any history, the cache holds a key exactly when the history kept it, with its latest
    * context, and never more than `max` keys. */
  lemma {:induction false} CacheExact(h: seq<Call>, max: nat, k: Key)
    requires k != ""
    ensures var s := After(h, max);
            DistinctKeys(s) && |s| <= max && Exact(s, k, Kept(h, k, max), Latest(h, k), Newer(h, k))
  {
    if h != [] {
      var front, c := h[..|h| - 1], h[|h| - 1];
      var s := After(front, max);
      CacheExact(front, max, k);
      if c.Store? {
        StoreExact(s, c.key, c.context, max, k, Kept(front, k, max), Latest(front, k), Newer(front, k));
      } else if c.Get? && c.id.Some? && c.id.value != "" {
        TakeExact(s, c.id.value, k, Kept(front, k, max), Latest(front, k), Newer(front, k));
      }
    }
  }

  /** What `get` and `peek` return after any history. */
  lemma AnswersExact(h: seq<Call>, max: nat, k: Key)
    requires k != ""
    ensures Answer(After(h, max), Some(k)) == if Kept(h, k, max) then Latest(h, k) else map[]
  {
    CacheExact(h, max, k);
    FoundIffHas(After(h, max), k);
  }

  // ------------------------------------------------------------------ the promise, and its exactness

  function KeysStored(h: seq<Call>): set<Key> {
    if h == [] then {} else KeysStored(h[..|h| - 1]) + if h[|h| - 1].Store? then {h[|h| - 1].key} else {}
  }

  lemma {:induction false} KeptSince(h: seq<Call>, k: Key, v: Context, since: seq<Call>, max: nat)
    requires forall i | 0 <= i < |since| :: !Takes(since[i], k) && !(since[i].Store? && since[i].key == k)
    requires |KeysStored(since)| < max
    ensures var all := h + [Store(k, v)] + since;
            Kept(all, k, max) && Latest(all, k) == v && Newer(all, k) <= KeysStored(since)
  {
    var base := h + [Store(k, v)];
    if since == [] {
      assert base + since == base && base[|base| - 1] == Store(k, v);
    } else {
      var front, c := since[..|since| - 1], since[|since| - 1];
      assert (base + since)[..|base + since| - 1] == base + front && (base + since)[|base + since| - 1] == c;
      Smaller(KeysStored(front), KeysStored(since));
      KeptSince(h, k, v, front, max);
      Smaller(Newer(base + since, k), KeysStored(since));
    }
  }

  lemma {:induction false} Smaller<T>(a: set<T>, b: set<T>)
    requires a <= b
    ensures |a| <= |b|
  {
    if a != {} {
      var x :| x in a;
      Smaller(a - {x}, b - {x});
    }
  }

  /** The promise: a context is returned as long as it was not taken and fewer than `max` distinct
    * other keys were stored since. */
  lemma CacheGuarantee(h: seq<Call>, k: Key, v: Context, since: seq<Call>, max: nat)
    requires k != "" && |KeysStored(since)| < max
    requires forall i | 0 <= i < |since| :: !Takes(since[i], k) && !(since[i].Store? && since[i].key == k)
    ensures Answer(After(h + [Store(k, v)] + since, max), Some(k)) == v
  {
    KeptSince(h, k, v, since, max);
    AnswersExact(h + [Store(k, v)] + since, max, k);
  }

  lemma {:induction false} GoneSince(h: seq<Call>, k: Key, since: seq<Call>, max: nat)
    requires forall i | 0 <= i < |since| :: !(since[i].Store? && since[i].key == k)
    ensures !Kept(h + [Get(Some(k))] + since, k, max)
  {
    var base := h + [Get(Some(k))];
    if since == [] {
      assert base + since == base && base[|base| - 1] == Get(Some(k));
    } else {
      assert (base + since)[..|base + since| - 1] == base + since[..|since| - 1];
      GoneSince(h, k, since[..|since| - 1], max);
    }
  }

  /** A stored context is handed out by `get` at most once. */
  lemma TakenOnce(h: seq<Call>, k: Key, since: seq<Call>, max: nat)
    requires k != "" && forall i | 0 <= i < |since| :: !(since[i].Store? && since[i].key == k)
    ensures Answer(After(h + [Get(Some(k))] + since, max), Some(k)) == map[]
  {
    GoneSince(h, k, since, max);
    AnswersExact(h + [Get(Some(k))] + since, max, k);
  }

  /** No id and the empty id find nothing and take nothing, even if a context was stored under the latter;
    * and only `get` takes. */
  lemma EmptyIdIgnored(h: seq<Call>, max: nat, id: Option<Key>)
    ensures var none := [Get(None), Get(Some("")), Peek(id)];
            && Answer(After(h, max), None) == map[] && Answer(After(h, max), Some("")) == map[]
            && forall c | c in none :: After(h + [c], max) == After(h, max)
  {
    forall c | c in [Get(None), Get(Some("")), Peek(id)] ensures After(h + [c], max) == After(h, max) {
      assert (h + [c])[..|h|] == h;
    }
  }

  // ------------------------------------------------------------------ the object

  class SignalContextCache {
    var cache: seq<Entry>
    const maxSize: nat

    constructor (maxSize: nat := 1000)
      ensures cache == [] && this.maxSize == maxSize
    {
      cache, this.maxSize := [], maxSize;
    }

    /** Assignment keeps the place of a known key, so the key is then moved to the end. */
    method StoreContext(eventId: Key, context: Context)
      requires DistinctKeys(cache)
      modifies this`cache
      ensures DistinctKeys(cache) && cache == Stored(old(cache), eventId, context, maxSize)
    {
      StoreDistinct(cache, eventId, context);
      cache := Filter(Not(eventId), cache) + [Entry(eventId, context)];
      ghost var full := cache;
      while |cache| > maxSize
        invariant DistinctKeys(cache) && Evict(cache, maxSize) == Evict(full, maxSize)
      {
        cache := cache[1..];
      }
    }

    method GetContext(id: Option<Key>) returns (context: Context)
      requires DistinctKeys(cache)
      modifies this`cache
      ensures DistinctKeys(cache) && context == Answer(old(cache), id) && cache == Taken(old(cache), id)
    {
      if id.None? || id.value == "" { return map[]; }
      context := PeekContext(id);
      FilterHas(cache, id.value);
      cache := Filter(Not(id.value), cache);
    }

    method PeekContext(id: Option<Key>) returns (context: Context)
      ensures context == Answer(cache, id)
    {
      if id.None? || id.value == "" { return map[]; }
      var found := Found(cache, id.value);
      return if found.Some? then found.value else map[];
    }
  }
}
