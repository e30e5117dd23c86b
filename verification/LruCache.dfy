/** The bounded LRU response cache (packages/ai-orchestrator/src/cache.ts), against a plain history of
    what was written. The backing Map is kept as its entries in insertion order. */
module LruCache {
  import opened Common

  datatype Entry<V> = Entry(key: string, response: V, storedAt: int, ttlMs: int)

  predicate IsExpired<V>(e: Entry<V>, now: int) {
    e.ttlMs != 0 && now - e.storedAt > e.ttlMs
  }

  /** The position of `key`, or |es|. */
  function IndexOfKey<V>(es: seq<Entry<V>>, key: string): (i: nat)
    ensures i <= |es| && (i < |es| ==> es[i].key == key) && forall j :: 0 <= j < i ==> es[j].key != key
  {
    if es == [] || es[0].key == key then 0 else 1 + IndexOfKey(es[1..], key)
  }

  /** `Map.delete` */
  function Delete<V>(es: seq<Entry<V>>, key: string): seq<Entry<V>> {
    var i := IndexOfKey(es, key);
    if i == |es| then es else es[..i] + es[i + 1..]
  }

  /** Drop the oldest entries until at most `max` are left. */
  function Evict<V>(es: seq<Entry<V>>, max: nat): seq<Entry<V>> {
    if |es| > max then es[|es| - max..] else es
  }

  function AfterGet<V>(es: seq<Entry<V>>, key: string, now: int): seq<Entry<V>> {
    var i := IndexOfKey(es, key);
    if i == |es| then es
    else if IsExpired(es[i], now) then Delete(es, key)
    else Delete(es, key) + [es[i]]
  }

  function Found<V>(es: seq<Entry<V>>, key: string, now: int): Option<Entry<V>> {
    var i := IndexOfKey(es, key);
    if i == |es| || IsExpired(es[i], now) then None else Some(es[i])
  }

  function AfterSet<V>(es: seq<Entry<V>>, key: string, response: V, now: int, max: nat, ttl: int): seq<Entry<V>> {
    Evict(Delete(es, key) + [Entry(key, response, now, ttl)], max)
  }

  class InMemoryLruCache<V> {
    var entries: seq<Entry<V>>
    const maxEntries: nat
    const ttlMs: int

    constructor (maxEntries: nat, ttlMs: int)
      requires maxEntries >= 1
      ensures entries == [] && this.maxEntries == maxEntries && this.ttlMs == ttlMs
    {
      entries, this.maxEntries, this.ttlMs := [], maxEntries, ttlMs;
    }

    method Get(key: string, now: int) returns (entry: Option<Entry<V>>)
      modifies this
      ensures entry == Found(old(entries), key, now) && entries == AfterGet(old(entries), key, now)
    {
      var i := IndexOfKey(entries, key);
      if i == |entries| {
        return None;
      }
      var e := entries[i];
      if IsExpired(e, now) {
        entries := Delete(entries, key);
        return None;
      }
      entries := Delete(entries, key);
      entries := entries + [e];
      entry := Some(e);
    }

    method Set(key: string, response: V, now: int)
      modifies this
      ensures entries == AfterSet(old(entries), key, response, now, maxEntries, ttlMs)
    {
      entries := Delete(entries, key);
      entries := entries + [Entry(key, response, now, ttlMs)];
      ghost var full := entries;
      ghost var dropped := 0;
      while |entries| > maxEntries
        invariant dropped <= |full| && entries == full[dropped..]
        invariant |entries| >= maxEntries || dropped == 0
        decreases |entries|
      {
        entries, dropped := entries[1..], dropped + 1;
      }
    }

    method Clear()
      modifies this
      ensures entries == []
    {
      entries := [];
    }
  }

  // ---- histories

  datatype Op<V> = Get(key: string, now: int) | Set(key: string, response: V, now: int) | Clear(now: int)

  datatype Limits = Limits(max: nat, ttl: int)

  function Step<V>(es: seq<Entry<V>>, op: Op<V>, lim: Limits): seq<Entry<V>> {
    match op
    case Get(key, now) => AfterGet(es, key, now)
    case Set(key, response, now) => AfterSet(es, key, response, now, lim.max, lim.ttl)
    case Clear(_) => []
  }

  function After<V>(h: seq<Op<V>>, lim: Limits): seq<Entry<V>> {
    if h == [] then [] else Step(After(h[..|h| - 1], lim), h[|h| - 1], lim)
  }

  /** What was last written under `key`, and when, ignoring size and age. */
  function Latest<V>(h: seq<Op<V>>, key: string): Option<(V, int)> {
    if h == [] then None
    else
      match h[|h| - 1]
      case Set(k, response, now) => if k == key then Some((response, now)) else Latest(h[..|h| - 1], key)
      case Get(_, _) => Latest(h[..|h| - 1], key)
      case Clear(_) => None
  }

  /** The last operation wrote an entry or found one; a lookup that finds nothing is no access. */
  predicate Accesses<V>(h: seq<Op<V>>, lim: Limits) {
    h != [] &&
    match h[|h| - 1]
    case Set(_, _, _) => true
    case Get(key, now) => Found(After(h[..|h| - 1], lim), key, now).Some?
    case Clear(_) => false
  }

  /** The other keys accessed since `key` was last accessed. */
  function Others<V>(h: seq<Op<V>>, key: string, lim: Limits): set<string> {
    if h == [] then {}
    else
      var before := Others(h[..|h| - 1], key, lim);
      if !Accesses(h, lim) then before else if h[|h| - 1].key == key then {} else before + {h[|h| - 1].key}
  }

  /** Have `max` other keys been accessed since this one was? */
  predicate Pressed<V>(h: seq<Op<V>>, key: string, lim: Limits) {
    |Others(h, key, lim)| >= lim.max
  }

  predicate MonotoneClock<V>(h: seq<Op<V>>) {
    forall i, j :: 0 <= i < j < |h| ==> h[i].now <= h[j].now
  }

  predicate Stale(storedAt: int, ttl: int, now: int) {
    ttl != 0 && now - storedAt > ttl
  }

  // ---- the cache as a list of distinct keys, the oldest access first

  predicate Distinct<V>(es: seq<Entry<V>>) {
    forall i, j :: 0 <= i < j < |es| ==> es[i].key != es[j].key
  }

  function KeysOf<V>(es: seq<Entry<V>>): set<string> {
    set i | 0 <= i < |es| :: es[i].key
  }

  lemma {:induction false} DistinctCount<V>(es: seq<Entry<V>>)
    requires Distinct(es)
    ensures |KeysOf(es)| == |es|
  {
    if es != [] {
      var n := |es| - 1;
      DistinctCount(es[..n]);
      assert KeysOf(es) == KeysOf(es[..n]) + {es[n].key};
    }
  }

  /** What is behind an entry in the list has been accessed since that entry was. */
  ghost predicate Ordered<V>(es: seq<Entry<V>>, h: seq<Op<V>>, lim: Limits) {
    forall i, j :: 0 <= i < j < |es| ==> es[j].key in Others(h, es[i].key, lim)
  }

  ghost predicate Backed<V>(es: seq<Entry<V>>, h: seq<Op<V>>, lim: Limits) {
    forall i :: 0 <= i < |es| ==>
                  es[i].ttlMs == lim.ttl && Latest(h, es[i].key) == Some((es[i].response, es[i].storedAt))
  }

  /** A written key is held, or has outlived its time, or was pressed out. */
  ghost predicate Kept<V>(es: seq<Entry<V>>, h: seq<Op<V>>, lim: Limits, key: string) {
    var w := Latest(h, key);
    w.Some? ==> key in KeysOf(es) || (h != [] && Stale(w.value.1, lim.ttl, h[|h| - 1].now)) || Pressed(h, key, lim)
  }

  ghost predicate Inv<V>(es: seq<Entry<V>>, h: seq<Op<V>>, lim: Limits) {
    && es == After(h, lim) && Distinct(es) && |es| <= lim.max && Ordered(es, h, lim) && Backed(es, h, lim)
    && forall key :: Kept(es, h, lim, key)
  }

  function Shift(p: nat, i: nat): nat {
    if i < p then i else i + 1
  }

  /** Deleting a key leaves the others where they were, in order. */
  lemma DeleteAt<V>(es: seq<Entry<V>>, key: string)
    ensures var r, p := Delete(es, key), IndexOfKey(es, key);
            if p == |es| then r == es
            else |r| == |es| - 1 && forall i :: 0 <= i < |r| ==> r[i] == es[Shift(p, i)]
  {
  }

  lemma DeleteLosesOnly<V>(es: seq<Entry<V>>, key: string, k: string)
    requires k in KeysOf(es) && k != key
    ensures k in KeysOf(Delete(es, key))
  {
    var r, p := Delete(es, key), IndexOfKey(es, key);
    DeleteAt(es, key);
    var i :| 0 <= i < |es| && es[i].key == k;
    assert r[if i < p then i else i - 1] == es[i];
  }

  lemma DeleteKeepsOthers<V>(es: seq<Entry<V>>, key: string, k: string)
    requires Distinct(es) && k in KeysOf(Delete(es, key))
    ensures k in KeysOf(es) && k != key
  {
    var r, p := Delete(es, key), IndexOfKey(es, key);
    DeleteAt(es, key);
    var i :| 0 <= i < |r| && r[i].key == k;
    assert es[if p == |es| then i else Shift(p, i)].key == k;
  }

  lemma DeleteDistinct<V>(es: seq<Entry<V>>, key: string)
    requires Distinct(es)
    ensures Distinct(Delete(es, key))
  {
    DeleteAt(es, key);
  }

  lemma DeleteKeys<V>(es: seq<Entry<V>>, key: string)
    requires Distinct(es)
    ensures KeysOf(Delete(es, key)) == KeysOf(es) - {key} && Distinct(Delete(es, key))
  {
    DeleteDistinct(es, key);
    forall k | k in KeysOf(es) && k != key ensures k in KeysOf(Delete(es, key)) {
      DeleteLosesOnly(es, key, k);
    }
    forall k | k in KeysOf(Delete(es, key)) ensures k in KeysOf(es) && k != key {
      DeleteKeepsOthers(es, key, k);
    }
  }

  lemma KeyHeld<V>(es: seq<Entry<V>>, key: string)
    ensures key in KeysOf(es) <==> IndexOfKey(es, key) < |es|
  {
  }

  // ---- one operation

  lemma OthersStep<V>(h: seq<Op<V>>, op: Op<V>, key: string, lim: Limits)
    ensures (h + [op])[..|h|] == h && After(h + [op], lim) == Step(After(h, lim), op, lim)
    ensures Accesses(h + [op], lim) <==> op.Set? || (op.Get? && Found(After(h, lim), op.key, op.now).Some?)
    ensures Others(h + [op], key, lim) ==
            if !Accesses(h + [op], lim) then Others(h, key, lim)
            else if op.key == key then {} else Others(h, key, lim) + {op.key}
    ensures Latest(h + [op], key) ==
            if op.Clear? then None
            else if op.Set? && op.key == key then Some((op.response, op.now)) else Latest(h, key)
  {
    assert (h + [op])[..|h|] == h;
  }

  /** Moving or dropping the named key keeps the order by last access. */
  lemma DeleteOrdered<V>(es: seq<Entry<V>>, h: seq<Op<V>>, op: Op<V>, lim: Limits)
    requires Distinct(es) && Ordered(es, h, lim) && Backed(es, h, lim) && !op.Clear?
    ensures var r := Delete(es, op.key);
            Ordered(r, h + [op], lim) && Backed(r, h + [op], lim) && (forall i :: 0 <= i < |r| ==> r[i].key != op.key)
    ensures Accesses(h + [op], lim) ==>
              forall i :: 0 <= i < |Delete(es, op.key)| ==> op.key in Others(h + [op], Delete(es, op.key)[i].key, lim)
  {
    var r, p := Delete(es, op.key), IndexOfKey(es, op.key);
    DeleteAt(es, op.key);
    DeleteKeys(es, op.key);
    forall i | 0 <= i < |r|
      ensures r[i].key != op.key && (Accesses(h + [op], lim) ==> op.key in Others(h + [op], r[i].key, lim))
      ensures r[i].ttlMs == lim.ttl && Latest(h + [op], r[i].key) == Some((r[i].response, r[i].storedAt))
    {
      assert r[i].key in KeysOf(r);
      OthersStep(h, op, r[i].key, lim);
      assert r[i] == es[if p == |es| then i else Shift(p, i)];
    }
    forall i, j | 0 <= i < j < |r|
      ensures r[j].key in Others(h + [op], r[i].key, lim)
    {
      OthersStep(h, op, r[i].key, lim);
      if p < |es| {
        assert r[i] == es[Shift(p, i)] && r[j] == es[Shift(p, j)];
      }
    }
  }

  /** An operation that finds and writes nothing leaves the order as it is. */
  lemma IdleOrdered<V>(es: seq<Entry<V>>, h: seq<Op<V>>, op: Op<V>, lim: Limits)
    requires Ordered(es, h, lim) && Backed(es, h, lim) && op.Get? && !Accesses(h + [op], lim)
    ensures Ordered(es, h + [op], lim) && Backed(es, h + [op], lim)
  {
    forall i | 0 <= i < |es|
      ensures Others(h + [op], es[i].key, lim) == Others(h, es[i].key, lim)
      ensures Latest(h + [op], es[i].key) == Latest(h, es[i].key)
    {
      OthersStep(h, op, es[i].key, lim);
    }
  }

  lemma AppendOrdered<V>(es: seq<Entry<V>>, h: seq<Op<V>>, e: Entry<V>, lim: Limits)
    requires Distinct(es) && Ordered(es, h, lim) && Backed(es, h, lim)
    requires forall i :: 0 <= i < |es| ==> es[i].key != e.key && e.key in Others(h, es[i].key, lim)
    requires e.ttlMs == lim.ttl && Latest(h, e.key) == Some((e.response, e.storedAt))
    ensures Distinct(es + [e]) && Ordered(es + [e], h, lim) && Backed(es + [e], h, lim)
    ensures KeysOf(es + [e]) == KeysOf(es) + {e.key}
  {
    var r := es + [e];
    forall k | k in KeysOf(es) + {e.key}
      ensures k in KeysOf(r)
    {
      if k in KeysOf(es) {
        var i :| 0 <= i < |es| && es[i].key == k;
        assert r[i].key == k;
      } else {
        assert r[|es|].key == k;
      }
    }
  }

  /** The one entry over the limit has been pressed by everything still held. */
  lemma EvictedIsPressed<V>(es: seq<Entry<V>>, h: seq<Op<V>>, lim: Limits)
    requires Distinct(es) && Ordered(es, h, lim) && Backed(es, h, lim) && |es| == lim.max + 1
    ensures |Others(h, es[0].key, lim)| >= lim.max
    ensures Distinct(es[1..]) && Ordered(es[1..], h, lim) && Backed(es[1..], h, lim) &&
            KeysOf(es) == KeysOf(es[1..]) + {es[0].key}
  {
    var rest := es[1..];
    forall k | k in KeysOf(rest)
      ensures k in Others(h, es[0].key, lim)
    {
      var i :| 0 <= i < |rest| && rest[i].key == k;
      assert es[i + 1].key == k;
    }
    DistinctCount(rest);
    SubsetSize(KeysOf(rest), Others(h, es[0].key, lim));
    forall k | k in KeysOf(es)
      ensures k in KeysOf(rest) + {es[0].key}
    {
      var i :| 0 <= i < |es| && es[i].key == k;
      if i > 0 {
        assert rest[i - 1].key == k;
      }
    }
    forall k | k in KeysOf(rest)
      ensures k in KeysOf(es)
    {
      var i :| 0 <= i < |rest| && rest[i].key == k;
      assert es[i + 1].key == k;
    }
  }

  lemma SubsetSize<T>(a: set<T>, b: set<T>)
    requires a <= b
    ensures |a| <= |b|
  {
    if a != {} {
      var x :| x in a;
      SubsetSize(a - {x}, b - {x});
    }
  }

  lemma KeptStep<V>(h: seq<Op<V>>, op: Op<V>, es: seq<Entry<V>>, es': seq<Entry<V>>, lim: Limits, key: string)
    requires Kept(es, h, lim, key) && MonotoneClock(h + [op])
    requires !op.Clear? && (op.Set? ==> op.key != key)
    requires Accesses(h + [op], lim) && op.key == key ==> key in KeysOf(es')
    requires key in KeysOf(es) ==>
      || key in KeysOf(es') || Pressed(h + [op], key, lim)
      || (Latest(h, key).Some? && Stale(Latest(h, key).value.1, lim.ttl, op.now))
    ensures Kept(es', h + [op], lim, key)
  {
    OthersStep(h, op, key, lim);
    var g := h + [op];
    assert g[|g| - 1] == op;
    if h != [] {
      assert g[|h| - 1] == h[|h| - 1] && h[|h| - 1].now <= op.now;
    }
    if !(Accesses(g, lim) && op.key == key) {
      SubsetSize(Others(h, key, lim), Others(g, key, lim));
    }
  }

  lemma HitKeeps<V>(es: seq<Entry<V>>, h: seq<Op<V>>, op: Op<V>, lim: Limits)
    requires Inv(es, h, lim) && op.Get? && Found(es, op.key, op.now).Some?
    ensures var es' := Step(es, op, lim);
            && Distinct(es') && |es'| == |es| && Ordered(es', h + [op], lim) && Backed(es', h + [op], lim)
            && KeysOf(es') == KeysOf(es)
  {
    var p := IndexOfKey(es, op.key);
    var r := Delete(es, op.key);
    DeleteAt(es, op.key);
    DeleteKeys(es, op.key);
    DeleteOrdered(es, h, op, lim);
    OthersStep(h, op, op.key, lim);
    AppendOrdered(r, h + [op], es[p], lim);
    KeyHeld(es, op.key);
  }

  lemma MissKeeps<V>(es: seq<Entry<V>>, h: seq<Op<V>>, op: Op<V>, lim: Limits)
    requires Inv(es, h, lim) && op.Get? && Found(es, op.key, op.now).None?
    ensures var es' := Step(es, op, lim);
            && Distinct(es') && |es'| <= |es| && Ordered(es', h + [op], lim) && Backed(es', h + [op], lim)
            && KeysOf(es') >= KeysOf(es) - {op.key}
            && (op.key in KeysOf(es) && op.key !in KeysOf(es') ==>
                  Latest(h, op.key).Some? && Stale(Latest(h, op.key).value.1, lim.ttl, op.now))
  {
    DeleteAt(es, op.key);
    DeleteKeys(es, op.key);
    DeleteOrdered(es, h, op, lim);
    OthersStep(h, op, op.key, lim);
    IdleOrdered(es, h, op, lim);
    KeyHeld(es, op.key);
  }

  lemma GetKeeps<V>(es: seq<Entry<V>>, h: seq<Op<V>>, op: Op<V>, lim: Limits)
    requires Inv(es, h, lim) && op.Get? && MonotoneClock(h + [op])
    ensures Inv(Step(es, op, lim), h + [op], lim)
  {
    var es' := Step(es, op, lim);
    OthersStep(h, op, op.key, lim);
    KeyHeld(es, op.key);
    if Found(es, op.key, op.now).Some? {
      HitKeeps(es, h, op, lim);
    } else {
      MissKeeps(es, h, op, lim);
    }
    forall key
      ensures Kept(es', h + [op], lim, key)
    {
      assert Kept(es, h, lim, key);
      KeptStep(h, op, es, es', lim, key);
    }
  }

  lemma SetKeeps<V>(es: seq<Entry<V>>, h: seq<Op<V>>, op: Op<V>, lim: Limits)
    requires Inv(es, h, lim) && op.Set? && MonotoneClock(h + [op]) && lim.max >= 1
    ensures Inv(Step(es, op, lim), h + [op], lim)
  {
    var g := h + [op];
    var r := Delete(es, op.key);
    var e := Entry(op.key, op.response, op.now, lim.ttl);
    var full := r + [e];
    var es' := Step(es, op, lim);
    DeleteAt(es, op.key);
    DeleteKeys(es, op.key);
    DeleteOrdered(es, h, op, lim);
    OthersStep(h, op, op.key, lim);
    AppendOrdered(r, g, e, lim);
    if |full| > lim.max {
      EvictedIsPressed(full, g, lim);
      assert es' == full[1..];
    }
    forall key
      ensures Kept(es', g, lim, key)
    {
      assert Kept(es, h, lim, key);
      if key == op.key {
        assert full[|r|].key == key;
        assert es'[|es'| - 1] == full[|r|];
      } else {
        if |full| > lim.max && key == full[0].key {
          assert Pressed(g, key, lim);
        }
        KeptStep(h, op, es, es', lim, key);
      }
    }
  }

  /** After any history with a monotone clock the cache holds what the plain history says it may. */
  lemma {:induction false} HistoryKeeps<V>(h: seq<Op<V>>, lim: Limits)
    requires MonotoneClock(h) && lim.max >= 1
    ensures Inv(After(h, lim), h, lim)
  {
    if h != [] {
      var n := |h| - 1;
      assert h == h[..n] + [h[n]];
      HistoryKeeps(h[..n], lim);
      match h[n]
      case Get(_, _) => GetKeeps(After(h[..n], lim), h[..n], h[n], lim);
      case Set(_, _, _) => SetKeeps(After(h[..n], lim), h[..n], h[n], lim);
      case Clear(_) =>
    }
  }

  // ---- the theorem

  /** The history before its last operation keeps the monotone clock. */
  lemma PrefixMonotone<V>(h: seq<Op<V>>, op: Op<V>)
    requires MonotoneClock(h + [op])
    ensures MonotoneClock(h)
  {
    forall i, j | 0 <= i < j < |h|
      ensures h[i].now <= h[j].now
    {
      assert (h + [op])[i] == h[i] && (h + [op])[j] == h[j];
    }
  }

  /** A hit is the latest value written under the key, within its time to live. */
  lemma HitIsLatest<V>(h: seq<Op<V>>, key: string, now: int, lim: Limits)
    requires MonotoneClock(h + [Get(key, now)]) && lim.max >= 1
    ensures var e := Found(After(h, lim), key, now);
            e.Some? ==>
              && Latest(h, key) == Some((e.value.response, e.value.storedAt))
              && !Stale(e.value.storedAt, lim.ttl, now)
  {
    PrefixMonotone(h, Get(key, now));
    HistoryKeeps(h, lim);
  }

  /** A miss means that nothing was written, or that it is stale, or that at least `max` other keys were
      accessed since the last access to this one. */
  lemma MissIsJustified<V>(h: seq<Op<V>>, key: string, now: int, lim: Limits)
    requires MonotoneClock(h + [Get(key, now)]) && lim.max >= 1
    ensures Found(After(h, lim), key, now).None? ==>
              || Latest(h, key).None?
              || Stale(Latest(h, key).value.1, lim.ttl, now)
              || Pressed(h, key, lim)
  {
    PrefixMonotone(h, Get(key, now));
    HistoryKeeps(h, lim);
    assert Kept(After(h, lim), h, lim, key);
    KeyHeld(After(h, lim), key);
    if h != [] {
      var g := h + [Get(key, now)];
      assert g[|h| - 1] == h[|h| - 1] && g[|h|].now == now;
    }
  }

  /** The cache never holds more than its limit, and holds no key twice. */
  lemma SizeBounded<V>(h: seq<Op<V>>, lim: Limits)
    requires MonotoneClock(h) && lim.max >= 1
    ensures |After(h, lim)| <= lim.max && Distinct(After(h, lim))
  {
    HistoryKeeps(h, lim);
  }
}
