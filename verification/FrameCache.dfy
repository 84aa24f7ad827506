/** The bounded cache of decoded stack traces that goroutines share
    (internal/compiler/runtime_emit.go). */
module FrameCache {
  import opened Options

  datatype Cache<K, V> = Cache(entries: map<K, V>, keys: seq<K>, next: nat)

  function Elements<K>(s: seq<K>): set<K> {
    set k | k in s
  }

  predicate Unique<K(==)>(s: seq<K>) {
    forall i, j :: 0 <= i < j < |s| ==> s[i] != s[j]
  }

  /** The ring holds each cached key once; `next` is its oldest slot once it is full. */
  ghost predicate Valid<K(!new), V(!new)>(c: Cache<K, V>, decode: K -> V, limit: nat) {
    && Unique(c.keys) && Elements(c.keys) == c.entries.Keys
    && |c.keys| <= limit && c.next < limit && (|c.keys| < limit ==> c.next == 0)
    && forall k :: k in c.entries ==> c.entries[k] == decode(k)
  }

  /** The cached keys, oldest first. */
  function Queue<K, V>(c: Cache<K, V>): seq<K>
    requires c.next <= |c.keys|
  {
    c.keys[c.next..] + c.keys[..c.next]
  }

  /** What `store` leaves behind. */
  function Stored<K, V>(c: Cache<K, V>, key: K, data: V, limit: nat): Cache<K, V>
    requires |c.keys| == limit ==> c.next < limit
  {
    if key in c.entries then c
    else if |c.keys| == limit then
      Cache((c.entries - {c.keys[c.next]})[key := data], c.keys[c.next := key], (c.next + 1) % limit)
    else Cache(c.entries[key := data], c.keys + [key], c.next)
  }

  lemma Advanced(n: nat, limit: nat)
    requires n < limit
    ensures (n + 1) % limit == if n + 1 == limit then 0 else n + 1
  {}

  /** Storing keeps the ring valid ... */
  lemma StoreKeeps<K(!new), V(!new)>(c: Cache<K, V>, decode: K -> V, key: K, data: V, limit: nat)
    requires Valid(c, decode, limit) && data == decode(key)
    ensures Valid(Stored(c, key, data, limit), decode, limit)
    ensures Stored(c, key, data, limit).entries[key] == decode(key)
  {
    var d := Stored(c, key, data, limit);
    if key !in c.entries {
      forall i | 0 <= i < |c.keys| ensures c.keys[i] != key { assert c.keys[i] in Elements(c.keys); }
      if |c.keys| == limit {
        Advanced(c.next, limit);
        Replaced(c.keys, c.next, key);
      } else {
        assert Elements(d.keys) == Elements(c.keys) + {key};
      }
    }
  }

  /** ... and in order: a new key goes to the back of the queue and pushes out at
      most the front. */
  lemma StoreQueues<K(!new), V(!new)>(c: Cache<K, V>, decode: K -> V, key: K, data: V, limit: nat)
    requires Valid(c, decode, limit) && data == decode(key)
    ensures var d := Stored(c, key, data, limit);
            d.next <= |d.keys| && Queue(d) == if key in c.entries then Queue(c)
                                              else (if |c.keys| == limit then Queue(c)[1..] else Queue(c)) + [key]
  {
    var d := Stored(c, key, data, limit);
    if key !in c.entries {
      if |c.keys| == limit {
        Advanced(c.next, limit);
        Rotated(c.keys, c.next, key);
      } else {
        assert d.keys[0..] == d.keys && c.keys[0..] == c.keys;
        assert d.keys[..0] == [] && c.keys[..0] == [];
      }
    }
  }

  lemma Replaced<K>(keys: seq<K>, n: nat, key: K)
    requires Unique(keys) && n < |keys| && key !in keys
    ensures Elements(keys[n := key]) == Elements(keys) - {keys[n]} + {key}
  {
    var after := keys[n := key];
    forall k | k in Elements(keys) - {keys[n]} ensures k in Elements(after) {
      var i :| 0 <= i < |keys| && keys[i] == k;
      assert after[i] == k;
    }
    assert after[n] == key;
    forall k | k in Elements(after) ensures k in Elements(keys) - {keys[n]} + {key} {
      var i :| 0 <= i < |after| && after[i] == k;
      if i != n { assert keys[i] == k; }
    }
  }

  lemma Rotated<K>(keys: seq<K>, n: nat, key: K)
    requires n < |keys|
    ensures var m := if n + 1 == |keys| then 0 else n + 1;
            keys[n := key][m..] + keys[n := key][..m] == (keys[n..] + keys[..n])[1..] + [key]
  {
    var after, m := keys[n := key], if n + 1 == |keys| then 0 else n + 1;
    var left, right := after[m..] + after[..m], (keys[n..] + keys[..n])[1..] + [key];
    assert |left| == |right| == |keys|;
    forall i | 0 <= i < |keys| ensures left[i] == right[i] {
      RotatedAt(keys, n, key, i);
    }
  }

  lemma RotatedAt<K>(keys: seq<K>, n: nat, key: K, i: nat)
    requires n < |keys| && i < |keys|
    ensures var m := if n + 1 == |keys| then 0 else n + 1;
            (keys[n := key][m..] + keys[n := key][..m])[i] == ((keys[n..] + keys[..n])[1..] + [key])[i]
  {}

  // ----- the cache object -----

  class Frames<K(!new, ==), V(!new)> {
    var entries: map<K, V>
    var keys: seq<K>
    var next: nat

    ghost function Value(): Cache<K, V>
      reads this
    {
      Cache(entries, keys, next)
    }

    constructor (ghost decode: K -> V, limit: nat)
      requires limit > 0
      ensures Value() == Cache(map[], [], 0) && Valid(Value(), decode, limit)
    {
      entries, keys, next := map[], [], 0;
    }

    /** A lookup under the read lock. */
    method Load(key: K) returns (data: Option<V>)
      ensures data == if key in entries then Some(entries[key]) else None
    {
      data := if key in entries then Some(entries[key]) else None;
    }

    /** Under the write lock; another goroutine may have stored the key meanwhile. */
    method Store(key: K, data: V, limit: nat, ghost decode: K -> V) returns (result: V)
      requires Valid(Value(), decode, limit) && data == decode(key)
      modifies this
      ensures Value() == Stored(old(Value()), key, data, limit)
      ensures Valid(Value(), decode, limit) && result == decode(key)
    {
      StoreKeeps(Value(), decode, key, data, limit);
      result := data;
      if key in entries {
        result := entries[key];
      } else {
        if |keys| == limit {
          entries := entries - {keys[next]};
          keys := keys[next := key];
          next := (next + 1) % limit;
        } else {
          keys := keys + [key];
        }
        entries := entries[key := data];
      }
    }
  }

  // ----- every interleaving -----

  /** Where one capture stands: before its lookup, decoding after a miss, about to
      store, done. */
  datatype Capture<K, V> = Asking(key: K) | Missed(key: K) | Decoded(key: K, data: V) | Answered(key: K, data: V)

  /** `inserted` and `evicted` record every insertion and eviction in order. */
  datatype Run<K, V> = Run(cache: Cache<K, V>, captures: seq<Capture<K, V>>, inserted: seq<K>, evicted: seq<K>)

  /** One atomic step of capture `i`. */
  ghost predicate Step<K(!new), V(!new)>(decode: K -> V, limit: nat, i: nat, a: Run<K, V>, b: Run<K, V>)
    requires Valid(a.cache, decode, limit)
  {
    && i < |a.captures|
    && match a.captures[i]
       case Asking(key) =>
         b == a.(captures := a.captures[i :=
                                        if key in a.cache.entries then Answered(key, a.cache.entries[key])
                                            else Missed(key)])
       case Missed(key) => b == a.(captures := a.captures[i := Decoded(key, decode(key))])
       case Decoded(key, data) =>
         var c := Stored(a.cache, key, data, limit);
         && b.cache == c && key in c.entries
         && b.captures == a.captures[i := Answered(key, c.entries[key])]
         && b.inserted == (if key in a.cache.entries then a.inserted else a.inserted + [key])
         && b.evicted == (if key !in a.cache.entries
                          && |a.cache.keys| == limit then a.evicted + [a.cache.keys[a.cache.next]] else a.evicted)
       case Answered(_, _) => false
  }

  /** A new capture may begin at any time. */
  ghost predicate Begin<K, V>(key: K, a: Run<K, V>, b: Run<K, V>) {
    b == a.(captures := a.captures + [Asking(key)])
  }

  ghost predicate Sound<K, V>(decode: K -> V, t: Capture<K, V>) {
    (t.Decoded? || t.Answered?) ==> t.data == decode(t.key)
  }

  /** Every answer is the decoded trace, and evictions follow insertions in order:
      the queue is exactly what was inserted and not yet evicted. */
  ghost predicate Inv<K(!new), V(!new)>(decode: K -> V, limit: nat, r: Run<K, V>) {
    && Valid(r.cache, decode, limit)
    && (forall i :: 0 <= i < |r.captures| ==> Sound(decode, r.captures[i]))
    && r.inserted == r.evicted + Queue(r.cache)
  }

  ghost predicate Initial<K, V>(r: Run<K, V>) {
    r == Run(Cache(map[], [], 0), [], [], [])
  }

  lemma StepKeepsInv<K(!new), V(!new)>(decode: K -> V, limit: nat, i: nat, a: Run<K, V>, b: Run<K, V>)
    requires Inv(decode, limit, a) && Step(decode, limit, i, a, b)
    ensures Inv(decode, limit, b)
  {
    assert Sound(decode, a.captures[i]);
    if a.captures[i].Decoded? {
      StoreStep(decode, limit, a.cache, a.captures[i].key, a.captures[i].data, a.inserted, a.evicted, b);
    }
  }

  lemma StoreStep<K(!new), V(!new)>(decode: K -> V, limit: nat, c: Cache<K, V>, key: K, data: V, inserted: seq<K>,
                                    evicted: seq<K>, b: Run<K, V>)
    requires Valid(c, decode, limit) && data == decode(key) && inserted == evicted + Queue(c)
    requires b.cache == Stored(c, key, data, limit)
    requires b.inserted == (if key in c.entries then inserted else inserted + [key])
    requires b.evicted == (if key !in c.entries && |c.keys| == limit then evicted + [c.keys[c.next]] else evicted)
    ensures Valid(b.cache, decode, limit) && b.cache.entries[key] == decode(key)
    ensures b.inserted == b.evicted + Queue(b.cache)
  {
    StoreKeeps(c, decode, key, data, limit);
    StoreQueues(c, decode, key, data, limit);
    var q := Queue(c);
    if key !in c.entries && |c.keys| == limit {
      FrontLeaves(evicted, q, key);
      assert q[0] == c.keys[c.next];
    } else {
      BackJoins(evicted, q, key);
    }
  }

  lemma FrontLeaves<K>(evicted: seq<K>, q: seq<K>, key: K)
    requires q != []
    ensures evicted + q + [key] == evicted + [q[0]] + (q[1..] + [key])
  {}

  lemma BackJoins<K>(evicted: seq<K>, q: seq<K>, key: K)
    ensures evicted + q + [key] == evicted + (q + [key])
  {}

  ghost predicate Next<K(!new), V(!new)>(decode: K -> V, limit: nat, a: Run<K, V>, b: Run<K, V>)
    requires Valid(a.cache, decode, limit)
  {
    || (exists i: nat :: Step(decode, limit, i, a, b))
    || (exists key :: Begin(key, a, b))
  }

  /** A history: each state follows from the one before by one atomic step. */
  ghost predicate History<K(!new), V(!new)>(decode: K -> V, limit: nat, h: seq<Run<K, V>>)
    decreases |h|
  {
    && |h| > 0
    && (if |h| == 1 then Initial(h[0])
        else && History(decode, limit, h[..|h| - 1])
             && Valid(h[|h| - 2].cache, decode, limit)
             && Next(decode, limit, h[|h| - 2], h[|h| - 1]))
  }

  lemma NextKeepsInv<K(!new), V(!new)>(decode: K -> V, limit: nat, a: Run<K, V>, b: Run<K, V>)
    requires Inv(decode, limit, a) && Next(decode, limit, a, b)
    ensures Inv(decode, limit, b)
  {
    if i: nat :| Step(decode, limit, i, a, b) { StepKeepsInv(decode, limit, i, a, b); }
  }

  lemma {:induction false} HistoryKeepsInv<K(!new), V(!new)>(decode: K -> V, limit: nat, h: seq<Run<K, V>>)
    requires limit > 0 && History(decode, limit, h)
    ensures Inv(decode, limit, h[|h| - 1])
    decreases |h|
  {
    if |h| == 1 {
      assert Queue(h[0].cache) == [];
    } else {
      var before := h[..|h| - 1];
      HistoryKeepsInv(decode, limit, before);
      assert before[|before| - 1] == h[|h| - 2];
      NextKeepsInv(decode, limit, h[|h| - 2], h[|h| - 1]);
    }
  }

  /** In every state every interleaving reaches, answers equal decoding, the cache
      is within its limit, and evictions are strictly oldest first. */
  lemma EveryRunSound<K(!new), V(!new)>(decode: K -> V, limit: nat, h: seq<Run<K, V>>)
    requires limit > 0 && History(decode, limit, h)
    ensures var r := h[|h| - 1];
            && Valid(r.cache, decode, limit) && |r.cache.entries| <= limit
            && r.inserted == r.evicted + Queue(r.cache)
            && forall i ::
                0 <= i < |r.captures| && r.captures[i].Answered? ==> r.captures[i].data == decode(r.captures[i].key)
  {
    HistoryKeepsInv(decode, limit, h);
    InvMeans(decode, limit, h[|h| - 1]);
  }

  lemma InvMeans<K(!new), V(!new)>(decode: K -> V, limit: nat, r: Run<K, V>)
    requires Inv(decode, limit, r)
    ensures |r.cache.entries| <= limit
    ensures forall i ::
              0 <= i < |r.captures| && r.captures[i].Answered? ==> r.captures[i].data == decode(r.captures[i].key)
  {
    Sizes(r.cache.keys);
    assert |r.cache.entries| == |r.cache.entries.Keys|;
    forall i | 0 <= i < |r.captures| && r.captures[i].Answered?
        ensures r.captures[i].data == decode(r.captures[i].key) {
      assert Sound(decode, r.captures[i]);
    }
  }

  lemma {:induction false} Sizes<K>(keys: seq<K>)
    requires Unique(keys)
    ensures |Elements(keys)| == |keys|
    decreases |keys|
  {
    if keys != [] {
      var n := |keys| - 1;
      Sizes(keys[..n]);
      assert Elements(keys) == Elements(keys[..n]) + {keys[n]};
      assert keys[n] !in keys[..n];
    }
  }

  // ----- whole traces -----

  const SHALLOW := 64
  const DEEP := 256

  /** The runtime's Callers: at most `room` program counters. */
  function Callers(stack: seq<int>, room: nat): seq<int> {
    if |stack| <= room then stack else stack[..room]
  }

  /** Traces of any depth are complete: shallow and deep ones go through their
      caches, and only a trace that fits a key is ever used as one. */
  method CaptureStack<V(!new)>(stack: seq<int>, decode: seq<int> -> V, shallow: Frames<seq<int>, V>,
                               deep: Frames<seq<int>, V>) returns (trace: V)
    requires Valid(shallow.Value(), decode, 128) && Valid(deep.Value(), decode, 16)
    modifies shallow, deep
    ensures trace == decode(stack)
    ensures shallow != deep ==>
              && Valid(shallow.Value(), decode, 128) && Valid(deep.Value(), decode, 16)
              && shallow.Value() == (if |stack| < SHALLOW then Stored(old(shallow.Value()), stack, trace, 128)
                                     else old(shallow.Value()))
              && deep.Value() == (if SHALLOW <= |stack| < DEEP then Stored(old(deep.Value()), stack, trace, 16)
                                  else old(deep.Value()))
  {
    var key := Callers(stack, DEEP);
    if |key| < SHALLOW {
      var hit := shallow.Load(key);
      if hit.Some? { return hit.value; }
      trace := shallow.Store(key, decode(key), 128, decode);
    } else if |key| < DEEP {
      var hit := deep.Load(key);
      if hit.Some? { return hit.value; }
      trace := deep.Store(key, decode(key), 16, decode);
    } else {
      var room := 512;
      var pcs := Callers(stack, room);
      while |pcs| == room
        invariant room >= 512 && pcs == Callers(stack, room)
        decreases |stack| - room + 1
      {
        room := room * 2;
        pcs := Callers(stack, room);
      }
      trace := decode(pcs);
    }
  }
}
