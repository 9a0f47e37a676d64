/** The query cache: bounded, least recently used first out, entries with a time to live. */
module Cache {
  import opened Rows

  datatype Entry<V> = Entry(expires: int, value: V)

  /** The ordered dictionary, oldest use first, and its counters. `expired` counts the deletions of
      stale entries, which the service does not report. */
  datatype Store<K, V> = Store(
    order: seq<K>, values: map<K, Entry<V>>, hits: nat, misses: nat, evictions: nat, expired: nat)

  ghost predicate Distinct<K(!new)>(s: seq<K>) {
    forall i, j :: 0 <= i < j < |s| ==> s[i] != s[j]
  }

  ghost predicate StoreOk<K(!new), V>(c: Store<K, V>) {
    && Distinct(c.order)
    && (forall k :: k in c.values ==> k in c.order) && (forall k :: k in c.order ==> k in c.values)
  }

  function Without<K(==,!new)>(s: seq<K>, k: K): seq<K> {
    if s == [] then []
    else if s[0] == k then Without(s[1..], k)
    else [s[0]] + Without(s[1..], k)
  }

  function Touch<K(==,!new)>(s: seq<K>, k: K): seq<K> {
    Without(s, k) + [k]
  }

  function Last<K>(s: seq<K>, n: nat): seq<K> {
    if |s| <= n then s else s[|s| - n..]
  }

  predicate Live<K(==,!new), V>(c: Store<K, V>, key: K, now: int) {
    key in c.values && c.values[key].expires > now
  }

  /** The first locked section: a live entry is a hit; a stale one is deleted. */
  function Look<K(==,!new), V>(c: Store<K, V>, key: K, now: int): Store<K, V> {
    if Live(c, key, now) then c.(order := Touch(c.order, key), hits := c.hits + 1)
    else if key in c.values then
      c.(order := Without(c.order, key), values := c.values - {key}, expired := c.expired + 1, misses := c.misses + 1)
    else c.(misses := c.misses + 1)
  }

  function DropOldest<K(==,!new), V>(c: Store<K, V>): Store<K, V>
    requires c.order != []
  {
    c.(order := c.order[1..], values := c.values - {c.order[0]}, evictions := c.evictions + 1)
  }

  /** The least recently used entries go until the cache is within its bound. */
  function Evict<K(==,!new), V>(c: Store<K, V>, max: nat): Store<K, V>
    decreases |c.order|
  {
    if |c.order| <= max then c
    else Evict(DropOldest(c), max)
  }

  /** The second locked section. */
  function Insert<K(==,!new), V>(c: Store<K, V>, key: K, value: V, at: int, ttl: nat, max: nat): Store<K, V> {
    Evict(c.(order := Touch(c.order, key), values := c.values[key := Entry(at + ttl, value)]), max)
  }

  // ----- Order -----

  lemma {:induction false} WithoutContents<K(!new)>(s: seq<K>, k: K)
    ensures k !in Without(s, k)
    ensures forall x :: x in s && x != k ==> x in Without(s, k)
    ensures forall x :: x in Without(s, k) ==> x in s
  {
    if s != [] {
      WithoutContents(s[1..], k);
    }
  }

  lemma {:induction false} WithoutAbsent<K(!new)>(s: seq<K>, k: K)
    requires k !in s
    ensures Without(s, k) == s
  {
    if s != [] {
      WithoutAbsent(s[1..], k);
    }
  }

  lemma {:induction false} WithoutDistinct<K(!new)>(s: seq<K>, k: K)
    requires Distinct(s)
    ensures Distinct(Without(s, k))
    ensures k in s ==> |Without(s, k)| == |s| - 1
  {
    if s != [] {
      var rest := s[1..];
      WithoutDistinct(rest, k);
      WithoutContents(rest, k);
      if s[0] == k {
        WithoutAbsent(rest, k);
      } else {
        assert s[0] !in Without(rest, k);
      }
    }
  }

  lemma WithoutMembers<K(!new)>(s: seq<K>, k: K)
    ensures forall x :: x in Without(s, k) <==> x in s && x != k
    ensures Distinct(s) ==> Distinct(Without(s, k))
    ensures k !in s ==> Without(s, k) == s
    ensures Distinct(s) && k in s ==> |Without(s, k)| == |s| - 1
  {
    hide Without, Distinct;
    WithoutContents(s, k);
    if Distinct(s) { WithoutDistinct(s, k); }
    if k !in s { WithoutAbsent(s, k); }
  }

  lemma TouchMembers<K(!new)>(s: seq<K>, k: K)
    requires Distinct(s)
    ensures Distinct(Touch(s, k))
    ensures forall x :: x in Touch(s, k) <==> x in s || x == k
    ensures |Touch(s, k)| == if k in s then |s| else |s| + 1
  {
    WithoutMembers(s, k);
    var w := Without(s, k);
    forall i | 0 <= i < |w| ensures w[i] != k {
      assert w[i] in w;
    }
  }

  lemma TouchEndsWith<K(!new)>(s: seq<K>, k: K)
    ensures |Touch(s, k)| > 0 && Touch(s, k)[|Touch(s, k)| - 1] == k
  {
  }

  lemma WithoutHead<K(!new)>(head: K, rest: seq<K>, k: K)
    ensures Without([head] + rest, k) == if head == k then Without(rest, k) else [head] + Without(rest, k)
  {
    assert ([head] + rest)[1..] == rest;
  }

  lemma NothingWithout<K(!new)>(k: K)
    ensures Without([], k) == []
  {
  }

  lemma Associates<K>(a: seq<K>, b: seq<K>, c: seq<K>)
    ensures a + (b + c) == a + b + c
  {
  }

  lemma {:induction false} WithoutSplit<K(!new)>(a: seq<K>, b: seq<K>, k: K)
    ensures Without(a + b, k) == Without(a, k) + Without(b, k)
  {
    hide Without;
    if a == [] {
      NothingWithout(k);
      assert a + b == b;
    } else {
      WithoutSplit(a[1..], b, k);
      WithoutHead(a[0], a[1..] + b, k);
      WithoutHead(a[0], a[1..], k);
      Associates([a[0]], a[1..], b);
      Associates([a[0]], Without(a[1..], k), Without(b, k));
      assert [a[0]] + a[1..] == a;
    }
  }

  lemma LastOfAppend<K>(a: seq<K>, b: seq<K>, n: nat)
    requires |b| >= n
    ensures Last(a + b, n) == Last(b, n)
  {
  }

  /** Touching commutes with keeping the most recent entries. */
  lemma TouchLast<K(!new)>(s: seq<K>, k: K, n: nat)
    requires Distinct(s) && n >= 1
    ensures Last(Touch(s, k), n) == Last(Touch(Last(s, n), k), n)
  {
    hide Without, Distinct;
    if |s| > n {
      var a, b := s[..|s| - n], s[|s| - n..];
      assert Distinct(b) by { SuffixDistinct(s, |s| - n); }
      assert s == a + b;
      WithoutSplit(a, b, k);
      WithoutMembers(b, k);
      assert Touch(s, k) == Without(a, k) + Touch(b, k);
      LastOfAppend(Without(a, k), Touch(b, k), n);
    }
  }

  lemma SuffixDistinct<K(!new)>(s: seq<K>, n: nat)
    requires Distinct(s) && n <= |s|
    ensures Distinct(s[n..])
  {
  }

  /** The keys of a history of calls, by their last use, oldest first. */
  function Recency<K(==,!new)>(calls: seq<K>): seq<K> {
    if calls == [] then [] else Touch(Recency(calls[..|calls| - 1]), calls[|calls| - 1])
  }

  function LastUse<K(==,!new)>(calls: seq<K>, k: K): int {
    if calls == [] then -1
    else if calls[|calls| - 1] == k then |calls| - 1
    else LastUse(calls[..|calls| - 1], k)
  }

  lemma {:induction false} RecencyMembers<K(!new)>(calls: seq<K>)
    ensures Distinct(Recency(calls)) && forall k :: k in Recency(calls) <==> k in calls
  {
    if calls != [] {
      var front := calls[..|calls| - 1];
      RecencyMembers(front);
      TouchMembers(Recency(front), calls[|calls| - 1]);
      assert forall k :: k in calls <==> k in front || k == calls[|calls| - 1];
    }
  }

  ghost predicate Ordered<K(!new)>(calls: seq<K>, s: seq<K>) {
    forall i, j :: 0 <= i < j < |s| ==> LastUse(calls, s[i]) < LastUse(calls, s[j])
  }

  /** Recency order is the order of last use. */
  lemma {:induction false} RecencyIsLastUse<K(!new)>(calls: seq<K>)
    ensures Ordered(calls, Recency(calls))
  {
    if calls != [] {
      var n := |calls| - 1;
      var front, k := calls[..n], calls[n];
      RecencyIsLastUse(front);
      RecencyMembers(front);
      WithoutMembers(Recency(front), k);
      WithoutKeepsOrder(front, Recency(front), k);
      var w := Without(Recency(front), k);
      forall i | 0 <= i < |w| ensures LastUse(calls, w[i]) == LastUse(front, w[i]) < n {
        assert w[i] in w;
        LastUseBound(front, w[i]);
      }
    }
  }

  lemma {:induction false} LastUseBound<K(!new)>(calls: seq<K>, k: K)
    ensures -1 <= LastUse(calls, k) < |calls|
  {
    if calls != [] && calls[|calls| - 1] != k {
      LastUseBound(calls[..|calls| - 1], k);
    }
  }

  lemma {:induction false} WithoutKeepsOrder<K(!new)>(calls: seq<K>, s: seq<K>, k: K)
    requires Ordered(calls, s)
    ensures Ordered(calls, Without(s, k))
  {
    hide LastUse;
    if s != [] {
      var rest := s[1..];
      forall i | 0 <= i < |rest| ensures LastUse(calls, s[0]) < LastUse(calls, rest[i]) {
        assert rest[i] == s[i + 1];
      }
      WithoutKeepsOrder(calls, rest, k);
      WithoutContents(rest, k);
      OrderedCons(calls, s[0], Without(rest, k));
    }
  }

  lemma OrderedCons<K(!new)>(calls: seq<K>, head: K, rest: seq<K>)
    requires Ordered(calls, rest) && forall x :: x in rest ==> LastUse(calls, head) < LastUse(calls, x)
    ensures Ordered(calls, [head] + rest)
  {
    hide LastUse;
  }

  // ----- Sections -----

  lemma LookIsOk<K(!new), V>(c: Store<K, V>, key: K, now: int)
    requires StoreOk(c)
    ensures StoreOk(Look(c, key, now)) && |Look(c, key, now).order| <= |c.order|
  {
    hide Distinct;
    TouchMembers(c.order, key);
    WithoutMembers(c.order, key);
    var d := Look(c, key, now);
    forall k | k in d.order ensures k in d.values {
      assert k in c.order;
    }
    forall k | k in d.values ensures k in d.order {
      assert k in c.order;
    }
  }

  lemma DropOldestIsOk<K(!new), V>(c: Store<K, V>)
    requires StoreOk(c) && c.order != []
    ensures StoreOk(DropOldest(c))
    ensures forall k :: k in DropOldest(c).values ==> k in c.values && DropOldest(c).values[k] == c.values[k]
  {
    assert forall k :: k in c.order <==> k == c.order[0] || k in c.order[1..];
  }

  lemma {:induction false} EvictIsOk<K(!new), V>(c: Store<K, V>, max: nat)
    requires StoreOk(c)
    ensures var e := Evict(c, max);
      && StoreOk(e) && |e.order| <= max && e.order == Last(c.order, max)
      && (forall k :: k in e.values ==> k in c.values && e.values[k] == c.values[k])
      && e.hits == c.hits && e.misses == c.misses && e.expired == c.expired
      && e.evictions - c.evictions == |c.order| - |e.order|
    decreases |c.order|
  {
    hide StoreOk;
    if |c.order| > max {
      var d := DropOldest(c);
      DropOldestIsOk(c);
      EvictIsOk(d, max);
      assert Evict(c, max) == Evict(d, max);
      LastOfAppend(c.order[..1], c.order[1..], max);
      assert c.order[..1] + c.order[1..] == c.order;
    }
  }

  lemma InsertIsOk<K(!new), V>(c: Store<K, V>, key: K, value: V, at: int, ttl: nat, max: nat)
    requires StoreOk(c) && max >= 1
    ensures var e := Insert(c, key, value, at, ttl, max);
      && StoreOk(e) && |e.order| <= max && e.order == Last(Touch(c.order, key), max)
      && key in e.values && e.values[key] == Entry(at + ttl, value)
      && (forall k :: k in e.values && k != key ==> k in c.values && e.values[k] == c.values[k])
      && e.hits == c.hits && e.misses == c.misses && e.expired == c.expired
      && e.evictions - c.evictions == |Touch(c.order, key)| - |e.order|
  {
    hide Evict, Distinct;
    var d := c.(order := Touch(c.order, key), values := c.values[key := Entry(at + ttl, value)]);
    TouchMembers(c.order, key);
    forall k | k in d.order ensures k in d.values {
      assert k in c.order || k == key;
    }
    forall k | k in d.values ensures k in d.order {
      assert k in c.values || k == key;
    }
    EvictIsOk(d, max);
    var e := Evict(d, max);
    TouchEndsWith(c.order, key);
    assert key in e.order;
  }

  // ----- Sequential use -----

  /** A call: its key, the clock sampled at entry, and on a miss the computed value and the clock when
      it is stored. */
  datatype Call<K, V> = Call(key: K, now: int, value: V, at: int)

  function One<K(==,!new), V>(c: Store<K, V>, call: Call<K, V>, ttl: nat, max: nat): Store<K, V> {
    var looked := Look(c, call.key, call.now);
    if Live(c, call.key, call.now) then looked else Insert(looked, call.key, call.value, call.at, ttl, max)
  }

  function Played<K(==,!new), V>(calls: seq<Call<K, V>>, ttl: nat, max: nat): Store<K, V> {
    if calls == [] then Store([], map[], 0, 0, 0, 0)
    else One(Played(calls[..|calls| - 1], ttl, max), calls[|calls| - 1], ttl, max)
  }

  function KeysOf<K, V>(calls: seq<Call<K, V>>): (r: seq<K>)
    ensures |r| == |calls| && forall i :: 0 <= i < |calls| ==> r[i] == calls[i].key
  {
    seq(|calls|, i requires 0 <= i < |calls| => calls[i].key)
  }

  /** One sequential call moves its key to the end, whatever hit, miss or expiry happens inside. */
  lemma OneTouches<K(!new), V>(c: Store<K, V>, call: Call<K, V>, ttl: nat, max: nat)
    requires StoreOk(c) && max >= 1 && |c.order| <= max
    ensures var e := One(c, call, ttl, max);
      && StoreOk(e) && e.order == Last(Touch(c.order, call.key), max)
      && |e.order| - |c.order| == (e.misses - c.misses) - (e.evictions - c.evictions) - (e.expired - c.expired)
      && e.hits + e.misses == c.hits + c.misses + 1
  {
    var key := call.key;
    var looked := Look(c, key, call.now);
    LookIsOk(c, key, call.now);
    TouchMembers(c.order, key);
    WithoutMembers(c.order, key);
    if !Live(c, key, call.now) {
      InsertIsOk(looked, key, call.value, call.at, ttl, max);
      WithoutMembers(looked.order, key);
      TouchMembers(looked.order, key);
    }
  }

  /** The cache is an LRU cache: after any sequence of calls it holds exactly the `max` most recently
      used keys in recency order, and every entry is a miss neither evicted nor expired. */
  lemma {:induction false} CacheIsLeastRecentlyUsed<K(!new), V>(calls: seq<Call<K, V>>, ttl: nat, max: nat)
    requires max >= 1
    ensures var c := Played(calls, ttl, max);
      && StoreOk(c)
      && c.order == Last(Recency(KeysOf(calls)), max)
      && |c.values| == c.misses - c.evictions - c.expired
      && c.hits + c.misses == |calls|
  {
    hide One, Touch, Last;
    var c := Played(calls, ttl, max);
    if calls == [] {
      NoCalls<K>(max);
    } else {
      var n := |calls| - 1;
      var front := Played(calls[..n], ttl, max);
      CacheIsLeastRecentlyUsed(calls[..n], ttl, max);
      LastBound(Recency(KeysOf(calls[..n])), max);
      OneTouches(front, calls[n], ttl, max);
      assert KeysOf(calls)[..n] == KeysOf(calls[..n]);
      RecencyMembers(KeysOf(calls[..n]));
      TouchLast(Recency(KeysOf(calls[..n])), calls[n].key, max);
      ValueCount(front);
      ValueCount(c);
    }
  }

  lemma NoCalls<K>(max: nat)
    ensures Last<K>([], max) == []
  {
  }

  lemma LastBound<K>(s: seq<K>, n: nat)
    ensures |Last(s, n)| <= n
  {
  }

  lemma ValueCount<K(!new), V>(c: Store<K, V>)
    requires StoreOk(c)
    ensures |c.values| == |c.order|
  {
    DistinctCount(c.order);
    assert c.values.Keys == set k | k in c.order;
    assert |c.values| == |c.values.Keys|;
  }

  lemma {:induction false} DistinctCount<K(!new)>(s: seq<K>)
    requires Distinct(s)
    ensures |(set k | k in s)| == |s|
  {
    if s != [] {
      var n := |s| - 1;
      DistinctCount(s[..n]);
      assert (set k | k in s) == (set k | k in s[..n]) + {s[n]};
    }
  }

  // ----- The service -----

  class QueryCache<K(==,!new), V> {
    const ttl: nat
    const maxEntries: nat
    var order: seq<K>
    var values: map<K, Entry<V>>
    var hits: nat
    var misses: nat
    var evictions: nat
    ghost var expired: nat

    ghost function View(): Store<K, V>
      reads this
    {
      Store(order, values, hits, misses, evictions, expired)
    }

    ghost predicate Valid()
      reads this
    {
      StoreOk(View()) && maxEntries >= 1 && |order| <= maxEntries
    }

    constructor (ttl: nat, maxEntries: nat)
      requires maxEntries >= 1
      ensures Valid() && View() == Played([], ttl, maxEntries)
      ensures this.ttl == ttl && this.maxEntries == maxEntries
    {
      this.ttl, this.maxEntries := ttl, maxEntries;
      order, values, hits, misses, evictions, expired := [], map[], 0, 0, 0, 0;
    }

    /** The section that looks the key up. */
    method LookUp(key: K, now: int) returns (value: Option<V>)
      requires Valid()
      modifies this
      ensures Valid() && View() == Look(old(View()), key, now)
      ensures value == if Live(old(View()), key, now) then Some(old(values)[key].value) else None
    {
      hide Touch, Without, StoreOk;
      LookIsOk(View(), key, now);
      if key in values && values[key].expires > now {
        order := Touch(order, key);
        hits := hits + 1;
        value := Some(values[key].value);
        return;
      }
      if key in values {
        order := Without(order, key);
        values := values - {key};
        expired := expired + 1;
      }
      misses := misses + 1;
      value := None;
    }

    /** The section that stores a computed value and evicts the least recently used entries. */
    method StoreValue(key: K, value: V, at: int)
      requires Valid()
      modifies this
      ensures Valid() && View() == Insert(old(View()), key, value, at, ttl, maxEntries)
    {
      hide Touch, Without, StoreOk;
      InsertIsOk(View(), key, value, at, ttl, maxEntries);
      values := values[key := Entry(at + ttl, value)];
      order := Touch(order, key);
      ghost var touched := View();
      while |order| > maxEntries
        invariant Evict(View(), maxEntries) == Evict(touched, maxEntries)
      {
        values := values - {order[0]};
        order := order[1..];
        evictions := evictions + 1;
      }
    }

    /** A call whose computation may fail: then the miss is counted and nothing is stored. */
    method GetOrCompute(key: K, now: int, computed: Option<V>, at: int) returns (value: Option<V>)
      requires Valid()
      modifies this
      ensures Valid()
      ensures computed.Some? ==> View() == One(old(View()), Call(key, now, computed.value, at), ttl, maxEntries)
      ensures computed.None? ==> View() == Look(old(View()), key, now)
      ensures value == if Live(old(View()), key, now) then Some(old(values)[key].value) else computed
    {
      value := LookUp(key, now);
      if value.None? && computed.Some? {
        StoreValue(key, computed.value, at);
        value := computed;
      }
    }

    /** Clearing empties the cache and keeps its counters. */
    method Clear()
      requires Valid()
      modifies this`order, this`values
      ensures Valid() && View() == old(View()).(order := [], values := map[])
    {
      order, values := [], map[];
    }

    method Stats() returns (entries: nat, total: nat)
      requires Valid()
      ensures entries == |order| && total == hits + misses
    {
      ValueCount(View());
      entries, total := |values|, hits + misses;
    }
  }
}
