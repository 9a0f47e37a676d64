/** The cache behind the query service under threads: two locked sections around an unlocked
    computation, keys that carry the version of the published marts. */
module CacheThreads {
  import opened Rows
  import opened Cache

  /** A cache key: the query, and the version of the published state the caller saw. */
  datatype Key = Key(query: string, version: nat)

  /** An answer, and the published state it was computed from. */
  datatype Answer = Answer(query: string, version: nat)

  /** When a hit sampled the clock, and when the entry it was served had been stored. */
  datatype Hit = Hit(sampled: int, storedAt: int)

  datatype Thread =
    | Keyed(key: Key)
    | Sampled(key: Key, now: int)
    | Missed(key: Key)
    | Computed(key: Key, answer: Answer)
    | Returned(key: Key, answer: Answer, hit: Option<Hit>)
    | Raised

  datatype State = State(clock: int, published: nat, cache: Store<Key, Answer>, threads: map<nat, Thread>)

  datatype Action =
    | Tick(elapsed: nat)
    | Publish
    | Call(thread: nat, query: string)
    | SampleClock(thread: nat)
    | LookUp(thread: nat)
    | Compute(thread: nat)
    | ComputeRaises(thread: nat)
    | StoreAnswer(thread: nat)
    | ClearCache

  function With(s: State, t: nat, thread: Thread): State {
    s.(threads := s.threads[t := thread])
  }

  ghost predicate Next(s: State, a: Action, u: State, ttl: nat, max: nat) {
    match a
    case Tick(elapsed) => u == s.(clock := s.clock + elapsed)
    case Publish => u == s.(published := s.published + 1)
    case Call(t, query) => t !in s.threads && u == With(s, t, Keyed(Key(query, s.published)))
    case SampleClock(t) => t in s.threads && s.threads[t].Keyed? && u == With(s, t, Sampled(s.threads[t].key, s.clock))
    case LookUp(t) => t in s.threads && s.threads[t].Sampled? && u == Looked(s, t, s.threads[t].key, s.threads[t].now, ttl)
    case Compute(t) =>
      t in s.threads && s.threads[t].Missed? &&
      u == With(s, t, Computed(s.threads[t].key, Answer(s.threads[t].key.query, s.published)))
    case ComputeRaises(t) => t in s.threads && s.threads[t].Missed? && u == With(s, t, Raised)
    case StoreAnswer(t) => t in s.threads && s.threads[t].Computed? && u == StoredIn(s, t, s.threads[t].key, s.threads[t].answer, ttl, max)
    case ClearCache => u == s.(cache := s.cache.(order := [], values := map[]))
  }

  function Looked(s: State, t: nat, key: Key, now: int, ttl: nat): State {
    var c := Look(s.cache, key, now);
    if Live(s.cache, key, now) then
      var e := s.cache.values[key];
      With(s, t, Returned(key, e.value, Some(Hit(now, e.expires - ttl)))).(cache := c)
    else With(s, t, Missed(key)).(cache := c)
  }

  function StoredIn(s: State, t: nat, key: Key, answer: Answer, ttl: nat, max: nat): State {
    With(s, t, Returned(key, answer, None)).(cache := Insert(s.cache, key, answer, s.clock, ttl, max))
  }

  ghost predicate Behavior(states: seq<State>, actions: seq<Action>, ttl: nat, max: nat) {
    && |states| == |actions| + 1
    && states[0] == State(0, 0, Store([], map[], 0, 0, 0, 0), map[])
    && forall i :: 0 <= i < |actions| ==> Next(states[i], actions[i], states[i + 1], ttl, max)
  }

  // ----- Freshness -----

  /** The answer is to the key's query, from a published state no older than the key's version. */
  ghost predicate Fresh(key: Key, answer: Answer, published: nat) {
    answer.query == key.query && key.version <= answer.version <= published
  }

  ghost predicate CacheOk(s: State, ttl: nat, max: nat) {
    && StoreOk(s.cache) && |s.cache.order| <= max
    && forall k :: k in s.cache.values ==>
         Fresh(k, s.cache.values[k].value, s.published) && s.cache.values[k].expires - ttl <= s.clock
  }

  ghost predicate ThreadOk(s: State, t: Thread, ttl: nat) {
    match t
    case Keyed(key) => key.version <= s.published
    case Sampled(key, now) => key.version <= s.published && now <= s.clock
    case Missed(key) => key.version <= s.published
    case Computed(key, answer) => Fresh(key, answer, s.published)
    case Returned(key, answer, hit) =>
      Fresh(key, answer, s.published) && (hit.Some? ==> hit.value.sampled - hit.value.storedAt < ttl)
    case Raised => true
  }

  ghost predicate Inv(s: State, ttl: nat, max: nat) {
    CacheOk(s, ttl, max) && forall t :: t in s.threads ==> ThreadOk(s, s.threads[t], ttl)
  }

  lemma LookUpKeepsCache(s: State, key: Key, now: int, ttl: nat, max: nat)
    requires CacheOk(s, ttl, max)
    ensures CacheOk(s.(cache := Look(s.cache, key, now)), ttl, max)
  {
    hide StoreOk, Touch, Without;
    LookIsOk(s.cache, key, now);
  }

  lemma StoringKeepsCache(s: State, key: Key, answer: Answer, ttl: nat, max: nat)
    requires CacheOk(s, ttl, max) && max >= 1 && Fresh(key, answer, s.published)
    ensures CacheOk(s.(cache := Insert(s.cache, key, answer, s.clock, ttl, max)), ttl, max)
  {
    hide StoreOk, Insert;
    InsertIsOk(s.cache, key, answer, s.clock, ttl, max);
  }

  lemma NextKeepsInv(s: State, a: Action, u: State, ttl: nat, max: nat)
    requires max >= 1 && Inv(s, ttl, max) && Next(s, a, u, ttl, max)
    ensures Inv(u, ttl, max)
  {
    hide StoreOk, Insert, Look;
    match a {
      case LookUp(t) => LookUpKeepsCache(s, s.threads[t].key, s.threads[t].now, ttl, max);
      case StoreAnswer(t) => StoringKeepsCache(s, s.threads[t].key, s.threads[t].answer, ttl, max);
      case ClearCache => assert StoreOk(u.cache) by { EmptyIsOk(u.cache); }
      case _ =>
    }
  }

  lemma EmptyIsOk(c: Store<Key, Answer>)
    requires c.order == [] && c.values == map[]
    ensures StoreOk(c)
  {
  }

  /** In every interleaving of the sections, the cache is within its bound, and whatever a call
      returns answers its own query from a state at least as recent as the version in its key; a hit
      was stored less than the time to live before the caller sampled the clock. */
  lemma {:induction false} CacheIsFresh(states: seq<State>, actions: seq<Action>, ttl: nat, max: nat, i: nat)
    requires max >= 1 && Behavior(states, actions, ttl, max) && i < |states|
    ensures Inv(states[i], ttl, max)
  {
    hide Next, Inv;
    if i == 0 {
      NothingCached(states[0], ttl, max);
    } else {
      CacheIsFresh(states, actions, ttl, max, i - 1);
      NextKeepsInv(states[i - 1], actions[i - 1], states[i], ttl, max);
    }
  }

  lemma NothingCached(s: State, ttl: nat, max: nat)
    requires s == State(0, 0, Store([], map[], 0, 0, 0, 0), map[])
    ensures Inv(s, ttl, max)
  {
  }

  /** A publication is seen at once: a call that reads its version afterwards gets an answer computed
      from the new state, whatever the cache holds. */
  lemma PublishedStateIsServed(states: seq<State>, actions: seq<Action>, ttl: nat, max: nat, i: nat, j: nat, t: nat)
    requires max >= 1 && Behavior(states, actions, ttl, max) && i < j < |states|
    requires t !in states[i].threads && t in states[j].threads && states[j].threads[t].Returned?
    ensures states[j].threads[t].answer.version >= states[i].published
  {
    hide Behavior, Next;
    CacheIsFresh(states, actions, ttl, max, j);
    LaterKey(states, actions, ttl, max, i, j, t);
  }

  /** The key of a thread that was not there before carries a version published since. */
  lemma {:induction false} LaterKey(states: seq<State>, actions: seq<Action>, ttl: nat, max: nat, i: nat, j: nat, t: nat)
    requires Behavior(states, actions, ttl, max) && i <= j < |states| && t !in states[i].threads
    ensures states[i].published <= states[j].published
    ensures t in states[j].threads && !states[j].threads[t].Raised? ==> states[j].threads[t].key.version >= states[i].published
  {
    hide Insert, Look, Live;
    if i < j {
      LaterKey(states, actions, ttl, max, i, j - 1, t);
      assert Next(states[j - 1], actions[j - 1], states[j], ttl, max);
    }
  }

  // ----- The age of a hit at the instant it is served -----

  /** The lookup of thread `t` is a hit. */
  ghost predicate Hits(s: State, t: nat) {
    && t in s.threads && s.threads[t].Sampled? && Live(s.cache, s.threads[t].key, s.threads[t].now)
  }

  /** How old the entry is when the section runs. */
  ghost function AgeOfHit(s: State, t: nat, ttl: nat): int
    requires Hits(s, t)
  {
    s.clock - (s.cache.values[s.threads[t].key].expires - ttl)
  }

  /** A caller that does not wait for the lock is always served an entry younger than the time to live,
      and one that waits at most an entry older by its wait. An entry is young exactly if it has not
      expired by then. */
  lemma AgeIsBounded(s: State, t: nat, u: State, ttl: nat, max: nat)
    requires Inv(s, ttl, max) && Next(s, LookUp(t), u, ttl, max) && Hits(s, t)
    ensures u.threads[t].Returned? && u.threads[t].hit.Some?
    ensures s.clock - u.threads[t].hit.value.storedAt == AgeOfHit(s, t, ttl)
    ensures 0 <= AgeOfHit(s, t, ttl) < ttl + (s.clock - s.threads[t].now)
    ensures AgeOfHit(s, t, ttl) < ttl <==> s.clock < s.cache.values[s.threads[t].key].expires
    ensures s.threads[t].now == s.clock ==> AgeOfHit(s, t, ttl) < ttl
  {
    hide StoreOk, Look, Fresh;
  }

  // ----- A history that serves a stale entry -----

  ghost predicate EndsIn(states: seq<State>, s: State) {
    states != [] && states[|states| - 1] == s
  }

  ghost predicate Reached(s: State, ttl: nat, max: nat) {
    exists states, actions :: Behavior(states, actions, ttl, max) && EndsIn(states, s)
  }

  lemma ReachedNext(s: State, a: Action, u: State, ttl: nat, max: nat)
    requires Reached(s, ttl, max) && Next(s, a, u, ttl, max)
    ensures Reached(u, ttl, max)
  {
    hide Next;
    var states, actions :| Behavior(states, actions, ttl, max) && EndsIn(states, s);
    var more, all := states + [u], actions + [a];
    assert forall i :: 0 <= i < |states| ==> more[i] == states[i];
    forall i | 0 <= i < |all| ensures Next(more[i], all[i], more[i + 1], ttl, max) {
      if i < |actions| {
        assert Next(states[i], actions[i], states[i + 1], ttl, max);
      }
    }
    assert Behavior(more, all, ttl, max) && EndsIn(more, u);
  }

  lemma NothingIsReached(ttl: nat, max: nat)
    ensures Reached(State(0, 0, Store([], map[], 0, 0, 0, 0), map[]), ttl, max)
  {
    var s := State(0, 0, Store([], map[], 0, 0, 0, 0), map[]);
    assert Behavior([s], [], ttl, max) && EndsIn([s], s);
  }

  lemma ReachedInv(s: State, ttl: nat, max: nat)
    requires max >= 1 && Reached(s, ttl, max)
    ensures Inv(s, ttl, max)
  {
    hide Behavior, Inv;
    var states, actions :| Behavior(states, actions, ttl, max) && EndsIn(states, s);
    EndIsThere(states, actions, ttl, max);
    CacheIsFresh(states, actions, ttl, max, |states| - 1);
  }

  lemma EndIsThere(states: seq<State>, actions: seq<Action>, ttl: nat, max: nat)
    requires Behavior(states, actions, ttl, max)
    ensures |states| > 0
  {
    hide Next;
  }

  /** A first caller stores an answer at time zero. */
  lemma OneAnswerStored(ttl: nat, max: nat) returns (s: State)
    requires max >= 1
    ensures Reached(s, ttl, max) && s.clock == 0 && s.published == 0
    ensures s.threads == map[1 := Returned(Key("q", 0), Answer("q", 0), None)]
    ensures s.cache == Store([Key("q", 0)], map[Key("q", 0) := Entry(ttl, Answer("q", 0))], 0, 1, 0, 0)
  {
    hide Reached;
    var key, answer := Key("q", 0), Answer("q", 0);
    var none: Store<Key, Answer> := Store([], map[], 0, 0, 0, 0);
    var missed := none.(misses := 1);
    var s0 := State(0, 0, none, map[]);
    var s1 := With(s0, 1, Keyed(key));
    var s2 := With(s1, 1, Sampled(key, 0));
    var s3 := With(s2, 1, Missed(key)).(cache := missed);
    var s4 := With(s3, 1, Computed(key, answer));
    NothingIsReached(ttl, max);
    ReachedNext(s0, Action.Call(1, "q"), s1, ttl, max);
    ReachedNext(s1, SampleClock(1), s2, ttl, max);
    ReachedNext(s2, LookUp(1), s3, ttl, max);
    ReachedNext(s3, Compute(1), s4, ttl, max);
    s := StoredIn(s4, 1, key, answer, ttl, max);
    ReachedNext(s4, StoreAnswer(1), s, ttl, max);
  }

  /** The caller's lookup is about to hit, `wait` ticks after it sampled the clock. */
  ghost predicate HitsAfter(s: State, t: nat, wait: nat) {
    Hits(s, t) && s.clock - s.threads[t].now == wait
  }

  /** For every time to live and every wait a second caller that samples the clock in the last instant
      of the entry's life and then waits is served an entry as old as the bound allows. */
  lemma WaitingCallersGetStaleEntries(ttl: nat, max: nat, wait: nat) returns (s: State, t: nat)
    requires ttl >= 1 && max >= 1
    ensures Reached(s, ttl, max) && HitsAfter(s, t, wait) && AgeOfHit(s, t, ttl) == ttl + wait - 1
  {
    hide Reached;
    var key := Key("q", 0);
    t := 0;
    var s5 := OneAnswerStored(ttl, max);
    var s6 := s5.(clock := ttl - 1);
    var s7 := With(s6, 0, Keyed(key));
    var s8 := With(s7, 0, Sampled(key, ttl - 1));
    s := s8.(clock := ttl - 1 + wait);
    ReachedNext(s5, Tick(ttl - 1), s6, ttl, max);
    ReachedNext(s6, Action.Call(0, "q"), s7, ttl, max);
    ReachedNext(s7, SampleClock(0), s8, ttl, max);
    ReachedNext(s8, Tick(wait), s, ttl, max);
  }

  /** Every hit after this wait is on an entry younger than the time to live. */
  ghost predicate AllYoung(ttl: nat, max: nat, wait: nat) {
    forall s, t :: Reached(s, ttl, max) && HitsAfter(s, t, wait) ==> AgeOfHit(s, t, ttl) < ttl
  }

  /** Whatever the time to live and the bound of the cache, entries older than their time to live are
      never served if and only if nobody waits for the lock. */
  lemma HitsAreYoungExactly(ttl: nat, max: nat, wait: nat)
    requires ttl >= 1 && max >= 1
    ensures AllYoung(ttl, max, wait) <==> wait == 0
  {
    hide Reached, Inv;
    if wait == 0 {
      forall s, t | Reached(s, ttl, max) && HitsAfter(s, t, wait) ensures AgeOfHit(s, t, ttl) < ttl {
        ReachedInv(s, ttl, max);
        AgeIsBounded(s, t, Looked(s, t, s.threads[t].key, s.threads[t].now, ttl), ttl, max);
      }
    } else {
      var s, t := WaitingCallersGetStaleEntries(ttl, max, wait);
    }
  }

  // ----- The counters -----

  /** The calls answered from the cache, and those that found nothing in it. */
  function Answered(s: State): set<nat> {
    set t | t in s.threads && s.threads[t].Returned? && s.threads[t].hit.Some?
  }

  function Unanswered(s: State): set<nat> {
    set t | t in s.threads && (s.threads[t].Missed? || s.threads[t].Computed? || s.threads[t].Raised?
                               || (s.threads[t].Returned? && s.threads[t].hit.None?))
  }

  ghost predicate Counted(s: State) {
    s.cache.hits == |Answered(s)| && s.cache.misses == |Unanswered(s)|
  }

  lemma LookUpCounts(s: State, t: nat, ttl: nat)
    requires Counted(s) && t in s.threads && s.threads[t].Sampled?
    ensures Counted(Looked(s, t, s.threads[t].key, s.threads[t].now, ttl))
  {
    hide Touch, Without;
    var u := Looked(s, t, s.threads[t].key, s.threads[t].now, ttl);
    if Live(s.cache, s.threads[t].key, s.threads[t].now) {
      assert Answered(u) == Answered(s) + {t} && Unanswered(u) == Unanswered(s);
    } else {
      assert Answered(u) == Answered(s) && Unanswered(u) == Unanswered(s) + {t};
    }
  }

  lemma {:induction false} EvictionKeepsCounters(c: Store<Key, Answer>, max: nat)
    ensures Evict(c, max).hits == c.hits && Evict(c, max).misses == c.misses
    decreases |c.order|
  {
    if |c.order| > max {
      EvictionKeepsCounters(DropOldest(c), max);
    }
  }

  lemma StoringCounts(s: State, t: nat, ttl: nat, max: nat)
    requires Counted(s) && t in s.threads && s.threads[t].Computed?
    ensures Counted(StoredIn(s, t, s.threads[t].key, s.threads[t].answer, ttl, max))
  {
    hide Touch, Evict;
    var key := s.threads[t].key;
    var u := StoredIn(s, t, key, s.threads[t].answer, ttl, max);
    var c := s.cache;
    EvictionKeepsCounters(
      c.(order := Touch(c.order, key), values := c.values[key := Entry(s.clock + ttl, s.threads[t].answer)]), max);
    assert Answered(u) == Answered(s) && Unanswered(u) == Unanswered(s);
  }

  lemma NextKeepsCounters(s: State, a: Action, u: State, ttl: nat, max: nat)
    requires Counted(s) && Next(s, a, u, ttl, max)
    ensures Counted(u)
  {
    hide Insert, Look, Looked, StoredIn;
    match a {
      case LookUp(t) => LookUpCounts(s, t, ttl);
      case StoreAnswer(t) => StoringCounts(s, t, ttl, max);
      case _ => assert Answered(u) == Answered(s) && Unanswered(u) == Unanswered(s);
    }
  }

  /** In every interleaving the reported hits are the calls that were answered from the cache, and the
      reported misses those that found nothing, be they computed, still computing or failed. */
  lemma {:induction false} CountersAreTrue(states: seq<State>, actions: seq<Action>, ttl: nat, max: nat, i: nat)
    requires Behavior(states, actions, ttl, max) && i < |states|
    ensures states[i].cache.hits == |Answered(states[i])| && states[i].cache.misses == |Unanswered(states[i])|
  {
    hide Next, Answered, Unanswered;
    if i == 0 {
      NobodyCalled(states[0]);
    } else {
      CountersAreTrue(states, actions, ttl, max, i - 1);
      NextKeepsCounters(states[i - 1], actions[i - 1], states[i], ttl, max);
    }
  }

  lemma NobodyCalled(s: State)
    requires s == State(0, 0, Store([], map[], 0, 0, 0, 0), map[])
    ensures Counted(s)
  {
  }
}
