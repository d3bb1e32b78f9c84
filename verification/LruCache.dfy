/** The API cache: a map of entries with expiry times, a recency list, and eviction of the
    least recently used key (src/server/cache/cache-manager.ts).  The clock is a parameter. */
module LruCache {
  import opened Optional
  import opened Sequences

  datatype DataType = Issues | PullRequests | RepoMetadata | ViewerRepos | BatchIssues

  /** Seconds to live per data type. */
  datatype TtlConfig = TtlConfig(issues: int, pullRequests: int, repoMetadata: int, viewerRepos: int, batchIssues: int)
  {
    function Of(t: DataType): int {
      match t
      case Issues => issues
      case PullRequests => pullRequests
      case RepoMetadata => repoMetadata
      case ViewerRepos => viewerRepos
      case BatchIssues => batchIssues
    }
  }

  /** A cached payload (opaque, so a string stands for it) with its bookkeeping. */
  datatype Entry = Entry(data: string, storedAt: int, expiresAt: int, key: string, dataType: DataType)

  /** The abstract cache: entries plus keys ordered from least to most recently used. */
  datatype Cache = Cache(store: map<string, Entry>, order: seq<string>)

  const EMPTY := Cache(map[], [])

  datatype Op =
    | Get(key: string, now: int)
    | Set(key: string, dataType: DataType, data: string, now: int)
    | Invalidate(key: string)
    | InvalidateByType(dataType: DataType)
    | InvalidateByPrefix(prefix: string)
    | Clear

  function Capacity(maxEntries: int): nat { if maxEntries < 0 then 0 else maxEntries }

  ghost predicate Consistent(c: Cache) {
    NoDup(c.order) && Elems(c.order) == c.store.Keys
  }

  /** What every operation keeps: the recency list names the stored keys, each once, within capacity. */
  ghost predicate Inv(c: Cache, maxEntries: int) {
    Consistent(c) && |c.order| <= Capacity(maxEntries)
  }

  function Drop(c: Cache, dead: set<string>): Cache {
    Cache(c.store - dead, Without(c.order, dead))
  }

  function Touch(c: Cache, key: string): Cache {
    c.(order := Without(c.order, {key}) + [key])
  }

  function Put(c: Cache, e: Entry): Cache {
    Touch(c.(store := c.store[e.key := e]), e.key)
  }

  function Excess(c: Cache, maxEntries: int): nat {
    if |c.order| <= Capacity(maxEntries) then 0 else |c.order| - Capacity(maxEntries)
  }

  function ShiftOldest(c: Cache): Cache
    requires c.order != []
  {
    Cache(c.store - {c.order[0]}, c.order[1..])
  }

  /** The cache after its `n` least recently used keys have been shifted out. */
  function Evicted(c: Cache, n: nat): (d: Cache)
    requires n <= |c.order|
    ensures d.order == c.order[n..]
  {
    if n == 0 then c else ShiftOldest(Evicted(c, n - 1))
  }

  function MakeEntry(ttl: TtlConfig, key: string, t: DataType, data: string, now: int): Entry {
    Entry(data, now, now + ttl.Of(t) * 1000, key, t)
  }

  function Lookup(c: Cache, key: string, now: int): Option<string> {
    if key in c.store && now <= c.store[key].expiresAt then Some(c.store[key].data) else None
  }

  function AfterGet(c: Cache, key: string, now: int): Cache {
    if key !in c.store then c
    else if now > c.store[key].expiresAt then Drop(c, {key})
    else Touch(c, key)
  }

  function KeysOfType(c: Cache, t: DataType): set<string> {
    set k | k in c.store && c.store[k].dataType == t
  }

  function KeysWithPrefix(c: Cache, prefix: string): set<string> {
    set k | k in c.store && prefix <= k
  }

  function Step(c: Cache, op: Op, ttl: TtlConfig, maxEntries: int): Cache {
    match op
    case Get(key, now) => AfterGet(c, key, now)
    case Set(key, t, data, now) =>
      var d := Put(c, MakeEntry(ttl, key, t, data, now));
      Evicted(d, Excess(d, maxEntries))
    case Invalidate(key) => Drop(c, {key})
    case InvalidateByType(t) => Drop(c, KeysOfType(c, t))
    case InvalidateByPrefix(prefix) => Drop(c, KeysWithPrefix(c, prefix))
    case Clear => EMPTY
  }

  function Run(c: Cache, ops: seq<Op>, ttl: TtlConfig, maxEntries: int): Cache {
    if ops == [] then c
    else Step(Run(c, ops[..|ops| - 1], ttl, maxEntries), ops[|ops| - 1], ttl, maxEntries)
  }

  // ---- facts about the building blocks ----

  lemma ConsistentSize(c: Cache)
    requires Consistent(c)
    ensures |c.store| == |c.order|
  {
    NoDupCardinality(c.order);
    assert |c.store| == |c.store.Keys|;
  }

  lemma DropConsistent(c: Cache, dead: set<string>)
    requires Consistent(c)
    ensures Consistent(Drop(c, dead)) && |Drop(c, dead).order| <= |c.order|
  {
    WithoutKeepsNoDup(c.order, dead);
    assert Elems(Without(c.order, dead)) == (c.store - dead).Keys;
  }

  lemma DropNothing(c: Cache)
    ensures Drop(c, {}) == c
  {
    WithoutNothing(c.order, {});
  }

  lemma DropTwice(c: Cache, a: set<string>, b: set<string>)
    ensures Drop(Drop(c, a), b) == Drop(c, a + b)
  {
    WithoutTwice(c.order, a, b);
    assert c.store - a - b == c.store - (a + b);
  }

  lemma DropOneMore(c: Cache, all: set<string>, todo: set<string>, key: string)
    requires key in todo && todo <= all
    ensures Drop(Drop(c, all - todo), {key}) == Drop(c, all - (todo - {key}))
  {
    DropTwice(c, all - todo, {key});
    assert all - todo + {key} == all - (todo - {key});
  }

  lemma TouchConsistent(c: Cache, key: string)
    requires NoDup(c.order) && Elems(c.order) + {key} == c.store.Keys
    ensures Consistent(Touch(c, key))
    ensures |Touch(c, key).order| == if key in c.order then |c.order| else |c.order| + 1
  {
    WithoutKeepsNoDup(c.order, {key});
    NoDupAppend(Without(c.order, {key}), key);
    if key in c.order { WithoutOneLength(c.order, key); } else { WithoutNothing(c.order, {key}); }
    var kept := Without(c.order, {key});
    assert forall x :: x in Touch(c, key).order <==> x in kept || x == key;
    assert Elems(Touch(c, key).order) == c.store.Keys;
  }

  lemma PutConsistent(c: Cache, e: Entry)
    requires Consistent(c)
    ensures Consistent(Put(c, e))
    ensures |Put(c, e).order| == if e.key in c.order then |c.order| else |c.order| + 1
  {
    var d := c.(store := c.store[e.key := e]);
    assert Elems(d.order) + {e.key} == d.store.Keys;
    TouchConsistent(d, e.key);
  }

  /** Shifting out the oldest key is dropping it. */
  lemma ShiftIsDrop(c: Cache)
    requires Consistent(c) && c.order != []
    ensures ShiftOldest(c) == Drop(c, {c.order[0]})
    ensures Consistent(ShiftOldest(c)) && |ShiftOldest(c).order| == |c.order| - 1
  {
    WithoutNothing(c.order[1..], {c.order[0]});
    DropConsistent(c, {c.order[0]});
  }

  /** As many entries as listed keys, now and after any number of evictions. */
  ghost predicate Evictable(c: Cache)
    decreases |c.order|
  {
    |c.store| == |c.order| && (c.order != [] ==> Evictable(ShiftOldest(c)))
  }

  lemma {:induction false} ConsistentIsEvictable(c: Cache)
    requires Consistent(c)
    ensures Evictable(c)
    decreases |c.order|
  {
    ConsistentSize(c);
    if c.order != [] {
      ShiftIsDrop(c);
      ConsistentIsEvictable(ShiftOldest(c));
    }
  }

  lemma EvictedOne(c: Cache)
    requires Consistent(c) && c.order != []
    ensures Evicted(c, 1) == ShiftOldest(c) == Drop(c, {c.order[0]})
    ensures Consistent(Evicted(c, 1))
  {
    assert Evicted(c, 0) == c;
    ShiftIsDrop(c);
  }

  lemma {:induction false} EvictedConsistent(c: Cache, n: nat)
    requires Consistent(c) && n <= |c.order|
    ensures Consistent(Evicted(c, n))
    ensures |Evicted(c, n).store| == |Evicted(c, n).order| == |c.order| - n
  {
    if n > 0 {
      EvictedConsistent(c, n - 1);
      ShiftIsDrop(Evicted(c, n - 1));
    }
    ConsistentSize(Evicted(c, n));
  }

  lemma StepKeepsInv(c: Cache, op: Op, ttl: TtlConfig, maxEntries: int)
    requires Inv(c, maxEntries)
    ensures Inv(Step(c, op, ttl, maxEntries), maxEntries)
  {
    match op
    case Get(key, now) =>
      if key in c.store {
        assert key in Elems(c.order);
        assert Elems(c.order) + {key} == c.store.Keys;
        DropConsistent(c, {key});
        TouchConsistent(c, key);
      }
    case Set(key, t, data, now) =>
      var e := MakeEntry(ttl, key, t, data, now);
      PutConsistent(c, e);
      EvictedConsistent(Put(c, e), Excess(Put(c, e), maxEntries));
    case Invalidate(key) => DropConsistent(c, {key});
    case InvalidateByType(t) => DropConsistent(c, KeysOfType(c, t));
    case InvalidateByPrefix(prefix) => DropConsistent(c, KeysWithPrefix(c, prefix));
    case Clear =>
  }

  lemma {:induction false} RunKeepsInv(c: Cache, ops: seq<Op>, ttl: TtlConfig, maxEntries: int)
    requires Inv(c, maxEntries)
    ensures Inv(Run(c, ops, ttl, maxEntries), maxEntries)
  {
    if ops != [] {
      RunKeepsInv(c, ops[..|ops| - 1], ttl, maxEntries);
      StepKeepsInv(Run(c, ops[..|ops| - 1], ttl, maxEntries), ops[|ops| - 1], ttl, maxEntries);
    }
  }

  /** What a set does, in terms of its entry. */
  lemma SetIs(c: Cache, op: Op, e: Entry, ttl: TtlConfig, maxEntries: int)
    requires Inv(c, maxEntries) && op.Set? && e == MakeEntry(ttl, op.key, op.dataType, op.data, op.now)
    ensures NoDup(c.order) && Evictable(Put(c, e)) && Inv(Step(c, op, ttl, maxEntries), maxEntries)
    ensures Step(c, op, ttl, maxEntries) == Evicted(Put(c, e), Excess(Put(c, e), maxEntries))
    ensures Excess(Put(c, e), maxEntries) ==
            |c.order| + (if op.key in c.order then 0 else 1) - |Step(c, op, ttl, maxEntries).order|
  {
    PutConsistent(c, e);
    ConsistentIsEvictable(Put(c, e));
    StepKeepsInv(c, op, ttl, maxEntries);
  }

  // ---- the class ----

  class CacheManager {
    var store: map<string, Entry>
    var accessOrder: seq<string>  // most recently used at the end
    var hits: nat
    var misses: nat
    var evictions: nat
    const ttl: TtlConfig
    const maxEntries: int

    ghost function View(): Cache
      reads this
    {
      Cache(store, accessOrder)
    }

    ghost predicate Valid()
      reads this
    {
      Inv(View(), maxEntries)
    }

    constructor (ttl: TtlConfig, maxEntries: int)
      ensures Valid() && View() == EMPTY
      ensures this.ttl == ttl && this.maxEntries == maxEntries
      ensures hits == misses == evictions == 0
    {
      this.ttl, this.maxEntries := ttl, maxEntries;
      store, accessOrder := map[], [];
      hits, misses, evictions := 0, 0, 0;
    }

    /** The stored payload, unless there is none or it has expired; an expired entry is removed. */
    method Get(key: string, now: int) returns (r: Option<string>)
      requires Valid()
      modifies this
      ensures Valid() && View() == AfterGet(old(View()), key, now)
      ensures r == Lookup(old(View()), key, now)
      ensures hits == old(hits) + (if r.Some? then 1 else 0)
      ensures misses == old(misses) + (if r.Some? then 0 else 1)
      ensures evictions == old(evictions)
    {
      StepKeepsInv(View(), Op.Get(key, now), ttl, maxEntries);
      if key !in store {
        misses := misses + 1;
        return None;
      }
      var entry := store[key];
      if now > entry.expiresAt {
        Remove(key);
        misses := misses + 1;
        return None;
      }
      hits := hits + 1;
      TouchAccessOrder(key);
      return Some(entry.data);
    }

    /** Stores a payload as the most recently used key and evicts the oldest keys beyond capacity. */
    method Set(key: string, dataType: DataType, data: string, now: int)
      requires Valid()
      modifies this
      ensures Valid() && View() == Step(old(View()), Op.Set(key, dataType, data, now), ttl, maxEntries)
      ensures evictions - old(evictions) ==
              |old(accessOrder)| + (if key in old(accessOrder) then 0 else 1) - |accessOrder|
      ensures hits == old(hits) && misses == old(misses)
    {
      var entry := MakeEntry(ttl, key, dataType, data, now);
      SetIs(View(), Op.Set(key, dataType, data, now), entry, ttl, maxEntries);
      PutEntry(entry);
      EvictIfNeeded();
    }

    method PutEntry(entry: Entry)
      requires NoDup(accessOrder)
      modifies this`store, this`accessOrder
      ensures View() == Put(old(View()), entry)
    {
      store := store[entry.key := entry];
      TouchAccessOrder(entry.key);
    }

    method Invalidate(key: string) returns (existed: bool)
      requires Valid()
      modifies this`store, this`accessOrder
      ensures Valid() && View() == Drop(old(View()), {key})
      ensures existed <==> key in old(store)
    {
      existed := key in store;
      DropConsistent(View(), {key});
      if existed {
        Remove(key);
      } else {
        assert View().store - {key} == View().store;
        WithoutNothing(accessOrder, {key});
      }
    }

    method InvalidateByType(dataType: DataType) returns (count: nat)
      requires Valid()
      modifies this`store, this`accessOrder
      ensures Valid() && View() == Drop(old(View()), KeysOfType(old(View()), dataType))
      ensures count == |KeysOfType(old(View()), dataType)|
    {
      count := RemoveEach(set k | k in store && store[k].dataType == dataType);
    }

    method InvalidateByPrefix(prefix: string) returns (count: nat)
      requires Valid()
      modifies this`store, this`accessOrder
      ensures Valid() && View() == Drop(old(View()), KeysWithPrefix(old(View()), prefix))
      ensures count == |KeysWithPrefix(old(View()), prefix)|
    {
      count := RemoveEach(set k | k in store && prefix <= k);
    }

    method ClearAll()
      requires Valid()
      modifies this`store, this`accessOrder
      ensures Valid() && View() == EMPTY
    {
      store := map[];
      accessOrder := [];
    }

    /** The loop of both bulk invalidations: the matching keys are removed one by one, in any order. */
    method RemoveEach(matching: set<string>) returns (count: nat)
      requires Valid() && matching <= store.Keys
      modifies this`store, this`accessOrder
      ensures Valid() && View() == Drop(old(View()), matching)
      ensures count == |matching|
    {
      count := 0;
      ghost var before := View();
      DropNothing(before);
      var todo := matching;
      assert matching - todo == {};
      while todo != {}
        invariant NoDup(accessOrder) && todo <= matching
        invariant View() == Drop(before, matching - todo)
        invariant count == |matching| - |todo|
      {
        var key :| key in todo;
        DropOneMore(before, matching, todo, key);
        Remove(key);
        count, todo := count + 1, todo - {key};
      }
      DropConsistent(before, matching);
      assert matching - todo == matching;
    }

    /** `store.delete(key)` together with its removal from the recency list. */
    method Remove(key: string)
      requires NoDup(accessOrder)
      modifies this`store, this`accessOrder
      ensures NoDup(accessOrder) && View() == Drop(old(View()), {key})
    {
      WithoutKeepsNoDup(accessOrder, {key});
      store := store - {key};
      RemoveFromAccessOrder(key);
    }

    method EvictIfNeeded()
      requires Evictable(View())
      modifies this`store, this`accessOrder, this`evictions
      ensures View() == Evicted(old(View()), Excess(old(View()), maxEntries))
      ensures evictions == old(evictions) + Excess(old(View()), maxEntries)
    {
      ghost var before := View();
      ghost var gone: nat := 0;
      while |store| > maxEntries && |accessOrder| > 0
        invariant gone <= |before.order| && View() == Evicted(before, gone)
        invariant Evictable(View()) && |accessOrder| == |before.order| - gone
        invariant evictions == old(evictions) + gone
        invariant gone == 0 || |store| >= maxEntries
        decreases |accessOrder|
      {
        EvictOldest();
        gone := gone + 1;
      }
    }

    method EvictOldest()
      requires accessOrder != []
      modifies this`store, this`accessOrder, this`evictions
      ensures View() == ShiftOldest(old(View())) && evictions == old(evictions) + 1
    {
      var oldest := accessOrder[0];
      accessOrder := accessOrder[1..];
      store := store - {oldest};
      evictions := evictions + 1;
    }

    method TouchAccessOrder(key: string)
      requires NoDup(accessOrder)
      modifies this`accessOrder
      ensures accessOrder == Without(old(accessOrder), {key}) + [key]
    {
      RemoveFromAccessOrder(key);
      accessOrder := accessOrder + [key];
    }

    /** Splices out the first position holding `key`, if any. */
    method RemoveFromAccessOrder(key: string)
      requires NoDup(accessOrder)
      modifies this`accessOrder
      ensures accessOrder == Without(old(accessOrder), {key})
    {
      var i := 0;
      while i < |accessOrder| && accessOrder[i] != key
        invariant i <= |accessOrder| && forall j :: 0 <= j < i ==> accessOrder[j] != key
      {
        i := i + 1;
      }
      if i < |accessOrder| {
        WithoutAt(accessOrder, i);
        accessOrder := accessOrder[..i] + accessOrder[i + 1..];
      } else {
        WithoutNothing(accessOrder, {key});
      }
    }
  }
}
