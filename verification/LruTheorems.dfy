/** What the cache guarantees over whole runs: a larger cache contains a smaller one, every hit is
    the current unexpired value of an unbounded cache, and only disused keys are evicted. */
module LruTheorems {
  import opened Optional
  import opened Sequences
  import opened LruCache

  // ---- inclusion: a cache of capacity n + 1 holds everything a cache of capacity n holds ----

  /** `small` is `big` with at most one key taken out: same entries, same recency order. */
  ghost predicate OneKeyLess(small: Cache, big: Cache) {
    exists gone: set<string> :: |gone| <= 1 && small == Drop(big, gone)
  }

  /** `small` is `big` with some keys taken out. */
  ghost predicate KeysLess(small: Cache, big: Cache) {
    exists gone: set<string> :: small == Drop(big, gone)
  }

  lemma Witness(small: Cache, big: Cache, gone: set<string>)
    requires |gone| <= 1 && small == Drop(big, gone)
    ensures OneKeyLess(small, big)
  {
  }

  lemma DropsCommute(c: Cache, a: set<string>, b: set<string>)
    ensures Drop(Drop(c, a), b) == Drop(Drop(c, b), a) == Drop(c, a + b)
  {
    DropTwice(c, a, b);
    DropTwice(c, b, a);
    assert a + b == b + a;
  }

  lemma TouchDrop(c: Cache, key: string, gone: set<string>)
    ensures Drop(Touch(c, key), gone) == if key in gone then Drop(c, gone) else Touch(Drop(c, gone), key)
  {
    TouchDropOrder(c.order, key, gone);
  }

  lemma TouchDropOrder(order: seq<string>, key: string, gone: set<string>)
    ensures key in gone ==> Without(Without(order, {key}) + [key], gone) == Without(order, gone)
    ensures key !in gone ==>
            Without(Without(order, {key}) + [key], gone) == Without(Without(order, gone), {key}) + [key]
  {
    if key in gone { TouchDropped(order, key, gone); } else { TouchKept(order, key, gone); }
  }

  lemma WithoutOne(x: string, gone: set<string>)
    ensures Without([x], gone) == if x in gone then [] else [x]
  {
  }

  lemma TouchDropped(order: seq<string>, key: string, gone: set<string>)
    requires key in gone
    ensures Without(Without(order, {key}) + [key], gone) == Without(order, gone)
  {
    WithoutConcat(Without(order, {key}), [key], gone);
    WithoutOne(key, gone);
    WithoutTwice(order, {key}, gone);
    assert {key} + gone == gone;
  }

  lemma TouchKept(order: seq<string>, key: string, gone: set<string>)
    requires key !in gone
    ensures Without(Without(order, {key}) + [key], gone) == Without(Without(order, gone), {key}) + [key]
  {
    WithoutConcat(Without(order, {key}), [key], gone);
    WithoutOne(key, gone);
    WithoutTwice(order, {key}, gone);
    WithoutTwice(order, gone, {key});
    assert {key} + gone == gone + {key};
  }

  lemma PutDrop(c: Cache, e: Entry, gone: set<string>)
    ensures Put(Drop(c, gone), e) == Drop(Put(c, e), gone - {e.key})
  {
    PutDropOrder(c.order, e.key, gone);
    PutDropStore(c.store, e, gone);
  }

  lemma PutDropStore(store: map<string, Entry>, e: Entry, gone: set<string>)
    ensures (store - gone)[e.key := e] == store[e.key := e] - (gone - {e.key})
  {
  }

  lemma PutDropOrder(order: seq<string>, key: string, gone: set<string>)
    ensures Without(Without(order, gone), {key}) + [key] == Without(Without(order, {key}) + [key], gone - {key})
  {
    var others := gone - {key};
    WithoutConcat(Without(order, {key}), [key], others);
    WithoutTwice(order, {key}, others);
    WithoutTwice(order, gone, {key});
    assert gone + {key} == {key} + others;
  }

  lemma EvictionInclusion(big: Cache, gone: set<string>, n: int)
    requires Consistent(big) && |gone| <= 1
    requires |big.order| <= Capacity(n + 1) + 1 && |Drop(big, gone).order| <= Capacity(n) + 1
    ensures OneKeyLess(Evicted(Drop(big, gone), Excess(Drop(big, gone), n)), Evicted(big, Excess(big, n + 1)))
  {
    if x :| x in gone && x in big.order {
      SingletonIs(gone, x);
      EvictionInclusionLess(big, x, n);
    } else {
      DropsNothing(big, gone);
      EvictionInclusionSame(big, n);
    }
  }

  lemma DropsNothing(c: Cache, gone: set<string>)
    requires Consistent(c) && forall x :: x in gone ==> x !in c.order
    ensures Drop(c, gone) == c
  {
    WithoutNothing(c.order, gone);
    assert forall k :: k in c.store ==> k in Elems(c.order);
    assert c.store - gone == c.store;
  }

  lemma EvictionInclusionSame(c: Cache, n: int)
    requires Consistent(c) && |c.order| <= Capacity(n) + 1
    ensures OneKeyLess(Evicted(c, Excess(c, n)), Evicted(c, Excess(c, n + 1)))
  {
    var a, b := Excess(c, n), Excess(c, n + 1);
    if a == b {
      DropNothing(Evicted(c, b));
      Witness(Evicted(c, a), Evicted(c, b), {});
    } else {
      EvictedOne(c);
      Witness(Evicted(c, 1), Evicted(c, 0), {c.order[0]});
    }
  }

  lemma SingletonIs(s: set<string>, x: string)
    requires |s| <= 1 && x in s
    ensures s == {x}
  {
    assert |s - {x}| == |s| - 1;
    assert s == (s - {x}) + {x};
  }

  lemma EvictionInclusionLess(big: Cache, x: string, n: int)
    requires Consistent(big) && x in big.order
    requires |big.order| <= Capacity(n + 1) + 1
    ensures OneKeyLess(Evicted(Drop(big, {x}), Excess(Drop(big, {x}), n)), Evicted(big, Excess(big, n + 1)))
  {
    var small := Drop(big, {x});
    DropConsistent(big, {x});
    WithoutOneLength(big.order, x);
    var a, b := Excess(small, n), Excess(big, n + 1);
    if b == 0 {
      assert a == 0;
      Witness(Evicted(small, 0), Evicted(big, 0), {x});
    } else {
      EvictedOne(big);
      var y := big.order[0];
      if a == 0 {
        assert big.order == [x];
        DropNothing(Drop(big, {x}));
        Witness(Evicted(small, 0), Evicted(big, 1), {});
      } else {
        EvictedOne(small);
        var z := small.order[0];
        if x == y {
          Witness(Evicted(small, 1), Evicted(big, 1), {z});
        } else {
          assert z == y;
          DropsCommute(big, {x}, {y});
          Witness(Evicted(small, 1), Evicted(big, 1), {x});
        }
      }
    }
  }

  lemma GetInclusion(big: Cache, gone: set<string>, key: string, now: int)
    requires |gone| <= 1
    ensures OneKeyLess(AfterGet(Drop(big, gone), key, now), AfterGet(big, key, now))
  {
    if key in gone { SingletonIs(gone, key); }
    TouchDrop(big, key, gone);
    DropsCommute(big, gone, {key});
    DropNothing(Drop(big, {key}));
    var small', big' := AfterGet(Drop(big, gone), key, now), AfterGet(big, key, now);
    if key in gone && key in big.store && now > big.store[key].expiresAt {
      Witness(small', big', {});
    } else {
      Witness(small', big', gone);
    }
  }

  lemma SetInclusion(big: Cache, gone: set<string>, e: Entry, n: int)
    requires |gone| <= 1 && Inv(Drop(big, gone), n) && Inv(big, n + 1)
    ensures var s, b := Put(Drop(big, gone), e), Put(big, e);
            OneKeyLess(Evicted(s, Excess(s, n)), Evicted(b, Excess(b, n + 1)))
  {
    PutDrop(big, e, gone);
    PutConsistent(Drop(big, gone), e);
    PutConsistent(big, e);
    if e.key in gone { SingletonIs(gone, e.key); } else { assert gone - {e.key} == gone; }
    EvictionInclusion(Put(big, e), gone - {e.key}, n);
  }

  lemma DropInclusion(big: Cache, gone: set<string>, a: set<string>, b: set<string>)
    requires |gone| <= 1 && a == b - gone
    ensures OneKeyLess(Drop(Drop(big, gone), a), Drop(big, b))
  {
    DropsCommute(big, gone, a);
    DropsCommute(big, b, gone);
    assert gone + a == b + gone;
    Witness(Drop(Drop(big, gone), a), Drop(big, b), gone);
  }

  lemma StepInclusion(big: Cache, gone: set<string>, op: Op, ttl: TtlConfig, n: int)
    requires |gone| <= 1 && Inv(Drop(big, gone), n) && Inv(big, n + 1)
    ensures OneKeyLess(Step(Drop(big, gone), op, ttl, n), Step(big, op, ttl, n + 1))
  {
    var small := Drop(big, gone);
    match op
    case Get(key, now) => GetInclusion(big, gone, key, now);
    case Set(key, t, data, now) => SetInclusion(big, gone, MakeEntry(ttl, key, t, data, now), n);
    case Invalidate(key) => InvalidateInclusion(big, gone, key);
    case InvalidateByType(t) => DropInclusion(big, gone, KeysOfType(small, t), KeysOfType(big, t));
    case InvalidateByPrefix(prefix) =>
      DropInclusion(big, gone, KeysWithPrefix(small, prefix), KeysWithPrefix(big, prefix));
    case Clear =>
      DropNothing(EMPTY);
      Witness(EMPTY, EMPTY, {});
  }

  lemma InvalidateInclusion(big: Cache, gone: set<string>, key: string)
    requires |gone| <= 1
    ensures OneKeyLess(Drop(Drop(big, gone), {key}), Drop(big, {key}))
  {
    DropsCommute(big, gone, {key});
    Witness(Drop(Drop(big, gone), {key}), Drop(big, {key}), gone);
  }

  /** After the same operations at the same clock readings, the recency list of the smaller cache is
      that of the next larger one with at most one key missing, and the entries agree. */
  lemma {:induction false} NextCapacityInclusion(ops: seq<Op>, ttl: TtlConfig, n: int)
    ensures OneKeyLess(Run(EMPTY, ops, ttl, n), Run(EMPTY, ops, ttl, n + 1))
  {
    if ops == [] {
      DropNothing(EMPTY);
      Witness(EMPTY, EMPTY, {});
    } else {
      var before := ops[..|ops| - 1];
      NextCapacityInclusion(before, ttl, n);
      RunKeepsInv(EMPTY, before, ttl, n);
      RunKeepsInv(EMPTY, before, ttl, n + 1);
      var gone :| |gone| <= 1 && Run(EMPTY, before, ttl, n) == Drop(Run(EMPTY, before, ttl, n + 1), gone);
      StepInclusion(Run(EMPTY, before, ttl, n + 1), gone, ops[|ops| - 1], ttl, n);
    }
  }

  /** A cache never misses where a smaller one hits, whatever the two capacities. */
  lemma {:induction false} LargerCacheContainsSmaller(ops: seq<Op>, ttl: TtlConfig, n: int, m: int)
    requires n <= m
    ensures var small, big := Run(EMPTY, ops, ttl, n), Run(EMPTY, ops, ttl, m);
            && KeysLess(small, big)
            && (forall key, now :: Lookup(small, key, now).Some? ==> Lookup(big, key, now) == Lookup(small, key, now))
    decreases m - n
  {
    var small, big := Run(EMPTY, ops, ttl, n), Run(EMPTY, ops, ttl, m);
    if n == m {
      DropNothing(big);
    } else {
      LargerCacheContainsSmaller(ops, ttl, n, m - 1);
      NextCapacityInclusion(ops, ttl, m - 1);
      var middle := Run(EMPTY, ops, ttl, m - 1);
      var a :| small == Drop(middle, a);
      var b :| |b| <= 1 && middle == Drop(big, b);
      DropTwice(big, b, a);
    }
  }

  // ---- soundness and completeness against an unbounded cache ----

  /** How many seconds an entry of a type lives: the field named after the type. */
  function Seconds(ttl: TtlConfig, t: DataType): int {
    if t == Issues then ttl.issues
    else if t == PullRequests then ttl.pullRequests
    else if t == RepoMetadata then ttl.repoMetadata
    else if t == ViewerRepos then ttl.viewerRepos
    else ttl.batchIssues
  }

  /** A set stores its own arguments, until `1000 * Seconds` ms after the clock reading. */
  lemma SetStoresItsArguments(ttl: TtlConfig, key: string, t: DataType, data: string, now: int)
    ensures MakeEntry(ttl, key, t, data, now) == Entry(data, now, now + 1000 * Seconds(ttl, t), key, t)
  {
  }

  /** The unbounded map the cache stands for: nothing is evicted and nothing expires. */
  ghost function Unbounded(ops: seq<Op>, ttl: TtlConfig): map<string, Entry> {
    if ops == [] then map[]
    else
      var u := Unbounded(ops[..|ops| - 1], ttl);
      match ops[|ops| - 1]
      case Get(_, _) => u
      case Set(key, t, data, now) => u[key := Entry(data, now, now + 1000 * Seconds(ttl, t), key, t)]
      case Invalidate(key) => u - {key}
      case InvalidateByType(t) => map k | k in u && u[k].dataType != t :: u[k]
      case InvalidateByPrefix(prefix) => map k | k in u && !(prefix <= k) :: u[k]
      case Clear => map[]
  }

  ghost predicate Within(c: Cache, u: map<string, Entry>) {
    forall k :: k in c.store ==> k in u && u[k] == c.store[k]
  }

  lemma {:induction false} EvictedWithin(c: Cache, n: nat, u: map<string, Entry>)
    requires n <= |c.order| && Within(c, u)
    ensures Within(Evicted(c, n), u)
  {
    if n > 0 { EvictedWithin(c, n - 1, u); }
  }

  /** Whatever is stored is what the last `set` of its key stored, not invalidated or cleared since. */
  lemma {:induction false} StoredIsCurrent(ops: seq<Op>, ttl: TtlConfig, maxEntries: int)
    ensures Within(Run(EMPTY, ops, ttl, maxEntries), Unbounded(ops, ttl))
  {
    if ops != [] {
      StoredIsCurrent(ops[..|ops| - 1], ttl, maxEntries);
      var c := Run(EMPTY, ops[..|ops| - 1], ttl, maxEntries);
      match ops[|ops| - 1]
      case Set(key, t, data, now) =>
        var d := Put(c, MakeEntry(ttl, key, t, data, now));
        EvictedWithin(d, Excess(d, maxEntries), Unbounded(ops, ttl));
      case _ =>
    }
  }

  /** A hit returns the unbounded map's value for the key, and not past its expiry. */
  lemma HitIsCurrent(ops: seq<Op>, ttl: TtlConfig, maxEntries: int, key: string, now: int)
    requires Lookup(Run(EMPTY, ops, ttl, maxEntries), key, now).Some?
    ensures var u := Unbounded(ops, ttl);
            key in u && now <= u[key].expiresAt &&
            Lookup(Run(EMPTY, ops, ttl, maxEntries), key, now) == Some(u[key].data)
  {
    StoredIsCurrent(ops, ttl, maxEntries);
  }

  ghost function SetKeys(ops: seq<Op>): set<string> {
    set i | 0 <= i < |ops| && ops[i].Set? :: ops[i].key
  }

  /** Clock readings never decrease and none is later than `now`. */
  ghost predicate ClockMonotone(ops: seq<Op>, now: int) {
    ops == [] ||
    var last, before := ops[|ops| - 1], ops[..|ops| - 1];
    if last.Get? || last.Set? then last.now <= now && ClockMonotone(before, last.now) else ClockMonotone(before, now)
  }

  /** Every entry of `u` that `c` lacks has expired before `now`. */
  ghost predicate OnlyExpiredLost(c: Cache, u: map<string, Entry>, now: int) {
    forall k :: k in u && k !in c.store ==> u[k].expiresAt < now
  }

  /** Nothing but keys that were set is stored, and nothing but expired entries is missing. */
  ghost predicate KeepsWhatFits(ops: seq<Op>, ttl: TtlConfig, maxEntries: int, now: int) {
    && Run(EMPTY, ops, ttl, maxEntries).store.Keys <= SetKeys(ops)
    && OnlyExpiredLost(Run(EMPTY, ops, ttl, maxEntries), Unbounded(ops, ttl), now)
  }

  /** With room for every key ever set and a clock that does not run backwards, only expired entries are missing. */
  lemma {:induction false} NothingLostWithoutPressure(ops: seq<Op>, ttl: TtlConfig, maxEntries: int, now: int)
    requires |SetKeys(ops)| <= maxEntries && ClockMonotone(ops, now)
    ensures KeepsWhatFits(ops, ttl, maxEntries, now)
  {
    if ops != [] {
      var before, last := ops[..|ops| - 1], ops[|ops| - 1];
      var at := if last.Get? || last.Set? then last.now else now;
      SetKeysGrow(ops);
      NothingLostWithoutPressure(before, ttl, maxEntries, at);
      assert ops == before + [last];
      KeepsOneMore(before, last, ttl, maxEntries, at, now);
    }
  }

  lemma KeepsOneMore(before: seq<Op>, op: Op, ttl: TtlConfig, maxEntries: int, at: int, now: int)
    requires KeepsWhatFits(before, ttl, maxEntries, at) && at <= now && (op.Get? ==> op.now == at)
    requires |SetKeys(before + [op])| <= maxEntries
    ensures KeepsWhatFits(before + [op], ttl, maxEntries, now)
  {
    RoomForOneMore(before, op, ttl, maxEntries);
    LossOneMore(before, op, ttl, maxEntries, at, now);
    KeysOneMore(before, op, ttl, maxEntries);
  }

  /** A set leaves the cache within capacity without an eviction. */
  ghost predicate Fits(c: Cache, op: Op, ttl: TtlConfig, maxEntries: int) {
    op.Set? ==>
      var e := MakeEntry(ttl, op.key, op.dataType, op.data, op.now);
      Excess(Put(c, e), maxEntries) == 0 && Put(c, e).store == c.store[op.key := e]
  }

  lemma RoomForOneMore(before: seq<Op>, op: Op, ttl: TtlConfig, maxEntries: int)
    requires Run(EMPTY, before, ttl, maxEntries).store.Keys <= SetKeys(before) && |SetKeys(before + [op])| <= maxEntries
    ensures Fits(Run(EMPTY, before, ttl, maxEntries), op, ttl, maxEntries)
  {
    if op.Set? {
      var e := MakeEntry(ttl, op.key, op.dataType, op.data, op.now);
      RunKeepsInv(EMPTY, before, ttl, maxEntries);
      SetKeysSnoc(before, op);
      SetHasRoom(Run(EMPTY, before, ttl, maxEntries), e, SetKeys(before + [op]), maxEntries);
    }
  }

  lemma LossOneMore(before: seq<Op>, op: Op, ttl: TtlConfig, maxEntries: int, at: int, now: int)
    requires OnlyExpiredLost(Run(EMPTY, before, ttl, maxEntries), Unbounded(before, ttl), at)
    requires at <= now && (op.Get? ==> op.now == at) && Fits(Run(EMPTY, before, ttl, maxEntries), op, ttl, maxEntries)
    ensures OnlyExpiredLost(Run(EMPTY, before + [op], ttl, maxEntries), Unbounded(before + [op], ttl), now)
  {
    StoredIsCurrent(before, ttl, maxEntries);
    RunSnoc(before, op, ttl, maxEntries);
    LossStep(Run(EMPTY, before, ttl, maxEntries), before, op, ttl, maxEntries, at, now);
  }

  lemma KeysOneMore(before: seq<Op>, op: Op, ttl: TtlConfig, maxEntries: int)
    requires Run(EMPTY, before, ttl, maxEntries).store.Keys <= SetKeys(before)
    requires Fits(Run(EMPTY, before, ttl, maxEntries), op, ttl, maxEntries)
    ensures Run(EMPTY, before + [op], ttl, maxEntries).store.Keys <= SetKeys(before + [op])
  {
    SetKeysSnoc(before, op);
    RunSnoc(before, op, ttl, maxEntries);
    KeysStep(Run(EMPTY, before, ttl, maxEntries), op, ttl, maxEntries);
  }

  lemma KeysStep(c: Cache, op: Op, ttl: TtlConfig, maxEntries: int)
    requires Fits(c, op, ttl, maxEntries)
    ensures Step(c, op, ttl, maxEntries).store.Keys <= c.store.Keys + (if op.Set? then {op.key} else {})
  {
  }

  lemma RunSnoc(before: seq<Op>, op: Op, ttl: TtlConfig, maxEntries: int)
    ensures Run(EMPTY, before + [op], ttl, maxEntries) ==
            Step(Run(EMPTY, before, ttl, maxEntries), op, ttl, maxEntries)
  {
    assert (before + [op])[..|before|] == before;
  }

  lemma SetKeysSnoc(before: seq<Op>, op: Op)
    ensures SetKeys(before + [op]) == SetKeys(before) + (if op.Set? then {op.key} else {})
  {
    assert (before + [op])[..|before|] == before;
    SetKeysGrow(before + [op]);
  }

  /** One operation loses nothing but expired entries, unless it evicts. */
  lemma LossStep(c: Cache, before: seq<Op>, op: Op, ttl: TtlConfig, maxEntries: int, at: int, now: int)
    requires Within(c, Unbounded(before, ttl)) && OnlyExpiredLost(c, Unbounded(before, ttl), at) && at <= now
    requires (op.Get? ==> op.now == at) && Fits(c, op, ttl, maxEntries)
    ensures OnlyExpiredLost(Step(c, op, ttl, maxEntries), Unbounded(before + [op], ttl), now)
  {
    assert (before + [op])[..|before|] == before;
  }

  lemma SetHasRoom(c: Cache, e: Entry, keys: set<string>, maxEntries: int)
    requires Consistent(c) && c.store.Keys + {e.key} <= keys && |keys| <= maxEntries
    ensures Excess(Put(c, e), maxEntries) == 0 && Put(c, e).store == c.store[e.key := e]
  {
    PutConsistent(c, e);
    ConsistentSize(Put(c, e));
    SubsetSize(Put(c, e).store.Keys, keys);
  }

  lemma SetKeysGrow(ops: seq<Op>)
    requires ops != []
    ensures var last := ops[|ops| - 1];
            SetKeys(ops) == SetKeys(ops[..|ops| - 1]) + (if last.Set? then {last.key} else {})
    ensures |SetKeys(ops[..|ops| - 1])| <= |SetKeys(ops)|
  {
    var before, last := ops[..|ops| - 1], ops[|ops| - 1];
    forall k | k in SetKeys(ops)
      ensures k in SetKeys(before) || (last.Set? && k == last.key)
    {
      var i :| 0 <= i < |ops| && ops[i].Set? && ops[i].key == k;
      if i < |before| { assert before[i] == ops[i]; }
    }
    forall k | k in SetKeys(before)
      ensures k in SetKeys(ops)
    {
      var i :| 0 <= i < |before| && before[i].Set? && before[i].key == k;
      assert ops[i] == before[i];
    }
    if last.Set? { assert ops[|ops| - 1].key in SetKeys(ops); }
    SubsetSize(SetKeys(before), SetKeys(ops));
  }

  lemma {:induction false} SubsetSize<T>(a: set<T>, b: set<T>)
    requires a <= b
    ensures |a| <= |b|
  {
    assert b == a + (b - a);
  }

  /** Under the same conditions `get` answers exactly as an unbounded cache with expiry would. */
  lemma GetIsExactWithoutPressure(ops: seq<Op>, ttl: TtlConfig, maxEntries: int, key: string, now: int)
    requires |SetKeys(ops)| <= maxEntries && ClockMonotone(ops, now)
    ensures var u := Unbounded(ops, ttl);
            Lookup(Run(EMPTY, ops, ttl, maxEntries), key, now) ==
            if key in u && now <= u[key].expiresAt then Some(u[key].data) else None
  {
    StoredIsCurrent(ops, ttl, maxEntries);
    NothingLostWithoutPressure(ops, ttl, maxEntries, now);
  }

  // ---- eviction takes the least recently used key only ----

  /** The keys more recently used than `key`. */
  ghost function After(order: seq<string>, key: string): seq<string> {
    if order == [] then [] else if order[0] == key then order[1..] else After(order[1..], key)
  }

  lemma {:induction false} AfterWithout(order: seq<string>, key: string, dead: set<string>)
    requires key !in dead
    ensures After(Without(order, dead), key) == Without(After(order, key), dead)
  {
    if order != [] {
      AfterWithout(order[1..], key, dead);
      var kept := Without(order[1..], dead);
      assert ([order[0]] + kept)[1..] == kept;
    }
  }

  lemma {:induction false} AfterAppend(order: seq<string>, key: string, x: string)
    requires key in order
    ensures After(order + [x], key) == After(order, key) + [x]
  {
    assert (order + [x])[1..] == order[1..] + [x];
    if order[0] != key { AfterAppend(order[1..], key, x); }
  }

  lemma {:induction false} AfterLength(order: seq<string>, key: string)
    requires NoDup(order)
    ensures NoDup(After(order, key)) && key !in After(order, key)
    ensures key in order ==> |After(order, key)| < |order|
    ensures forall x :: x in After(order, key) ==> x in order
  {
    if order != [] && order[0] != key { AfterLength(order[1..], key); }
  }

  /** The operation neither uses `key` nor invalidates an entry of type `t` under it. */
  ghost predicate LeavesAlone(op: Op, key: string, t: DataType) {
    match op
    case Get(k, _) => k != key
    case Set(k, _, _, _) => k != key
    case Invalidate(k) => k != key
    case InvalidateByType(u) => u != t
    case InvalidateByPrefix(prefix) => !(prefix <= key)
    case Clear => false
  }

  /** The key that an operation moves to the recent end of the list: a hit or a set does. */
  ghost function TouchedBy(c: Cache, op: Op): set<string> {
    match op
    case Get(k, now) => if Lookup(c, k, now).Some? then {k} else {}
    case Set(k, _, _, _) => {k}
    case _ => {}
  }

  ghost function Touched(c: Cache, ops: seq<Op>, ttl: TtlConfig, maxEntries: int): set<string> {
    if ops == [] then {}
    else
      var before, last := ops[..|ops| - 1], ops[|ops| - 1];
      Touched(c, before, ttl, maxEntries) + TouchedBy(Run(c, before, ttl, maxEntries), last)
  }

  /** `key` still holds entry `e`, and only keys of `recent` have been used since `key` was. */
  ghost predicate Holds(c: Cache, key: string, e: Entry, recent: set<string>) {
    key in c.store && c.store[key] == e && Elems(After(c.order, key)) <= recent
  }

  lemma DropKeepsHeld(c: Cache, key: string, e: Entry, recent: set<string>, dead: set<string>)
    requires Consistent(c) && Holds(c, key, e, recent) && key !in dead
    ensures Holds(Drop(c, dead), key, e, recent)
  {
    AfterWithout(c.order, key, dead);
  }

  lemma TouchKeepsHeld(c: Cache, key: string, e: Entry, recent: set<string>, x: string)
    requires NoDup(c.order) && key in c.order && Holds(c, key, e, recent) && x != key
    ensures Holds(Touch(c, x), key, e, recent + {x})
    ensures After(Touch(c, x).order, key) == Without(After(c.order, key), {x}) + [x]
  {
    AfterWithout(c.order, key, {x});
    AfterAppend(Without(c.order, {x}), key, x);
  }

  lemma EvictionKeepsHeld(d: Cache, key: string, e: Entry, recent: set<string>, maxEntries: int)
    requires Consistent(d) && Holds(d, key, e, recent) && Excess(d, maxEntries) <= 1
    requires |recent| < maxEntries
    ensures Holds(Evicted(d, Excess(d, maxEntries)), key, e, recent)
  {
    if Excess(d, maxEntries) == 1 {
      assert key in Elems(d.order);
      AfterLength(d.order, key);
      NoDupCardinality(After(d.order, key));
      SubsetSize(Elems(After(d.order, key)), recent);
      EvictedOne(d);
      DropKeepsHeld(d, key, e, recent, {d.order[0]});
    }
  }

  lemma StepKeepsHeld(
    c: Cache, key: string, e: Entry, recent: set<string>, op: Op, ttl: TtlConfig, maxEntries: int, after: set<string>)
    requires Inv(c, maxEntries) && Holds(c, key, e, recent) && LeavesAlone(op, key, e.dataType)
    requires after == recent + TouchedBy(c, op) && |after| < maxEntries
    ensures Holds(Step(c, op, ttl, maxEntries), key, e, after)
  {
    assert key in Elems(c.order);
    match op
    case Get(k, now) =>
      if k in c.store { TouchKeepsHeld(c, key, e, recent, k); }
      DropKeepsHeld(c, key, e, recent, {k});
    case Set(k, t, data, now) =>
      var put := MakeEntry(ttl, k, t, data, now);
      PutConsistent(c, put);
      TouchKeepsHeld(c.(store := c.store[k := put]), key, e, recent, k);
      EvictionKeepsHeld(Put(c, put), key, e, after, maxEntries);
    case Invalidate(k) => DropKeepsHeld(c, key, e, recent, {k});
    case InvalidateByType(t) => DropKeepsHeld(c, key, e, recent, KeysOfType(c, t));
    case InvalidateByPrefix(prefix) => DropKeepsHeld(c, key, e, recent, KeysWithPrefix(c, prefix));
    case Clear =>
  }

  /** A key just used survives until `maxEntries` other keys have been used, whatever else happens:
      so a key is evicted only when that many others were touched since its own last touch. */
  lemma {:induction false} RecentlyUsedIsKept(c: Cache, key: string, ops: seq<Op>, ttl: TtlConfig, maxEntries: int)
    requires Inv(c, maxEntries) && c.order != [] && c.order[|c.order| - 1] == key && key in c.store
    requires forall i :: 0 <= i < |ops| ==> LeavesAlone(ops[i], key, c.store[key].dataType)
    requires |Touched(c, ops, ttl, maxEntries)| < maxEntries
    ensures Holds(Run(c, ops, ttl, maxEntries), key, c.store[key], Touched(c, ops, ttl, maxEntries))
  {
    if ops == [] {
      AfterLast(c.order);
    } else {
      var before, last := ops[..|ops| - 1], ops[|ops| - 1];
      SubsetSize(Touched(c, before, ttl, maxEntries), Touched(c, ops, ttl, maxEntries));
      RecentlyUsedIsKept(c, key, before, ttl, maxEntries);
      RunKeepsInv(c, before, ttl, maxEntries);
      StepKeepsHeld(Run(c, before, ttl, maxEntries), key, c.store[key], Touched(c, before, ttl, maxEntries), last, ttl,
        maxEntries, Touched(c, ops, ttl, maxEntries));
    }
  }

  lemma {:induction false} AfterLast(order: seq<string>)
    requires NoDup(order) && order != []
    ensures After(order, order[|order| - 1]) == []
  {
    if |order| > 1 {
      assert order[1..][|order| - 2] == order[|order| - 1];
      AfterLast(order[1..]);
    }
  }

  lemma EvictedAfter(d: Cache, key: string, maxEntries: int)
    requires Consistent(d) && key in d.order && Excess(d, maxEntries) <= 1
    requires key in Evicted(d, Excess(d, maxEntries)).store
    ensures After(Evicted(d, Excess(d, maxEntries)).order, key) == After(d.order, key)
  {
    if Excess(d, maxEntries) == 1 { EvictedOne(d); }
  }

  /** Using another key moves it behind `key` in the list. */
  lemma TouchedElems(c: Cache, key: string, x: string)
    requires NoDup(c.order) && key in c.order && x != key
    ensures Elems(After(Touch(c, x).order, key)) == Elems(After(c.order, key)) + {x}
  {
    AfterWithout(c.order, key, {x});
    AfterAppend(Without(c.order, {x}), key, x);
    var kept := Without(After(c.order, key), {x});
    assert After(Touch(c, x).order, key) == kept + [x];
    assert forall y :: y in kept + [x] <==> y in kept || y == x;
  }

  lemma PutHasRoom(d: Cache, e: Entry, maxEntries: int)
    requires Inv(d, maxEntries)
    ensures Consistent(Put(d, e)) && Excess(Put(d, e), maxEntries) <= 1
  {
    PutConsistent(d, e);
  }

  lemma EvictedWasThere(d: Cache, n: nat, key: string)
    requires n <= |d.order| && key in Evicted(d, n).store
    ensures key in d.store
  {
    EvictedWithin(d, n, d.store);
  }

  lemma SurvivorStep(d: Cache, key: string, e: Entry, maxEntries: int)
    requires Inv(d, maxEntries) && e.key != key
    requires var f := Put(d, e); key in Evicted(f, Excess(f, maxEntries)).store
    ensures key in d.store
    ensures var f := Put(d, e);
            Elems(After(Evicted(f, Excess(f, maxEntries)).order, key)) == Elems(After(d.order, key)) + {e.key}
  {
    var f := Put(d, e);
    PutHasRoom(d, e, maxEntries);
    EvictedWasThere(f, Excess(f, maxEntries), key);
    assert key in Elems(d.order) && key in Elems(f.order);
    TouchedElems(d.(store := f.store), key, e.key);
    EvictedAfter(f, key, maxEntries);
  }

  lemma GetSurvivorStep(d: Cache, key: string, k: string, now: int)
    requires Consistent(d) && k != key && key in AfterGet(d, k, now).store && FindsNothingExpired(d, Get(k, now))
    ensures key in d.store
    ensures Elems(After(AfterGet(d, k, now).order, key)) == Elems(After(d.order, key)) + TouchedBy(d, Get(k, now))
  {
    assert key in Elems(d.order);
    if k in d.store { TouchedElems(d, key, k); }
  }

  /** A get that does not find its key expired. */
  predicate FindsNothingExpired(c: Cache, op: Op) {
    op.Get? && op.key in c.store ==> op.now <= c.store[op.key].expiresAt
  }

  /** A set of another key, or a get of one that does not find it expired. */
  predicate UsesOther(c: Cache, key: string, op: Op) {
    (op.Set? || op.Get?) && op.key != key && FindsNothingExpired(c, op)
  }

  ghost predicate UsesOthers(c: Cache, key: string, ops: seq<Op>, ttl: TtlConfig, maxEntries: int) {
    forall i :: 0 <= i < |ops| ==> UsesOther(Run(c, ops[..i], ttl, maxEntries), key, ops[i])
  }

  lemma UsesOthersBefore(c: Cache, key: string, ops: seq<Op>, ttl: TtlConfig, maxEntries: int)
    requires ops != [] && UsesOthers(c, key, ops, ttl, maxEntries)
    ensures UsesOthers(c, key, ops[..|ops| - 1], ttl, maxEntries)
    ensures UsesOther(Run(c, ops[..|ops| - 1], ttl, maxEntries), key, ops[|ops| - 1])
  {
    var before := ops[..|ops| - 1];
    forall i | 0 <= i < |before|
      ensures UsesOther(Run(c, before[..i], ttl, maxEntries), key, before[i])
    {
      assert before[i] == ops[i] && before[..i] == ops[..i];
      assert UsesOther(Run(c, ops[..i], ttl, maxEntries), key, ops[i]);
    }
  }

  /** While it survives a run of uses of other keys, the keys listed after `key` are exactly those used. */
  lemma {:induction false} SurvivorsAfter(c: Cache, key: string, ops: seq<Op>, ttl: TtlConfig, maxEntries: int)
    requires Inv(c, maxEntries) && c.order != [] && c.order[|c.order| - 1] == key
    requires UsesOthers(c, key, ops, ttl, maxEntries)
    requires key in Run(c, ops, ttl, maxEntries).store
    ensures Elems(After(Run(c, ops, ttl, maxEntries).order, key)) == Touched(c, ops, ttl, maxEntries)
  {
    if ops == [] {
      AfterLast(c.order);
    } else {
      var before, last := ops[..|ops| - 1], ops[|ops| - 1];
      RunKeepsInv(c, before, ttl, maxEntries);
      UsesOthersBefore(c, key, ops, ttl, maxEntries);
      var d := Run(c, before, ttl, maxEntries);
      if last.Set? {
        SurvivorStep(d, key, MakeEntry(ttl, last.key, last.dataType, last.data, last.now), maxEntries);
      } else {
        GetSurvivorStep(d, key, last.key, last.now);
      }
      SurvivorsAfter(c, key, before, ttl, maxEntries);
    }
  }

  lemma SurvivorHasRoom(c: Cache, key: string, ops: seq<Op>, ttl: TtlConfig, maxEntries: int)
    requires Inv(c, maxEntries) && c.order != [] && c.order[|c.order| - 1] == key
    requires UsesOthers(c, key, ops, ttl, maxEntries) && key in Run(c, ops, ttl, maxEntries).store
    ensures |Touched(c, ops, ttl, maxEntries)| < maxEntries
  {
    var d := Run(c, ops, ttl, maxEntries);
    RunKeepsInv(c, ops, ttl, maxEntries);
    SurvivorsAfter(c, key, ops, ttl, maxEntries);
    assert key in Elems(d.order);
    AfterLength(d.order, key);
    NoDupCardinality(After(d.order, key));
  }

  /** The bound is exact: as long as other keys are set or got, and no get finds an expired entry, a key is gone as soon
      as `maxEntries` other keys have been used. */
  lemma EvictionIsExact(c: Cache, key: string, ops: seq<Op>, ttl: TtlConfig, maxEntries: int)
    requires Inv(c, maxEntries) && c.order != [] && c.order[|c.order| - 1] == key
    requires UsesOthers(c, key, ops, ttl, maxEntries)
    ensures key in Run(c, ops, ttl, maxEntries).store <==> |Touched(c, ops, ttl, maxEntries)| < maxEntries
  {
    if key in Run(c, ops, ttl, maxEntries).store { SurvivorHasRoom(c, key, ops, ttl, maxEntries); }
    if |Touched(c, ops, ttl, maxEntries)| < maxEntries {
      assert key in Elems(c.order);
      RecentlyUsedIsKept(c, key, ops, ttl, maxEntries);
    }
  }

  /** Under sets alone, it is gone as soon as `maxEntries` other keys have been set. */
  lemma SetsEvictExactly(c: Cache, key: string, ops: seq<Op>, ttl: TtlConfig, maxEntries: int)
    requires Inv(c, maxEntries) && c.order != [] && c.order[|c.order| - 1] == key
    requires forall i :: 0 <= i < |ops| ==> ops[i].Set? && ops[i].key != key
    ensures key in Run(c, ops, ttl, maxEntries).store <==> |SetKeys(ops)| < maxEntries
  {
    TouchedBySets(c, ops, ttl, maxEntries);
    EvictionIsExact(c, key, ops, ttl, maxEntries);
  }

  lemma {:induction false} TouchedBySets(c: Cache, ops: seq<Op>, ttl: TtlConfig, maxEntries: int)
    requires forall i :: 0 <= i < |ops| ==> ops[i].Set?
    ensures Touched(c, ops, ttl, maxEntries) == SetKeys(ops)
  {
    if ops != [] {
      TouchedBySets(c, ops[..|ops| - 1], ttl, maxEntries);
      SetKeysGrow(ops);
    }
  }

  // ---- one get and one set ----

  /** Nothing is changed but what is known of `key`. */
  ghost predicate OnlyChanges(c: Cache, d: Cache, key: string) {
    && (forall k :: k != key ==> (k in d.store <==> k in c.store))
    && (forall k :: k != key && k in c.store && k in d.store ==> d.store[k] == c.store[k])
    && Without(d.order, {key}) == Without(c.order, {key})
  }

  /** A get changes nothing but the key it asks for: a hit makes it the most recent, an expired entry is removed. */
  lemma GetEffect(c: Cache, key: string, now: int, ttl: TtlConfig, maxEntries: int)
    ensures var d := Step(c, Get(key, now), ttl, maxEntries);
            && OnlyChanges(c, d, key)
            && (key in d.store <==> key in c.store && now <= c.store[key].expiresAt)
            && (key in d.store ==> d.order != [] && d.order[|d.order| - 1] == key && d.store[key] == c.store[key])
  {
    OrderWithout(c.order, key);
    if key !in c.store {
      assert Step(c, Get(key, now), ttl, maxEntries) == c;
    } else if now <= c.store[key].expiresAt {
      assert Step(c, Get(key, now), ttl, maxEntries) == Touch(c, key);
    } else {
      assert Step(c, Get(key, now), ttl, maxEntries) == Drop(c, {key});
    }
  }

  lemma OrderWithout(order: seq<string>, key: string)
    ensures Without(Without(order, {key}), {key}) == Without(order, {key})
    ensures Without(Without(order, {key}) + [key], {key}) == Without(order, {key})
  {
    WithoutTwice(order, {key}, {key});
    assert {key} + {key} == {key};
    TouchDropped(order, key, {key});
  }

  /** Right after a set, a lookup returns the payload until the entry expires, and nothing later. */
  lemma SetThenLookup(
    c: Cache, key: string, t: DataType, data: string, at: int, ttl: TtlConfig, maxEntries: int, now: int)
    requires Inv(c, maxEntries) && maxEntries >= 1
    ensures var d := Step(c, Set(key, t, data, at), ttl, maxEntries);
            && d.order != [] && d.order[|d.order| - 1] == key
            && Lookup(d, key, now) == if now <= at + 1000 * Seconds(ttl, t) then Some(data) else None
  {
    var e := MakeEntry(ttl, key, t, data, at);
    var f := Put(c, e);
    SetStoresItsArguments(ttl, key, t, data, at);
    PutHasRoom(c, e, maxEntries);
    assert f.order[|f.order| - 1] == key && f.store[key] == e;
    if Excess(f, maxEntries) == 1 {
      assert |f.order| >= 2;
      LastSurvives(f, key);
    }
  }

  lemma LastSurvives(f: Cache, key: string)
    requires Consistent(f) && |f.order| >= 2 && f.order[|f.order| - 1] == key && key in f.store
    ensures var d := Evicted(f, 1);
            key in d.store && d.store[key] == f.store[key] && d.order != [] && d.order[|d.order| - 1] == key
  {
    EvictedOne(f);
    assert f.order[1..][|f.order| - 2] == key && key in f.order[1..];
  }
}
