/** The negative key-id cache: an ordered dictionary with a deadline per key, a sweep of what has expired
    and eviction from the front, specified by the history of what was recorded. */
module KeyCache {
  import opened Wrappers

  /** One item of the ordered dictionary, oldest first. */
  datatype Item = Item(key: string, deadline: real)

  type Items = seq<Item>

  function Keys(items: Items): set<string> {
    if items == [] then {} else {items[0].key} + Keys(items[1..])
  }

  ghost predicate Distinct(items: Items) {
    items == [] || (items[0].key !in Keys(items[1..]) && Distinct(items[1..]))
  }

  /** `get`. */
  function Get(items: Items, key: string): (r: Option<real>)
    ensures r.Some? <==> key in Keys(items)
  {
    if items == [] then None
    else if items[0].key == key then Some(items[0].deadline)
    else Get(items[1..], key)
  }

  /** The items whose keys are not in `gone`, in order; `del` of one key is the singleton case. */
  function Without(items: Items, gone: set<string>): (r: Items)
    ensures Keys(r) == Keys(items) - gone
    ensures |r| <= |items|
  {
    if items == [] then []
    else if items[0].key in gone then Without(items[1..], gone)
    else [items[0]] + Without(items[1..], gone)
  }

  /** Assignment: an existing key keeps its place, a new one goes last. */
  function Put(items: Items, key: string, deadline: real): Items {
    if items == [] then [Item(key, deadline)]
    else if items[0].key == key then [Item(key, deadline)] + items[1..]
    else [items[0]] + Put(items[1..], key, deadline)
  }

  /** `move_to_end`, of a key that is there. */
  function MoveToEnd(items: Items, key: string): Items {
    match Get(items, key)
    case None => items
    case Some(deadline) => Without(items, {key}) + [Item(key, deadline)]
  }

  /** The keys a sweep deletes. */
  function ExpiredKeys(items: Items, now: real): seq<string> {
    if items == [] then []
    else (if items[0].deadline <= now then [items[0].key] else []) + ExpiredKeys(items[1..], now)
  }

  function Members(keys: seq<string>): set<string> {
    set k | k in keys
  }

  /** The items whose deadline is still ahead. */
  function Live(items: Items, now: real): (r: Items)
    ensures Keys(r) <= Keys(items)
    ensures |r| <= |items|
  {
    if items == [] then []
    else if items[0].deadline <= now then Live(items[1..], now)
    else [items[0]] + Live(items[1..], now)
  }

  /** The newest `size` items. */
  function Newest(items: Items, size: nat): Items {
    if |items| > size then items[|items| - size..] else items
  }

  /** The key put last with a new deadline. */
  function Touched(items: Items, item: Item): Items {
    Without(items, {item.key}) + [item]
  }

  /** What a record leaves: nothing expired, the key last, the newest kept; a time-to-live of 0 disables it. */
  function Recorded(items: Items, key: string, now: real, ttl: real, size: nat): Items {
    if ttl <= 0.0 then items else Kept(items, Item(key, now + ttl), now, size)
  }

  /** The live items with one put last, as many as there is room for. */
  function Kept(items: Items, item: Item, now: real, size: nat): Items {
    Newest(Touched(Live(items, now), item), size)
  }

  // ----- The dictionary operations compose to the functions above -----

  lemma {:induction false} DeleteOneMore(items: Items, gone: set<string>, key: string)
    ensures Without(Without(items, gone), {key}) == Without(items, gone + {key})
  {
    if items != [] {
      DeleteOneMore(items[1..], gone, key);
      if items[0].key !in gone {
        assert Without(items, gone)[1..] == Without(items[1..], gone);
      }
    }
  }

  lemma {:induction false} DeleteAbsent(items: Items, gone: set<string>, key: string)
    requires key !in Keys(items)
    ensures Without(items, gone + {key}) == Without(items, gone)
  {
    if items != [] {
      DeleteAbsent(items[1..], gone, key);
    }
  }

  lemma {:induction false} DeleteNothing(items: Items, gone: set<string>)
    requires Keys(items) !! gone
    ensures Without(items, gone) == items
  {
    if items != [] {
      DeleteNothing(items[1..], gone);
    }
  }

  lemma {:induction false} ExpiredAreKeys(items: Items, now: real)
    ensures Members(ExpiredKeys(items, now)) <= Keys(items)
  {
    if items != [] {
      ExpiredAreKeys(items[1..], now);
      forall k | k in ExpiredKeys(items, now) ensures k in Keys(items) {
        if k in ExpiredKeys(items[1..], now) { assert k in Members(ExpiredKeys(items[1..], now)); }
      }
    }
  }

  /** Deleting the expired keys leaves exactly the live items. */
  lemma {:induction false} SweepLeavesLive(items: Items, now: real)
    requires Distinct(items)
    ensures Without(items, Members(ExpiredKeys(items, now))) == Live(items, now)
  {
    if items != [] {
      var rest := ExpiredKeys(items[1..], now);
      SweepLeavesLive(items[1..], now);
      ExpiredAreKeys(items[1..], now);
      if items[0].deadline <= now {
        assert Members([items[0].key] + rest) == Members(rest) + {items[0].key};
        DeleteAbsent(items[1..], Members(rest), items[0].key);
      } else {
        assert [] + rest == rest;
      }
    }
  }

  lemma {:induction false} PutIsFound(items: Items, key: string, deadline: real)
    ensures Get(Put(items, key, deadline), key) == Some(deadline)
    ensures Without(Put(items, key, deadline), {key}) == Without(items, {key})
  {
    if items != [] {
      if items[0].key == key {
        assert Put(items, key, deadline)[1..] == items[1..];
      } else {
        PutIsFound(items[1..], key, deadline);
        assert Put(items, key, deadline)[1..] == Put(items[1..], key, deadline);
      }
    }
  }

  lemma PutThenMove(items: Items, key: string, deadline: real)
    ensures MoveToEnd(Put(items, key, deadline), key) == Touched(items, Item(key, deadline))
  {
    PutIsFound(items, key, deadline);
  }

  lemma {:induction false} DistinctKept(items: Items, gone: set<string>, now: real)
    requires Distinct(items)
    ensures Distinct(Without(items, gone)) && Distinct(Live(items, now))
  {
    if items != [] {
      DistinctKept(items[1..], gone, now);
      if items[0].key !in gone {
        assert Without(items, gone)[1..] == Without(items[1..], gone);
      }
      if items[0].deadline > now {
        assert Live(items, now)[1..] == Live(items[1..], now);
      }
    }
  }

  lemma {:induction false} DistinctAppend(items: Items, item: Item)
    requires Distinct(items) && item.key !in Keys(items)
    ensures Distinct(items + [item]) && Keys(items + [item]) == Keys(items) + {item.key}
  {
    if items == [] {
      assert items + [item] == [item] && [item][1..] == [];
    } else {
      DistinctAppend(items[1..], item);
      assert (items + [item])[1..] == items[1..] + [item];
    }
  }

  lemma {:induction false} DistinctNewest(items: Items, size: nat)
    requires Distinct(items)
    ensures Distinct(Newest(items, size))
    ensures |Newest(items, size)| <= size
  {
    if |items| > size {
      DistinctNewest(items[1..], size);
      NewestOfTail(items, size);
    }
  }

  lemma NewestOfTail(items: Items, size: nat)
    requires |items| > size
    ensures Newest(items, size) == Newest(items[1..], size)
  {}

  lemma DistinctTouched(items: Items, item: Item)
    requires Distinct(items)
    ensures Distinct(Touched(items, item)) && Keys(Touched(items, item)) == Keys(items) + {item.key}
  {
    DistinctKept(items, {item.key}, 0.0);
    DistinctAppend(Without(items, {item.key}), item);
  }

  // ----- The history a cache stands for -----

  /** One record: the key and the clock reading it was made at. */
  datatype Miss = Miss(key: string, at: real)

  /** The index of the latest record of `key`, or -1. */
  function Latest(h: seq<Miss>, key: string): (i: int)
    ensures -1 <= i < |h|
    ensures i >= 0 ==> h[i].key == key
  {
    if h == [] then -1
    else if h[|h| - 1].key == key then |h| - 1
    else Latest(h[..|h| - 1], key)
  }

  lemma {:induction false} LatestIsLast(h: seq<Miss>, key: string)
    ensures forall j :: Latest(h, key) < j < |h| ==> h[j].key != key
  {
    if h != [] && h[|h| - 1].key != key {
      var front := h[..|h| - 1];
      LatestIsLast(front, key);
      assert forall j :: 0 <= j < |front| ==> h[j] == front[j];
    }
  }

  /** The keys recorded after position `i`. */
  function Since(h: seq<Miss>, i: int): set<string>
    requires -1 <= i
  {
    set j | i < j < |h| :: h[j].key
  }

  /** The key's latest record is younger than `ttl` and fewer than `size` distinct other keys were
      recorded after it. */
  predicate Known(h: seq<Miss>, key: string, at: real, ttl: real, size: nat) {
    var i := Latest(h, key);
    i >= 0 && at < h[i].at + ttl && |Since(h, i)| < size
  }

  /** The clock never ran backwards, and has not passed `clock`. */
  ghost predicate Monotone(h: seq<Miss>, clock: real) {
    h == [] || (h[|h| - 1].at <= clock && Monotone(h[..|h| - 1], h[|h| - 1].at))
  }

  /** The cache that would never expire and never evict: one item a key, in the order of latest records. */
  function Unbounded(h: seq<Miss>, ttl: real): Items {
    if h == [] then []
    else
      var m := h[|h| - 1];
      Touched(Unbounded(h[..|h| - 1], ttl), Item(m.key, m.at + ttl))
  }

  lemma UnboundedGrows(h: seq<Miss>, m: Miss, ttl: real)
    ensures Unbounded(h + [m], ttl) == Touched(Unbounded(h, ttl), Item(m.key, m.at + ttl))
    ensures Monotone(h, m.at) ==> Monotone(h + [m], m.at)
  {
    assert (h + [m])[..|h|] == h;
  }

  lemma SinceGrows(h: seq<Miss>, m: Miss, i: int)
    requires -1 <= i < |h|
    ensures Since(h + [m], i) == Since(h, i) + {m.key}
  {
    var h' := h + [m];
    forall k | k in Since(h, i) ensures k in Since(h', i) {
      var j :| i < j < |h| && h[j].key == k;
      assert h'[j].key == k;
    }
    assert h'[|h|].key == m.key;
  }

  lemma {:induction false} UnboundedIsDistinct(h: seq<Miss>, ttl: real)
    ensures Distinct(Unbounded(h, ttl))
  {
    if h != [] {
      UnboundedIsDistinct(h[..|h| - 1], ttl);
      var m := h[|h| - 1];
      DistinctTouched(Unbounded(h[..|h| - 1], ttl), Item(m.key, m.at + ttl));
    }
  }

  /** The keys of the items that stand after `key`. */
  ghost function KeysAfter(items: Items, key: string): set<string> {
    if items == [] then {}
    else if items[0].key == key then Keys(items[1..])
    else KeysAfter(items[1..], key)
  }

  lemma {:induction false} TouchedOther(items: Items, item: Item, key: string)
    requires key != item.key && key in Keys(items) && Distinct(items)
    ensures Get(Touched(items, item), key) == Get(items, key)
    ensures KeysAfter(Touched(items, item), key) == KeysAfter(items, key) + {item.key}
  {
    var rest := Touched(items[1..], item);
    if items[0].key == item.key {
      DeleteNothing(items[1..], {item.key});
      TouchedOther(items[1..], item, key);
    } else {
      assert Touched(items, item) == [items[0]] + rest;
      assert Touched(items, item)[1..] == rest;
      if items[0].key == key {
        DistinctTouched(items[1..], item);
      } else {
        TouchedOther(items[1..], item, key);
      }
    }
  }

  lemma {:induction false} AppendedIsLast(items: Items, item: Item)
    requires item.key !in Keys(items)
    ensures Get(items + [item], item.key) == Some(item.deadline)
    ensures KeysAfter(items + [item], item.key) == {}
  {
    if items != [] {
      AppendedIsLast(items[1..], item);
      assert (items + [item])[1..] == items[1..] + [item];
    }
  }

  /** What a list of items says of a key is what the history says: its deadline is that of the latest record,
      and after it stand exactly the keys recorded since. */
  ghost predicate Tells(items: Items, h: seq<Miss>, ttl: real, key: string) {
    var i := Latest(h, key);
    && (key in Keys(items) <==> i >= 0)
    && (i >= 0 ==> Get(items, key) == Some(h[i].at + ttl) && KeysAfter(items, key) == Since(h, i))
  }

  lemma LatestGrows(h: seq<Miss>, m: Miss, key: string)
    ensures Latest(h + [m], key) == if m.key == key then |h| else Latest(h, key)
  {
    assert (h + [m])[..|h|] == h;
  }

  /** A record of the key itself. */
  lemma OwnRecordTells(items: Items, h: seq<Miss>, m: Miss, ttl: real)
    requires Distinct(items)
    ensures Tells(Touched(items, Item(m.key, m.at + ttl)), h + [m], ttl, m.key)
  {
    var item := Item(m.key, m.at + ttl);
    DistinctTouched(items, item);
    AppendedIsLast(Without(items, {m.key}), item);
    LatestGrows(h, m, m.key);
    assert Since(h + [m], |h|) == {};
  }

  /** A record of another key. */
  lemma OtherRecordTells(items: Items, h: seq<Miss>, m: Miss, ttl: real, key: string)
    requires Distinct(items) && Tells(items, h, ttl, key) && key != m.key
    ensures Tells(Touched(items, Item(m.key, m.at + ttl)), h + [m], ttl, key)
  {
    var item := Item(m.key, m.at + ttl);
    DistinctTouched(items, item);
    LatestGrows(h, m, key);
    if Latest(h, key) >= 0 {
      TouchedOther(items, item, key);
      SinceGrows(h, m, Latest(h, key));
    }
  }

  lemma RecordTells(h: seq<Miss>, m: Miss, ttl: real, key: string)
    requires key != m.key ==> Tells(Unbounded(h, ttl), h, ttl, key)
    ensures Tells(Unbounded(h + [m], ttl), h + [m], ttl, key)
  {
    UnboundedIsDistinct(h, ttl);
    UnboundedGrows(h, m, ttl);
    if m.key == key {
      OwnRecordTells(Unbounded(h, ttl), h, m, ttl);
    } else {
      OtherRecordTells(Unbounded(h, ttl), h, m, ttl, key);
    }
  }

  /** The unbounded cache is its history. */
  lemma {:induction false} UnboundedIsHistory(h: seq<Miss>, ttl: real, key: string)
    ensures Tells(Unbounded(h, ttl), h, ttl, key)
  {
    if h != [] {
      var front, m := h[..|h| - 1], h[|h| - 1];
      assert h == front + [m];
      UnboundedIsHistory(front, ttl, key);
      RecordTells(front, m, ttl, key);
    }
  }

  // ----- The bounded cache against the unbounded one -----

  ghost predicate Sorted(items: Items) {
    |items| < 2 || (items[0].deadline <= items[1].deadline && Sorted(items[1..]))
  }

  /** Every deadline is at most `d`. */
  ghost predicate UpTo(items: Items, d: real) {
    items == [] || (items[0].deadline <= d && UpTo(items[1..], d))
  }

  lemma {:induction false} UpToKept(items: Items, gone: set<string>, d: real, d': real)
    requires UpTo(items, d) && d <= d'
    ensures UpTo(Without(items, gone), d')
  {
    if items != [] {
      UpToKept(items[1..], gone, d, d');
      if items[0].key !in gone {
        assert Without(items, gone)[1..] == Without(items[1..], gone);
      }
    }
  }

  lemma {:induction false} SortedHead(items: Items, d: real)
    requires Sorted(items) && items != [] && items[0].deadline >= d
    ensures forall e :: e in items ==> e.deadline >= d
  {
    if |items| > 1 {
      SortedHead(items[1..], d);
      assert forall e :: e in items ==> e == items[0] || e in items[1..];
    }
  }

  lemma {:induction false} SortedKept(items: Items, gone: set<string>)
    requires Sorted(items)
    ensures Sorted(Without(items, gone))
    ensures Without(items, gone) != [] ==> items[0].deadline <= Without(items, gone)[0].deadline
  {
    if |items| > 1 {
      SortedKept(items[1..], gone);
      if items[0].key !in gone {
        assert Without(items, gone)[1..] == Without(items[1..], gone);
      }
    }
  }

  lemma {:induction false} SortedAppend(items: Items, item: Item)
    requires Sorted(items) && UpTo(items, item.deadline)
    ensures Sorted(items + [item]) && UpTo(items + [item], item.deadline)
  {
    if items == [] {
      assert items + [item] == [item] && [item][1..] == [];
    } else {
      SortedAppend(items[1..], item);
      assert (items + [item])[1..] == items[1..] + [item];
    }
  }

  lemma {:induction false} UnboundedIsSorted(h: seq<Miss>, clock: real, ttl: real)
    requires Monotone(h, clock)
    ensures Sorted(Unbounded(h, ttl)) && UpTo(Unbounded(h, ttl), clock + ttl)
  {
    if h != [] {
      var front, m := h[..|h| - 1], h[|h| - 1];
      var item := Item(m.key, m.at + ttl);
      UnboundedIsSorted(front, m.at, ttl);
      SortedKept(Unbounded(front, ttl), {m.key});
      UpToKept(Unbounded(front, ttl), {m.key}, m.at + ttl, m.at + ttl);
      SortedAppend(Without(Unbounded(front, ttl), {m.key}), item);
      UpToKept(Unbounded(h, ttl), {}, m.at + ttl, clock + ttl);
      DeleteNothing(Unbounded(h, ttl), {});
    }
  }

  lemma {:induction false} LiveOfLive(items: Items, clock: real, now: real)
    requires clock <= now
    ensures Live(Live(items, clock), now) == Live(items, now)
  {
    if items != [] {
      LiveOfLive(items[1..], clock, now);
      if items[0].deadline > clock {
        assert Live(items, clock)[1..] == Live(items[1..], clock);
      }
    }
  }

  lemma {:induction false} AllLive(items: Items, now: real)
    requires forall e :: e in items ==> e.deadline > now
    ensures Live(items, now) == items
  {
    if items != [] {
      AllLive(items[1..], now);
    }
  }

  lemma AllStayLive(items: Items, now: real, size: nat)
    requires forall e :: e in items ==> e.deadline > now
    ensures Live(items, now) == items && Live(Newest(items, size), now) == Newest(items, size)
  {
    AllLive(items, now);
    AllLive(Newest(items, size), now);
  }

  /** In deadline order, what has expired leaves from the front, as evictions do. */
  lemma {:induction false} LiveOfNewest(items: Items, now: real, size: nat)
    requires Sorted(items)
    ensures Live(Newest(items, size), now) == Newest(Live(items, now), size)
  {
    if |items| > size {
      if items[0].deadline <= now {
        LiveOfNewest(items[1..], now, size);
        NewestOfTail(items, size);
      } else {
        SortedHead(items, items[0].deadline);
        AllStayLive(items, now, size);
      }
    }
  }

  lemma {:induction false} LiveOfTouched(items: Items, item: Item, now: real)
    requires item.deadline > now
    ensures Live(Touched(items, item), now) == Touched(Live(items, now), item)
  {
    if items == [] {
      assert Touched(items, item) == [item] && [item][1..] == [];
    } else {
      LiveOfTouched(items[1..], item, now);
      if items[0].key != item.key {
        assert Touched(items, item) == [items[0]] + Touched(items[1..], item);
        assert Touched(items, item)[1..] == Touched(items[1..], item);
      }
      if items[0].deadline > now {
        assert Live(items, now)[1..] == Live(items[1..], now);
        assert items[0].key != item.key ==> Touched(Live(items, now), item) == [items[0]] + Touched(Live(items[1..], now), item);
      }
    }
  }

  lemma {:induction false} WithoutOne(items: Items, key: string)
    requires Distinct(items)
    ensures |Without(items, {key})| >= |items| - 1
  {
    if items != [] {
      WithoutOne(items[1..], key);
      if items[0].key == key { DeleteNothing(items[1..], {key}); }
    }
  }

  /** An item that would be evicted may as well be dropped first. */
  lemma EvictHead(items: Items, item: Item, size: nat)
    requires Distinct(items) && |items| > size
    ensures Newest(Touched(items, item), size) == Newest(Touched(items[1..], item), size)
  {
    var rest := Touched(items[1..], item);
    WithoutOne(items[1..], item.key);
    if items[0].key != item.key {
      assert Touched(items, item) == [items[0]] + rest;
      assert ([items[0]] + rest)[1..] == rest;
      if |rest| >= size { NewestOfTail([items[0]] + rest, size); }
    }
  }

  /** An eviction before the key is put last makes no difference to the one after. */
  lemma {:induction false} EvictOnceOrTwice(items: Items, item: Item, size: nat)
    requires Distinct(items)
    ensures Newest(Touched(Newest(items, size), item), size) == Newest(Touched(items, item), size)
  {
    if |items| > size {
      EvictOnceOrTwice(items[1..], item, size);
      NewestOfTail(items, size);
      EvictHead(items, item, size);
    }
  }

  /** The cache refines its history: bounded, one item a key, in deadline order, and its live items are the
      newest of the live items of the unbounded cache. */
  ghost predicate Refines(items: Items, h: seq<Miss>, clock: real, ttl: real, size: nat) {
    && Monotone(h, clock) && Distinct(items) && Sorted(items) && |items| <= size
    && Live(items, clock) == Newest(Live(Unbounded(h, ttl), clock), size)
    && (ttl <= 0.0 ==> items == [])
  }

  lemma {:induction false} SortedLive(items: Items, now: real)
    requires Sorted(items)
    ensures Sorted(Live(items, now))
  {
    if items != [] {
      if items[0].deadline <= now {
        if |items| > 1 { SortedLive(items[1..], now); }
      } else {
        SortedHead(items, items[0].deadline);
        AllLive(items, now);
      }
    }
  }

  lemma TimePasses(items: Items, h: seq<Miss>, clock: real, now: real, ttl: real, size: nat)
    requires Refines(items, h, clock, ttl, size) && clock <= now
    ensures Refines(items, h, now, ttl, size)
  {
    LiveOfLive(items, clock, now);
    LiveOfLive(Unbounded(h, ttl), clock, now);
    UnboundedIsSorted(h, clock, ttl);
    SortedLive(Unbounded(h, ttl), clock);
    LiveOfNewest(Live(Unbounded(h, ttl), clock), now, size);
    assert Monotone(h, now);
  }

  lemma {:induction false} DeadIsNotLive(items: Items, key: string, now: real)
    requires Distinct(items)
    ensures key in Keys(Live(items, now)) <==> Get(items, key).Some? && Get(items, key).value > now
    ensures key !in Keys(Live(items, now)) ==> Live(Without(items, {key}), now) == Live(items, now)
  {
    if items != [] {
      DeadIsNotLive(items[1..], key, now);
      if items[0].key == key {
        DeleteNothing(items[1..], {key});
      } else {
        assert Without(items, {key})[1..] == Without(items[1..], {key});
      }
      if items[0].deadline > now {
        assert Live(items, now)[1..] == Live(items[1..], now);
      }
    }
  }

  /** A lookup may drop an expired item and the clock moves: the history it refines is the same. */
  lemma LookupKeepsRefines(items: Items, h: seq<Miss>, clock: real, key: string, now: real, ttl: real, size: nat)
    requires Refines(items, h, clock, ttl, size) && clock <= now
    ensures Refines(items, h, now, ttl, size)
    ensures Get(items, key).Some? && Get(items, key).value <= now ==> Refines(Without(items, {key}), h, now, ttl, size)
  {
    TimePasses(items, h, clock, now, ttl, size);
    DeadIsNotLive(items, key, now);
    DistinctKept(items, {key}, now);
    SortedKept(items, {key});
  }

  /** A record keeps the refinement: the cache afterwards refines the history with the record appended. */
  lemma RecordKeepsRefines(items: Items, h: seq<Miss>, clock: real, m: Miss, ttl: real, size: nat)
    requires Refines(items, h, clock, ttl, size) && clock <= m.at
    ensures Refines(Recorded(items, m.key, m.at, ttl, size), h + [m], m.at, ttl, size)
  {
    TimePasses(items, h, clock, m.at, ttl, size);
    if ttl <= 0.0 {
      RecordDisabled(h, m, ttl, size);
    } else {
      RecordEnabled(items, h, m, ttl, size);
    }
  }

  lemma RecordDisabled(h: seq<Miss>, m: Miss, ttl: real, size: nat)
    requires Monotone(h, m.at) && ttl <= 0.0
    ensures Refines([], h + [m], m.at, ttl, size)
  {
    UnboundedGrows(h, m, ttl);
    NothingLives(h + [m], m.at, ttl);
  }

  lemma RecordedIsKept(items: Items, m: Miss, ttl: real, size: nat)
    requires ttl > 0.0
    ensures Recorded(items, m.key, m.at, ttl, size) == Kept(items, Item(m.key, m.at + ttl), m.at, size)
  {}

  lemma RecordEnabled(items: Items, h: seq<Miss>, m: Miss, ttl: real, size: nat)
    requires Monotone(h, m.at) && Distinct(items) && ttl > 0.0
    requires Live(items, m.at) == Newest(Live(Unbounded(h, ttl), m.at), size)
    ensures Refines(Recorded(items, m.key, m.at, ttl, size), h + [m], m.at, ttl, size)
  {
    RecordedIsKept(items, m, ttl, size);
    UnboundedGrows(h, m, ttl);
    UnboundedIsDistinct(h, ttl);
    RecordRefines(items, Unbounded(h, ttl), h + [m], Item(m.key, m.at + ttl), m.at, ttl, size);
  }

  lemma RecordRefines(items: Items, all: Items, h: seq<Miss>, item: Item, now: real, ttl: real, size: nat)
    requires Distinct(items) && Distinct(all) && item.deadline > now && ttl > 0.0 && Monotone(h, now)
    requires Live(items, now) == Newest(Live(all, now), size) && Unbounded(h, ttl) == Touched(all, item)
    ensures Refines(Kept(items, item, now, size), h, now, ttl, size)
  {
    RecordOnBoth(items, all, item, now, size);
    NewestLiveSorted(h, now, ttl, size);
  }

  lemma NothingLives(h: seq<Miss>, clock: real, ttl: real)
    requires Monotone(h, clock) && ttl <= 0.0
    ensures Live(Unbounded(h, ttl), clock) == []
  {
    UnboundedIsSorted(h, clock, ttl);
    NoneLive(Unbounded(h, ttl), clock + ttl, clock);
  }

  lemma NewestLiveSorted(h: seq<Miss>, clock: real, ttl: real, size: nat)
    requires Monotone(h, clock)
    ensures Sorted(Newest(Live(Unbounded(h, ttl), clock), size))
  {
    UnboundedIsSorted(h, clock, ttl);
    SortedLive(Unbounded(h, ttl), clock);
    SortedNewest(Live(Unbounded(h, ttl), clock), size);
  }

  /** Recording on the bounded list and touching the unbounded one keep their live items in step. */
  lemma RecordOnBoth(items: Items, all: Items, item: Item, now: real, size: nat)
    requires Distinct(items) && Distinct(all) && item.deadline > now
    requires Live(items, now) == Newest(Live(all, now), size)
    ensures var kept := Newest(Touched(Live(items, now), item), size);
            Distinct(kept) && |kept| <= size && Live(kept, now) == kept
            && kept == Newest(Live(Touched(all, item), now), size)
  {
    DistinctKept(items, {}, now);
    DistinctKept(all, {}, now);
    DistinctTouched(Live(items, now), item);
    DistinctNewest(Touched(Live(items, now), item), size);
    LiveOfTouched(all, item, now);
    EvictOnceOrTwice(Live(all, now), item, size);
    NewestStayLive(items, item, now, size);
  }

  lemma {:induction false} SortedNewest(items: Items, size: nat)
    requires Sorted(items)
    ensures Sorted(Newest(items, size))
  {
    if |items| > size {
      if |items| > 1 { SortedNewest(items[1..], size); }
      NewestOfTail(items, size);
    }
  }

  lemma {:induction false} NoneLive(items: Items, d: real, now: real)
    requires UpTo(items, d) && d <= now
    ensures Live(items, now) == []
  {
    if items != [] {
      NoneLive(items[1..], d, now);
    }
  }

  lemma {:induction false} LiveAreLive(items: Items, now: real)
    ensures forall e :: e in Live(items, now) ==> e in items && e.deadline > now
  {
    if items != [] {
      LiveAreLive(items[1..], now);
    }
  }

  lemma NewestStayLive(items: Items, item: Item, now: real, size: nat)
    requires item.deadline > now
    ensures var kept := Newest(Touched(Live(items, now), item), size); Live(kept, now) == kept
  {
    LiveOfTouched(items, item, now);
    LiveAreLive(Touched(items, item), now);
    AllLive(Newest(Touched(Live(items, now), item), size), now);
  }

  // ----- What a lookup answers -----

  lemma {:induction false} CountKeys(items: Items)
    requires Distinct(items)
    ensures |Keys(items)| == |items|
  {
    if items != [] {
      CountKeys(items[1..]);
    }
  }

  lemma {:induction false} KeysAfterAreFewer(items: Items, key: string)
    requires Distinct(items) && key in Keys(items)
    ensures |KeysAfter(items, key)| < |items|
  {
    if items[0].key == key {
      CountKeys(items[1..]);
    } else {
      KeysAfterAreFewer(items[1..], key);
    }
  }

  /** With distinct keys, an item survives eviction exactly when fewer than `size` stand after it. */
  lemma {:induction false} RankDecides(items: Items, key: string, size: nat)
    requires Distinct(items) && key in Keys(items)
    ensures key in Keys(Newest(items, size)) <==> |KeysAfter(items, key)| < size
  {
    if |items| > size {
      NewestOfTail(items, size);
      if items[0].key == key {
        CountKeys(items[1..]);
        NewestIsPart(items[1..], size);
      } else {
        RankDecides(items[1..], key, size);
      }
    } else {
      KeysAfterAreFewer(items, key);
    }
  }

  lemma {:induction false} NewestIsPart(items: Items, size: nat)
    ensures Keys(Newest(items, size)) <= Keys(items)
  {
    if |items| > size {
      NewestIsPart(items[1..], size);
      NewestOfTail(items, size);
    }
  }

  /** What stands after a live key is live. */
  lemma {:induction false} AfterLive(items: Items, key: string, now: real)
    requires Sorted(items) && Distinct(items) && key in Keys(Live(items, now))
    ensures KeysAfter(Live(items, now), key) == KeysAfter(items, key)
  {
    if items[0].deadline > now {
      SortedHead(items, items[0].deadline);
      AllLive(items, now);
    } else {
      AfterLive(items[1..], key, now);
    }
  }

  /** The answer of a lookup: a stored deadline that is still ahead means exactly what the history says. */
  lemma LookupIsKnown(items: Items, h: seq<Miss>, clock: real, key: string, now: real, ttl: real, size: nat)
    requires Refines(items, h, clock, ttl, size) && clock <= now
    ensures (Get(items, key).Some? && now < Get(items, key).value) <==> Known(h, key, now, ttl, size)
  {
    TimePasses(items, h, clock, now, ttl, size);
    DeadIsNotLive(items, key, now);
    var all := Unbounded(h, ttl);
    UnboundedIsDistinct(h, ttl);
    UnboundedIsSorted(h, now, ttl);
    UnboundedIsHistory(h, ttl, key);
    DeadIsNotLive(all, key, now);
    DistinctKept(all, {}, now);
    NewestIsPart(Live(all, now), size);
    if key in Keys(Live(all, now)) {
      AfterLive(all, key, now);
      RankDecides(Live(all, now), key, size);
    }
  }

  /** A known key was recorded, last, less than a time-to-live ago. */
  lemma KnownHasRecentMiss(h: seq<Miss>, key: string, now: real, ttl: real, size: nat)
    requires Known(h, key, now, ttl, size)
    ensures exists i :: 0 <= i < |h| && h[i].key == key && now - ttl < h[i].at
  {
    var i := Latest(h, key);
    assert h[i].key == key;
  }

  /** A key is answered from the key set again at the latest a time-to-live after its last record. */
  lemma RefusedForAtMostTtl(h: seq<Miss>, key: string, now: real, ttl: real, size: nat)
    requires forall i :: 0 <= i < |h| && h[i].key == key ==> h[i].at + ttl <= now
    ensures !Known(h, key, now, ttl, size)
  {
    var i := Latest(h, key);
    if i >= 0 { assert h[i].key == key; }
  }

  /** The newest record is known at once, until its deadline, when the cache may hold anything at all. */
  lemma JustRecordedIsKnown(h: seq<Miss>, m: Miss, now: real, ttl: real, size: nat)
    ensures Known(h + [m], m.key, now, ttl, size) <==> now < m.at + ttl && size > 0
  {
    assert Since(h + [m], |h|) == {};
  }

  /** Recording another key forgets `key` exactly when it was the last of `size` distinct others. */
  lemma OtherRecordForgets(h: seq<Miss>, m: Miss, key: string, now: real, ttl: real, size: nat)
    requires key != m.key
    ensures Known(h + [m], key, now, ttl, size)
            <==> Known(h, key, now, ttl, size)
                 && (m.key in Since(h, Latest(h, key)) || |Since(h, Latest(h, key))| + 1 < size)
  {
    assert (h + [m])[..|h|] == h;
    var i := Latest(h, key);
    if i >= 0 {
      SinceGrows(h, m, i);
      if m.key in Since(h, i) { assert Since(h + [m], i) == Since(h, i); }
    }
  }
}
