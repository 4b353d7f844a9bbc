/** The bounded TTL cache, as the sequence of its locked sections: lookups, and
    stores that evict. */
module TtlCache {
  import opened Prelude
  import opened OrderedDict

  datatype Entry<V> = Entry(value: V, expires: int)

  // One store ----------------------------------------------------------------

  /** `entries[key] = entry; entries.move_to_end(key)`. */
  function MoveToEnd<K(==), V>(d: Dict<K, Entry<V>>, key: K, entry: Entry<V>): Dict<K, Entry<V>> {
    Delete(d, key) + [(key, entry)]
  }

  function Live<K(==), V>(d: Dict<K, Entry<V>>, now: int): Dict<K, Entry<V>> {
    if d == [] then []
    else if d[0].1.expires <= now then Live(d[1..], now)
    else [d[0]] + Live(d[1..], now)
  }

  /** What survives an eviction at `now`. */
  function Kept<K(==), V>(d: Dict<K, Entry<V>>, now: int, bound: nat): (kept: Dict<K, Entry<V>>)
    ensures |kept| <= bound
  {
    EvictOldest(Live(d, now), bound)
  }

  // Runs of stores -----------------------------------------------------------

  /** A store: the clock is read for the expiry, then again for the eviction. */
  datatype StoreStep<K, V> = StoreStep(key: K, value: V, at: int, evictAt: int)

  predicate InOrder<K, V>(steps: seq<StoreStep<K, V>>) {
    && (forall i :: 0 <= i < |steps| ==> steps[i].at <= steps[i].evictAt)
    && (forall i, j :: 0 <= i < j < |steps| ==> steps[i].evictAt <= steps[j].at)
  }

  /** The cache after a run of stores. */
  function Cached<K(==), V>(steps: seq<StoreStep<K, V>>, ttl: nat, bound: nat): Dict<K, Entry<V>> {
    if steps == [] then []
    else
      var n := |steps| - 1;
      Kept(MoveToEnd(Cached(steps[..n], ttl, bound), steps[n].key, Entry(steps[n].value, steps[n].at + ttl)),
           steps[n].evictAt, bound)
  }

  /** What an unbounded map would hold: every key's latest store, by store time. */
  function Latest<K(==), V>(steps: seq<StoreStep<K, V>>, ttl: nat): Dict<K, Entry<V>> {
    if steps == [] then []
    else
      var n := |steps| - 1;
      MoveToEnd(Latest(steps[..n], ttl), steps[n].key, Entry(steps[n].value, steps[n].at + ttl))
  }

  ghost predicate ByExpiry<K, V>(d: Dict<K, Entry<V>>) {
    forall i, j :: 0 <= i < j < |d| ==> d[i].1.expires <= d[j].1.expires
  }

  // Suffixes -----------------------------------------------------------------

  /** `from` splits the entries into those expired at `now` and the live ones. */
  ghost predicate SplitsAt<K, V>(d: Dict<K, Entry<V>>, now: int, from: nat) {
    && from <= |d|
    && (forall i :: 0 <= i < from ==> d[i].1.expires <= now)
    && (forall i :: from <= i < |d| ==> d[i].1.expires > now)
  }

  function SplitPoint<K(==), V>(d: Dict<K, Entry<V>>, now: int): (from: nat)
    requires ByExpiry(d)
    ensures SplitsAt(d, now, from)
  {
    if d == [] then 0
    else if d[0].1.expires <= now then 1 + SplitPoint(d[1..], now)
    else 0
  }

  lemma {:induction false} LiveIsSuffix<K, V>(d: Dict<K, Entry<V>>, now: int, from: nat)
    requires SplitsAt(d, now, from)
    ensures Live(d, now) == d[from..]
  {
    if d == [] {
    } else if from > 0 {
      LiveIsSuffix(d[1..], now, from - 1);
    } else {
      LiveIsSuffix(d[1..], now, 0);
      assert d == [d[0]] + d[1..];
    }
  }

  function Max(a: int, b: int): int {
    if a > b then a else b
  }

  lemma KeptIsSuffix<K, V>(d: Dict<K, Entry<V>>, now: int, bound: nat, from: nat)
    requires SplitsAt(d, now, from)
    ensures Kept(d, now, bound) == d[Max(from, |d| - bound)..]
  {
    LiveIsSuffix(d, now, from);
  }

  lemma {:induction false} DeleteAt<K, V>(d: Dict<K, V>, p: nat)
    requires Distinct(d) && p < |d|
    ensures Delete(d, d[p].0) == d[..p] + d[p + 1..]
  {
    if p > 0 {
      var rest := d[1..];
      assert d[0].0 != d[p].0 && rest[p - 1] == d[p];
      DeleteAt(rest, p - 1);
      assert Delete(d, d[p].0) == [d[0]] + Delete(rest, d[p].0);
      hide Delete, Distinct;
      assert d[..p] == [d[0]] + rest[..p - 1];
      assert rest[p..] == d[p + 1..];
    }
  }

  /** `part` is `all` from `cut` on, and what was cut off comes from `gone`. */
  ghost predicate IsTail<K, V>(all: Dict<K, V>, part: Dict<K, V>, cut: nat, gone: Dict<K, V>) {
    cut <= |all| && part == all[cut..] && forall i :: 0 <= i < cut ==> all[i] in gone
  }

  lemma MoveLater<K, V>(d: Dict<K, Entry<V>>, p: nat, entry: Entry<V>, from: nat)
    requires Distinct(d) && from <= p < |d|
    ensures IsTail(MoveToEnd(d, d[p].0, entry), MoveToEnd(d[from..], d[p].0, entry), from, d[..from])
    ensures |MoveToEnd(d, d[p].0, entry)| == |d|
  {
    DeleteAt(d, p);
    DeleteAt(d[from..], p - from);
    hide Delete, Distinct;
    var left := d[..p] + d[p + 1..];
    assert d[from..][..p - from] == d[from..p] && d[from..][p - from + 1..] == d[p + 1..];
    assert left[from..] == d[from..p] + d[p + 1..];
    forall i | 0 <= i < from ensures left[i] in d[..from] {
      assert d[..from][i] == left[i];
    }
  }

  lemma MoveEarlier<K, V>(d: Dict<K, Entry<V>>, p: nat, entry: Entry<V>, from: nat)
    requires Distinct(d) && p < from <= |d|
    ensures IsTail(MoveToEnd(d, d[p].0, entry), MoveToEnd(d[from..], d[p].0, entry), from - 1, d[..from])
    ensures |MoveToEnd(d, d[p].0, entry)| == |d|
  {
    DeleteAt(d, p);
    assert !Has(d[from..], d[p].0);
    DeleteAbsent(d[from..], d[p].0);
    hide Delete, Find, Distinct;
    var left := d[..p] + d[p + 1..];
    assert left[from - 1..] == d[from..];
    forall i | 0 <= i < from - 1 ensures left[i] in d[..from] {
      assert d[..from][if i < p then i else i + 1] == left[i];
    }
  }

  lemma MoveNew<K, V>(d: Dict<K, Entry<V>>, key: K, entry: Entry<V>, from: nat)
    requires !Has(d, key) && from <= |d|
    ensures IsTail(MoveToEnd(d, key, entry), MoveToEnd(d[from..], key, entry), from, d[..from])
    ensures |MoveToEnd(d, key, entry)| == |d| + 1
  {
    assert Find(d, key).None?;
    DeleteAbsent(d, key);
    assert !Has(d[from..], key);
    DeleteAbsent(d[from..], key);
    hide Delete, Find;
    forall i | 0 <= i < from ensures d[i] in d[..from] {
      assert d[..from][i] == d[i];
    }
  }

  /** Moving a key to the end of a suffix leaves a suffix of moving it in the whole. */
  lemma MoveInSuffix<K, V>(d: Dict<K, Entry<V>>, key: K, entry: Entry<V>, from: nat) returns (cut: nat)
    requires Distinct(d) && from <= |d|
    ensures var all := MoveToEnd(d, key, entry);
            && cut <= from && |all| - cut >= |d| - from
            && IsTail(all, MoveToEnd(d[from..], key, entry), cut, d[..from])
  {
    hide MoveToEnd, IsTail, Distinct;
    if Has(d, key) {
      var p :| 0 <= p < |d| && d[p].0 == key;
      if p < from {
        cut := from - 1;
        MoveEarlier(d, p, entry, from);
      } else {
        cut := from;
        MoveLater(d, p, entry, from);
      }
    } else {
      cut := from;
      MoveNew(d, key, entry, from);
    }
  }

  lemma SuffixSplits<K, V>(d: Dict<K, Entry<V>>, now: int, cut: nat, from: nat)
    requires cut <= |d| && SplitsAt(d, now, from)
    ensures SplitsAt(d[cut..], now, Max(from - cut, 0))
  {
  }

  lemma SplitBeyond<K, V>(d: Dict<K, Entry<V>>, now: int, split: nat, expired: Dict<K, Entry<V>>, cut: nat)
    requires SplitsAt(d, now, split) && cut <= |d|
    requires forall i :: 0 <= i < cut ==> d[i] in expired
    requires forall e :: e in expired ==> e.1.expires <= now
    ensures cut <= split
  {
    assert forall i :: 0 <= i < cut ==> d[i].1.expires <= now;
    assert split == |d| || d[split].1.expires > now;
  }

  /** The newest live entries can be found in any suffix that holds them. */
  lemma KeptOfTail<K, V>(d: Dict<K, Entry<V>>, now: int, bound: nat, cut: nat, split: nat)
    requires SplitsAt(d, now, split) && cut <= |d| && cut <= Max(split, |d| - bound)
    ensures Kept(d[cut..], now, bound) == Kept(d, now, bound)
  {
    KeptIsSuffix(d, now, bound, split);
    SuffixSplits(d, now, cut, split);
    KeptIsSuffix(d[cut..], now, bound, Max(split - cut, 0));
    hide Kept, SplitsAt;
    var inner := Max(Max(split - cut, 0), |d| - cut - bound);
    assert d[cut..][inner..] == d[cut + inner..];
  }

  /** One store keeps the cache at the newest `bound` live entries of the unbounded map. */
  lemma StoreKeepsWindow<K, V>(all: Dict<K, Entry<V>>, was: int, key: K, entry: Entry<V>, now: int, bound: nat)
    requires Distinct(all) && ByExpiry(all) && was <= now
    requires ByExpiry(MoveToEnd(all, key, entry))
    ensures Kept(MoveToEnd(Kept(all, was, bound), key, entry), now, bound) == Kept(MoveToEnd(all, key, entry), now, bound)
  {
    var expired := SplitPoint(all, was);
    KeptIsSuffix(all, was, bound, expired);
    var from := Max(expired, |all| - bound);
    var cut := MoveInSuffix(all, key, entry, from);
    var moved := MoveToEnd(all, key, entry);
    var split := SplitPoint(moved, now);
    if from == expired {
      ExpiredStays(all, was, expired, now);
      SplitBeyond(moved, now, split, all[..from], cut);
    }
    KeptOfTail(moved, now, bound, cut, split);
  }

  lemma ExpiredStays<K, V>(d: Dict<K, Entry<V>>, was: int, from: nat, now: int)
    requires SplitsAt(d, was, from) && was <= now
    ensures forall e :: e in d[..from] ==> e.1.expires <= now
  {
  }

  // Whole runs ---------------------------------------------------------------

  lemma MovePreserves<K, V>(d: Dict<K, Entry<V>>, key: K, entry: Entry<V>)
    requires Distinct(d) && ByExpiry(d)
    requires forall e :: e in d ==> e.1.expires <= entry.expires
    ensures Distinct(MoveToEnd(d, key, entry)) && ByExpiry(MoveToEnd(d, key, entry))
    ensures forall e :: e in MoveToEnd(d, key, entry) ==> e.1.expires <= entry.expires
  {
    DeleteMembers(d, key);
    DeleteKeepsOrder(d, key);
    var rest := Delete(d, key);
    hide Delete;
    assert forall i :: 0 <= i < |rest| ==> rest[i] in rest;
  }

  lemma DeleteKeepsOrder<K, V>(d: Dict<K, Entry<V>>, key: K)
    requires Distinct(d) && ByExpiry(d)
    ensures ByExpiry(Delete(d, key))
  {
    if Has(d, key) {
      var p :| 0 <= p < |d| && d[p].0 == key;
      DeleteAt(d, p);
      hide Delete;
    } else {
      assert Find(d, key).None?;
      DeleteAbsent(d, key);
    }
  }

  lemma Earlier<K, V>(steps: seq<StoreStep<K, V>>, n: nat)
    requires InOrder(steps) && n < |steps|
    ensures InOrder(steps[..n])
    ensures n > 0 ==> steps[n - 1].at <= steps[n - 1].evictAt <= steps[n].at <= steps[n].evictAt
  {
  }

  function EntryOf<K, V>(step: StoreStep<K, V>, ttl: nat): Entry<V> {
    Entry(step.value, step.at + ttl)
  }

  lemma LatestSnoc<K, V>(steps: seq<StoreStep<K, V>>, ttl: nat, bound: nat)
    requires steps != []
    ensures var n := |steps| - 1;
            && Latest(steps, ttl) == MoveToEnd(Latest(steps[..n], ttl), steps[n].key, EntryOf(steps[n], ttl))
            && Cached(steps, ttl, bound)
            == Kept(MoveToEnd(Cached(steps[..n], ttl, bound), steps[n].key, EntryOf(steps[n], ttl)), steps[n].evictAt, bound)
  {
  }

  /** The map in expiry order, and the cache a window onto it. */
  ghost predicate Windowed<K, V>(latest: Dict<K, Entry<V>>, cached: Dict<K, Entry<V>>, newest: int, now: int, bound: nat) {
    && Distinct(latest) && ByExpiry(latest)
    && (forall e :: e in latest ==> e.1.expires <= newest)
    && cached == Kept(latest, now, bound)
  }

  lemma WindowStep<K, V>(latest: Dict<K, Entry<V>>, cached: Dict<K, Entry<V>>, newest: int, was: int, bound: nat,
                         key: K, entry: Entry<V>, now: int)
    requires Windowed(latest, cached, newest, was, bound) && newest <= entry.expires && was <= now
    ensures Windowed(MoveToEnd(latest, key, entry), Kept(MoveToEnd(cached, key, entry), now, bound), entry.expires, now, bound)
  {
    MovePreserves(latest, key, entry);
    StoreKeepsWindow(latest, was, key, entry, now, bound);
    hide Kept, MoveToEnd, Distinct, ByExpiry;
  }

  lemma WindowStart<K, V>(newest: int, was: int, bound: nat)
    ensures Windowed<K, V>([], [], newest, was, bound)
  {
  }

  lemma {:induction false} WindowedRun<K, V>(steps: seq<StoreStep<K, V>>, ttl: nat, bound: nat)
    requires InOrder(steps) && steps != []
    ensures var last := steps[|steps| - 1];
            Windowed(Latest(steps, ttl), Cached(steps, ttl, bound), last.at + ttl, last.evictAt, bound)
  {
    var n := |steps| - 1;
    var front, last := steps[..n], steps[n];
    hide *;
    Earlier(steps, n);
    LatestSnoc(steps, ttl, bound);
    if n > 0 {
      WindowedRun(front, ttl, bound);
      WindowStep(Latest(front, ttl), Cached(front, ttl, bound), steps[n - 1].at + ttl, steps[n - 1].evictAt, bound,
                 last.key, EntryOf(last, ttl), last.evictAt);
    } else {
      NothingStored<K, V>(ttl, bound);
      WindowStart<K, V>(last.at + ttl, last.evictAt, bound);
      WindowStep(Latest(front, ttl), Cached(front, ttl, bound), last.at + ttl, last.evictAt, bound,
                 last.key, EntryOf(last, ttl), last.evictAt);
    }
    ExpiryOf(last, ttl);
  }

  lemma NothingStored<K, V>(ttl: nat, bound: nat)
    ensures Latest<K, V>([], ttl) == [] && Cached<K, V>([], ttl, bound) == []
  {
  }

  lemma ExpiryOf<K, V>(step: StoreStep<K, V>, ttl: nat)
    ensures EntryOf(step, ttl).expires == step.at + ttl
  {
  }

  /** Over any run of stores the bounded cache holds exactly the newest `bound`
      entries, live at the last eviction, of what an unbounded map would hold; and
      that map's order is its expiry order, so an eviction drops the entry that
      would have expired soonest. */
  lemma CacheIsNewestOfLatest<K, V>(steps: seq<StoreStep<K, V>>, ttl: nat, bound: nat)
    requires InOrder(steps) && steps != []
    ensures var latest := Latest(steps, ttl);
            && Distinct(latest) && ByExpiry(latest)
            && Cached(steps, ttl, bound) == Kept(latest, steps[|steps| - 1].evictAt, bound)
  {
    WindowedRun(steps, ttl, bound);
    hide Latest, Cached, Kept;
  }

  /** The last store of a key in a run. */
  function LastStore<K(==), V>(steps: seq<StoreStep<K, V>>, key: K): (found: Option<StoreStep<K, V>>)
    ensures found.Some? ==> found.value in steps && found.value.key == key
  {
    if steps == [] then None
    else
      var n := |steps| - 1;
      if steps[n].key == key then Some(steps[n]) else LastStore(steps[..n], key)
  }

  lemma FindAfterMove<K, V>(d: Dict<K, Entry<V>>, key: K, entry: Entry<V>, other: K)
    requires Distinct(d)
    ensures Find(MoveToEnd(d, key, entry), other) == if other == key then Some(entry) else Find(d, other)
  {
    DeleteLookup(d, key, other);
    FindInAppend(Delete(d, key), key, entry, other);
  }

  lemma {:induction false} FindInAppend<K, V>(d: Dict<K, V>, key: K, value: V, other: K)
    ensures Find(d + [(key, value)], other)
         == if Find(d, other).Some? then Find(d, other) else if other == key then Some(value) else None
  {
    if d != [] {
      assert (d + [(key, value)])[1..] == d[1..] + [(key, value)];
      FindInAppend(d[1..], key, value, other);
    } else {
      assert ([(key, value)])[1..] == [];
    }
  }

  lemma {:induction false} LatestIsLastStore<K, V>(steps: seq<StoreStep<K, V>>, ttl: nat, key: K)
    requires InOrder(steps)
    ensures Find(Latest(steps, ttl), key)
         == match LastStore(steps, key)
            case None => None
            case Some(s) => Some(EntryOf(s, ttl))
  {
    if steps != [] {
      var n := |steps| - 1;
      Earlier(steps, n);
      LatestIsLastStore(steps[..n], ttl, key);
      LatestDistinct(steps[..n], ttl);
      LatestSnoc(steps, ttl, 0);
      hide Latest, Cached, MoveToEnd, Find, InOrder, Distinct;
      FindAfterMove(Latest(steps[..n], ttl), steps[n].key, EntryOf(steps[n], ttl), key);
    }
  }

  lemma LatestDistinct<K, V>(steps: seq<StoreStep<K, V>>, ttl: nat)
    requires InOrder(steps)
    ensures Distinct(Latest(steps, ttl))
  {
    if steps != [] {
      CacheIsNewestOfLatest(steps, ttl, 0);
    }
  }

  lemma FindInSuffix<K, V>(d: Dict<K, V>, from: nat, p: nat)
    requires Distinct(d) && from <= |d| && p < |d|
    ensures Find(d[from..], d[p].0) == if p >= from then Some(d[p].1) else None
  {
    if p >= from {
      FindAt(d[from..], p - from);
    } else {
      assert !Has(d[from..], d[p].0);
    }
  }

  /** A key is held exactly when its latest store was live at the last eviction and
      fewer than `bound` keys were stored after it. */
  lemma HeldExactly<K, V>(steps: seq<StoreStep<K, V>>, ttl: nat, bound: nat, p: nat)
    requires InOrder(steps) && p < |Latest(steps, ttl)|
    ensures steps != []
    ensures var latest := Latest(steps, ttl);
            var entry := latest[p].1;
            Find(Cached(steps, ttl, bound), latest[p].0)
            == if entry.expires > steps[|steps| - 1].evictAt && |latest| - p <= bound then Some(entry) else None
  {
    var latest, now := Latest(steps, ttl), steps[|steps| - 1].evictAt;
    CacheIsNewestOfLatest(steps, ttl, bound);
    var split := SplitPoint(latest, now);
    KeptIsSuffix(latest, now, bound, split);
    hide Latest, Cached, Kept, Find;
    var from := Max(split, |latest| - bound);
    assert p >= from <==> latest[p].1.expires > now && |latest| - p <= bound;
    hide ByExpiry, SplitsAt;
    FindInSuffix(latest, from, p);
  }

  function Hit<K(==), V>(d: Dict<K, Entry<V>>, key: K, now: int): Option<V> {
    var entry := Find(d, key);
    if entry.Some? && entry.value.expires > now then Some(entry.value.value) else None
  }

  /** A hit returns the latest value stored for that key, stored less than one TTL
      before the clock was read; and the size is within the bound. */
  lemma HitIsFresh<K, V>(steps: seq<StoreStep<K, V>>, ttl: nat, bound: nat, key: K, now: int)
    requires InOrder(steps)
    ensures |Cached(steps, ttl, bound)| <= bound
    ensures var hit := Hit(Cached(steps, ttl, bound), key, now);
            hit.Some? ==>
              var last := LastStore(steps, key);
              last.Some? && hit.value == last.value.value && now - last.value.at < ttl
  {
    var last := LastStore(steps, key);
    if steps != [] && Find(Cached(steps, ttl, bound), key).Some? {
      CacheIsNewestOfLatest(steps, ttl, bound);
      LatestIsLastStore(steps, ttl, key);
      hide Latest, Cached, LastStore;
      FoundInWindow(Latest(steps, ttl), steps[|steps| - 1].evictAt, bound, key);
    }
  }

  lemma {:induction false} FoundInSuffix<K, V>(d: Dict<K, V>, from: nat, key: K)
    requires Distinct(d) && from <= |d| && Find(d[from..], key).Some?
    ensures Find(d, key) == Find(d[from..], key)
  {
    if from > 0 {
      var rest := d[1..];
      assert rest[from - 1..] == d[from..];
      FoundInSuffix(rest, from - 1, key);
      FindHead(d, key);
    }
  }

  lemma FindHead<K, V>(d: Dict<K, V>, key: K)
    requires Distinct(d) && d != [] && Find(d[1..], key).Some?
    ensures Find(d, key) == Find(d[1..], key)
  {
    var p :| 0 <= p < |d[1..]| && d[1..][p].0 == key;
    assert d[p + 1].0 == key;
  }

  lemma FoundInWindow<K, V>(d: Dict<K, Entry<V>>, now: int, bound: nat, key: K)
    requires Distinct(d) && ByExpiry(d) && Find(Kept(d, now, bound), key).Some?
    ensures Find(d, key) == Find(Kept(d, now, bound), key)
  {
    hide *;
    var split := SplitPoint(d, now);
    KeptIsSuffix(d, now, bound, split);
    SuffixStart(d, now, split, bound);
    FoundInSuffix(d, Max(split, |d| - bound), key);
  }

  lemma SuffixStart<K, V>(d: Dict<K, Entry<V>>, now: int, split: nat, bound: nat)
    requires SplitsAt(d, now, split)
    ensures 0 <= Max(split, |d| - bound) <= |d|
  {
  }

  // The cache ----------------------------------------------------------------

  function ExpiredKeys<K(==), V>(d: Dict<K, Entry<V>>, now: int): seq<K> {
    if d == [] then []
    else (if d[0].1.expires <= now then [d[0].0] else []) + ExpiredKeys(d[1..], now)
  }

  lemma {:induction false} DeleteFirstExpired<K, V>(d: Dict<K, Entry<V>>, now: int)
    requires Distinct(d) && ExpiredKeys(d, now) != []
    ensures var key := ExpiredKeys(d, now)[0];
            && Has(d, key)
            && Live(Delete(d, key), now) == Live(d, now)
            && ExpiredKeys(Delete(d, key), now) == ExpiredKeys(d, now)[1..]
  {
    var key := ExpiredKeys(d, now)[0];
    if d[0].1.expires > now {
      DeleteFirstExpired(d[1..], now);
      var p :| 0 <= p < |d[1..]| && d[1..][p].0 == key;
      assert d[p + 1].0 == key;
      assert Delete(d, key) == [d[0]] + Delete(d[1..], key);
      assert Delete(d, key)[1..] == Delete(d[1..], key);
      assert [] + ExpiredKeys(d[1..], now) == ExpiredKeys(d[1..], now);
    } else {
      assert d[0].0 == key;
    }
  }

  lemma {:induction false} NoneExpired<K, V>(d: Dict<K, Entry<V>>, now: int)
    requires ExpiredKeys(d, now) == []
    ensures Live(d, now) == d
  {
    if d != [] {
      NoneExpired(d[1..], now);
    }
  }

  class TTLCache<K(==), V> {
    const ttl: nat
    const bound: nat
    var entries: Dict<K, Entry<V>>

    constructor (ttl: nat, bound: nat)
      requires ttl > 0 && bound > 0
      ensures this.ttl == ttl && this.bound == bound && entries == []
    {
      this.ttl, this.bound, entries := ttl, bound, [];
    }

    /** First locked section of `get_or_load`. */
    method Get(key: K, now: int) returns (hit: Option<V>)
      ensures hit == Hit(entries, key, now)
    {
      var entry := Find(entries, key);
      if entry.Some? && entry.value.expires > now {
        return Some(entry.value.value);
      }
      return None;
    }

    /** Second locked section, after the load: a declined value occupies nothing. */
    method FinishLoad(key: K, value: V, shouldStore: bool, at: int, evictAt: int)
      requires Distinct(entries)
      modifies this
      ensures Distinct(entries)
      ensures !shouldStore ==> entries == old(entries)
      ensures shouldStore ==>
        entries == Kept(MoveToEnd(old(entries), key, Entry(value, at + ttl)), evictAt, bound)
    {
      if !shouldStore {
        return;
      }
      DeleteMembers(entries, key);
      entries := MoveToEnd(entries, key, Entry(value, at + ttl));
      Evict(evictAt);
    }

    /** Drops the expired entries, then the oldest until the bound holds. */
    method Evict(now: int)
      requires Distinct(entries)
      modifies this
      ensures Distinct(entries) && entries == Kept(old(entries), now, bound)
    {
      var expired := ExpiredKeys(entries, now);
      while expired != []
        invariant Distinct(entries) && expired == ExpiredKeys(entries, now)
        invariant Live(entries, now) == Live(old(entries), now)
        decreases |expired|
      {
        DeleteFirstExpired(entries, now);
        DeleteMembers(entries, expired[0]);
        entries := Delete(entries, expired[0]);
        expired := expired[1..];
      }
      NoneExpired(entries, now);
      entries := DropOldest(entries, bound);
    }
  }
}
