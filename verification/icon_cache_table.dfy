/**
 * The icon cache's table as a value: a JavaScript object from domain to
 * `{url, serviceIndex, timestamp, domain}`, kept as an association list in
 * the object's iteration (insertion) order, together with the pure policies
 * the cache applies to it: lookup with time-to-live, insertion with
 * single-oldest eviction, the expiry sweep, the 80%-retain rule used when
 * the store is over quota, and the statistics.
 */
module IconCacheTable {
  import opened Wrappers

  /** Seven days in milliseconds. */
  const MaxAge: int := 7 * 24 * 60 * 60 * 1000
  /** Largest number of cached domains. */
  const MaxEntries: nat := 100

  datatype IconCacheEntry = IconCacheEntry(url: string, serviceIndex: int, timestamp: int, domain: string)

  /** One own property of the cache object: `domain: entry`. */
  datatype Binding = Binding(domain: string, entry: IconCacheEntry)

  /** The cache object, its properties in iteration order. */
  type Cache = seq<Binding>

  function DomainsOf(c: Cache): set<string> {
    set b | b in c :: b.domain
  }

  lemma DomainsOfCons(b: Binding, c: Cache)
    ensures DomainsOf([b] + c) == {b.domain} + DomainsOf(c)
  {
    assert forall x :: x in [b] + c <==> x == b || x in c;
  }

  /** An object never has two properties with the same key. */
  predicate DistinctDomains(c: Cache) {
    c == [] || (c[0].domain !in DomainsOf(c[1..]) && DistinctDomains(c[1..]))
  }

  /** `cache[domain]`: the entry stored under `d`, if any. */
  function Find(c: Cache, d: string): (r: Option<IconCacheEntry>)
    ensures r.Some? <==> d in DomainsOf(c)
    ensures r.Some? ==> Binding(d, r.value) in c
  {
    if c == [] then None
    else if c[0].domain == d then Some(c[0].entry)
    else Find(c[1..], d)
  }

  /** `delete cache[d]`. */
  function Remove(c: Cache, d: string): (r: Cache)
    ensures DomainsOf(r) == DomainsOf(c) - {d}
    ensures forall b :: b in r <==> b in c && b.domain != d
  {
    if c == [] then []
    else if c[0].domain == d then Remove(c[1..], d)
    else [c[0]] + Remove(c[1..], d)
  }

  /** `cache[d] = e`: overwrites the value in place when `d` is a key
      already, and otherwise adds the property at the end. */
  function Put(c: Cache, d: string, e: IconCacheEntry): (r: Cache)
    ensures DomainsOf(r) == DomainsOf(c) + {d}
  {
    if c == [] then [Binding(d, e)]
    else if c[0].domain == d then [Binding(d, e)] + c[1..]
    else
      assert c == [c[0]] + c[1..];
      DomainsOfCons(c[0], c[1..]);
      DomainsOfCons(c[0], Put(c[1..], d, e));
      [c[0]] + Put(c[1..], d, e)
  }

  /** After `delete cache[d]`, `d` is absent and every other key keeps its entry. */
  lemma {:induction false} FindAfterRemove(c: Cache, d: string, x: string)
    ensures Find(Remove(c, d), x) == if x == d then None else Find(c, x)
  {
    if c != [] {
      FindAfterRemove(c[1..], d, x);
    }
  }

  /** After `cache[d] = e`, `d` maps to `e` and every other key keeps its entry. */
  lemma {:induction false} FindAfterPut(c: Cache, d: string, e: IconCacheEntry, x: string)
    ensures Find(Put(c, d, e), x) == if x == d then Some(e) else Find(c, x)
  {
    if c != [] && c[0].domain != d {
      FindAfterPut(c[1..], d, e, x);
    }
  }

  /** Deleting a key keeps the keys distinct; deleting a present key of a
      well-formed object shrinks it by exactly one. */
  lemma {:induction false} RemoveShape(c: Cache, d: string)
    requires DistinctDomains(c)
    ensures DistinctDomains(Remove(c, d))
    ensures |Remove(c, d)| == if d in DomainsOf(c) then |c| - 1 else |c|
  {
    if c != [] {
      RemoveShape(c[1..], d);
      if c[0].domain == d {
        NotInDomainsRemoveIsIdentity(c[1..], d);
      }
    }
  }

  lemma {:induction false} NotInDomainsRemoveIsIdentity(c: Cache, d: string)
    requires d !in DomainsOf(c)
    ensures Remove(c, d) == c
  {
    if c != [] {
      assert c[0] in c;
      assert DomainsOf(c[1..]) <= DomainsOf(c);
      NotInDomainsRemoveIsIdentity(c[1..], d);
    }
  }

  /** Assigning a key keeps the keys distinct; the object grows by one
      exactly when the key is new. */
  lemma {:induction false} PutShape(c: Cache, d: string, e: IconCacheEntry)
    requires DistinctDomains(c)
    ensures DistinctDomains(Put(c, d, e))
    ensures |Put(c, d, e)| == if d in DomainsOf(c) then |c| else |c| + 1
  {
    if c != [] && c[0].domain != d {
      PutShape(c[1..], d, e);
    }
  }

  // ---------------------------------------------------------------------
  // Lookup with time-to-live

  /** An entry is expired when it is strictly older than `MaxAge`. */
  predicate Expired(e: IconCacheEntry, now: int) {
    now - e.timestamp > MaxAge
  }

  /** The answer of `getIconFromCache(d)` at time `now`. */
  function Lookup(c: Cache, d: string, now: int): Option<IconCacheEntry> {
    match Find(c, d)
    case None => None
    case Some(e) => if Expired(e, now) then None else Some(e)
  }

  /** A lookup misses for an absent domain and for an entry older than the
      time-to-live; an entry aged exactly `MaxAge` is still served, and a
      live entry comes back exactly as stored. */
  lemma LookupSpec(c: Cache, d: string, now: int)
    ensures d !in DomainsOf(c) ==> Lookup(c, d, now) == None
    ensures Lookup(c, d, now).Some? <==> d in DomainsOf(c) && now - Find(c, d).value.timestamp <= MaxAge
    ensures Lookup(c, d, now).Some? ==> Binding(d, Lookup(c, d, now).value) in c
    ensures d in DomainsOf(c) && now - Find(c, d).value.timestamp == MaxAge ==> Lookup(c, d, now) == Find(c, d)
  {
  }

  // ---------------------------------------------------------------------
  // Insertion with single-oldest eviction

  /** The `reduce` over the first `n` properties that keeps the current
      minimum unless a strictly smaller timestamp comes along: the index of
      the first property with the least timestamp. */
  function OldestUpTo(c: Cache, n: nat): (k: nat)
    requires 1 <= n <= |c|
    ensures k < n
    ensures forall j :: 0 <= j < n ==> c[k].entry.timestamp <= c[j].entry.timestamp
    ensures forall j :: 0 <= j < k ==> c[j].entry.timestamp > c[k].entry.timestamp
    decreases n
  {
    if n == 1 then 0
    else
      var m := OldestUpTo(c, n - 1);
      if c[n - 1].entry.timestamp < c[m].entry.timestamp then n - 1 else m
  }

  /** The domain `saveIconToCache(d, ...)` evicts first, if any: only when
      the table is full and `d` is not yet a key, the oldest one. */
  function Evicted(c: Cache, d: string): Option<string> {
    if |c| >= MaxEntries && Find(c, d).None? then Some(c[OldestUpTo(c, |c|)].domain) else None
  }

  /** The table after `saveIconToCache(d, u, i)` at time `now`. */
  function Inserted(c: Cache, d: string, u: string, i: int, now: int): Cache {
    var base := match Evicted(c, d) case Some(x) => Remove(c, x) case None => c;
    Put(base, d, IconCacheEntry(u, i, now, d))
  }

  /** Eviction happens exactly when the table holds at least `MaxEntries`
      keys and `d` is new; the evicted key is a present key with the least
      timestamp, the first such in iteration order. */
  lemma EvictionSpec(c: Cache, d: string)
    ensures Evicted(c, d).Some? <==> |c| >= MaxEntries && d !in DomainsOf(c)
    ensures Evicted(c, d).Some? ==>
      var k := OldestUpTo(c, |c|);
      && Evicted(c, d).value == c[k].domain && Evicted(c, d).value != d
      && (forall j :: 0 <= j < |c| ==> c[k].entry.timestamp <= c[j].entry.timestamp)
      && (forall j :: 0 <= j < k ==> c[j].entry.timestamp > c[k].entry.timestamp)
  {
    if Evicted(c, d).Some? {
      assert c[OldestUpTo(c, |c|)] in c;
    }
  }

  /** After an insert, `d` maps to the new entry stamped `now`, and every
      other domain keeps its entry unless it is the one evicted domain. */
  lemma InsertedSpec(c: Cache, d: string, u: string, i: int, now: int)
    ensures Find(Inserted(c, d, u, i, now), d) == Some(IconCacheEntry(u, i, now, d))
    ensures Lookup(Inserted(c, d, u, i, now), d, now) == Some(IconCacheEntry(u, i, now, d))
    ensures forall x :: x != d && Evicted(c, d) != Some(x) ==> Find(Inserted(c, d, u, i, now), x) == Find(c, x)
    ensures forall x :: Evicted(c, d) == Some(x) ==> Find(Inserted(c, d, u, i, now), x) == None
  {
    var e := IconCacheEntry(u, i, now, d);
    var base := match Evicted(c, d) case Some(x) => Remove(c, x) case None => c;
    FindAfterPut(base, d, e, d);
    forall x | x != d && Evicted(c, d) != Some(x)
      ensures Find(Inserted(c, d, u, i, now), x) == Find(c, x)
    {
      FindAfterPut(base, d, e, x);
      if Evicted(c, d).Some? {
        FindAfterRemove(c, Evicted(c, d).value, x);
      }
    }
    forall x | Evicted(c, d) == Some(x)
      ensures Find(Inserted(c, d, u, i, now), x) == None
    {
      EvictionSpec(c, d);
      FindAfterPut(base, d, e, x);
      FindAfterRemove(c, x, x);
    }
  }

  /** Inserting keeps the keys distinct and never takes a table of at most
      `MaxEntries` keys above that bound. */
  lemma InsertedBounded(c: Cache, d: string, u: string, i: int, now: int)
    requires DistinctDomains(c)
    ensures DistinctDomains(Inserted(c, d, u, i, now))
    ensures |c| <= MaxEntries ==> |Inserted(c, d, u, i, now)| <= MaxEntries
  {
    var e := IconCacheEntry(u, i, now, d);
    match Evicted(c, d)
    case Some(x) =>
      EvictionSpec(c, d);
      assert x in DomainsOf(c) by { assert c[OldestUpTo(c, |c|)] in c; }
      RemoveShape(c, x);
      PutShape(Remove(c, x), d, e);
    case None =>
      PutShape(c, d, e);
  }

  // ---------------------------------------------------------------------
  // The expiry sweep

  /** The properties that survive `cleanExpiredCache`, in order. */
  function Live(c: Cache, now: int): (r: Cache)
    ensures forall b :: b in r <==> b in c && !Expired(b.entry, now)
    ensures |r| <= |c|
  {
    if c == [] then []
    else if Expired(c[0].entry, now) then Live(c[1..], now)
    else [c[0]] + Live(c[1..], now)
  }

  /** How many properties are expired. */
  function ExpiredCount(c: Cache, now: int): nat {
    if c == [] then 0
    else (if Expired(c[0].entry, now) then 1 else 0) + ExpiredCount(c[1..], now)
  }

  /** The sweep removes exactly the expired properties: the count of
      removed ones plus the survivors is the original size, and the count is
      zero exactly when nothing is expired. */
  lemma {:induction false} SweepCounts(c: Cache, now: int)
    ensures ExpiredCount(c, now) + |Live(c, now)| == |c|
    ensures ExpiredCount(c, now) == 0 <==> Live(c, now) == c
  {
    if c != [] {
      SweepCounts(c[1..], now);
    }
  }

  lemma {:induction false} LiveAppend(a: Cache, b: Binding, now: int)
    ensures Live(a + [b], now) == Live(a, now) + (if Expired(b.entry, now) then [] else [b])
    ensures ExpiredCount(a + [b], now) == ExpiredCount(a, now) + (if Expired(b.entry, now) then 1 else 0)
  {
    if a != [] {
      assert (a + [b])[1..] == a[1..] + [b];
      LiveAppend(a[1..], b, now);
    }
  }

  lemma {:induction false} RemoveConcat(a: Cache, b: Cache, d: string)
    ensures Remove(a + b, d) == Remove(a, d) + Remove(b, d)
  {
    if a != [] {
      var ab := a + b;
      assert ab != [] && ab[0] == a[0] && ab[1..] == a[1..] + b;
      RemoveConcat(a[1..], b, d);
      if a[0].domain != d {
        calc {
          Remove(ab, d);
          [a[0]] + Remove(a[1..] + b, d);
          [a[0]] + (Remove(a[1..], d) + Remove(b, d));
          ([a[0]] + Remove(a[1..], d)) + Remove(b, d);
        }
      }
    } else {
      assert a + b == b;
    }
  }

  lemma {:induction false} DistinctSplit(c: Cache, i: nat)
    requires DistinctDomains(c) && i < |c|
    ensures c[i].domain !in DomainsOf(c[..i]) && c[i].domain !in DomainsOf(c[i + 1..])
  {
    if i == 0 {
      assert c[1..] == c[i + 1..];
    } else {
      DistinctSplit(c[1..], i - 1);
      assert c[1..][..i - 1] == c[1..i];
      assert c[1..][i..] == c[i + 1..];
      assert c[..i] == [c[0]] + c[1..i];
      assert c[i] in c[1..];
    }
  }

  // ---------------------------------------------------------------------
  // The 80%-retain rule used when the store is over quota

  /** `Math.floor(n * 0.8)`; the double nearest 0.8 lies just above it, so
      for every table size this is `4n/5` rounded down. */
  function KeepCount(n: nat): nat {
    (n * 4) / 5
  }

  predicate SortedByTimestamp(s: Cache) {
    forall i, j :: 0 <= i < j < |s| ==> s[i].entry.timestamp <= s[j].entry.timestamp
  }

  /** Inserts `b` before the first element with a timestamp at least its own. */
  function InsertByTimestamp(b: Binding, s: Cache): (r: Cache)
    requires SortedByTimestamp(s)
    ensures |r| == |s| + 1
    ensures multiset(r) == multiset(s) + multiset{b}
    ensures SortedByTimestamp(r)
  {
    if s == [] || b.entry.timestamp <= s[0].entry.timestamp then [b] + s
    else
      var t := InsertByTimestamp(b, s[1..]);
      InsertKeepsOrder(b, s, t);
      assert s == [s[0]] + s[1..];
      [s[0]] + t
  }

  lemma InsertKeepsOrder(b: Binding, s: Cache, t: Cache)
    requires SortedByTimestamp(s) && s != [] && s[0].entry.timestamp < b.entry.timestamp
    requires SortedByTimestamp(t) && multiset(t) == multiset(s[1..]) + multiset{b}
    ensures SortedByTimestamp([s[0]] + t)
  {
    forall x | x in t ensures s[0].entry.timestamp <= x.entry.timestamp {
      assert x in multiset(t);
      if x != b {
        assert x in multiset(s[1..]);
        var j :| 0 <= j < |s| - 1 && s[1..][j] == x;
        assert s[j + 1] == x;
      }
    }
    var r := [s[0]] + t;
    forall i, j | 0 <= i < j < |r| ensures r[i].entry.timestamp <= r[j].entry.timestamp {
      if i == 0 {
        assert r[j] == t[j - 1];
        assert r[j] in t;
      } else {
        assert r[i] == t[i - 1] && r[j] == t[j - 1];
      }
    }
  }

  /** Two collections with the same elements have the same keys. */
  lemma SameMultisetSameDomains(a: Cache, b: Cache)
    requires multiset(a) == multiset(b)
    ensures DomainsOf(a) == DomainsOf(b)
  {
    forall x | x in a ensures x in b { assert x in multiset(a); }
    forall x | x in b ensures x in a { assert x in multiset(b); }
  }

  /** `entries.sort((a, b) => a[1].timestamp - b[1].timestamp)`, an insertion sort. */
  function SortByTimestamp(c: Cache): (s: Cache)
    ensures |s| == |c|
    ensures SortedByTimestamp(s)
    ensures multiset(s) == multiset(c)
  {
    if c == [] then []
    else
      assert c == [c[0]] + c[1..];
      InsertByTimestamp(c[0], SortByTimestamp(c[1..]))
  }

  /** Elements with a distinct domain each: the multiset of bindings decides it. */
  lemma {:induction false} DistinctFromMultiset(c: Cache, s: Cache)
    requires DistinctDomains(c) && multiset(s) == multiset(c)
    ensures DistinctDomains(s)
    decreases |s|
  {
    if s != [] {
      var k := MatchFirst(c, s);
      var rest := c[..k] + c[k + 1..];
      DistinctRemoveAt(c, k);
      DistinctFromMultiset(rest, s[1..]);
      DomainNotInRest(c, k);
      SameMultisetSameDomains(rest, s[1..]);
    }
  }

  /** The first element of a rearrangement sits somewhere in the original,
      and the rest of it rearranges the original without that position. */
  lemma MatchFirst(c: Cache, s: Cache) returns (k: nat)
    requires s != [] && multiset(s) == multiset(c)
    ensures k < |c| && c[k] == s[0]
    ensures multiset(s[1..]) == multiset(c[..k] + c[k + 1..])
  {
    assert s[0] in multiset(c);
    k :| 0 <= k < |c| && c[k] == s[0];
    var rest := c[..k] + c[k + 1..];
    assert c == c[..k] + [c[k]] + c[k + 1..];
    assert multiset(c) == multiset(rest) + multiset{s[0]};
    assert s == [s[0]] + s[1..];
    assert multiset(s) == multiset(s[1..]) + multiset{s[0]};
    assert multiset(s[1..]) == multiset(s) - multiset{s[0]} == multiset(rest);
  }

  lemma DomainNotInRest(c: Cache, k: nat)
    requires DistinctDomains(c) && k < |c|
    ensures c[k].domain !in DomainsOf(c[..k] + c[k + 1..])
  {
    DistinctSplit(c, k);
    forall x | x in c[..k] + c[k + 1..] ensures x.domain != c[k].domain {
      assert x in c[..k] || x in c[k + 1..];
    }
  }

  lemma {:induction false} DistinctRemoveAt(c: Cache, k: nat)
    requires DistinctDomains(c) && k < |c|
    ensures DistinctDomains(c[..k] + c[k + 1..])
  {
    if k == 0 {
      assert c[..k] + c[k + 1..] == c[1..];
    } else {
      DistinctRemoveAt(c[1..], k - 1);
      assert c[1..][..k - 1] + c[1..][k..] == c[1..k] + c[k + 1..];
      assert c[..k] + c[k + 1..] == [c[0]] + (c[1..k] + c[k + 1..]);
      assert DomainsOf(c[1..k] + c[k + 1..]) <= DomainsOf(c[1..]) by {
        forall x | x in c[1..k] + c[k + 1..] ensures x in c[1..] {
          if x in c[1..k] {
            var j :| 0 <= j < k - 1 && c[1..k][j] == x;
            assert c[1..][j] == x;
          } else {
            var j :| 0 <= j < |c| - k - 1 && c[k + 1..][j] == x;
            assert c[1..][k + j] == x;
          }
        }
      }
    }
  }

  lemma {:induction false} DistinctSuffix(c: Cache, k: nat)
    requires DistinctDomains(c) && k <= |c|
    ensures DistinctDomains(c[k..])
  {
    if k > 0 {
      DistinctSuffix(c[1..], k - 1);
      assert c[1..][k - 1..] == c[k..];
    }
  }

  /** The table `saveCache` retries with after a quota failure, as written:
      the `keepCount` newest properties in ascending timestamp order, where
      `slice(-0)` for a `keepCount` of zero keeps every property. */
  function RetainNewestAsWritten(c: Cache): Cache {
    var s := SortByTimestamp(c);
    var k := KeepCount(|c|);
    if k == 0 then s else s[|s| - k..]
  }

  /** For a one-property table the retry keeps that property: the retry
      repeats the same write, so under a persistent quota failure the
      recursion never ends. */
  lemma RetainNewestAsWrittenStalls(b: Binding)
    ensures KeepCount(1) == 0
    ensures RetainNewestAsWritten([b]) == [b]
  {
    assert SortByTimestamp([b]) == InsertByTimestamp(b, SortByTimestamp([]));
  }

  /** The retry with the evident intent: keep the `KeepCount(n)` newest
      properties and nothing else (none when `KeepCount(n)` is zero). */
  function RetainNewest(c: Cache): Cache {
    var s := SortByTimestamp(c);
    s[|s| - KeepCount(|c|)..]
  }

  /** The retained table is a strictly smaller sub-collection of a non-empty
      table, holds `floor(0.8 n)` properties, keeps keys distinct, and
      every dropped property is no newer than every kept one. */
  lemma RetainNewestSpec(c: Cache)
    requires DistinctDomains(c)
    ensures |RetainNewest(c)| == KeepCount(|c|)
    ensures c != [] ==> |RetainNewest(c)| < |c|
    ensures multiset(RetainNewest(c)) <= multiset(c)
    ensures DistinctDomains(RetainNewest(c))
    ensures forall b, k :: b in c && b !in RetainNewest(c) && k in RetainNewest(c) ==>
      b.entry.timestamp <= k.entry.timestamp
  {
    var s := SortByTimestamp(c);
    var m := |s| - KeepCount(|c|);
    SuffixOfSorted(s, m);
    DistinctFromMultiset(c, s);
    DistinctSuffix(s, m);
    forall b | b in c ensures b in s { assert b in multiset(c); }
  }

  /** A suffix of a sorted collection is a sub-collection whose elements are
      no older than anything outside it. */
  lemma SuffixOfSorted(s: Cache, m: nat)
    requires SortedByTimestamp(s) && m <= |s|
    ensures multiset(s[m..]) <= multiset(s)
    ensures forall b, k :: b in s && b !in s[m..] && k in s[m..] ==> b.entry.timestamp <= k.entry.timestamp
  {
    assert s == s[..m] + s[m..];
    assert multiset(s) == multiset(s[..m]) + multiset(s[m..]);
    assert forall t :: m <= t < |s| ==> s[t] == s[m..][t - m];
    forall b, k | b in s && b !in s[m..] && k in s[m..]
      ensures b.entry.timestamp <= k.entry.timestamp
    {
      var i :| 0 <= i < |s| && s[i] == b;
      var j :| 0 <= j < |s| - m && s[m..][j] == k;
      assert s[m + j] == k;
    }
  }

  // ---------------------------------------------------------------------
  // Statistics

  datatype CacheStats = CacheStats(
    totalEntries: nat,
    oldestTimestamp: Option<int>,
    newestTimestamp: Option<int>,
    serviceDistribution: map<int, nat>)

  /** `Math.min(...timestamps)`. */
  function MinTimestamp(c: Cache): (t: int)
    requires c != []
    ensures forall b :: b in c ==> t <= b.entry.timestamp
    ensures exists b :: b in c && b.entry.timestamp == t
  {
    if |c| == 1 then c[0].entry.timestamp
    else
      var rest := MinTimestamp(c[1..]);
      assert forall b :: b in c ==> b == c[0] || b in c[1..];
      if c[0].entry.timestamp < rest then c[0].entry.timestamp else rest
  }

  /** `Math.max(...timestamps)`. */
  function MaxTimestamp(c: Cache): (t: int)
    requires c != []
    ensures forall b :: b in c ==> b.entry.timestamp <= t
    ensures exists b :: b in c && b.entry.timestamp == t
  {
    if |c| == 1 then c[0].entry.timestamp
    else
      var rest := MaxTimestamp(c[1..]);
      assert forall b :: b in c ==> b == c[0] || b in c[1..];
      if c[0].entry.timestamp > rest then c[0].entry.timestamp else rest
  }

  /** How many entries were resolved by provider `k`. */
  function CountService(c: Cache, k: int): nat {
    if c == [] then 0 else (if c[0].entry.serviceIndex == k then 1 else 0) + CountService(c[1..], k)
  }

  function ServiceIndices(c: Cache): set<int> {
    set b | b in c :: b.entry.serviceIndex
  }

  /** The `reduce` that tallies entries per provider index, in iteration order. */
  function Distribution(c: Cache): (m: map<int, nat>)
    ensures m.Keys == ServiceIndices(c)
    ensures forall k :: k in m ==> m[k] == CountService(c, k) && m[k] >= 1
    decreases |c|
  {
    if c == [] then map[]
    else
      var init := c[..|c| - 1];
      var last := c[|c| - 1];
      var acc := Distribution(init);
      assert c == init + [last];
      CountServiceAppend(init, last);
      assert forall b :: b in c <==> b in init || b == last;
      acc[last.entry.serviceIndex := (if last.entry.serviceIndex in acc then acc[last.entry.serviceIndex] else 0) + 1]
  }

  lemma {:induction false} CountServiceAppend(a: Cache, b: Binding)
    ensures forall k :: CountService(a + [b], k) == CountService(a, k) + (if b.entry.serviceIndex == k then 1 else 0)
    ensures forall k :: k !in ServiceIndices(a) ==> CountService(a, k) == 0
  {
    if a != [] {
      assert (a + [b])[1..] == a[1..] + [b];
      CountServiceAppend(a[1..], b);
      assert forall x :: x in a[1..] ==> x in a;
    }
  }

  /** `getIconCacheStats()` over a loaded table. */
  function Stats(c: Cache): (s: CacheStats)
    ensures s.totalEntries == |c|
    ensures s.oldestTimestamp.Some? <==> c != []
    ensures s.newestTimestamp.Some? <==> c != []
    ensures c != [] ==> s.oldestTimestamp.value <= s.newestTimestamp.value
    ensures c != [] ==> forall b :: b in c ==> s.oldestTimestamp.value <= b.entry.timestamp <= s.newestTimestamp.value
    ensures c != [] ==> exists b :: b in c && b.entry.timestamp == s.oldestTimestamp.value
    ensures c != [] ==> exists b :: b in c && b.entry.timestamp == s.newestTimestamp.value
    ensures s.serviceDistribution.Keys == ServiceIndices(c)
    ensures forall k :: k in s.serviceDistribution ==> s.serviceDistribution[k] == CountService(c, k)
  {
    if c == [] then CacheStats(0, None, None, map[])
    else
      assert c[0] in c;
      CacheStats(|c|, Some(MinTimestamp(c)), Some(MaxTimestamp(c)), Distribution(c))
  }
}
