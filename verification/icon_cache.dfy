/**
 * The persistent icon cache: one JSON blob under the key `nexus_icon_cache`
 * in the browser's key/value store. The store is a `slot` that the
 * operations read and rewrite; whether the store can be used at all and how
 * a write of a given table ends (written, over quota, other failure) are
 * fixed properties of the environment, given to the constructor.
 */
module IconCache {
  import opened Wrappers
  import opened IconCacheTable
  import opened BrowserStorage

  /** What `JSON.parse` makes of the stored text. */
  datatype Json =
    | Unparseable          // JSON.parse throws
    | JsonNull             // the literal `null`
    | JsonArray            // any array
    | JsonScalar           // a number, string or boolean
    | JsonObject(bindings: Cache)

  /** What `getItem` returns for the cache key: nothing (null or the empty
      string, both falsy) or some text. */
  datatype Slot = Missing | Stored(json: Json)

  /** `loadCache()` as written: `None` stands for the JavaScript `null` it
      returns when the stored text is `null`, since `typeof null` is
      `'object'` and `null` is not an array. */
  function LoadAsWritten(available: bool, slot: Slot): (r: Option<Cache>)
    ensures r.None? <==> available && slot == Stored(JsonNull)
  {
    if !available then Some([])
    else match slot
      case Missing => Some([])
      case Stored(json) =>
        match json
        case Unparseable => Some([])
        case JsonNull => None
        case JsonArray => Some([])
        case JsonScalar => Some([])
        case JsonObject(c) => Some(c)
  }

  /** How `getIconFromCache(d)` ends as written: it either throws or returns. */
  datatype Answer = Threw | Returned(entry: Option<IconCacheEntry>)

  /** `getIconFromCache(d)` as written: on a `null` cache, `cache[domain]`
      throws a `TypeError` instead of reporting a miss. */
  function GetAsWritten(available: bool, slot: Slot, d: string, now: int): Answer {
    match LoadAsWritten(available, slot)
    case None => Threw
    case Some(c) => Returned(Lookup(c, d, now))
  }

  /** `loadCache()` with the evident intent: every stored value that is not
      a JSON object, `null` included, reads as the empty table. */
  function Load(available: bool, slot: Slot): (c: Cache)
    ensures c != [] ==> available && slot == Stored(JsonObject(c))
    ensures available && slot.Stored? && slot.json.JsonObject? ==> c == slot.json.bindings
    ensures LoadAsWritten(available, slot).Some? ==> LoadAsWritten(available, slot) == Some(c)
  {
    if available && slot.Stored? && slot.json.JsonObject? then slot.json.bindings else []
  }

  /** A stored `null` makes the cache read throw, while the corrected load
      reports an ordinary miss for every domain. */
  lemma NullCacheThrows(d: string, now: int)
    ensures GetAsWritten(true, Stored(JsonNull), d, now) == Threw
    ensures Lookup(Load(true, Stored(JsonNull)), d, now) == None
  {
  }

  /** The table `saveCache(c)` finally writes, or `None` when it gives up:
      on a quota failure it retries with the newest 80%, and stops once
      there is nothing left to drop. */
  function SaveResult(available: bool, outcome: Cache -> WriteOutcome, c: Cache): Option<Cache>
    decreases |c|
  {
    if !available then None
    else match outcome(c)
      case Written => Some(c)
      case QuotaExceeded => if c == [] then None else SaveResult(available, outcome, RetainNewest(c))
      case WriteFailed => None
  }

  /** Whatever `saveCache(c)` writes is a sub-collection of `c` with distinct
      keys and no more properties; a write that succeeds at once stores `c`
      unchanged, and an unusable store or a non-quota failure writes nothing. */
  lemma {:induction false} SaveResultSpec(available: bool, outcome: Cache -> WriteOutcome, c: Cache)
    requires DistinctDomains(c)
    ensures available && outcome(c) == Written ==> SaveResult(available, outcome, c) == Some(c)
    ensures !available || outcome(c) == WriteFailed ==> SaveResult(available, outcome, c) == None
    ensures SaveResult(available, outcome, c).Some? ==>
      var w := SaveResult(available, outcome, c).value;
      && multiset(w) <= multiset(c) && |w| <= |c| && DistinctDomains(w)
    decreases |c|
  {
    if available && outcome(c) == QuotaExceeded && c != [] {
      RetainNewestSpec(c);
      SaveResultSpec(available, outcome, RetainNewest(c));
      if SaveResult(available, outcome, c).Some? {
        var w := SaveResult(available, outcome, c).value;
        assert multiset(w) <= multiset(RetainNewest(c));
        assert |w| == |multiset(w)| <= |multiset(c)| == |c|;
      }
    }
  }

  /** The retained entries `cleanExpiredCache` keeps and how many it drops,
      computed by the source's loop over a snapshot of the keys, deleting
      each expired key from the working copy and counting it. */
  method SweepExpired(c: Cache, now: int) returns (kept: Cache, count: nat)
    requires DistinctDomains(c)
    ensures kept == Live(c, now)
    ensures count == ExpiredCount(c, now)
  {
    var cache := c;
    count := 0;
    var i := 0;
    while i < |c|
      invariant 0 <= i <= |c|
      invariant cache == Live(c[..i], now) + c[i..]
      invariant count == ExpiredCount(c[..i], now)
    {
      // The entry read through `cache[domain]` is the snapshot's: keys are
      // distinct and only keys already visited have been deleted.
      var b := c[i];
      SweepStep(c, i, now);
      if now - b.entry.timestamp > MaxAge {
        cache := Remove(cache, b.domain);
        count := count + 1;
      }
      i := i + 1;
    }
    assert c[..i] == c;
    kept := cache;
  }

  /** One step of the sweep: deleting the visited key from the working copy
      drops exactly that property, and either way the working copy is the
      survivors so far followed by the unvisited rest. */
  lemma SweepStep(c: Cache, i: nat, now: int)
    requires DistinctDomains(c) && i < |c|
    ensures Expired(c[i].entry, now) ==>
      Remove(Live(c[..i], now) + c[i..], c[i].domain) == Live(c[..i + 1], now) + c[i + 1..]
    ensures !Expired(c[i].entry, now) ==>
      Live(c[..i], now) + c[i..] == Live(c[..i + 1], now) + c[i + 1..]
    ensures ExpiredCount(c[..i + 1], now) == ExpiredCount(c[..i], now) + if Expired(c[i].entry, now) then 1 else 0
  {
    var b, pre, rest := c[i], c[..i], c[i + 1..];
    assert c[..i + 1] == pre + [b];
    assert c[i..] == [b] + rest;
    LiveAppend(pre, b, now);
    if Expired(b.entry, now) {
      DistinctSplit(c, i);
      LiveDomains(pre, now);
      DropVisited(Live(pre, now), pre, b, rest);
    }
  }

  lemma LiveDomains(c: Cache, now: int)
    ensures DomainsOf(Live(c, now)) <= DomainsOf(c)
  {
  }

  /** Deleting `b`'s key from `done + [b] + rest` drops just `b` when no
      other property has that key. */
  lemma DropVisited(done: Cache, visited: Cache, b: Binding, rest: Cache)
    requires DomainsOf(done) <= DomainsOf(visited)
    requires b.domain !in DomainsOf(visited) && b.domain !in DomainsOf(rest)
    ensures Remove(done + ([b] + rest), b.domain) == done + rest
  {
    NotInDomainsRemoveIsIdentity(done, b.domain);
    RemoveConcat(done, [b] + rest, b.domain);
    var br := [b] + rest;
    assert br[0] == b && br[1..] == rest;
    NotInDomainsRemoveIsIdentity(rest, b.domain);
  }

  class IconCacheStore {
    /** Whether the probe write of `isIconCacheAvailable` succeeds. */
    const available: bool
    /** How a write of a given table ends (the quota oracle). */
    const outcome: Cache -> WriteOutcome
    /** What is stored under the cache key. */
    var slot: Slot

    /** A parsed JSON object has distinct keys. */
    ghost predicate Valid()
      reads this
    {
      slot.Stored? && slot.json.JsonObject? ==> DistinctDomains(slot.json.bindings)
    }

    constructor (available: bool, outcome: Cache -> WriteOutcome, slot: Slot)
      requires slot.Stored? && slot.json.JsonObject? ==> DistinctDomains(slot.json.bindings)
      ensures Valid()
      ensures this.available == available && this.outcome == outcome && this.slot == slot
    {
      this.available := available;
      this.outcome := outcome;
      this.slot := slot;
    }

    /** The table `loadCache()` returns now. */
    function Current(): (c: Cache)
      reads this
      ensures Valid() ==> DistinctDomains(c)
    {
      Load(available, slot)
    }

    /** What the slot holds after `saveCache(c)` when it held `prev`. */
    function StoredAfter(prev: Slot, c: Cache): Slot {
      match SaveResult(available, outcome, c)
      case Some(w) => Stored(JsonObject(w))
      case None => prev
    }

    /** `saveCache(c)`: writes `c`, retrying with the newest 80% on each
        quota failure. A failed save leaves the store as it was. */
    method SaveCache(c: Cache) returns (ok: bool)
      requires Valid() && DistinctDomains(c)
      modifies this
      ensures Valid()
      ensures ok <==> SaveResult(available, outcome, c).Some?
      ensures slot == StoredAfter(old(slot), c)
      decreases |c|
    {
      if !available {
        return false;
      }
      SaveResultSpec(available, outcome, c);
      match outcome(c) {
        case Written =>
          slot := Stored(JsonObject(c));
          ok := true;
        case QuotaExceeded =>
          if c == [] {
            ok := false;
          } else {
            RetainNewestSpec(c);
            ok := SaveCache(RetainNewest(c));
          }
        case WriteFailed =>
          ok := false;
      }
    }

    /** `getIconFromCache(domain)` at time `now`. It changes nothing; it
        reports whether it found an expired entry, whose deletion it then
        schedules (`DropExpired`). */
    method GetIconFromCache(domain: string, now: int) returns (r: Option<IconCacheEntry>, expiredSeen: bool)
      ensures r == Lookup(Current(), domain, now)
      ensures r.Some? ==> Binding(domain, r.value) in Current() && now - r.value.timestamp <= MaxAge
      ensures expiredSeen <==> domain in DomainsOf(Current()) && r.None?
    {
      var cache := Load(available, slot);
      var entry := Find(cache, domain);
      if entry.None? {
        return None, false;
      }
      var age := now - entry.value.timestamp;
      if age > MaxAge {
        return None, true;
      }
      return entry, false;
    }

    /** The deferred callback of an expired read: reloads the table, deletes
        that one domain and saves. */
    method DropExpired(domain: string)
      requires Valid()
      modifies this
      ensures Valid()
      ensures slot == StoredAfter(old(slot), Remove(old(Current()), domain))
    {
      var reloaded := Load(available, slot);
      RemoveShape(reloaded, domain);
      var _ := SaveCache(Remove(reloaded, domain));
    }

    /** `saveIconToCache(domain, url, serviceIndex)` at time `now`. When the
        first write succeeds, the domain reads back as the new entry. */
    method SaveIconToCache(domain: string, url: string, serviceIndex: int, now: int)
      requires Valid()
      modifies this
      ensures Valid()
      ensures slot == StoredAfter(old(slot), Inserted(old(Current()), domain, url, serviceIndex, now))
      ensures available && outcome(Inserted(old(Current()), domain, url, serviceIndex, now)) == Written ==>
        Lookup(Current(), domain, now) == Some(IconCacheEntry(url, serviceIndex, now, domain))
    {
      ghost var before := Load(available, slot);
      var cache := Load(available, slot);
      if |cache| >= MaxEntries && Find(cache, domain).None? {
        var oldest := OldestUpTo(cache, |cache|);
        cache := Remove(cache, cache[oldest].domain);
      }
      cache := Put(cache, domain, IconCacheEntry(url, serviceIndex, now, domain));
      assert cache == Inserted(before, domain, url, serviceIndex, now);
      InsertedBounded(before, domain, url, serviceIndex, now);
      InsertedSpec(before, domain, url, serviceIndex, now);
      SaveResultSpec(available, outcome, cache);
      var _ := SaveCache(cache);
    }

    /** `cleanExpiredCache()` at time `now`: removes the expired entries,
        writes only when it removed at least one, and returns how many. */
    method CleanExpiredCache(now: int) returns (count: nat)
      requires Valid()
      modifies this
      ensures Valid()
      ensures count == ExpiredCount(old(Current()), now)
      ensures slot == if count > 0 then StoredAfter(old(slot), Live(old(Current()), now)) else old(slot)
    {
      var cache := Load(available, slot);
      var kept;
      kept, count := SweepExpired(cache, now);
      if count > 0 {
        LiveDistinct(cache, now);
        var _ := SaveCache(kept);
      }
    }

    /** `clearIconCache()`: removes the key when the store is usable. */
    method ClearIconCache()
      modifies this
      ensures slot == if available then Missing else old(slot)
      ensures Current() == []
    {
      if available {
        slot := Missing;
      }
    }

    /** `getIconCacheStats()`. */
    method GetIconCacheStats() returns (stats: CacheStats)
      ensures stats == Stats(Current())
      ensures stats.totalEntries == |Current()|
    {
      stats := Stats(Load(available, slot));
    }
  }

  /** The survivors of a sweep still have distinct keys. */
  lemma {:induction false} LiveDistinct(c: Cache, now: int)
    requires DistinctDomains(c)
    ensures DistinctDomains(Live(c, now))
  {
    if c != [] {
      LiveDistinct(c[1..], now);
      assert DomainsOf(Live(c[1..], now)) <= DomainsOf(c[1..]);
    }
  }
}
