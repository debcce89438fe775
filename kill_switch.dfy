/**
 * The kill-switch `FeatureToggleService`: a 30-second cache of on/off answers
 * in front of the `feature_toggles` table, which is a map from toggle id to
 * its row. The clock is the `now` parameter; `dbAvailable` says whether the
 * database answers the statement a method issues (when it does not, the call
 * takes the source's `catch` path).
 */
module KillSwitch {
  import opened Wrappers

  /** `CACHE_TTL`: thirty seconds. */
  const CacheTtlMs: int := 30000

  /** A `feature_toggles` row. */
  datatype FeatureToggle = FeatureToggle(
    id: string,
    name: string,
    enabled: bool,
    description: Option<string>,
    createdAt: int,
    updatedAt: int)

  type Table = map<string, FeatureToggle>

  /** `UPDATE feature_toggles SET enabled = false`: every row kept, every row off, nothing else changed. */
  function DisableAll(table: Table): (r: Table)
    ensures r.Keys == table.Keys
    ensures forall id :: id in r ==> !r[id].enabled
    ensures forall id :: id in r ==> r[id].(enabled := table[id].enabled) == table[id]
  {
    map id | id in table :: table[id].(enabled := false)
  }

  class FeatureToggleService {
    var cache: map<string, bool>
    var cacheExpiry: map<string, int>
    var table: Table

    /** The two cache maps share their keys, and each row is filed under its own id. */
    ghost predicate Valid()
      reads this
    {
      && cache.Keys == cacheExpiry.Keys
      && forall id :: id in table ==> table[id].id == id
    }

    /** `expiry && Date.now() < expiry`: an expiry of 0 is falsy and never hits. */
    predicate CacheHit(id: string, now: int)
      reads this
    {
      id in cacheExpiry && cacheExpiry[id] != 0 && now < cacheExpiry[id]
    }

    /** `rows.length > 0 ? rows[0].enabled : false`. */
    function StoredEnabled(id: string): (b: bool)
      reads this
      ensures b ==> id in table
    {
      id in table && table[id].enabled
    }

    /** Every cached answer is what the table says. */
    ghost predicate Coherent()
      reads this
    {
      forall id :: id in cache ==> cache[id] == StoredEnabled(id)
    }

    /** What the kill switch leaves behind: every row off and no cached `true`. */
    ghost predicate AllOff()
      reads this
    {
      && (forall id :: id in table ==> !table[id].enabled)
      && (forall id :: id in cache ==> !cache[id])
    }

    constructor (table: Table)
      requires forall id :: id in table ==> table[id].id == id
      ensures Valid() && Coherent()
      ensures this.table == table && cache == map[] && cacheExpiry == map[]
    {
      this.table := table;
      cache := map[];
      cacheExpiry := map[];
    }

    /** `getCachedValue`: a hit answers (`|| false` for a missing value); a miss drops the id's entries. */
    method GetCachedValue(id: string, now: int) returns (cached: Option<bool>)
      requires Valid()
      modifies this`cache, this`cacheExpiry
      ensures Valid()
      ensures old(CacheHit(id, now)) ==>
        cached == Some(old(cache)[id]) && cache == old(cache) && cacheExpiry == old(cacheExpiry)
      ensures !old(CacheHit(id, now)) ==>
        cached == None && cache == old(cache) - {id} && cacheExpiry == old(cacheExpiry) - {id}
    {
      if id in cacheExpiry && cacheExpiry[id] != 0 && now < cacheExpiry[id] {
        return Some(if id in cache then cache[id] else false);
      }
      ClearCachedValue(id);
      return None;
    }

    /** `setCachedValue`: the value and an expiry 30 seconds ahead, together. */
    method SetCachedValue(id: string, value: bool, now: int)
      requires Valid()
      modifies this`cache, this`cacheExpiry
      ensures Valid()
      ensures cache == old(cache)[id := value] && cacheExpiry == old(cacheExpiry)[id := now + CacheTtlMs]
    {
      cache := cache[id := value];
      cacheExpiry := cacheExpiry[id := now + CacheTtlMs];
    }

    /** `clearCachedValue`: the id's entries dropped from both maps. */
    method ClearCachedValue(id: string)
      requires Valid()
      modifies this`cache, this`cacheExpiry
      ensures Valid()
      ensures cache == old(cache) - {id} && cacheExpiry == old(cacheExpiry) - {id}
    {
      cache := cache - {id};
      cacheExpiry := cacheExpiry - {id};
    }

    /** `clearAllCache`: both maps emptied. */
    method ClearAllCache()
      requires Valid()
      modifies this`cache, this`cacheExpiry
      ensures Valid()
      ensures cache == map[] && cacheExpiry == map[]
    {
      cache := map[];
      cacheExpiry := map[];
    }

    /**
     * `isFeatureEnabled`: a cache hit answers; otherwise the table answers
     * (false for an unknown id) and the answer is cached for 30 seconds; if the
     * query fails the answer is false and nothing is cached.
     */
    method IsFeatureEnabled(id: string, now: int, dbAvailable: bool) returns (enabled: bool)
      requires Valid()
      modifies this`cache, this`cacheExpiry
      ensures Valid() && table == old(table)
      ensures old(CacheHit(id, now)) ==>
        enabled == old(cache)[id] && cache == old(cache) && cacheExpiry == old(cacheExpiry)
      ensures !old(CacheHit(id, now)) && dbAvailable ==>
        && enabled == StoredEnabled(id)
        && cache == old(cache)[id := enabled]
        && cacheExpiry == old(cacheExpiry)[id := now + CacheTtlMs]
      ensures !old(CacheHit(id, now)) && !dbAvailable ==>
        !enabled && cache == old(cache) - {id} && cacheExpiry == old(cacheExpiry) - {id}
      ensures old(Coherent()) ==> Coherent()
      ensures old(Coherent()) ==> enabled == StoredEnabled(id) || (!dbAvailable && !enabled)
      ensures old(AllOff()) ==> !enabled && AllOff()
    {
      var cached := GetCachedValue(id, now);
      if cached.Some? {
        return cached.value;
      }
      if !dbAvailable {
        return false;
      }
      enabled := id in table && table[id].enabled;
      SetCachedValue(id, enabled, now);
    }

    /**
     * `toggleFeature`: true exactly when a row has the id; that row alone takes
     * the new state and timestamp, and only the id's cache entry is dropped. A
     * failure changes nothing.
     */
    method ToggleFeature(id: string, enabled: bool, now: int, dbAvailable: bool) returns (ok: bool)
      requires Valid()
      modifies this`table, this`cache, this`cacheExpiry
      ensures Valid()
      ensures ok <==> dbAvailable && id in old(table)
      ensures ok ==>
        && table == old(table)[id := old(table)[id].(enabled := enabled, updatedAt := now)]
        && cache == old(cache) - {id} && cacheExpiry == old(cacheExpiry) - {id}
      ensures !ok ==> table == old(table) && cache == old(cache) && cacheExpiry == old(cacheExpiry)
      ensures old(Coherent()) ==> Coherent()
      ensures old(AllOff()) && !enabled ==> AllOff()
    {
      if !dbAvailable || id !in table {
        return false;
      }
      table := table[id := table[id].(enabled := enabled, updatedAt := now)];
      ClearCachedValue(id);
      ok := true;
    }

    /**
     * `createFeature`: the insert fails when the database is down or the id is
     * taken, and then nothing changes. The cache is never touched, so a cached
     * `false` for the new id outlives the insert of an enabled row.
     */
    method CreateFeature(id: string, name: string, enabled: bool, description: Option<string>, now: int,
                         dbAvailable: bool) returns (ok: bool)
      requires Valid()
      modifies this`table
      ensures Valid()
      ensures ok <==> dbAvailable && id !in old(table)
      ensures ok ==> table == old(table)[id := FeatureToggle(id, name, enabled, description, now, now)]
      ensures !ok ==> table == old(table)
      ensures ok && old(Coherent()) ==> (Coherent() <==> id !in cache || !enabled)
      ensures old(AllOff()) && !enabled ==> AllOff()
    {
      if !dbAvailable || id in table {
        return false;
      }
      table := table[id := FeatureToggle(id, name, enabled, description, now, now)];
      ok := true;
    }

    /**
     * `killAllFeatures`: every row off (timestamps untouched) and the whole
     * cache dropped; after it every lookup answers false until a row is
     * switched back on.
     */
    method KillAllFeatures(dbAvailable: bool) returns (ok: bool)
      requires Valid()
      modifies this`table, this`cache, this`cacheExpiry
      ensures Valid()
      ensures ok == dbAvailable
      ensures ok ==> table == DisableAll(old(table)) && cache == map[] && cacheExpiry == map[]
      ensures !ok ==> table == old(table) && cache == old(cache) && cacheExpiry == old(cacheExpiry)
      ensures ok ==> AllOff() && Coherent()
    {
      if !dbAvailable {
        return false;
      }
      table := DisableAll(table);
      ClearAllCache();
      ok := true;
    }
  }
}
