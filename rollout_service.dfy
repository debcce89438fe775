/**
 * `GradualRolloutService`: the rollout decision in front of a TTL cache of
 * flags, plus the rollout-plan runner. The repository's tables are fields of
 * the object: `flags` is `feature_flags` keyed by its unique name, `targeting`
 * and `segments` are the rows its queries return in order, `assignments` is
 * `user_feature_assignments` keyed by (user id, flag id), and `history` is the
 * `feature_flag_history` rows in insertion order.
 */
module RolloutService {
  import opened Wrappers
  import opened RolloutTypes
  import opened RolloutEngine
  import opened RolloutPlanning
  import JsString

  /**
   * `FEATURE_CACHE_TTL` when the variable is unset: five minutes. The service's
   * `cacheTtl` is a constructor argument, since reading the variable is outside
   * this model; a service built with this value has the code's default TTL.
   */
  const DefaultCacheTtlMs: int := 300000

  /** The `changedBy` the plan runner records. */
  const RolloutSystem: string := "gradual_rollout_system"

  /** The cache key of a flag in an environment. */
  function CacheKey(name: string, environment: string): string
  {
    name + ":" + environment
  }

  /** A key is unambiguous when neither part contains the separator. */
  lemma CacheKeyUnambiguous(n: string, e: string, name: string, environment: string)
    requires ':' !in name && ':' !in environment
    requires CacheKey(n, e) == CacheKey(name, environment)
    ensures n == name && e == environment
  {
    var key := CacheKey(name, environment);
    assert key == n + ":" + e;
    assert key[|n|] == ':';
    assert forall i :: 0 <= i < |key| && i != |name| ==> key[i] != ':' by {
      forall i | 0 <= i < |key| && i != |name|
        ensures key[i] != ':'
      {
        if i < |name| {
          assert key[i] == name[i];
        } else {
          assert key[i] == environment[i - |name| - 1];
        }
      }
    }
    assert |n| == |name|;
    assert n == key[..|n|] == name;
    assert e == key[|n| + 1..] == environment;
  }

  /** Without that condition two different flags can share a key. */
  lemma CacheKeyCollision()
    ensures CacheKey("a", "b:c") == CacheKey("a:b", "c")
  {
  }

  /** A flag's key starts with its name, in every environment. */
  lemma KeyStartsWithName(name: string, environment: string)
    ensures JsString.StartsWith(CacheKey(name, environment), name)
  {
    assert CacheKey(name, environment)[..|name|] == name;
  }

  /** Whether `clearCache(featureName)` drops `key`: all keys without a name, else the keys it prefixes. */
  predicate Evicts(featureName: Option<string>, key: string)
  {
    featureName.None? || JsString.StartsWith(key, featureName.value)
  }

  /** A cache map after `clearCache(name)`: the entries whose keys the name does not prefix. */
  function Kept<V>(m: map<string, V>, name: string): (r: map<string, V>)
    ensures forall k :: k in r <==> k in m && !Evicts(Some(name), k)
    ensures forall k :: k in r ==> r[k] == m[k]
  {
    map k | k in m && !Evicts(Some(name), k) :: m[k]
  }

  /** Clearing the same name twice drops nothing more. */
  lemma KeptIdempotent<V>(m: map<string, V>, name: string)
    ensures Kept(Kept(m, name), name) == Kept(m, name)
  {
  }

  /** Clearing one flag also drops the keys of every flag whose name extends it. */
  lemma ClearingOneNameEvictsLongerNames(name: string, suffix: string, environment: string)
    ensures Evicts(Some(name), CacheKey(name + suffix, environment))
  {
    assert CacheKey(name + suffix, environment)[..|name|] == name;
  }

  /** A map with the given keys removed. */
  function Without<V>(m: map<string, V>, keys: set<string>): (r: map<string, V>)
    ensures forall k :: k in r <==> k in m && k !in keys
    ensures forall k :: k in r ==> r[k] == m[k]
  {
    map k | k in m && k !in keys :: m[k]
  }

  /** Removing one more key. */
  lemma WithoutOneMore<V>(m: map<string, V>, keys: set<string>, k: string)
    ensures Without(m, keys) - {k} == Without(m, keys + {k})
  {
  }

  /** Setting a flag's percentage twice leaves only the second setting. */
  lemma RestampTwice(flags: map<string, FeatureFlag>, name: string, p1: int, p2: int, now: int)
    requires name in flags
    ensures var f := flags[name];
      var m := flags[name := f.(rolloutPercentage := p1, updatedAt := now)];
      m[name := m[name].(rolloutPercentage := p2, updatedAt := now)]
        == flags[name := f.(rolloutPercentage := p2, updatedAt := now)]
  {
  }

  /** Every cached flag is the stored row, under its own key. */
  ghost predicate CoherentMaps(cache: map<string, FeatureFlag>, flags: map<string, FeatureFlag>)
  {
    forall k :: k in cache ==>
      && cache[k].name in flags
      && flags[cache[k].name] == cache[k]
      && k == CacheKey(cache[k].name, cache[k].environment)
  }

  class GradualRolloutService {
    const md5: Md5Prefix
    const cacheTtl: int
    var cache: map<string, FeatureFlag>
    var cacheExpiry: map<string, int>
    var flags: map<string, FeatureFlag>
    var targeting: seq<FeatureTargeting>
    var segments: seq<UserSegment>
    var assignments: AssignmentStore
    var history: seq<HistoryEntry>

    /** The two cache maps share their keys, and each flag row is filed under its own name. */
    ghost predicate Valid()
      reads this
    {
      && cache.Keys == cacheExpiry.Keys
      && forall n :: n in flags ==> flags[n].name == n
    }

    /** The cache serves no stale row. */
    ghost predicate Coherent()
      reads this
    {
      CoherentMaps(cache, flags)
    }

    /** `getFeatureFlagByName(name, environment)`. */
    function StoredFlag(name: string, environment: string): (r: Option<FeatureFlag>)
      reads this
    {
      if name in flags && flags[name].environment == environment then Some(flags[name]) else None
    }

    /** A lookup hits when the key is cached and its expiry is still ahead of `now`. */
    predicate CacheHit(key: string, now: int)
      reads this
    {
      key in cache && key in cacheExpiry && cacheExpiry[key] > now
    }

    /** What `getFeatureFlag` returns: the cached flag on a hit, the stored row otherwise. */
    ghost function Fetched(name: string, environment: string, now: int): Option<FeatureFlag>
      reads this
    {
      var key := CacheKey(name, environment);
      if CacheHit(key, now) then Some(cache[key]) else StoredFlag(name, environment)
    }

    constructor (md5: Md5Prefix, cacheTtl: int, flags: map<string, FeatureFlag>, targeting: seq<FeatureTargeting>,
                 segments: seq<UserSegment>, assignments: AssignmentStore)
      requires forall n :: n in flags ==> flags[n].name == n
      ensures Valid() && Coherent()
      ensures this.md5 == md5 && this.cacheTtl == cacheTtl
      ensures this.flags == flags && this.targeting == targeting && this.segments == segments
      ensures this.assignments == assignments && history == []
      ensures cache == map[] && cacheExpiry == map[]
    {
      this.md5 := md5;
      this.cacheTtl := cacheTtl;
      this.flags := flags;
      this.targeting := targeting;
      this.segments := segments;
      this.assignments := assignments;
      history := [];
      cache := map[];
      cacheExpiry := map[];
    }

    /**
     * `getFeatureFlag`: a hit answers from the cache and changes nothing; a miss
     * reads the table and caches a found flag until `now + cacheTtl`. With a
     * coherent cache and an unambiguous key the answer is the stored row.
     */
    method GetFeatureFlag(name: string, environment: string, now: int) returns (flag: Option<FeatureFlag>)
      requires Valid()
      modifies this`cache, this`cacheExpiry
      ensures Valid()
      ensures flag == old(Fetched(name, environment, now))
      ensures var key := CacheKey(name, environment);
        if old(CacheHit(key, now)) || flag.None? then cache == old(cache) && cacheExpiry == old(cacheExpiry)
        else cache == old(cache)[key := flag.value] && cacheExpiry == old(cacheExpiry)[key := now + cacheTtl]
      ensures old(Coherent()) ==> Coherent()
      ensures old(Coherent()) && ':' !in name && ':' !in environment ==> flag == StoredFlag(name, environment)
    {
      var key := CacheKey(name, environment);
      if key in cache && key in cacheExpiry && cacheExpiry[key] > now {
        flag := Some(cache[key]);
        if Coherent() && ':' !in name && ':' !in environment {
          CacheKeyUnambiguous(cache[key].name, cache[key].environment, name, environment);
        }
        return;
      }
      flag := StoredFlag(name, environment);
      if flag.Some? {
        cache := cache[key := flag.value];
        cacheExpiry := cacheExpiry[key := now + cacheTtl];
      }
    }

    /**
     * `isFeatureEnabled`: the engine's decision on the flag `getFeatureFlag`
     * returns, with the new assignment, if any, written to the store.
     */
    method IsFeatureEnabled(featureName: string, user: User, environment: string, now: int) returns (enabled: bool)
      requires Valid()
      modifies this`cache, this`cacheExpiry, this`assignments
      ensures Valid()
      ensures var o := Evaluate(md5, old(Fetched(featureName, environment, now)), user, old(assignments),
                                targeting, segments, now);
        enabled == o.enabled && assignments == o.assignments
      ensures var key := CacheKey(featureName, environment);
        var f := old(Fetched(featureName, environment, now));
        if old(CacheHit(key, now)) || f.None? then cache == old(cache) && cacheExpiry == old(cacheExpiry)
        else cache == old(cache)[key := f.value] && cacheExpiry == old(cacheExpiry)[key := now + cacheTtl]
      ensures old(Coherent()) ==> Coherent()
      ensures old(Coherent()) && ':' !in featureName && ':' !in environment ==>
        enabled == Evaluate(md5, StoredFlag(featureName, environment), user, old(assignments),
                            targeting, segments, now).enabled
    {
      var flag := GetFeatureFlag(featureName, environment, now);
      if flag.None? {
        return false;
      }
      var f := flag.value;
      if !f.enabled {
        return false;
      }
      var key := (user.id, f.id);
      if key in assignments {
        return assignments[key].isAssigned;
      }
      var decision := StrategyDecision(md5, f, user, targeting, segments, now);
      assignments := assignments[key := UserFeatureAssignment(user.id, f.id, decision.isAssigned, decision.reason)];
      enabled := decision.isAssigned;
    }

    /**
     * `clearCache(featureName)`: drops from both maps the keys that start with
     * the name (every key when there is no name, or an empty one) and keeps the
     * other entries as they were.
     */
    method ClearCache(featureName: Option<string>)
      requires Valid()
      modifies this`cache, this`cacheExpiry
      ensures Valid()
      ensures forall k :: k in cache <==> k in old(cache) && !Evicts(featureName, k)
      ensures forall k :: k in cache ==> cache[k] == old(cache)[k] && cacheExpiry[k] == old(cacheExpiry)[k]
      ensures old(Coherent()) ==> Coherent()
    {
      if featureName.Some? && featureName.value != "" {
        var prefix := featureName.value;
        var keysToDelete := set k | k in cache && JsString.StartsWith(k, prefix);
        DeleteKeys(keysToDelete);
      } else {
        cache := map[];
        cacheExpiry := map[];
      }
    }

    /** The `forEach` over the doomed keys: each is deleted from both maps. */
    method DeleteKeys(keysToDelete: set<string>)
      modifies this`cache, this`cacheExpiry
      ensures cache == Without(old(cache), keysToDelete)
      ensures cacheExpiry == Without(old(cacheExpiry), keysToDelete)
    {
      ghost var cache0, expiry0 := cache, cacheExpiry;
      var rest := keysToDelete;
      while rest != {}
        invariant rest <= keysToDelete
        invariant cache == Without(cache0, keysToDelete - rest)
        invariant cacheExpiry == Without(expiry0, keysToDelete - rest)
        decreases |rest|
      {
        var k :| k in rest;
        WithoutOneMore(cache0, keysToDelete - rest, k);
        WithoutOneMore(expiry0, keysToDelete - rest, k);
        assert keysToDelete - (rest - {k}) == (keysToDelete - rest) + {k};
        cache := cache - {k};
        cacheExpiry := cacheExpiry - {k};
        rest := rest - {k};
      }
    }

    /** `refreshCache`: both maps emptied. */
    method RefreshCache()
      requires Valid()
      modifies this`cache, this`cacheExpiry
      ensures Valid() && Coherent()
      ensures cache == map[] && cacheExpiry == map[]
    {
      cache := map[];
      cacheExpiry := map[];
    }

    /**
     * The repository's `updateRolloutPercentage`: a missing name is an error and
     * changes nothing; otherwise the flag takes the new percentage and one
     * history row records the change. The cache is left alone.
     */
    method UpdateRolloutPercentage(name: string, percentage: int, changedBy: Option<string>, now: int)
      returns (ok: bool)
      requires Valid()
      modifies this`flags, this`history
      ensures Valid()
      ensures ok <==> name in old(flags)
      ensures ok ==>
        && flags == old(flags)[name := old(flags)[name].(rolloutPercentage := percentage, updatedAt := now)]
        && history == old(history) + [HistoryEntry(old(flags)[name].id, old(flags)[name].rolloutPercentage,
                                                   percentage, changedBy)]
      ensures !ok ==> flags == old(flags) && history == old(history)
    {
      if name !in flags {
        return false;
      }
      var current := flags[name];
      flags := flags[name := current.(rolloutPercentage := percentage, updatedAt := now)];
      history := history + [HistoryEntry(current.id, current.rolloutPercentage, percentage, changedBy)];
      ok := true;
    }

    /** One stage of the runner: the percentage update, then the flag's cache keys cleared. */
    method ApplyStage(name: string, percentage: int, now: int) returns (ok: bool)
      requires Valid()
      modifies this`flags, this`history, this`cache, this`cacheExpiry
      ensures Valid()
      ensures ok <==> name in old(flags)
      ensures !ok ==>
        flags == old(flags) && history == old(history) && cache == old(cache) && cacheExpiry == old(cacheExpiry)
      ensures ok ==>
        && flags == old(flags)[name := old(flags)[name].(rolloutPercentage := percentage, updatedAt := now)]
        && history == old(history) + [HistoryEntry(old(flags)[name].id, old(flags)[name].rolloutPercentage,
                                                   percentage, Some(RolloutSystem))]
        && cache == Kept(old(cache), name) && cacheExpiry == Kept(old(cacheExpiry), name)
      ensures old(Coherent()) ==> Coherent()
    {
      ok := UpdateRolloutPercentage(name, percentage, Some(RolloutSystem), now);
      if !ok {
        return;
      }
      ClearCache(Some(name));
      assert cache == Kept(old(cache), name);
      assert cacheExpiry == Kept(old(cacheExpiry), name);
      if old(Coherent()) {
        forall k | k in cache
          ensures cache[k].name in flags && flags[cache[k].name] == cache[k]
        {
          KeyStartsWithName(cache[k].name, cache[k].environment);
        }
      }
    }

    /**
     * `executeGradualRollout(plan)`: each stage in plan order sets the flag's
     * percentage and clears the flag's cache keys. A missing flag fails at the
     * first stage, before anything changes; the waits between stages are not
     * part of the model, so every update is stamped `now`.
     */
    method ExecuteGradualRollout(plan: RolloutPlan, now: int) returns (ok: bool)
      requires Valid()
      modifies this`flags, this`history, this`cache, this`cacheExpiry
      ensures Valid()
      ensures ok <==> plan.stages.Length == 0 || plan.featureName in old(flags)
      ensures !ok || plan.stages.Length == 0 ==>
        flags == old(flags) && history == old(history) && cache == old(cache) && cacheExpiry == old(cacheExpiry)
      ensures ok && plan.stages.Length > 0 ==>
        var f := old(flags)[plan.featureName];
        && flags == old(flags)[plan.featureName :=
             f.(rolloutPercentage := plan.stages[plan.stages.Length - 1].percentage, updatedAt := now)]
        && history == old(history) + StageEntries(f.id, f.rolloutPercentage, plan.stages[..], Some(RolloutSystem))
        && cache == Kept(old(cache), plan.featureName) && cacheExpiry == Kept(old(cacheExpiry), plan.featureName)
      ensures old(Coherent()) ==> Coherent()
    {
      var name := plan.featureName;
      var stages := plan.stages;
      ghost var flags0, history0, cache0, expiry0 := flags, history, cache, cacheExpiry;
      ok := true;
      var i := 0;
      while i < stages.Length
        invariant 0 <= i <= stages.Length
        invariant Valid()
        invariant i == 0 ==> flags == flags0 && history == history0 && cache == cache0 && cacheExpiry == expiry0
        invariant i > 0 ==> name in flags0
        invariant i > 0 ==> flags == flags0[name := flags0[name].(rolloutPercentage := stages[i - 1].percentage, updatedAt := now)]
        invariant i > 0 ==> history == history0 + StageEntries(flags0[name].id, flags0[name].rolloutPercentage, stages[..i], Some(RolloutSystem))
        invariant i > 0 ==> cache == Kept(cache0, name) && cacheExpiry == Kept(expiry0, name)
        invariant CoherentMaps(cache0, flags0) ==> Coherent()
      {
        ghost var before := flags;
        ok := ApplyStage(name, stages[i].percentage, now);
        if !ok {
          return;
        }
        if i > 0 {
          RestampTwice(flags0, name, stages[i - 1].percentage, stages[i].percentage, now);
        }
        assert PercentageAfter(flags0[name].rolloutPercentage, stages[..i]) == before[name].rolloutPercentage;
        StageEntriesSnoc(flags0[name].id, flags0[name].rolloutPercentage, stages[..], Some(RolloutSystem), i);
        KeptIdempotent(cache0, name);
        KeptIdempotent(expiry0, name);
        i := i + 1;
      }
      assert stages[..i] == stages[..];
    }
  }
}
