/**
 * The `FeatureToggle` facade of the env example: read one flag, list the
 * enabled and the disabled ones, count them, and check that the required
 * environment variables are set. Every operation reads the record built
 * once from the environment; none changes it.
 */
module EnvToggle {
  import opened Wrappers
  import opened EnvConfig

  /** `FeatureToggle.isEnabled(featureName)`: the record's field for that key. */
  function IsEnabled(flags: FeatureFlags, k: FlagKey): bool
  {
    match k
    case EnableNewDatabase => flags.enableNewDatabase
    case EnableDatabaseMigration => flags.enableDatabaseMigration
    case EnableDatabaseBackup => flags.enableDatabaseBackup
    case EnableTwoFactorAuth => flags.enableTwoFactorAuth
    case EnableOauthLogin => flags.enableOauthLogin
    case EnablePasswordReset => flags.enablePasswordReset
    case EnableNewDashboard => flags.enableNewDashboard
    case EnableDarkMode => flags.enableDarkMode
    case EnableBetaFeatures => flags.enableBetaFeatures
    case EnablePaymentV2 => flags.enablePaymentV2
    case EnableSubscriptionBilling => flags.enableSubscriptionBilling
    case EnableCryptoPayments => flags.enableCryptoPayments
    case EnableAnalytics => flags.enableAnalytics
    case EnableErrorTracking => flags.enableErrorTracking
    case EnablePerformanceMonitoring => flags.enablePerformanceMonitoring
    case EnableEmailNotifications => flags.enableEmailNotifications
    case EnableSmsNotifications => flags.enableSmsNotifications
    case EnablePushNotifications => flags.enablePushNotifications
    case EnableDebugMode => flags.enableDebugMode
    case EnableApiLogging => flags.enableApiLogging
    case EnableMockData => flags.enableMockData
  }

  /** Each flag is `parseBoolean` of its own variable, so an unset variable leaves the flag off. */
  lemma FlagFromOwnVariable(env: Env, k: FlagKey)
    ensures IsEnabled(FromEnv(env), k) == ParseBoolean(Lookup(env, EnvVar(k)))
    ensures EnvVar(k) !in env ==> !IsEnabled(FromEnv(env), k)
  {
  }

  /** `Object.entries(flags)`: one (name, value) pair per field, in declaration order. */
  function Entries(flags: FeatureFlags): (es: seq<(string, bool)>)
    ensures |es| == |AllKeys|
  {
    seq(|AllKeys|, i requires 0 <= i < |AllKeys| => (KeyName(AllKeys[i]), IsEnabled(flags, AllKeys[i])))
  }

  /** The field names alone (`Object.keys(flags)`). */
  function Names(es: seq<(string, bool)>): (names: seq<string>)
    ensures |names| == |es|
  {
    seq(|es|, i requires 0 <= i < |es| => es[i].0)
  }

  /** The key names are pairwise distinct, so the entries never repeat a name. */
  lemma KeyNameInjective(k1: FlagKey, k2: FlagKey)
    requires KeyName(k1) == KeyName(k2)
    ensures k1 == k2
  {
    var n := KeyName(k1);
    assert |n| == |KeyName(k2)|;
    assert n[6] == KeyName(k2)[6];
    assert n[|n| - 1] == KeyName(k2)[|n| - 1];
  }

  /** `isEnabled(k)` returns exactly what the entry named after `k` holds. */
  lemma IsEnabledMatchesEntry(flags: FeatureFlags, k: FlagKey, v: bool)
    requires (KeyName(k), v) in Entries(flags)
    ensures IsEnabled(flags, k) == v
  {
    var es := Entries(flags);
    var i :| 0 <= i < |es| && es[i] == (KeyName(k), v);
    KeyNameInjective(AllKeys[i], k);
  }

  /** The names of the entries whose value is `want`, in entry order (`filter` then `map`). */
  function NamesWhere(es: seq<(string, bool)>, want: bool): (names: seq<string>)
    ensures |names| <= |es|
    ensures forall n :: n in names <==> (n, want) in es
  {
    if es == [] then []
    else
      var rest := NamesWhere(es[1..], want);
      assert es == [es[0]] + es[1..];
      (if es[0].1 == want then [es[0].0] else []) + rest
  }

  /** `getEnabledFeatures()`. */
  function EnabledFeatures(flags: FeatureFlags): (names: seq<string>)
    ensures forall n :: n in names <==> (n, true) in Entries(flags)
  {
    NamesWhere(Entries(flags), true)
  }

  /** `getDisabledFeatures()`. */
  function DisabledFeatures(flags: FeatureFlags): (names: seq<string>)
    ensures forall n :: n in names <==> (n, false) in Entries(flags)
  {
    NamesWhere(Entries(flags), false)
  }

  /** The two lists split the entries: their lengths add up to the number of entries. */
  lemma {:induction false} NamesWhereCounts(es: seq<(string, bool)>)
    ensures |NamesWhere(es, true)| + |NamesWhere(es, false)| == |es|
  {
    if es != [] {
      NamesWhereCounts(es[1..]);
    }
  }

  /** `a` is `b` with some elements left out, the rest kept in order. */
  predicate IsSubsequence<T(==)>(a: seq<T>, b: seq<T>)
    decreases |b|
  {
    if a == [] then true
    else if b == [] then false
    else (a[0] == b[0] && IsSubsequence(a[1..], b[1..])) || IsSubsequence(a, b[1..])
  }

  lemma {:induction false} NamesWhereKeepsOrder(es: seq<(string, bool)>, want: bool)
    ensures IsSubsequence(NamesWhere(es, want), Names(es))
  {
    if es != [] {
      NamesWhereKeepsOrder(es[1..], want);
      assert Names(es)[1..] == Names(es[1..]);
      var rest := NamesWhere(es[1..], want);
      if es[0].1 == want {
        assert NamesWhere(es, want) == [es[0].0] + rest;
        assert ([es[0].0] + rest)[1..] == rest;
      } else {
        assert NamesWhere(es, want) == rest;
        SubsequenceOfTail(rest, Names(es));
      }
    }
  }

  lemma SubsequenceOfTail<T>(a: seq<T>, b: seq<T>)
    requires b != [] && IsSubsequence(a, b[1..])
    ensures IsSubsequence(a, b)
  {
  }

  /** A flag's name is listed under `want` exactly when the flag's value is `want`. */
  lemma ListedIff(flags: FeatureFlags, k: FlagKey, want: bool)
    ensures KeyName(k) in NamesWhere(Entries(flags), want) <==> IsEnabled(flags, k) == want
  {
    var es := Entries(flags);
    AllKeysComplete(k);
    var i :| 0 <= i < |AllKeys| && AllKeys[i] == k;
    assert es[i] == (KeyName(k), IsEnabled(flags, k));
    if KeyName(k) in NamesWhere(es, want) {
      IsEnabledMatchesEntry(flags, k, want);
    }
  }

  /**
   * The enabled and the disabled lists cover the flags: every flag's name is in
   * the list its value selects and not in the other.
   */
  lemma PartitionMembership(flags: FeatureFlags, k: FlagKey)
    ensures KeyName(k) in EnabledFeatures(flags) <==> IsEnabled(flags, k)
    ensures KeyName(k) in DisabledFeatures(flags) <==> !IsEnabled(flags, k)
  {
    ListedIff(flags, k, true);
    ListedIff(flags, k, false);
  }

  /** Both lists keep the record's key order. */
  lemma PartitionKeepsOrder(flags: FeatureFlags)
    ensures IsSubsequence(EnabledFeatures(flags), Names(Entries(flags)))
    ensures IsSubsequence(DisabledFeatures(flags), Names(Entries(flags)))
  {
    NamesWhereKeepsOrder(Entries(flags), true);
    NamesWhereKeepsOrder(Entries(flags), false);
  }

  /** No name is both enabled and disabled. */
  lemma PartitionDisjoint(flags: FeatureFlags, n: string)
    ensures !(n in EnabledFeatures(flags) && n in DisabledFeatures(flags))
  {
    var es := Entries(flags);
    if (n, true) in es && (n, false) in es {
      var i :| 0 <= i < |es| && es[i] == (n, true);
      IsEnabledMatchesEntry(flags, AllKeys[i], false);
    }
  }

  datatype Summary = Summary(total: int, enabled: int, disabled: int)

  /**
   * `getSummary()`: the summary counts the 21 flags, and `disabled`, computed as
   * `total - enabled`, is the length of the disabled list.
   */
  function GetSummary(flags: FeatureFlags): (sum: Summary)
    ensures sum.total == 21
    ensures sum.enabled + sum.disabled == sum.total
    ensures sum.enabled == |EnabledFeatures(flags)|
    ensures sum.disabled == |DisabledFeatures(flags)|
    ensures 0 <= sum.enabled <= 21
  {
    var total := |Names(Entries(flags))|;
    var enabled := |EnabledFeatures(flags)|;
    NamesWhereCounts(Entries(flags));
    Summary(total, enabled, total - enabled)
  }

  // ---------------------------------------------------------------------------
  // validateConfig

  const RequiredVars: seq<string> :=
    ["ENABLE_NEW_DATABASE", "ENABLE_TWO_FACTOR_AUTH", "ENABLE_NEW_DASHBOARD", "ENABLE_ANALYTICS"]

  /** The variables of `vars` that the environment does not set, in order. */
  function Unset(vars: seq<string>, env: Env): (missing: seq<string>)
    ensures forall v :: v in missing <==> v in vars && v !in env
    ensures IsSubsequence(missing, vars)
  {
    if vars == [] then []
    else if vars[0] !in env then
      var rest := Unset(vars[1..], env);
      assert ([vars[0]] + rest)[1..] == rest;
      [vars[0]] + rest
    else
      var rest := Unset(vars[1..], env);
      SubsequenceOfTail(rest, vars);
      rest
  }

  datatype ConfigCheck = ConfigCheck(valid: bool, missingVars: seq<string>)

  /** `validateConfig()`: which required variables are unset, and whether none is. */
  function ValidateConfig(env: Env): (c: ConfigCheck)
    ensures forall v :: v in c.missingVars <==> v in RequiredVars && v !in env
    ensures IsSubsequence(c.missingVars, RequiredVars)
    ensures c.valid <==> forall v :: v in RequiredVars ==> v in env
  {
    var missing := Unset(RequiredVars, env);
    assert |missing| > 0 ==> missing[0] in missing;
    ConfigCheck(|missing| == 0, missing)
  }

  /** A variable set to the empty string counts as set. */
  lemma EmptyValueCountsAsSet(env: Env, v: string)
    ensures v !in ValidateConfig(env[v := ""]).missingVars
  {
  }
}
