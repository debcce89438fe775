/**
 * The static, environment-driven flag record of the env example: a boolean
 * parser for environment values and the record of 21 flags, each read from
 * its own `ENABLE_*` variable. The process environment is a map from variable
 * names to their (string) values; an unset variable is an absent key.
 */
module EnvConfig {
  import opened Wrappers
  import opened JsString

  type Env = map<string, string>

  /** The text `parseBoolean` compares: lower-cased first, then trimmed. */
  function Normalize(value: string): (t: string)
    ensures |t| <= |value|
    ensures forall i :: 0 <= i < |t| ==> !IsAsciiUpper(t[i])
    ensures |t| > 0 ==> !IsJsWhitespace(t[0]) && !IsJsWhitespace(t[|t| - 1])
  {
    LowerTrimCommute(value);
    Trim(Lower(value))
  }

  /** The spellings of "on". */
  predicate IsTruthyText(t: string)
  {
    t == "true" || t == "1" || t == "yes"
  }

  /**
   * `parseBoolean(value, defaultValue)`: an unset value gives the default; a set
   * one is on exactly when its normalized text is `true`, `1` or `yes`.
   */
  function ParseBoolean(value: Option<string>, defaultValue: bool := false): (r: bool)
    ensures value.None? ==> r == defaultValue
  {
    match value
    case None => defaultValue
    case Some(v) => IsTruthyText(Normalize(v))
  }

  /** A set value ignores the default. */
  lemma DefaultIgnoredWhenSet(v: string, d1: bool, d2: bool)
    ensures ParseBoolean(Some(v), d1) == ParseBoolean(Some(v), d2)
  {
  }

  /** Normalizing is idempotent. */
  lemma NormalizeIdempotent(v: string)
    ensures Normalize(Normalize(v)) == Normalize(v)
  {
    LowerTrimCommute(Lower(v));
    LowerIdempotent(v);
    TrimIdempotent(Lower(v));
  }

  /** Case and surrounding white space do not matter: `parseBoolean(s) == parseBoolean(lower(trim(s)))`. */
  lemma CaseAndPaddingIrrelevant(v: string, d: bool)
    ensures ParseBoolean(Some(v), d) == ParseBoolean(Some(Lower(Trim(v))), d)
  {
    LowerTrimCommute(v);
    NormalizeIdempotent(v);
  }

  /** White space of any kind around a value is ignored. */
  lemma PaddedValue(w1: string, v: string, w2: string, d: bool)
    requires AllWhitespace(w1) && AllWhitespace(w2)
    ensures ParseBoolean(Some(w1 + v + w2), d) == ParseBoolean(Some(v), d)
  {
    LowerAppend(w1 + v, w2);
    LowerAppend(w1, v);
    assert Lower(w1) == w1 && Lower(w2) == w2 by {
      forall c | IsJsWhitespace(c) ensures LowerChar(c) == c {
      }
    }
    PaddingIgnored(w1, Lower(v), w2);
  }

  /** A value with no upper-case letters and no surrounding white space is its own normal form. */
  lemma NormalFormOf(v: string)
    requires forall i :: 0 <= i < |v| ==> !IsAsciiUpper(v[i])
    requires |v| == 0 || (!IsJsWhitespace(v[0]) && !IsJsWhitespace(v[|v| - 1]))
    ensures Normalize(v) == v
  {
    assert Lower(v) == v;
    TrimStartIdle(v);
    TrimEndIdle(v);
  }

  /** `"Yes"` is on. */
  lemma MixedCaseYesIsOn()
    ensures ParseBoolean(Some("Yes"))
  {
    assert Lower("Yes") == "yes";
    NormalFormOf("yes");
  }

  /** `"no"` and `"abc"` are off, whatever the default. */
  lemma OtherWordsAreOff(d: bool)
    ensures !ParseBoolean(Some("no"), d) && !ParseBoolean(Some("abc"), d)
  {
    NormalFormOf("no");
    NormalFormOf("abc");
  }

  // ---------------------------------------------------------------------------
  // The flag record

  /** The names of the record's fields, in declaration order. */
  datatype FlagKey =
    | EnableNewDatabase | EnableDatabaseMigration | EnableDatabaseBackup
    | EnableTwoFactorAuth | EnableOauthLogin | EnablePasswordReset
    | EnableNewDashboard | EnableDarkMode | EnableBetaFeatures
    | EnablePaymentV2 | EnableSubscriptionBilling | EnableCryptoPayments
    | EnableAnalytics | EnableErrorTracking | EnablePerformanceMonitoring
    | EnableEmailNotifications | EnableSmsNotifications | EnablePushNotifications
    | EnableDebugMode | EnableApiLogging | EnableMockData

  /** The `FeatureFlags` interface: one boolean per feature. */
  datatype FeatureFlags = FeatureFlags(
    enableNewDatabase: bool, enableDatabaseMigration: bool, enableDatabaseBackup: bool,
    enableTwoFactorAuth: bool, enableOauthLogin: bool, enablePasswordReset: bool,
    enableNewDashboard: bool, enableDarkMode: bool, enableBetaFeatures: bool,
    enablePaymentV2: bool, enableSubscriptionBilling: bool, enableCryptoPayments: bool,
    enableAnalytics: bool, enableErrorTracking: bool, enablePerformanceMonitoring: bool,
    enableEmailNotifications: bool, enableSmsNotifications: bool, enablePushNotifications: bool,
    enableDebugMode: bool, enableApiLogging: bool, enableMockData: bool)

  /** Every key, in the order the object literal lists them (its `Object.entries` order). */
  const AllKeys: seq<FlagKey> := [
    EnableNewDatabase, EnableDatabaseMigration, EnableDatabaseBackup,
    EnableTwoFactorAuth, EnableOauthLogin, EnablePasswordReset,
    EnableNewDashboard, EnableDarkMode, EnableBetaFeatures,
    EnablePaymentV2, EnableSubscriptionBilling, EnableCryptoPayments,
    EnableAnalytics, EnableErrorTracking, EnablePerformanceMonitoring,
    EnableEmailNotifications, EnableSmsNotifications, EnablePushNotifications,
    EnableDebugMode, EnableApiLogging, EnableMockData]

  lemma AllKeysComplete(k: FlagKey)
    ensures k in AllKeys
  {
  }

  /** The property name of a key, as `Object.entries` reports it. */
  function KeyName(k: FlagKey): string
  {
    match k
    case EnableNewDatabase => "enableNewDatabase"
    case EnableDatabaseMigration => "enableDatabaseMigration"
    case EnableDatabaseBackup => "enableDatabaseBackup"
    case EnableTwoFactorAuth => "enableTwoFactorAuth"
    case EnableOauthLogin => "enableOauthLogin"
    case EnablePasswordReset => "enablePasswordReset"
    case EnableNewDashboard => "enableNewDashboard"
    case EnableDarkMode => "enableDarkMode"
    case EnableBetaFeatures => "enableBetaFeatures"
    case EnablePaymentV2 => "enablePaymentV2"
    case EnableSubscriptionBilling => "enableSubscriptionBilling"
    case EnableCryptoPayments => "enableCryptoPayments"
    case EnableAnalytics => "enableAnalytics"
    case EnableErrorTracking => "enableErrorTracking"
    case EnablePerformanceMonitoring => "enablePerformanceMonitoring"
    case EnableEmailNotifications => "enableEmailNotifications"
    case EnableSmsNotifications => "enableSmsNotifications"
    case EnablePushNotifications => "enablePushNotifications"
    case EnableDebugMode => "enableDebugMode"
    case EnableApiLogging => "enableApiLogging"
    case EnableMockData => "enableMockData"
  }

  /** The environment variable each key is read from. */
  function EnvVar(k: FlagKey): string
  {
    match k
    case EnableNewDatabase => "ENABLE_NEW_DATABASE"
    case EnableDatabaseMigration => "ENABLE_DATABASE_MIGRATION"
    case EnableDatabaseBackup => "ENABLE_DATABASE_BACKUP"
    case EnableTwoFactorAuth => "ENABLE_TWO_FACTOR_AUTH"
    case EnableOauthLogin => "ENABLE_OAUTH_LOGIN"
    case EnablePasswordReset => "ENABLE_PASSWORD_RESET"
    case EnableNewDashboard => "ENABLE_NEW_DASHBOARD"
    case EnableDarkMode => "ENABLE_DARK_MODE"
    case EnableBetaFeatures => "ENABLE_BETA_FEATURES"
    case EnablePaymentV2 => "ENABLE_PAYMENT_V2"
    case EnableSubscriptionBilling => "ENABLE_SUBSCRIPTION_BILLING"
    case EnableCryptoPayments => "ENABLE_CRYPTO_PAYMENTS"
    case EnableAnalytics => "ENABLE_ANALYTICS"
    case EnableErrorTracking => "ENABLE_ERROR_TRACKING"
    case EnablePerformanceMonitoring => "ENABLE_PERFORMANCE_MONITORING"
    case EnableEmailNotifications => "ENABLE_EMAIL_NOTIFICATIONS"
    case EnableSmsNotifications => "ENABLE_SMS_NOTIFICATIONS"
    case EnablePushNotifications => "ENABLE_PUSH_NOTIFICATIONS"
    case EnableDebugMode => "ENABLE_DEBUG_MODE"
    case EnableApiLogging => "ENABLE_API_LOGGING"
    case EnableMockData => "ENABLE_MOCK_DATA"
  }

  /** Every feature off. */
  const AllOff: FeatureFlags := FeatureFlags(
    false, false, false, false, false, false, false, false, false, false, false,
    false, false, false, false, false, false, false, false, false, false)

  /** The `featureFlags` constant, built from the environment: with none of its variables set, every feature is off. */
  function FromEnv(env: Env): (flags: FeatureFlags)
    ensures (forall k :: EnvVar(k) !in env) ==> flags == AllOff
  {
    FeatureFlags(
      ParseBoolean(Lookup(env, EnvVar(EnableNewDatabase))),
      ParseBoolean(Lookup(env, EnvVar(EnableDatabaseMigration))),
      ParseBoolean(Lookup(env, EnvVar(EnableDatabaseBackup))),
      ParseBoolean(Lookup(env, EnvVar(EnableTwoFactorAuth))),
      ParseBoolean(Lookup(env, EnvVar(EnableOauthLogin))),
      ParseBoolean(Lookup(env, EnvVar(EnablePasswordReset))),
      ParseBoolean(Lookup(env, EnvVar(EnableNewDashboard))),
      ParseBoolean(Lookup(env, EnvVar(EnableDarkMode))),
      ParseBoolean(Lookup(env, EnvVar(EnableBetaFeatures))),
      ParseBoolean(Lookup(env, EnvVar(EnablePaymentV2))),
      ParseBoolean(Lookup(env, EnvVar(EnableSubscriptionBilling))),
      ParseBoolean(Lookup(env, EnvVar(EnableCryptoPayments))),
      ParseBoolean(Lookup(env, EnvVar(EnableAnalytics))),
      ParseBoolean(Lookup(env, EnvVar(EnableErrorTracking))),
      ParseBoolean(Lookup(env, EnvVar(EnablePerformanceMonitoring))),
      ParseBoolean(Lookup(env, EnvVar(EnableEmailNotifications))),
      ParseBoolean(Lookup(env, EnvVar(EnableSmsNotifications))),
      ParseBoolean(Lookup(env, EnvVar(EnablePushNotifications))),
      ParseBoolean(Lookup(env, EnvVar(EnableDebugMode))),
      ParseBoolean(Lookup(env, EnvVar(EnableApiLogging))),
      ParseBoolean(Lookup(env, EnvVar(EnableMockData))))
  }
}
