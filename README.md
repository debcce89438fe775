# Feature toggles: rollout engine, kill switch and environment flags

This project models, in Dafny, the decision logic of three small feature-toggle
services and proves properties about it.

- **Gradual rollout** (`GradualRolloutService`): decides whether a flag is on
  for a user.
  - A missing or disabled flag is off.
  - A stored assignment is sticky.
  - Otherwise the flag's strategy decides:
    - percentage: an MD5 bucket in [0, 100) compared with the percentage;
    - segment: the first enabled targeting rule whose segment the user matches;
    - gradual: a linear ramp over seven days;
    - anything else: on only at 100%.
  - The new decision is stored with its reason.

  Flags are read through a TTL cache keyed `name:environment`. The cache is
  cleared by name prefix or all at once. The same service lays out rollout
  plans, applies their stages in order, and groups analytics rows by day.
- **Kill switch** (`FeatureToggleService`): a 30-second cache of on/off answers
  in front of a table of toggles. It supports toggling one feature, creating
  one, and a kill switch that turns every row off and drops the cache.
- **Environment flags**: `parseBoolean`, the record of 21 flags read from
  `ENABLE_*` variables, and the `FeatureToggle` facade. The facade looks flags
  up, lists the enabled and the disabled ones, counts them, and checks that
  four required variables are set.

Modules, one per component:

- `Wrappers`: `Option`.
- `JsString`: the JavaScript string built-ins the code relies on.
- `EnvConfig`, `EnvToggle`: the environment example.
- `RolloutTypes`: the records.
- `RolloutEngine`: the pure decision logic.
- `RolloutPlanning`: plan layout and stage history.
- `RolloutAnalytics`: `groupAnalyticsByDate`.
- `RolloutService`: the `GradualRolloutService` class.
- `KillSwitch`: the `FeatureToggleService` class.

The services' stateful parts are classes:

- **Cache maps.** Both classes keep a cache map and an expiry map. `Valid()`
  states that the two maps share their key set.
- **Tables.** Database tables are fields of type `map` or `seq`.
- **Outside world.** The clock is a `now` parameter. MD5 is a function
  parameter from a user id to a 32-bit number, the first 8 hex digits of the
  digest. Database failure in the kill switch is a `dbAvailable` parameter.
- **Cache coherence.** Each class has a `Coherent()` predicate: every cached
  entry is what the table holds.
  - Every public method preserves it, except the ones that write the table
    without clearing the cache. The kill switch's `SetCachedValue` is a helper
    that caches whatever value it is given. It keeps coherence only when the
    caller passes the table's value, as `isFeatureEnabled` does.
  - In the rollout service, a coherent cache with an unambiguous key (no `:`
    in the name or the environment) makes `isFeatureEnabled` answer exactly
    as if it had read the table.
  - Without that condition, two flags can share a key (`CacheKeyCollision`).

Where the code and its prose description disagree, the model follows the
code:

- **Date bounds.** `registrationDateAfter` and `registrationDateBefore` are
  both inclusive: a date equal to a bound passes it.
- **No lower clamp on the ramp.** The ramp's ratio is not clamped at 0. With
  a negative percentage and a creation time in the future, the ramped
  percentage can be positive (`NegativeRampQuirk`).
- **`metadata` criterion.** It is never consulted, so the seeded
  `beta_testers` segment matches every user.
- **Zero kill-switch expiry.** An expiry of 0 is falsy in the kill-switch
  cache, so it never hits.

## Model

| member | source | states |
|---|---|---|
| JsString.Lower | feature-toggle-env-example/src/config/feature-flags.ts:47 | `toLowerCase` keeps the length and lower-cases each character on its own |
| JsString.TrimStart | feature-toggle-env-example/src/config/feature-flags.ts:47 | the result is a suffix of the input; everything removed is white space; the result does not start with white space |
| JsString.TrimEnd | feature-toggle-env-example/src/config/feature-flags.ts:47 | the result is a prefix of the input; everything removed is white space; the result does not end with white space |
| JsString.Trim | feature-toggle-env-example/src/config/feature-flags.ts:47 | `trim` leaves no white space at either end, and what it returns is a contiguous piece of the input with only white space cut off before and after it |
| JsString.TrimIdempotent | feature-toggle-env-example/src/config/feature-flags.ts:47 | trimming twice gives the same as trimming once |
| JsString.LowerTrimCommute | feature-toggle-env-example/src/config/feature-flags.ts:47 | lower-casing and trimming can be done in either order |
| JsString.PaddingIgnored | feature-toggle-env-example/src/config/feature-flags.ts:47 | white space of any kind added around a text does not change its trim |
| JsString.IncludesAt | feature-toggle-gradual-rollout/src/services/gradual-rollout.service.ts:184 | `includes` finds the needle wherever it occurs |
| JsString.IncludesHasOccurrence | feature-toggle-gradual-rollout/src/services/gradual-rollout.service.ts:184 | when `includes` answers true, the needle occurs at some index |
| JsString.NatToDecimal | feature-toggle-gradual-rollout/src/services/gradual-rollout.service.ts:52 | a natural number's decimal text is non-empty, all digits, with no leading zero |
| JsString.IntToDecimal | feature-toggle-gradual-rollout/src/services/gradual-rollout.service.ts:52 | an integer's text starts with `-` exactly when the integer is negative |
| JsString.NatToDecimalRoundTrip | feature-toggle-gradual-rollout/src/services/gradual-rollout.service.ts:52 | reading the decimal text back gives the number |
| JsString.IntToDecimalInjective | feature-toggle-gradual-rollout/src/services/gradual-rollout.service.ts:52 | different integers have different texts |
| EnvConfig.Normalize | feature-toggle-env-example/src/config/feature-flags.ts:47 | the compared text has no capital letters, no white space at either end, and is no longer than the value |
| EnvConfig.ParseBoolean | feature-toggle-env-example/src/config/feature-flags.ts:44-49 | an undefined value gives the default (the defined case, on exactly for the lower-cased, trimmed texts `true`, `1` and `yes`, is stated by the rows below) |
| EnvConfig.DefaultIgnoredWhenSet | feature-toggle-env-example/src/config/feature-flags.ts:47-48 | for a defined value the default makes no difference |
| EnvConfig.NormalizeIdempotent | feature-toggle-env-example/src/config/feature-flags.ts:47 | normalizing an already normalized text changes nothing |
| EnvConfig.CaseAndPaddingIrrelevant | feature-toggle-env-example/src/config/feature-flags.ts:47-48 | `parseBoolean(s) == parseBoolean(lower(trim(s)))` |
| EnvConfig.PaddedValue | feature-toggle-env-example/src/config/feature-flags.ts:47-48 | surrounding white space never changes the answer |
| EnvConfig.NormalFormOf | feature-toggle-env-example/src/config/feature-flags.ts:47 | a text with no capitals and no white space at its ends is already normalized |
| EnvConfig.MixedCaseYesIsOn | feature-toggle-env-example/src/config/feature-flags.ts:47-48 | `"Yes"` is on |
| EnvConfig.OtherWordsAreOff | feature-toggle-env-example/src/config/feature-flags.ts:47-48 | `"no"` and `"abc"` are off whatever the default |
| EnvConfig.AllKeysComplete | feature-toggle-env-example/src/config/feature-flags.ts:52-87 | the key list names every flag of the record |
| EnvConfig.FromEnv | feature-toggle-env-example/src/config/feature-flags.ts:52-87 | with none of the 21 variables set, every flag is off |
| EnvToggle.FlagFromOwnVariable | feature-toggle-env-example/src/config/feature-flags.ts:52-87 | each of the 21 flags is `parseBoolean` of its own variable, so an unset variable leaves it off |
| EnvToggle.Entries | feature-toggle-env-example/src/feature-toggle.ts:13 | `Object.entries` has one entry per key of the record |
| EnvToggle.KeyNameInjective | feature-toggle-env-example/src/config/feature-flags.ts:52-87 | no two flags share a property name |
| EnvToggle.IsEnabledMatchesEntry | feature-toggle-env-example/src/feature-toggle.ts:7-9 | `isEnabled(k)` returns exactly the value stored under `k` |
| EnvToggle.NamesWhere | feature-toggle-env-example/src/feature-toggle.ts:12-23 | filtering and mapping entries never lengthens the list; a name is listed exactly when an entry carries it with the wanted value |
| EnvToggle.EnabledFeatures | feature-toggle-env-example/src/feature-toggle.ts:12-16 | lists exactly the names whose entry is `true` |
| EnvToggle.DisabledFeatures | feature-toggle-env-example/src/feature-toggle.ts:19-23 | lists exactly the names whose entry is `false` |
| EnvToggle.NamesWhereCounts | feature-toggle-env-example/src/feature-toggle.ts:12-23 | the enabled and the disabled lists together are as long as the entries |
| EnvToggle.NamesWhereKeepsOrder | feature-toggle-env-example/src/feature-toggle.ts:12-23 | a filtered list is a subsequence of the entry names |
| EnvToggle.ListedIff | feature-toggle-env-example/src/feature-toggle.ts:12-23 | a flag's name is in the list filtered for `want` exactly when the flag's value is `want` |
| EnvToggle.PartitionMembership | feature-toggle-env-example/src/feature-toggle.ts:12-23 | every flag is in the enabled list exactly when on, and in the disabled list exactly when off |
| EnvToggle.PartitionKeepsOrder | feature-toggle-env-example/src/feature-toggle.ts:12-23 | both lists keep the record's key order |
| EnvToggle.PartitionDisjoint | feature-toggle-env-example/src/feature-toggle.ts:12-23 | no name is in both lists |
| EnvToggle.GetSummary | feature-toggle-env-example/src/feature-toggle.ts:26-32 | `total` is 21; `enabled` is the enabled list's length, between 0 and 21; `enabled + disabled == total`; `disabled` is the disabled list's length |
| EnvToggle.Unset | feature-toggle-env-example/src/feature-toggle.ts:43 | the unset variables, in listed order, are exactly those absent from the environment |
| EnvToggle.ValidateConfig | feature-toggle-env-example/src/feature-toggle.ts:35-49 | `missingVars` is the ordered sublist of the four required names absent from the environment; `valid` holds exactly when none is absent |
| EnvToggle.EmptyValueCountsAsSet | feature-toggle-env-example/src/feature-toggle.ts:43 | a variable set to the empty string is not missing |
| RolloutEngine.Bucket | feature-toggle-gradual-rollout/src/services/gradual-rollout.service.ts:116-117 | the user's percentile lies in [0, 100) |
| RolloutEngine.InPercentageRollout | feature-toggle-gradual-rollout/src/services/gradual-rollout.service.ts:111-120 | at least 100% is on and at most 0% is off, for every user |
| RolloutEngine.PercentageIsBucketThreshold | feature-toggle-gradual-rollout/src/services/gradual-rollout.service.ts:111-120 | for every percentage the answer is `bucket < percentage` |
| RolloutEngine.PercentageMonotone | feature-toggle-gradual-rollout/src/services/gradual-rollout.service.ts:111-120 | raising the percentage never turns a user off |
| RolloutEngine.EvaluateCustomRule | feature-toggle-gradual-rollout/src/services/gradual-rollout.service.ts:175-192 | an unknown operator is false; `contains` needs a string field; `greater_than` and `less_than` need a numeric field |
| RolloutEngine.EqualsNotEqualsComplement | feature-toggle-gradual-rollout/src/services/gradual-rollout.service.ts:179-182 | `equals` and `not_equals` on the same field and value always disagree |
| RolloutEngine.MissingFieldIsNotEqual | feature-toggle-gradual-rollout/src/services/gradual-rollout.service.ts:176-182 | a missing field satisfies `not_equals` against any defined value |
| RolloutEngine.AllRulesHold | feature-toggle-gradual-rollout/src/services/gradual-rollout.service.ts:163-169 | the rule loop passes exactly when every rule holds |
| RolloutEngine.MatchIsConjunction | feature-toggle-gradual-rollout/src/services/gradual-rollout.service.ts:143-172 | a user matches the criteria exactly when they match each criterion alone; empty criteria match everyone |
| RolloutEngine.MatchesSegment | feature-toggle-gradual-rollout/src/services/gradual-rollout.service.ts:143-172 | a user matches exactly when the role is listed (if a role list is given), the registration date is within both inclusive bounds (if both are given), and every custom rule holds (if rules are given) |
| RolloutEngine.RoleListAdmitsListedRoles | feature-toggle-gradual-rollout/src/services/gradual-rollout.service.ts:145-147 | a role list admits only listed roles, so an empty list rejects everyone |
| RolloutEngine.DateBoundsInclusive | feature-toggle-gradual-rollout/src/services/gradual-rollout.service.ts:150-160 | a registration date equal to a bound passes that bound |
| RolloutEngine.NoRegistrationDateSkipsBounds | feature-toggle-gradual-rollout/src/services/gradual-rollout.service.ts:150-160 | without a registration date both bounds are skipped |
| RolloutEngine.MetadataCriterionIgnored | feature-toggle-gradual-rollout/src/services/gradual-rollout.service.ts:143-172 | the `metadata` criterion never changes the outcome |
| RolloutEngine.PlainUserIsNotPremium | feature-toggle-gradual-rollout/src/scripts/seed.ts:23 | the seeded `premium_users` segment rejects the role `user` |
| RolloutEngine.PowerUsersNeedNumericCount | feature-toggle-gradual-rollout/src/scripts/seed.ts:26 | the seeded `power_users` segment admits exactly users whose numeric `login_count` exceeds 50 |
| RolloutEngine.EveryoneIsABetaTester | feature-toggle-gradual-rollout/src/scripts/seed.ts:24 | the seeded `beta_testers` segment matches every user |
| RolloutEngine.FindSegment | feature-toggle-gradual-rollout/src/services/gradual-rollout.service.ts:130 | `find` returns the first listed segment with that id, and nothing exactly when no segment has it |
| RolloutEngine.TargetingFor | feature-toggle-gradual-rollout/src/repositories/feature-flag.repository.ts:126-136 | the targeting rows returned are exactly the rows of that flag |
| RolloutEngine.FirstMatchWins | feature-toggle-gradual-rollout/src/services/gradual-rollout.service.ts:127-136 | the first enabled rule with a found, matching segment decides, with its own percentage |
| RolloutEngine.NoMatchIsOff | feature-toggle-gradual-rollout/src/services/gradual-rollout.service.ts:127-139 | if no rule decides, the user is off |
| RolloutEngine.LaterRulesIgnored | feature-toggle-gradual-rollout/src/services/gradual-rollout.service.ts:133-136 | rules after the deciding one are never consulted |
| RolloutEngine.InSegmentRolloutStep | feature-toggle-gradual-rollout/src/services/gradual-rollout.service.ts:127-136 | a deciding first rule answers with its percentage; any other first rule is skipped |
| RolloutEngine.InSegmentRollout | feature-toggle-gradual-rollout/src/services/gradual-rollout.service.ts:123-140 | a user is on only through some targeting rule that decides for them and whose percentage admits them |
| RolloutEngine.BetaSearchOnForEveryone | feature-toggle-gradual-rollout/src/scripts/seed.ts:30-40 | the seeded `beta_search` targeting (beta testers at 100%) is on for every user |
| RolloutEngine.GradualNeverExceeds | feature-toggle-gradual-rollout/src/services/gradual-rollout.service.ts:204-206 | the ramped percentage never exceeds the flag's percentage |
| RolloutEngine.GradualCompleteAfterWindow | feature-toggle-gradual-rollout/src/services/gradual-rollout.service.ts:204-206 | after seven days the ramped percentage is the flag's percentage |
| RolloutEngine.GradualMonotoneInTime | feature-toggle-gradual-rollout/src/services/gradual-rollout.service.ts:199-206 | the ramped percentage never decreases as time advances |
| RolloutEngine.GradualOffUntilStart | feature-toggle-gradual-rollout/src/services/gradual-rollout.service.ts:199-208 | nobody is in a gradual rollout while the elapsed time is at most 0 |
| RolloutEngine.GradualBecomesPercentage | feature-toggle-gradual-rollout/src/services/gradual-rollout.service.ts:195-209 | after seven days the gradual rollout is the flat percentage rollout |
| RolloutEngine.GradualStaysOn | feature-toggle-gradual-rollout/src/services/gradual-rollout.service.ts:195-209 | once in a gradual rollout, a user stays in |
| RolloutEngine.NegativeRampQuirk | feature-toggle-gradual-rollout/src/services/gradual-rollout.service.ts:201-206 | the ratio is not clamped at 0: a week early at -50% ramps to 50% |
| RolloutEngine.GradualPercentage | feature-toggle-gradual-rollout/src/services/gradual-rollout.service.ts:199-206 | after seven days the ramped percentage is the flag's; at or before the start a non-negative percentage ramps to at most 0 |
| RolloutEngine.InGradualRollout | feature-toggle-gradual-rollout/src/services/gradual-rollout.service.ts:195-209 | after seven days it is the flat percentage rollout; at or before the start nobody is in |
| RolloutEngine.OtherStrategiesNeedFullRollout | feature-toggle-gradual-rollout/src/services/gradual-rollout.service.ts:64-66 | `user_list` and unknown strategies are on only at 100% or more, with reason `default` |
| RolloutEngine.PercentageReasonRecordsPercentage | feature-toggle-gradual-rollout/src/services/gradual-rollout.service.ts:50-52 | a `percentage_rollout_<pct>` reason determines the percentage used |
| RolloutEngine.StrategyDecision | feature-toggle-gradual-rollout/src/services/gradual-rollout.service.ts:48-67 | `percentage` decides by `isUserInPercentageRollout` with reason `percentage_rollout_<pct>`; `segment` by `isUserInSegmentRollout` over the flag's own targeting rows, reason `segment_based`; `gradual` by `isUserInGradualRollout`, reason `gradual_rollout`; `user_list` and unknown strategies are on at 100% or more and off at 0% or less; a segment strategy without targeting rows is off; a gradual strategy past seven days is the percentage rollout |
| RolloutEngine.Evaluate | feature-toggle-gradual-rollout/src/services/gradual-rollout.service.ts:21-87 | only an enabled flag can be on; a missing or disabled flag writes nothing; a stored assignment answers; without one the answer and the stored reason are the strategy's decision; existing assignments are kept; an enabled flag leaves exactly one entry for (user, flag) besides the old ones, holding the returned answer |
| RolloutEngine.DisabledFlagIsOff | feature-toggle-gradual-rollout/src/services/gradual-rollout.service.ts:25-33 | a missing or disabled flag is off whatever is stored, and nothing is written |
| RolloutEngine.StoredAssignmentWins | feature-toggle-gradual-rollout/src/services/gradual-rollout.service.ts:36-42 | an existing assignment's value is returned and nothing is written |
| RolloutEngine.NewDecisionStored | feature-toggle-gradual-rollout/src/services/gradual-rollout.service.ts:44-82 | without an assignment the answer is the strategy's decision, and exactly one entry is added for (user, flag); it holds that answer and the strategy's reason; all other entries are kept |
| RolloutEngine.FreshAnswerByStrategy | feature-toggle-gradual-rollout/src/services/gradual-rollout.service.ts:44-82 | a fresh answer is `bucket < pct` for `percentage`, the segment rollout over the flag's own targeting rows for `segment`, and `bucket <` the ramped percentage for `gradual` |
| RolloutEngine.StickyAcrossReconfiguration | feature-toggle-gradual-rollout/src/services/gradual-rollout.service.ts:36-75 | a second evaluation for the same user and flag id returns the first answer and writes nothing, whatever else changed in between, as long as the flag stays enabled |
| RolloutPlanning.TotalDurationFront | feature-toggle-gradual-rollout/src/services/gradual-rollout.service.ts:213 | the left-fold total equals the sum taken from the front |
| RolloutPlanning.TotalDuration | feature-toggle-gradual-rollout/src/services/gradual-rollout.service.ts:213 | with non-negative durations the total is non-negative and at least each stage's duration |
| RolloutPlanning.Layout | feature-toggle-gradual-rollout/src/services/gradual-rollout.service.ts:224-228 | the layout keeps the number of stages |
| RolloutPlanning.LayoutAt | feature-toggle-gradual-rollout/src/services/gradual-rollout.service.ts:223-228 | stage `i` starts at the start time plus the durations of the stages before it, and ends its own duration later |
| RolloutPlanning.FirstStageStartsNow | feature-toggle-gradual-rollout/src/services/gradual-rollout.service.ts:223-226 | stage 0 starts at `now` |
| RolloutPlanning.StagesBackToBack | feature-toggle-gradual-rollout/src/services/gradual-rollout.service.ts:224-228 | each stage ends where the next starts, and lasts its own duration |
| RolloutPlanning.LastStageEndsAtTotal | feature-toggle-gradual-rollout/src/services/gradual-rollout.service.ts:213-228 | the last stage ends at `now + totalDuration` |
| RolloutPlanning.LayoutKeepsStages | feature-toggle-gradual-rollout/src/services/gradual-rollout.service.ts:224-228 | only the start and end times of a stage change |
| RolloutPlanning.CreateRolloutPlan | feature-toggle-gradual-rollout/src/services/gradual-rollout.service.ts:212-231 | the plan shares the caller's array, is on stage 0, and has the summed duration; the array holds the layout from `now` |
| RolloutPlanning.StageEntries | feature-toggle-gradual-rollout/src/repositories/feature-flag.repository.ts:90-101 | applying the stages leaves one history row per stage |
| RolloutPlanning.StageEntriesSnoc | feature-toggle-gradual-rollout/src/services/gradual-rollout.service.ts:237-247 | applying one more stage appends one row, moving the flag from the percentage then in force to the new stage's |
| RolloutPlanning.StageEntriesInOrder | feature-toggle-gradual-rollout/src/services/gradual-rollout.service.ts:237-247 | history row `k` moves the flag from the previous stage's percentage (the original one for `k = 0`) to stage `k`'s |
| RolloutAnalytics.LastCount | feature-toggle-gradual-rollout/src/services/gradual-rollout.service.ts:303-309 | absent exactly when no row has that day and event; otherwise the count of the last such row |
| RolloutAnalytics.GroupedDays | feature-toggle-gradual-rollout/src/services/gradual-rollout.service.ts:303-309 | the breakdown's days are exactly the days of the rows |
| RolloutAnalytics.GroupedCounts | feature-toggle-gradual-rollout/src/services/gradual-rollout.service.ts:303-309 | each day has `enabled`, `disabled`, `used` and its rows' events; each count is its last row's, and 0 for a default event without a row |
| RolloutAnalytics.GroupByDate | feature-toggle-gradual-rollout/src/services/gradual-rollout.service.ts:300-312 | every day of the breakdown has the `enabled`, `disabled` and `used` counters |
| RolloutAnalytics.GroupAnalyticsByDate | feature-toggle-gradual-rollout/src/services/gradual-rollout.service.ts:300-312 | the `forEach` loop builds the breakdown of all rows |
| RolloutService.CacheKeyUnambiguous | feature-toggle-gradual-rollout/src/services/gradual-rollout.service.ts:91 | without `:` in the name and the environment, the key determines both |
| RolloutService.CacheKeyCollision | feature-toggle-gradual-rollout/src/services/gradual-rollout.service.ts:91 | `a` in `b:c` and `a:b` in `c` share a cache key |
| RolloutService.KeyStartsWithName | feature-toggle-gradual-rollout/src/services/gradual-rollout.service.ts:323 | a flag's key in any environment starts with its name |
| RolloutService.ClearingOneNameEvictsLongerNames | feature-toggle-gradual-rollout/src/services/gradual-rollout.service.ts:321-327 | clearing a name also drops the keys of every flag whose name extends it |
| RolloutService.Kept | feature-toggle-gradual-rollout/src/services/gradual-rollout.service.ts:323-327 | what clearing a name leaves: exactly the entries whose keys the name does not prefix, with their values unchanged |
| RolloutService.Without | feature-toggle-gradual-rollout/src/services/gradual-rollout.service.ts:324-327 | deleting a set of keys keeps exactly the other entries, with their values unchanged |
| RolloutService.GradualRolloutService.constructor | feature-toggle-gradual-rollout/src/services/gradual-rollout.service.ts:5-18 | the service starts with empty, coherent caches over the given tables |
| RolloutService.GradualRolloutService.GetFeatureFlag | feature-toggle-gradual-rollout/src/services/gradual-rollout.service.ts:90-108 | a hit (key cached, expiry after `now`) answers from the cache and changes nothing; a miss returns the stored row and caches only a found flag until `now + TTL`; coherence is kept; a coherent cache with an unambiguous key returns the stored row |
| RolloutService.GradualRolloutService.IsFeatureEnabled | feature-toggle-gradual-rollout/src/services/gradual-rollout.service.ts:21-87 | the answer and the new assignment store are the engine's outcome for the fetched flag; coherence is kept; with a coherent cache and an unambiguous key the answer is the one the stored row gives |
| RolloutService.GradualRolloutService.ClearCache | feature-toggle-gradual-rollout/src/services/gradual-rollout.service.ts:321-332 | removes from both maps exactly the keys that start with the name (all keys without a name); every other entry is kept |
| RolloutService.GradualRolloutService.DeleteKeys | feature-toggle-gradual-rollout/src/services/gradual-rollout.service.ts:324-327 | the `forEach` deletes every listed key from both maps and nothing else |
| RolloutService.GradualRolloutService.RefreshCache | feature-toggle-gradual-rollout/src/services/gradual-rollout.service.ts:315-319 | both maps are emptied |
| RolloutService.GradualRolloutService.UpdateRolloutPercentage | feature-toggle-gradual-rollout/src/repositories/feature-flag.repository.ts:66-108 | fails and changes nothing for an unknown name; otherwise sets the percentage and appends one history row with the old and new values |
| RolloutService.GradualRolloutService.ApplyStage | feature-toggle-gradual-rollout/src/services/gradual-rollout.service.ts:243-250 | one stage updates the percentage, then clears the name's cache keys, keeping coherence |
| RolloutService.GradualRolloutService.ExecuteGradualRollout | feature-toggle-gradual-rollout/src/services/gradual-rollout.service.ts:234-260 | a missing flag fails before anything changes; otherwise the flag ends at the last stage's percentage, the history gains one row per stage in plan order, and the name's cache keys are gone |
| KillSwitch.DisableAll | feature-toggle-kill-switch/src/services/feature-toggle.service.ts:83 | every row is kept and turned off, with nothing else changed |
| KillSwitch.FeatureToggleService.constructor | feature-toggle-kill-switch/src/services/feature-toggle.service.ts:4-7 | the service starts with an empty, coherent cache |
| KillSwitch.FeatureToggleService.StoredEnabled | feature-toggle-kill-switch/src/services/feature-toggle.service.ts:21 | only an existing row can answer true |
| KillSwitch.FeatureToggleService.GetCachedValue | feature-toggle-kill-switch/src/services/feature-toggle.service.ts:93-100 | hits exactly when an expiry exists, is non-zero, and is after `now`; a miss drops the id from both maps |
| KillSwitch.FeatureToggleService.SetCachedValue | feature-toggle-kill-switch/src/services/feature-toggle.service.ts:102-105 | stores the value with expiry `now + 30000` in both maps together |
| KillSwitch.FeatureToggleService.ClearCachedValue | feature-toggle-kill-switch/src/services/feature-toggle.service.ts:107-110 | drops the id from both maps |
| KillSwitch.FeatureToggleService.ClearAllCache | feature-toggle-kill-switch/src/services/feature-toggle.service.ts:112-115 | empties both maps |
| KillSwitch.FeatureToggleService.IsFeatureEnabled | feature-toggle-kill-switch/src/services/feature-toggle.service.ts:9-32 | a hit answers from the cache; otherwise the table's value (false for an unknown id) is returned and cached until `now + 30000`; a failed query answers false and caches nothing; coherence is kept; after the kill switch it answers false |
| KillSwitch.FeatureToggleService.ToggleFeature | feature-toggle-kill-switch/src/services/feature-toggle.service.ts:34-54 | succeeds exactly when the row exists; it then changes only that row and drops only that id from the cache; a failure changes nothing |
| KillSwitch.FeatureToggleService.CreateFeature | feature-toggle-kill-switch/src/services/feature-toggle.service.ts:66-78 | fails, changing nothing, when the database is down or the id is taken; never touches the cache, so it breaks coherence exactly when a cached id is inserted enabled |
| KillSwitch.FeatureToggleService.KillAllFeatures | feature-toggle-kill-switch/src/services/feature-toggle.service.ts:81-91 | on success every row is off and both cache maps are empty; a failure changes nothing |

## Left out

- Console output, `recordAnalytics` writes and the `setInterval` refresh timer are not modelled. The `sleep` between stages is left out too: `ExecuteGradualRollout` stamps every update with the same `now`.
- Database exceptions in the rollout service are not modelled. This includes the `catch` that turns any failure of `isFeatureEnabled` into `false`. The one error modelled is `updateRolloutPercentage`'s "not found", which aborts `executeGradualRollout`.
- The summary that the service's `getFeatureAnalytics` builds around the daily breakdown is not modelled (gradual-rollout.service.ts:278-296). Only its `dailyBreakdown`, `groupAnalyticsByDate`, is. Left out:
  - `totalUsers` counts the distinct `user_id` values of the rows. The grouped query at feature-flag.repository.ts:187-194 selects no `user_id`, so the count is 1 for any non-empty result.
  - `enabledCount`, `disabledCount` and `usageCount` count grouped (day, event) rows, not events.
- The kill switch's `getAllFeatures` is not modelled: it returns the table's rows ordered by name, or an empty list when the query fails.
- MD5 itself is not modelled: the model takes any function from user id to a 32-bit number.
- The ramp uses exact integer arithmetic, `floor(min(elapsed, 7 days) * pct / 7 days)`. The code's floating-point ratio may differ from it by rounding.
- `toLowerCase` is modelled for ASCII letters only. Non-ASCII upper-case letters are left unchanged.
- Dynamic values are strings, integers, booleans and `undefined`. JSON `null`, objects, arrays and fractional numbers are left out.
- RolloutEngine.EvaluateCustomRule: `greater_than` and `less_than` against a rule value that is a string answer false in the model. JavaScript would convert a numeric string to a number.
- A `role` criterion is a list of roles. A JSON string there, which `includes` would search as text, is left out.
- Dates are integer milliseconds. Invalid date strings in segment criteria are left out.
- Analytics counts arrive already parsed as integers, so `parseInt` is not modelled.
- The kill switch's table is keyed by id, and an insert under an existing id fails. The table's schema is not part of this model.
- Concurrency between requests, and the kill-switch middleware and controller each holding their own service instance, are left out. Because of those separate instances, the kill switch does not clear the middleware's cache. A single-instance model cannot express this.
