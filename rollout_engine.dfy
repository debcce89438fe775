/**
 * The pure decision logic of `GradualRolloutService`: hash bucketing, custom
 * segment rules, segment matching, first-match targeting, the seven-day ramp,
 * the strategy dispatch, and the whole `isFeatureEnabled` decision once the
 * flag has been fetched (the assignment store is a map from (user id, flag id)
 * to the stored assignment).
 */
module RolloutEngine {
  import opened Wrappers
  import opened RolloutTypes
  import JsString

  // ---------------------------------------------------------------------------
  // Percentage rollout

  /** The user's percentile: the digest prefix modulo 100. */
  function Bucket(md5: Md5Prefix, userId: string): (b: nat)
    ensures b < 100
  {
    md5(userId) % 100
  }

  /** `isUserInPercentageRollout`: clamps at 100 and 0, otherwise compares the percentile. */
  function InPercentageRollout(md5: Md5Prefix, userId: string, percentage: int): (r: bool)
    ensures percentage >= 100 ==> r
    ensures percentage <= 0 ==> !r
  {
    if percentage >= 100 then true
    else if percentage <= 0 then false
    else Bucket(md5, userId) < percentage
  }

  /** Since the percentile lies in [0, 100), the two clamps agree with the plain comparison. */
  lemma PercentageIsBucketThreshold(md5: Md5Prefix, userId: string, percentage: int)
    ensures InPercentageRollout(md5, userId, percentage) <==> Bucket(md5, userId) < percentage
  {
  }

  /** Raising the percentage never turns a user off. */
  lemma PercentageMonotone(md5: Md5Prefix, userId: string, p1: int, p2: int)
    requires p1 <= p2
    ensures InPercentageRollout(md5, userId, p1) ==> InPercentageRollout(md5, userId, p2)
  {
  }

  // ---------------------------------------------------------------------------
  // Custom rules

  /** `user.metadata?.[field]`. */
  function MetadataValue(user: User, field: string): Value
  {
    match user.metadata
    case None => Undef
    case Some(m) => if field in m then m[field] else Undef
  }

  /** `String(v)`: the text `includes` looks for when handed a non-string. */
  function ToText(v: Value): string
  {
    match v
    case Str(s) => s
    case Num(n) => JsString.IntToDecimal(n)
    case Bool(b) => if b then "true" else "false"
    case Undef => "undefined"
  }

  /** The number a relational comparison turns the rule's value into; `None` stands for NaN. */
  function ToNumber(v: Value): Option<int>
  {
    match v
    case Num(n) => Some(n)
    case Bool(b) => Some(if b then 1 else 0)
    case Str(_) => None
    case Undef => None
  }

  /** `evaluateCustomRule`: one field/operator/value test against the user's metadata. */
  function EvaluateCustomRule(user: User, rule: CustomRule): (r: bool)
    ensures rule.operator.OtherOperator? ==> !r
    ensures rule.operator.Contains? && r ==> MetadataValue(user, rule.field).Str?
    ensures (rule.operator.GreaterThan? || rule.operator.LessThan?) && r ==> MetadataValue(user, rule.field).Num?
  {
    var userValue := MetadataValue(user, rule.field);
    match rule.operator
    case Equals => userValue == rule.value
    case NotEquals => userValue != rule.value
    case Contains => userValue.Str? && JsString.Includes(userValue.s, ToText(rule.value))
    case GreaterThan => userValue.Num? && ToNumber(rule.value).Some? && userValue.n > ToNumber(rule.value).value
    case LessThan => userValue.Num? && ToNumber(rule.value).Some? && userValue.n < ToNumber(rule.value).value
    case OtherOperator(_) => false
  }

  /** `equals` and `not_equals` on the same field and value always disagree. */
  lemma EqualsNotEqualsComplement(user: User, field: string, value: Value)
    ensures EvaluateCustomRule(user, CustomRule(field, Equals, value))
        != EvaluateCustomRule(user, CustomRule(field, NotEquals, value))
  {
  }

  /** A field the user lacks satisfies every `not_equals` rule that names a defined value. */
  lemma MissingFieldIsNotEqual(user: User, rule: CustomRule)
    requires rule.operator == NotEquals && rule.value != Undef
    requires user.metadata.None? || rule.field !in user.metadata.value
    ensures EvaluateCustomRule(user, rule)
  {
  }

  /** `all rules hold`: the loop over `customRules` that stops at the first failing rule. */
  function AllRulesHold(user: User, rules: seq<CustomRule>): (r: bool)
    ensures r <==> forall i :: 0 <= i < |rules| ==> EvaluateCustomRule(user, rules[i])
  {
    if rules == [] then true
    else EvaluateCustomRule(user, rules[0]) && AllRulesHold(user, rules[1..])
  }

  // ---------------------------------------------------------------------------
  // Segment matching

  /** `doesUserMatchSegment`: the early returns of the source, in its order. */
  function MatchesSegment(user: User, c: SegmentCriteria): (r: bool)
    ensures r <==>
      && (c.role.Some? ==> user.role in c.role.value)
      && (c.registrationDateAfter.Some? && user.registrationDate.Some? ==>
            user.registrationDate.value >= c.registrationDateAfter.value)
      && (c.registrationDateBefore.Some? && user.registrationDate.Some? ==>
            user.registrationDate.value <= c.registrationDateBefore.value)
      && (c.customRules.Some? ==>
            forall i :: 0 <= i < |c.customRules.value| ==> EvaluateCustomRule(user, c.customRules.value[i]))
  {
    if c.role.Some? && user.role !in c.role.value then false
    else if c.registrationDateAfter.Some? && user.registrationDate.Some?
      && user.registrationDate.value < c.registrationDateAfter.value then false
    else if c.registrationDateBefore.Some? && user.registrationDate.Some?
      && user.registrationDate.value > c.registrationDateBefore.value then false
    else if c.customRules.Some? && !AllRulesHold(user, c.customRules.value) then false
    else true
  }

  const NoCriteria: SegmentCriteria := SegmentCriteria(None, None, None, None, None)

  /**
   * Matching is the AND of the criteria present: a user matches the whole
   * criteria exactly when they match each criterion on its own.
   */
  lemma MatchIsConjunction(user: User, c: SegmentCriteria)
    ensures MatchesSegment(user, c) <==>
      && MatchesSegment(user, NoCriteria.(role := c.role))
      && MatchesSegment(user, NoCriteria.(registrationDateAfter := c.registrationDateAfter))
      && MatchesSegment(user, NoCriteria.(registrationDateBefore := c.registrationDateBefore))
      && MatchesSegment(user, NoCriteria.(customRules := c.customRules))
    ensures MatchesSegment(user, NoCriteria)
  {
  }

  /** A role list, even an empty one, admits only the roles it lists. */
  lemma RoleListAdmitsListedRoles(user: User, c: SegmentCriteria)
    requires c.role.Some?
    ensures MatchesSegment(user, c) ==> user.role in c.role.value
    ensures c.role.value == [] ==> !MatchesSegment(user, c)
  {
  }

  /** A registration date equal to either bound passes that bound. */
  lemma DateBoundsInclusive(user: User, c: SegmentCriteria)
    requires user.registrationDate.Some?
    ensures c.registrationDateAfter == user.registrationDate ==>
      MatchesSegment(user, c) == MatchesSegment(user, c.(registrationDateAfter := None))
    ensures c.registrationDateBefore == user.registrationDate ==>
      MatchesSegment(user, c) == MatchesSegment(user, c.(registrationDateBefore := None))
  {
  }

  /** Without a registration date, the date bounds are skipped. */
  lemma NoRegistrationDateSkipsBounds(user: User, c: SegmentCriteria)
    requires user.registrationDate.None?
    ensures MatchesSegment(user, c)
         == MatchesSegment(user, c.(registrationDateAfter := None, registrationDateBefore := None))
  {
  }

  /** A `metadata` criterion is never consulted. */
  lemma MetadataCriterionIgnored(user: User, c: SegmentCriteria, m: Option<map<string, Value>>)
    ensures MatchesSegment(user, c) == MatchesSegment(user, c.(metadata := m))
  {
  }

  /** The seeded `premium_users` criteria: only the premium and enterprise roles. */
  const PremiumUsersCriteria: SegmentCriteria := NoCriteria.(role := Some(["premium", "enterprise"]))

  /** The seeded `beta_testers` criteria: a metadata test only. */
  const BetaTestersCriteria: SegmentCriteria := NoCriteria.(metadata := Some(map["beta_tester" := Bool(true)]))

  /** A plain `user` is not a premium user. */
  lemma PlainUserIsNotPremium(user: User)
    requires user.role == "user"
    ensures !MatchesSegment(user, PremiumUsersCriteria)
  {
    assert "user" != "premium" && "user" != "enterprise" by {
      assert "user"[0] != "premium"[0];
      assert |"user"| != |"enterprise"|;
    }
  }

  /** The seeded `power_users` criteria: more than 50 logins. */
  const PowerUsersCriteria: SegmentCriteria :=
    NoCriteria.(customRules := Some([CustomRule("login_count", GreaterThan, Num(50))]))

  /** A power user has a numeric login count above 50; a count stored as text never qualifies. */
  lemma PowerUsersNeedNumericCount(user: User)
    ensures MatchesSegment(user, PowerUsersCriteria)
        <==> MetadataValue(user, "login_count").Num? && MetadataValue(user, "login_count").n > 50
  {
  }

  /** Because its only criterion is ignored, every user is a beta tester. */
  lemma EveryoneIsABetaTester(user: User)
    ensures MatchesSegment(user, BetaTestersCriteria)
  {
  }

  // ---------------------------------------------------------------------------
  // Segment rollout

  /** `segments.find(s => s.id === id)`. */
  function FindSegment(segments: seq<UserSegment>, id: int): (r: Option<UserSegment>)
    ensures r.Some? ==> r.value in segments && r.value.id == id
    ensures r.None? <==> forall s :: s in segments ==> s.id != id
    ensures r.Some? ==> exists k :: 0 <= k < |segments| && segments[k] == r.value
                                     && forall j :: 0 <= j < k ==> segments[j].id != id
  {
    if segments == [] then None
    else if segments[0].id == id then Some(segments[0])
    else FindSegment(segments[1..], id)
  }

  /** `getFeatureTargeting(flagId)`: the targeting rows of one flag, in stored order. */
  function TargetingFor(rows: seq<FeatureTargeting>, flagId: int): (ts: seq<FeatureTargeting>)
    ensures forall t :: t in ts <==> t in rows && t.featureFlagId == flagId
  {
    if rows == [] then []
    else if rows[0].featureFlagId == flagId then [rows[0]] + TargetingFor(rows[1..], flagId)
    else TargetingFor(rows[1..], flagId)
  }

  /** A targeting rule that decides: enabled, its segment found, and the user in it. */
  predicate Decides(user: User, segments: seq<UserSegment>, t: FeatureTargeting)
  {
    && t.enabled
    && FindSegment(segments, t.segmentId).Some?
    && MatchesSegment(user, FindSegment(segments, t.segmentId).value.criteria)
  }

  /** `isUserInSegmentRollout`: the first deciding rule's own percentage answers; none means off. */
  function InSegmentRollout(md5: Md5Prefix, user: User, targeting: seq<FeatureTargeting>,
                            segments: seq<UserSegment>): (r: bool)
    ensures r ==> exists i :: 0 <= i < |targeting| && Decides(user, segments, targeting[i])
                              && InPercentageRollout(md5, user.id, targeting[i].rolloutPercentage)
  {
    if targeting == [] then false
    else if !targeting[0].enabled then InSegmentRollout(md5, user, targeting[1..], segments)
    else match FindSegment(segments, targeting[0].segmentId)
      case None => InSegmentRollout(md5, user, targeting[1..], segments)
      case Some(segment) =>
        if MatchesSegment(user, segment.criteria) then
          InPercentageRollout(md5, user.id, targeting[0].rolloutPercentage)
        else
          InSegmentRollout(md5, user, targeting[1..], segments)
  }

  /** The first deciding rule answers, with its own percentage. */
  lemma {:induction false} FirstMatchWins(md5: Md5Prefix, user: User, targeting: seq<FeatureTargeting>,
                                          segments: seq<UserSegment>, i: nat)
    requires i < |targeting| && Decides(user, segments, targeting[i])
    requires forall j :: 0 <= j < i ==> !Decides(user, segments, targeting[j])
    ensures InSegmentRollout(md5, user, targeting, segments)
         == InPercentageRollout(md5, user.id, targeting[i].rolloutPercentage)
  {
    if i > 0 {
      assert !Decides(user, segments, targeting[0]);
      FirstMatchWins(md5, user, targeting[1..], segments, i - 1);
    }
  }

  /** With no deciding rule the user is off. */
  lemma {:induction false} NoMatchIsOff(md5: Md5Prefix, user: User, targeting: seq<FeatureTargeting>,
                                        segments: seq<UserSegment>)
    requires forall j :: 0 <= j < |targeting| ==> !Decides(user, segments, targeting[j])
    ensures !InSegmentRollout(md5, user, targeting, segments)
  {
    if targeting != [] {
      assert !Decides(user, segments, targeting[0]);
      NoMatchIsOff(md5, user, targeting[1..], segments);
    }
  }

  /** One step of the rule loop: a deciding head answers, any other head is skipped. */
  lemma InSegmentRolloutStep(md5: Md5Prefix, user: User, targeting: seq<FeatureTargeting>, segments: seq<UserSegment>)
    requires targeting != []
    ensures InSegmentRollout(md5, user, targeting, segments)
         == if Decides(user, segments, targeting[0]) then InPercentageRollout(md5, user.id, targeting[0].rolloutPercentage)
            else InSegmentRollout(md5, user, targeting[1..], segments)
  {
  }

  /** Rules after a deciding rule are never consulted. */
  lemma {:induction false} LaterRulesIgnored(md5: Md5Prefix, user: User, targeting: seq<FeatureTargeting>,
                                             segments: seq<UserSegment>, i: nat, later: seq<FeatureTargeting>)
    requires i < |targeting| && Decides(user, segments, targeting[i])
    ensures InSegmentRollout(md5, user, targeting[..i + 1] + later, segments)
         == InSegmentRollout(md5, user, targeting[..i + 1], segments)
  {
    var whole := targeting[..i + 1] + later;
    var upTo := targeting[..i + 1];
    assert whole[0] == upTo[0] == targeting[0];
    InSegmentRolloutStep(md5, user, whole, segments);
    InSegmentRolloutStep(md5, user, upTo, segments);
    if !Decides(user, segments, targeting[0]) {
      assert whole[1..] == targeting[1..][..i] + later;
      assert upTo[1..] == targeting[1..][..i];
      LaterRulesIgnored(md5, user, targeting[1..], segments, i - 1, later);
    }
  }

  /**
   * The seeded `beta_search` flag targets `beta_testers` at 100%; since that
   * segment matches everyone, the flag is on for every user.
   */
  lemma BetaSearchOnForEveryone(md5: Md5Prefix, user: User, segments: seq<UserSegment>,
                                flagId: int, betaTesters: UserSegment, targetingId: int, createdAt: int)
    requires betaTesters.criteria == BetaTestersCriteria
    requires FindSegment(segments, betaTesters.id) == Some(betaTesters)
    ensures InSegmentRollout(md5, user, [FeatureTargeting(targetingId, flagId, betaTesters.id, true, 100, createdAt)], segments)
  {
  }

  // ---------------------------------------------------------------------------
  // Gradual rollout

  /** Seven days in milliseconds: the length of the ramp. */
  const RolloutDurationMs: int := 7 * 24 * 60 * 60 * 1000

  function Min(a: int, b: int): int
  {
    if a <= b then a else b
  }

  /** The ramped percentage: `floor(min(elapsed / 7 days, 1) * percentage)`, in exact arithmetic. */
  function GradualPercentage(elapsed: int, percentage: int): (p: int)
    ensures elapsed >= RolloutDurationMs ==> p == percentage
    ensures elapsed <= 0 && percentage >= 0 ==> p <= 0
  {
    (Min(elapsed, RolloutDurationMs) * percentage) / RolloutDurationMs
  }

  /** `isUserInGradualRollout`: the percentage rollout at the ramped percentage. */
  function InGradualRollout(md5: Md5Prefix, user: User, flag: FeatureFlag, now: int): (r: bool)
    ensures now - flag.createdAt >= RolloutDurationMs ==> r == InPercentageRollout(md5, user.id, flag.rolloutPercentage)
    ensures now - flag.createdAt <= 0 && flag.rolloutPercentage >= 0 ==> !r
  {
    InPercentageRollout(md5, user.id, GradualPercentage(now - flag.createdAt, flag.rolloutPercentage))
  }

  lemma MulLeftMonotone(a: int, b: int, c: int)
    requires a <= b && c >= 0
    ensures a * c <= b * c
  {
  }

  lemma DivMonotone(x: int, y: int)
    requires x <= y
    ensures x / RolloutDurationMs <= y / RolloutDurationMs
  {
  }

  /** The ramp never exceeds the flag's own percentage. */
  lemma GradualNeverExceeds(elapsed: int, percentage: int)
    requires percentage >= 0
    ensures GradualPercentage(elapsed, percentage) <= percentage
  {
    MulLeftMonotone(Min(elapsed, RolloutDurationMs), RolloutDurationMs, percentage);
    DivMonotone(Min(elapsed, RolloutDurationMs) * percentage, RolloutDurationMs * percentage);
  }

  /** After seven days the ramp is the flag's percentage. */
  lemma GradualCompleteAfterWindow(elapsed: int, percentage: int)
    requires elapsed >= RolloutDurationMs
    ensures GradualPercentage(elapsed, percentage) == percentage
  {
  }

  /** The ramp never goes down as time advances. */
  lemma GradualMonotoneInTime(e1: int, e2: int, percentage: int)
    requires e1 <= e2 && percentage >= 0
    ensures GradualPercentage(e1, percentage) <= GradualPercentage(e2, percentage)
  {
    MulLeftMonotone(Min(e1, RolloutDurationMs), Min(e2, RolloutDurationMs), percentage);
    DivMonotone(Min(e1, RolloutDurationMs) * percentage, Min(e2, RolloutDurationMs) * percentage);
  }

  /** Until the flag's creation instant has passed, nobody is in the gradual rollout. */
  lemma GradualOffUntilStart(md5: Md5Prefix, user: User, flag: FeatureFlag, now: int)
    requires flag.rolloutPercentage >= 0 && now <= flag.createdAt
    ensures !InGradualRollout(md5, user, flag, now)
  {
    MulLeftMonotone(Min(now - flag.createdAt, RolloutDurationMs), 0, flag.rolloutPercentage);
    DivMonotone(Min(now - flag.createdAt, RolloutDurationMs) * flag.rolloutPercentage, 0);
  }

  /** After seven days the gradual rollout is the flat percentage rollout. */
  lemma GradualBecomesPercentage(md5: Md5Prefix, user: User, flag: FeatureFlag, now: int)
    requires now - flag.createdAt >= RolloutDurationMs
    ensures InGradualRollout(md5, user, flag, now) == InPercentageRollout(md5, user.id, flag.rolloutPercentage)
  {
    GradualCompleteAfterWindow(now - flag.createdAt, flag.rolloutPercentage);
  }

  /** Once a user is in, they stay in as time goes on. */
  lemma GradualStaysOn(md5: Md5Prefix, user: User, flag: FeatureFlag, t1: int, t2: int)
    requires t1 <= t2 && flag.rolloutPercentage >= 0
    ensures InGradualRollout(md5, user, flag, t1) ==> InGradualRollout(md5, user, flag, t2)
  {
    GradualMonotoneInTime(t1 - flag.createdAt, t2 - flag.createdAt, flag.rolloutPercentage);
    PercentageMonotone(md5, user.id,
      GradualPercentage(t1 - flag.createdAt, flag.rolloutPercentage),
      GradualPercentage(t2 - flag.createdAt, flag.rolloutPercentage));
  }

  /**
   * The ratio is not clamped below: a creation instant a week in the future and
   * a percentage of -50 ramp to +50.
   */
  lemma NegativeRampQuirk()
    ensures GradualPercentage(-RolloutDurationMs, -50) == 50
  {
  }

  // ---------------------------------------------------------------------------
  // Strategy dispatch and the whole decision

  datatype Decision = Decision(isAssigned: bool, reason: string)

  /**
   * The `switch` on `rolloutStrategy`: a fresh decision and the reason recorded
   * with it. Each strategy hands over to its own check; `user_list` and unknown
   * strategies fall to the default.
   */
  function StrategyDecision(md5: Md5Prefix, flag: FeatureFlag, user: User, targetingRows: seq<FeatureTargeting>,
                            segments: seq<UserSegment>, now: int): (d: Decision)
    ensures flag.rolloutStrategy == Percentage ==>
      d == Decision(InPercentageRollout(md5, user.id, flag.rolloutPercentage),
                    "percentage_rollout_" + JsString.IntToDecimal(flag.rolloutPercentage))
    ensures flag.rolloutStrategy == Segment ==>
      d == Decision(InSegmentRollout(md5, user, TargetingFor(targetingRows, flag.id), segments), "segment_based")
    ensures flag.rolloutStrategy == Gradual ==> d == Decision(InGradualRollout(md5, user, flag, now), "gradual_rollout")
    ensures !flag.rolloutStrategy.Segment? && !flag.rolloutStrategy.Gradual? ==>
      (flag.rolloutPercentage >= 100 ==> d.isAssigned) && (flag.rolloutPercentage <= 0 ==> !d.isAssigned)
    ensures flag.rolloutStrategy.Segment? && TargetingFor(targetingRows, flag.id) == [] ==> !d.isAssigned
    ensures flag.rolloutStrategy.Gradual? && now - flag.createdAt >= RolloutDurationMs ==>
      d.isAssigned == InPercentageRollout(md5, user.id, flag.rolloutPercentage)
  {
    match flag.rolloutStrategy
    case Percentage =>
      Decision(InPercentageRollout(md5, user.id, flag.rolloutPercentage),
               "percentage_rollout_" + JsString.IntToDecimal(flag.rolloutPercentage))
    case Segment =>
      Decision(InSegmentRollout(md5, user, TargetingFor(targetingRows, flag.id), segments), "segment_based")
    case Gradual =>
      Decision(InGradualRollout(md5, user, flag, now), "gradual_rollout")
    case _ =>
      Decision(flag.rolloutPercentage >= 100, "default")
  }

  /** `user_list` and unknown strategies fall to the default: on only at 100% or more. */
  lemma OtherStrategiesNeedFullRollout(md5: Md5Prefix, flag: FeatureFlag, user: User,
                                       targetingRows: seq<FeatureTargeting>, segments: seq<UserSegment>, now: int)
    requires flag.rolloutStrategy.UserList? || flag.rolloutStrategy.OtherStrategy?
    ensures StrategyDecision(md5, flag, user, targetingRows, segments, now)
         == Decision(flag.rolloutPercentage >= 100, "default")
  {
  }

  /** A percentage decision's reason records the percentage it used, and no other. */
  lemma PercentageReasonRecordsPercentage(md5: Md5Prefix, f1: FeatureFlag, f2: FeatureFlag, user: User,
                                          targetingRows: seq<FeatureTargeting>, segments: seq<UserSegment>, now: int)
    requires f1.rolloutStrategy == Percentage && f2.rolloutStrategy == Percentage
    requires StrategyDecision(md5, f1, user, targetingRows, segments, now).reason
          == StrategyDecision(md5, f2, user, targetingRows, segments, now).reason
    ensures f1.rolloutPercentage == f2.rolloutPercentage
  {
    var p := "percentage_rollout_";
    var s1 := JsString.IntToDecimal(f1.rolloutPercentage);
    var s2 := JsString.IntToDecimal(f2.rolloutPercentage);
    assert (p + s1)[|p|..] == s1 && (p + s2)[|p|..] == s2;
    JsString.IntToDecimalInjective(f1.rolloutPercentage, f2.rolloutPercentage);
  }

  type AssignmentKey = (string, int)
  type AssignmentStore = map<AssignmentKey, UserFeatureAssignment>

  datatype Outcome = Outcome(enabled: bool, assignments: AssignmentStore)

  /**
   * `isFeatureEnabled` once the flag is known: a missing or disabled flag is
   * off; a stored assignment answers; otherwise the strategy decides and the
   * decision is stored.
   */
  function Evaluate(md5: Md5Prefix, flag: Option<FeatureFlag>, user: User, assignments: AssignmentStore,
                    targetingRows: seq<FeatureTargeting>, segments: seq<UserSegment>, now: int): (o: Outcome)
    ensures o.enabled ==> flag.Some? && flag.value.enabled
    ensures flag.None? || !flag.value.enabled ==> o.assignments == assignments
    ensures forall k :: k in assignments ==> k in o.assignments && o.assignments[k] == assignments[k]
    ensures flag.Some? && flag.value.enabled ==>
      && o.assignments.Keys == assignments.Keys + {(user.id, flag.value.id)}
      && o.assignments[(user.id, flag.value.id)].isAssigned == o.enabled
    ensures flag.Some? && flag.value.enabled && (user.id, flag.value.id) in assignments ==>
      o.enabled == assignments[(user.id, flag.value.id)].isAssigned
    ensures flag.Some? && flag.value.enabled && (user.id, flag.value.id) !in assignments ==>
      var d := StrategyDecision(md5, flag.value, user, targetingRows, segments, now);
      o.enabled == d.isAssigned && o.assignments[(user.id, flag.value.id)].assignmentReason == d.reason
  {
    match flag
    case None => Outcome(false, assignments)
    case Some(f) =>
      if !f.enabled then Outcome(false, assignments)
      else if (user.id, f.id) in assignments then Outcome(assignments[(user.id, f.id)].isAssigned, assignments)
      else
        var d := StrategyDecision(md5, f, user, targetingRows, segments, now);
        Outcome(d.isAssigned, assignments[(user.id, f.id) := UserFeatureAssignment(user.id, f.id, d.isAssigned, d.reason)])
  }

  /** A missing or disabled flag is off, whatever is stored, and nothing is written. */
  lemma DisabledFlagIsOff(md5: Md5Prefix, flag: Option<FeatureFlag>, user: User, a1: AssignmentStore,
                          targetingRows: seq<FeatureTargeting>, segments: seq<UserSegment>, now: int)
    requires flag.None? || !flag.value.enabled
    ensures !Evaluate(md5, flag, user, a1, targetingRows, segments, now).enabled
    ensures Evaluate(md5, flag, user, a1, targetingRows, segments, now).assignments == a1
  {
  }

  /** An enabled flag with a stored assignment returns it and writes nothing. */
  lemma StoredAssignmentWins(md5: Md5Prefix, f: FeatureFlag, user: User, assignments: AssignmentStore,
                             targetingRows: seq<FeatureTargeting>, segments: seq<UserSegment>, now: int)
    requires f.enabled && (user.id, f.id) in assignments
    ensures Evaluate(md5, Some(f), user, assignments, targetingRows, segments, now)
         == Outcome(assignments[(user.id, f.id)].isAssigned, assignments)
  {
  }

  /**
   * Without a stored assignment the answer is the strategy's decision, and
   * exactly one entry is added, for this user and flag; it holds that answer
   * and the strategy's reason, and every other entry is kept.
   */
  lemma NewDecisionStored(md5: Md5Prefix, f: FeatureFlag, user: User, assignments: AssignmentStore,
                          targetingRows: seq<FeatureTargeting>, segments: seq<UserSegment>, now: int)
    requires f.enabled && (user.id, f.id) !in assignments
    ensures var o := Evaluate(md5, Some(f), user, assignments, targetingRows, segments, now);
      && o.enabled == StrategyDecision(md5, f, user, targetingRows, segments, now).isAssigned
      && o.assignments.Keys == assignments.Keys + {(user.id, f.id)}
      && o.assignments[(user.id, f.id)].isAssigned == o.enabled
      && o.assignments[(user.id, f.id)].assignmentReason
         == StrategyDecision(md5, f, user, targetingRows, segments, now).reason
      && forall k :: k in assignments ==> o.assignments[k] == assignments[k]
  {
  }

  /**
   * A fresh answer, strategy by strategy: a percentage rollout compares the
   * user's bucket with the percentage, a segment rollout consults the flag's
   * own targeting rows, and a gradual rollout compares the bucket with the
   * ramped percentage.
   */
  lemma FreshAnswerByStrategy(md5: Md5Prefix, f: FeatureFlag, user: User, assignments: AssignmentStore,
                              targetingRows: seq<FeatureTargeting>, segments: seq<UserSegment>, now: int)
    requires f.enabled && (user.id, f.id) !in assignments
    ensures var o := Evaluate(md5, Some(f), user, assignments, targetingRows, segments, now);
      && (f.rolloutStrategy == Percentage ==> (o.enabled <==> Bucket(md5, user.id) < f.rolloutPercentage))
      && (f.rolloutStrategy == Segment ==>
            o.enabled == InSegmentRollout(md5, user, TargetingFor(targetingRows, f.id), segments))
      && (f.rolloutStrategy == Gradual ==>
            (o.enabled <==> Bucket(md5, user.id) < GradualPercentage(now - f.createdAt, f.rolloutPercentage)))
  {
    PercentageIsBucketThreshold(md5, user.id, f.rolloutPercentage);
    PercentageIsBucketThreshold(md5, user.id, GradualPercentage(now - f.createdAt, f.rolloutPercentage));
  }

  /**
   * Stickiness: after one evaluation, a later one for the same user and flag id
   * returns the same answer and writes nothing, however the flag's percentage,
   * strategy, targeting, segments or the clock have changed meanwhile.
   */
  lemma StickyAcrossReconfiguration(md5: Md5Prefix, f1: FeatureFlag, f2: FeatureFlag, user: User,
                                    assignments: AssignmentStore,
                                    rows1: seq<FeatureTargeting>, segs1: seq<UserSegment>, now1: int,
                                    rows2: seq<FeatureTargeting>, segs2: seq<UserSegment>, now2: int)
    requires f1.enabled && f2.enabled && f1.id == f2.id
    ensures var o1 := Evaluate(md5, Some(f1), user, assignments, rows1, segs1, now1);
            var o2 := Evaluate(md5, Some(f2), user, o1.assignments, rows2, segs2, now2);
            o2 == Outcome(o1.enabled, o1.assignments)
  {
  }
}
