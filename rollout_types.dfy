/**
 * The records of the gradual-rollout service. Dates are integer milliseconds
 * since the epoch; optional fields are `Option`s; dynamic JSON values are
 * `Value`s.
 */
module RolloutTypes {
  import opened Wrappers

  /** An unsigned 32-bit integer. */
  type Word32 = n: nat | n < 0x1_0000_0000

  /**
   * The MD5 digest of a user id, reduced to the number its first 8 hex digits
   * spell. MD5 itself is outside the model: every function of this type is a
   * possible digest.
   */
  type Md5Prefix = string -> Word32

  /** A dynamic value read from user metadata or from a JSON segment rule. */
  datatype Value = Str(s: string) | Num(n: int) | Bool(b: bool) | Undef

  datatype User = User(
    id: string,
    email: string,
    role: string,
    segment: Option<string>,
    registrationDate: Option<int>,
    metadata: Option<map<string, Value>>)

  /** The `rollout_strategy` column; anything it holds beyond the four known names is `OtherStrategy`. */
  datatype Strategy = Percentage | Segment | UserList | Gradual | OtherStrategy(name: string)

  datatype FeatureFlag = FeatureFlag(
    id: int,
    name: string,
    description: Option<string>,
    enabled: bool,
    rolloutPercentage: int,
    rolloutStrategy: Strategy,
    environment: string,
    createdAt: int,
    updatedAt: int,
    createdBy: Option<string>)

  /** A custom-rule operator; an operator name outside the five known ones is `OtherOperator`. */
  datatype Operator = Equals | NotEquals | Contains | GreaterThan | LessThan | OtherOperator(name: string)

  datatype CustomRule = CustomRule(field: string, operator: Operator, value: Value)

  datatype SegmentCriteria = SegmentCriteria(
    role: Option<seq<string>>,
    registrationDateAfter: Option<int>,
    registrationDateBefore: Option<int>,
    metadata: Option<map<string, Value>>,
    customRules: Option<seq<CustomRule>>)

  datatype UserSegment = UserSegment(
    id: int,
    name: string,
    description: Option<string>,
    criteria: SegmentCriteria,
    createdAt: int)

  datatype FeatureTargeting = FeatureTargeting(
    id: int,
    featureFlagId: int,
    segmentId: int,
    enabled: bool,
    rolloutPercentage: int,
    createdAt: int)

  /** A stored decision; the table's own row id and timestamp are left out. */
  datatype UserFeatureAssignment = UserFeatureAssignment(
    userId: string,
    featureFlagId: int,
    isAssigned: bool,
    assignmentReason: string)

  datatype RolloutStage = RolloutStage(
    stage: int,
    percentage: int,
    duration: int,
    criteria: Option<string>,
    startTime: Option<int>,
    endTime: Option<int>)

  /** A plan shares its stage array with the caller, as the source's object does. */
  datatype RolloutPlan = RolloutPlan(
    featureName: string,
    stages: array<RolloutStage>,
    currentStage: int,
    totalDuration: int)

  /** A `rollout_updated` row of the flag history: the flag, its old and new percentage, who changed it. */
  datatype HistoryEntry = HistoryEntry(flagId: int, oldPercentage: int, newPercentage: int, changedBy: Option<string>)

  /** One row of the per-day analytics query: an event type, its count, its day. */
  datatype AnalyticsRow = AnalyticsRow(eventType: string, count: int, date: string)
}
