/**
 * Rollout plans: `createRolloutPlan` lays the stages out back to back from the
 * current instant, writing each stage's window into the caller's array, and
 * `executeGradualRollout` applies the stages' percentages one after another,
 * each update leaving one `rollout_updated` history row.
 */
module RolloutPlanning {
  import opened Wrappers
  import opened RolloutTypes

  /** `stages.reduce((sum, stage) => sum + stage.duration, 0)`: a left fold, so recursion from the back. */
  function TotalDuration(stages: seq<RolloutStage>): (total: int)
    ensures (forall i :: 0 <= i < |stages| ==> stages[i].duration >= 0) ==>
      total >= 0 && forall i :: 0 <= i < |stages| ==> stages[i].duration <= total
  {
    if stages == [] then 0
    else TotalDuration(stages[..|stages| - 1]) + stages[|stages| - 1].duration
  }

  /** The same sum, taken from the front. */
  lemma {:induction false} TotalDurationFront(stages: seq<RolloutStage>)
    requires stages != []
    ensures TotalDuration(stages) == stages[0].duration + TotalDuration(stages[1..])
    decreases |stages|
  {
    if |stages| > 1 {
      var init := stages[..|stages| - 1];
      TotalDurationFront(init);
      assert init[1..] == stages[1..][..|stages[1..]| - 1];
    }
  }

  /** A stage with its window set: it starts at `start` and ends `duration` later. */
  function Scheduled(stage: RolloutStage, start: int): RolloutStage
  {
    stage.(startTime := Some(start), endTime := Some(start + stage.duration))
  }

  /** The stages as `createRolloutPlan` leaves them: each one starts where the previous one ended. */
  function Layout(stages: seq<RolloutStage>, start: int): (r: seq<RolloutStage>)
    ensures |r| == |stages|
  {
    if stages == [] then []
    else [Scheduled(stages[0], start)] + Layout(stages[1..], start + stages[0].duration)
  }

  /** Stage `i` starts once the stages before it have run their durations. */
  lemma {:induction false} LayoutAt(stages: seq<RolloutStage>, start: int, i: nat)
    requires i < |stages|
    ensures Layout(stages, start)[i] == Scheduled(stages[i], start + TotalDuration(stages[..i]))
    decreases i
  {
    if i > 0 {
      LayoutAt(stages[1..], start + stages[0].duration, i - 1);
      TotalDurationFront(stages[..i]);
      assert stages[..i][1..] == stages[1..][..i - 1];
    }
  }

  /** The first stage starts at the given instant. */
  lemma FirstStageStartsNow(stages: seq<RolloutStage>, start: int)
    requires stages != []
    ensures Layout(stages, start)[0].startTime == Some(start)
  {
  }

  /** Each stage ends where the next one starts, and lasts its own duration. */
  lemma StagesBackToBack(stages: seq<RolloutStage>, start: int, i: nat)
    requires i + 1 < |stages|
    ensures Layout(stages, start)[i].endTime == Layout(stages, start)[i + 1].startTime
    ensures var r := Layout(stages, start);
      r[i].startTime.Some? && r[i].endTime == Some(r[i].startTime.value + stages[i].duration)
  {
    LayoutAt(stages, start, i);
    LayoutAt(stages, start, i + 1);
    assert stages[..i + 1][..i] == stages[..i];
  }

  /** The last stage ends `totalDuration` after the start. */
  lemma LastStageEndsAtTotal(stages: seq<RolloutStage>, start: int)
    requires stages != []
    ensures Layout(stages, start)[|stages| - 1].endTime == Some(start + TotalDuration(stages))
  {
    LayoutAt(stages, start, |stages| - 1);
  }

  /** Only the two window fields change; stage number, percentage, duration and criteria are kept. */
  lemma LayoutKeepsStages(stages: seq<RolloutStage>, start: int, i: nat)
    requires i < |stages|
    ensures var s := Layout(stages, start)[i];
      s.(startTime := stages[i].startTime, endTime := stages[i].endTime) == stages[i]
  {
    LayoutAt(stages, start, i);
  }

  /**
   * `createRolloutPlan(featureName, stages)` at instant `now`: a plan on stage 0
   * that shares the caller's array, whose windows the loop fills in.
   */
  method CreateRolloutPlan(featureName: string, stages: array<RolloutStage>, now: int) returns (plan: RolloutPlan)
    modifies stages
    ensures plan == RolloutPlan(featureName, stages, 0, TotalDuration(old(stages[..])))
    ensures stages[..] == Layout(old(stages[..]), now)
  {
    ghost var given := stages[..];
    var totalDuration := TotalDuration(stages[..]);
    plan := RolloutPlan(featureName, stages, 0, totalDuration);
    ghost var layout := Layout(given, now);
    var currentTime := now;
    for i := 0 to stages.Length
      invariant currentTime == now + TotalDuration(given[..i])
      invariant forall k :: 0 <= k < i ==> stages[k] == layout[k]
      invariant forall k :: i <= k < stages.Length ==> stages[k] == given[k]
    {
      LayoutAt(given, now, i);
      var stage := stages[i];
      stages[i] := Scheduled(stage, currentTime);
      assert given[..i + 1][..i] == given[..i];
      currentTime := currentTime + stage.duration;
    }
    assert stages[..] == layout;
  }

  // ---------------------------------------------------------------------------
  // The history rows a sequence of percentage updates leaves

  /** The percentage in force after applying `stages` to a flag that was at `from`. */
  function PercentageAfter(from: int, stages: seq<RolloutStage>): int
  {
    if stages == [] then from else stages[|stages| - 1].percentage
  }

  /**
   * The `rollout_updated` rows that applying `stages` in order to flag `flagId`,
   * starting at percentage `from`, appends to the history.
   */
  function StageEntries(flagId: int, from: int, stages: seq<RolloutStage>, changedBy: Option<string>): (h: seq<HistoryEntry>)
    ensures |h| == |stages|
  {
    if stages == [] then []
    else
      var init := stages[..|stages| - 1];
      StageEntries(flagId, from, init, changedBy)
        + [HistoryEntry(flagId, PercentageAfter(from, init), stages[|stages| - 1].percentage, changedBy)]
  }

  /** Applying one more stage appends one row, from the percentage in force to the stage's. */
  lemma StageEntriesSnoc(flagId: int, from: int, stages: seq<RolloutStage>, changedBy: Option<string>, i: nat)
    requires i < |stages|
    ensures StageEntries(flagId, from, stages[..i + 1], changedBy)
         == StageEntries(flagId, from, stages[..i], changedBy)
            + [HistoryEntry(flagId, PercentageAfter(from, stages[..i]), stages[i].percentage, changedBy)]
  {
    assert stages[..i + 1][..i] == stages[..i];
  }

  /**
   * The stages are applied in plan order: row `k` moves the flag from the
   * previous stage's percentage (the starting one for row 0) to stage `k`'s.
   */
  lemma {:induction false} StageEntriesInOrder(flagId: int, from: int, stages: seq<RolloutStage>,
                                               changedBy: Option<string>, k: nat)
    requires k < |stages|
    ensures StageEntries(flagId, from, stages, changedBy)[k]
         == HistoryEntry(flagId, if k == 0 then from else stages[k - 1].percentage, stages[k].percentage, changedBy)
    decreases |stages|
  {
    var init := stages[..|stages| - 1];
    if k < |stages| - 1 {
      StageEntriesInOrder(flagId, from, init, changedBy, k);
    }
  }
}
