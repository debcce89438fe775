/**
 * `groupAnalyticsByDate`: the per-day breakdown of a flag's analytics. Each
 * row of the query carries a day, an event type and that day's count of the
 * event; the breakdown maps every day that occurs to its counts, starting
 * from zero for `enabled`, `disabled` and `used`.
 */
module RolloutAnalytics {
  import opened Wrappers
  import opened RolloutTypes

  type DayCounts = map<string, int>
  type Breakdown = map<string, DayCounts>

  /** The counts a day starts with when it is first seen. */
  const EmptyDay: DayCounts := map["enabled" := 0, "disabled" := 0, "used" := 0]

  /** The breakdown after folding in `rows` in order: later rows overwrite earlier ones. */
  function GroupByDate(rows: seq<AnalyticsRow>): (grouped: Breakdown)
    ensures forall date :: date in grouped ==> EmptyDay.Keys <= grouped[date].Keys
  {
    if rows == [] then map[]
    else
      var grouped := GroupByDate(rows[..|rows| - 1]);
      var row := rows[|rows| - 1];
      var day := if row.date in grouped then grouped[row.date] else EmptyDay;
      grouped[row.date := day[row.eventType := row.count]]
  }

  predicate RowFor(row: AnalyticsRow, date: string, eventType: string)
  {
    row.date == date && row.eventType == eventType
  }

  /** The count of the last row for `date` and `eventType`, if there is one. */
  function LastCount(rows: seq<AnalyticsRow>, date: string, eventType: string): (r: Option<int>)
    ensures r.None? <==> forall i :: 0 <= i < |rows| ==> !RowFor(rows[i], date, eventType)
    ensures r.Some? ==> exists i :: 0 <= i < |rows| && RowFor(rows[i], date, eventType) && rows[i].count == r.value
                          && forall j :: i < j < |rows| ==> !RowFor(rows[j], date, eventType)
  {
    if rows == [] then None
    else if RowFor(rows[|rows| - 1], date, eventType) then Some(rows[|rows| - 1].count)
    else
      var r := LastCount(rows[..|rows| - 1], date, eventType);
      assert forall i :: 0 <= i < |rows| - 1 ==> rows[..|rows| - 1][i] == rows[i];
      r
  }

  /** The days of the breakdown are exactly the days of the rows. */
  lemma {:induction false} GroupedDays(rows: seq<AnalyticsRow>, date: string)
    ensures date in GroupByDate(rows) <==> exists i :: 0 <= i < |rows| && rows[i].date == date
    decreases |rows|
  {
    if rows != [] {
      var init := rows[..|rows| - 1];
      GroupedDays(init, date);
      assert forall i :: 0 <= i < |init| ==> init[i] == rows[i];
      if date in GroupByDate(init) {
        var i :| 0 <= i < |init| && init[i].date == date;
        assert rows[i].date == date;
      }
    }
  }

  /**
   * Each day holds `enabled`, `disabled` and `used` and the event types of its
   * rows; an event's count is its last row's count, and zero for a default
   * event with no row.
   */
  lemma {:induction false} GroupedCounts(rows: seq<AnalyticsRow>, date: string, eventType: string)
    requires date in GroupByDate(rows)
    ensures eventType in GroupByDate(rows)[date] <==> LastCount(rows, date, eventType).Some? || eventType in EmptyDay
    ensures eventType in GroupByDate(rows)[date] ==>
      GroupByDate(rows)[date][eventType] == LastCount(rows, date, eventType).GetOr(0)
    decreases |rows|
  {
    var init := rows[..|rows| - 1];
    var row := rows[|rows| - 1];
    if date in GroupByDate(init) {
      GroupedCounts(init, date, eventType);
    } else if row.date == date {
      assert LastCount(init, date, eventType).None? by {
        GroupedDays(init, date);
      }
    }
  }

  /** The `forEach` over the rows, filling the dictionary in place. */
  method GroupAnalyticsByDate(rows: seq<AnalyticsRow>) returns (grouped: Breakdown)
    ensures grouped == GroupByDate(rows)
  {
    grouped := map[];
    for i := 0 to |rows|
      invariant grouped == GroupByDate(rows[..i])
    {
      var item := rows[i];
      if item.date !in grouped {
        grouped := grouped[item.date := EmptyDay];
      }
      grouped := grouped[item.date := grouped[item.date][item.eventType := item.count]];
      assert rows[..i + 1][..i] == rows[..i];
    }
    assert rows[..|rows|] == rows;
  }
}
