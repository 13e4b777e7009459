/** The dashboard endpoints of the backend (server.js) that compute rather than only
    query: the weekly revenue chart and the revenue KPI's default.

    Days are whole day numbers counted from 1970-01-01, which was a Thursday; a chart
    label is the day it names (the `'MMM dd'` text differs for any two days less than a
    year apart, so nothing is lost for the seven consecutive labels). The SQL that sums
    parcel amounts per day is an injected query: given a window it returns, per day,
    the summed amount (`None` for a SQL NULL sum), or fails.

    Two behaviours of the surrounding handlers are recorded here but not modelled:
    the user delete removes the user's parcels before it checks that the user exists,
    as two separate statements without a transaction (server.js:44-51); and the
    last-week query's upper bound is the instant Sunday 00:00, so almost all of that
    Sunday's parcels fall outside `BETWEEN`, which a whole-day model cannot express. */
module Server {
  import opened Wrappers

  type Day = int

  /** The per-day rows of one query: `DATE(created_at)` to `SUM(amount)`. */
  type DayRows = map<Day, Option<int>>

  /** Day of the week as `Date.getDay` numbers it: 0 is Sunday, 1 is Monday. */
  function Weekday(d: Day): (w: int)
    ensures 0 <= w < 7
  {
    (d + 4) % 7
  }

  /** `startOfWeek(d, { weekStartsOn: 1 })`, with date-fns' own offset computation. */
  function StartOfWeek(d: Day): (r: Day)
    ensures Weekday(r) == 1
    ensures d - 6 <= r <= d
    ensures forall m :: r < m <= d ==> Weekday(m) != 1
  {
    var day := Weekday(d);
    var diff := (if day < 1 then 7 else 0) + day - 1;
    var q := (d + 4) / 7;
    assert d + 4 == 7 * q + day;
    var r := d - diff;
    assert r + 4 == 7 * (if day < 1 then q - 1 else q) + 1;
    r
  }

  /** `labels`: the seven days ending today, oldest first. */
  function Labels(today: Day): (r: seq<Day>)
    ensures |r| == 7 && r[0] == today - 6 && r[6] == today
    ensures forall i :: 0 < i < |r| ==> r[i] == r[i - 1] + 1
  {
    seq(7, i => today - 6 + i)
  }

  /** Consecutive days are distinct, so every label is different. */
  lemma LabelsDistinct(today: Day)
    ensures var ls := Labels(today);
            forall i, j :: 0 <= i < j < |ls| ==> ls[i] < ls[j]
  {
    var ls := Labels(today);
    forall i, j | 0 <= i < j < |ls| ensures ls[i] < ls[j] {
      assert ls[i] == today - 6 + i && ls[j] == today - 6 + j;
    }
  }

  /** An inclusive range of days, as passed to `BETWEEN ? AND ?`. */
  datatype Window = Window(start: Day, end: Day) {
    predicate Contains(d: Day) {
      start <= d <= end
    }
  }

  /** The current window: from this week's Monday through today. */
  function ThisWeek(today: Day): Window {
    Window(StartOfWeek(today), today)
  }

  /** The previous window: the seven days before this week's Monday. */
  function LastWeek(today: Day): Window {
    Window(StartOfWeek(today) - 7, StartOfWeek(today) - 1)
  }

  /** The previous window is a whole Monday-to-Sunday week that ends the day before the
      current window starts, so the two never share a day; the current window holds 1
      to 7 days. */
  lemma WindowsAreAdjacent(today: Day)
    ensures var tw, lw := ThisWeek(today), LastWeek(today);
            && lw.end + 1 == tw.start
            && lw.end - lw.start == 6
            && Weekday(lw.start) == 1 && Weekday(lw.end) == 0
            && 0 <= tw.end - tw.start <= 6
            && forall d :: !(tw.Contains(d) && lw.Contains(d))
  {
    var s := StartOfWeek(today);
    assert (s - 7 + 4) % 7 == (s + 4) % 7;
    assert (s - 1 + 4) % 7 == 0;
  }

  /** `map.get(label) || 0`: the row's sum, or 0 when there is no row or the sum is NULL. */
  function RevenueAt(rows: DayRows, d: Day): (v: int)
    ensures d in rows && rows[d].Some? ==> v == rows[d].value
    ensures d !in rows || rows[d].None? ==> v == 0
  {
    if d in rows then rows[d].GetOr(0) else 0
  }

  /** `getDailyRevenue`'s projection: one value per label, in label order. */
  function Project(labels: seq<Day>, rows: DayRows): (r: seq<int>)
    ensures |r| == |labels|
    ensures forall i :: 0 <= i < |r| && labels[i] !in rows ==> r[i] == 0
    ensures forall i :: 0 <= i < |r| && r[i] != 0 ==> labels[i] in rows && rows[labels[i]] == Some(r[i])
    ensures forall i :: 0 <= i < |r| && labels[i] in rows && rows[labels[i]].Some? ==> r[i] == rows[labels[i]].value
    ensures forall i :: 0 <= i < |r| && labels[i] in rows && rows[labels[i]].None? ==> r[i] == 0
  {
    seq(|labels|, i requires 0 <= i < |labels| => RevenueAt(rows, labels[i]))
  }

  /** The chart body: shared labels, the `This Week` series and the `Last Week` series. */
  datatype Chart = Chart(labels: seq<Day>, thisWeek: seq<int>, lastWeek: seq<int>)

  const RevenueError := "Failed to fetch revenue data"

  /** `GET /api/dashboard/revenue`. Both windows are queried; both series are projected
      onto the current labels; any failed query fails the whole request. */
  function RevenueHandler(today: Day, query: (Day, Day) -> Option<DayRows>): (r: Result<Chart>)
    ensures r.Err? <==> query(StartOfWeek(today), today).None? ||
                        query(StartOfWeek(today) - 7, StartOfWeek(today) - 1).None?
    ensures r.Err? ==> r.message == "Failed to fetch revenue data"
    ensures r.Ok? ==> && r.value.labels == Labels(today)
                      && |r.value.thisWeek| == 7 && |r.value.lastWeek| == 7
    ensures r.Ok? ==> r.value.thisWeek == Project(Labels(today), query(StartOfWeek(today), today).value)
    ensures r.Ok? ==> r.value.lastWeek ==
                        Project(Labels(today), query(StartOfWeek(today) - 7, StartOfWeek(today) - 1).value)
  {
    var labels := Labels(today);
    var thisWeekStart := StartOfWeek(today);
    var lastWeekStart := thisWeekStart - 7;
    var lastWeekEnd := thisWeekStart - 1;
    match query(thisWeekStart, today)
    case None => Err(RevenueError)
    case Some(thisRows) =>
      match query(lastWeekStart, lastWeekEnd)
      case None => Err(RevenueError)
      case Some(lastRows) => Ok(Chart(labels, Project(labels, thisRows), Project(labels, lastRows)))
  }

  /** The store answers a window query only with days inside the window
      (`WHERE created_at BETWEEN ? AND ? GROUP BY DATE(created_at)`). */
  ghost predicate QueryWithin(query: (Day, Day) -> Option<DayRows>) {
    forall lo, hi, d :: query(lo, hi).Some? && d in query(lo, hi).value ==> lo <= d <= hi
  }

  /** Because both series use the current labels, a label before this week's Monday can
      only carry last week's revenue and a label from Monday on only this week's: at every
      label at least one series is 0. */
  lemma SeriesSplitAtMonday(today: Day, query: (Day, Day) -> Option<DayRows>)
    requires QueryWithin(query)
    requires RevenueHandler(today, query).Ok?
    ensures var c := RevenueHandler(today, query).value;
            forall i :: 0 <= i < 7 ==>
              && (c.labels[i] < StartOfWeek(today) ==> c.thisWeek[i] == 0)
              && (c.labels[i] >= StartOfWeek(today) ==> c.lastWeek[i] == 0)
              && (c.thisWeek[i] == 0 || c.lastWeek[i] == 0)
  {
    var c := RevenueHandler(today, query).value;
    var s := StartOfWeek(today);
    var thisRows := query(s, today).value;
    var lastRows := query(s - 7, s - 1).value;
    forall i | 0 <= i < 7
      ensures (c.labels[i] < s ==> c.thisWeek[i] == 0) && (c.labels[i] >= s ==> c.lastWeek[i] == 0)
    {
      if c.thisWeek[i] != 0 {
        assert c.labels[i] in thisRows;
      }
      if c.lastWeek[i] != 0 {
        assert c.labels[i] in lastRows;
      }
    }
  }

  /** On a Sunday the labels are exactly this week, so the `Last Week` series is all
      zeros whatever last week earned. */
  lemma LastWeekBlankOnSunday(today: Day, query: (Day, Day) -> Option<DayRows>)
    requires QueryWithin(query)
    requires Weekday(today) == 0
    requires RevenueHandler(today, query).Ok?
    ensures forall i :: 0 <= i < 7 ==> RevenueHandler(today, query).value.lastWeek[i] == 0
  {
    assert StartOfWeek(today) == today - 6;
    SeriesSplitAtMonday(today, query);
  }

  /** Every day the store reports inside this week's window shows up under its own label
      in the `This Week` series (the labels cover the whole current window). */
  lemma ThisWeekFullyShown(today: Day, query: (Day, Day) -> Option<DayRows>, d: Day)
    requires RevenueHandler(today, query).Ok?
    requires StartOfWeek(today) <= d <= today
    ensures var c := RevenueHandler(today, query).value;
            c.thisWeek[d - today + 6] == RevenueAt(query(StartOfWeek(today), today).value, d)
  {
  }

  /** The labels before this week's Monday fall inside last week's window, and there the
      `Last Week` series shows last week's own sum for that day. */
  lemma LastWeekShownBeforeMonday(today: Day, query: (Day, Day) -> Option<DayRows>, d: Day)
    requires RevenueHandler(today, query).Ok?
    requires today - 6 <= d < StartOfWeek(today)
    ensures LastWeek(today).Contains(d)
    ensures var c := RevenueHandler(today, query).value;
            c.lastWeek[d - today + 6] ==
              RevenueAt(query(StartOfWeek(today) - 7, StartOfWeek(today) - 1).value, d)
  {
  }

  /** The revenue KPI value: `totalRevenue || 0`, so a NULL sum (no parcels in the last
      30 days) reads as 0. */
  function RevenueKpi(totalRevenue: Option<int>): (v: int)
    ensures totalRevenue.None? ==> v == 0
    ensures totalRevenue.Some? ==> v == totalRevenue.value
  {
    totalRevenue.GetOr(0)
  }
}
