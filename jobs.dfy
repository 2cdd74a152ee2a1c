/**
 * The job record as the browser holds it, and the date helpers of the dashboard
 * (app.js, "HELPERS"). A due date is a day number (days since 1970-01-01); the
 * clock and `lastUpdated` are millisecond timestamps, as JavaScript's `Date` values.
 */
module Jobs {
  import opened Wrappers

  /** Milliseconds in a day, the divisor of both day counts. */
  const DayMs: int := 86400000

  /** What `getDaysUntilDue` and `getDaysSinceUpdate` answer for a missing date. */
  const MissingDays: int := 999

  /** Day number of 9999-12-31, the stand-in for a missing due date when sorting by due date. */
  const FarFutureDay: int := 2932896

  datatype Job = Job(
    jobNumber: string,
    jobName: string,
    clientCode: Option<string>,
    status: string,
    description: string,
    update: string,
    updateDue: Option<int>,
    lastUpdated: Option<int>,
    withClient: bool)

  /** `Math.ceil(a / b)` for integers, written with Dafny's floor division. */
  function CeilDiv(a: int, b: int): (q: int)
    requires b > 0
    ensures (q - 1) * b < a <= q * b
  {
    -((-a) / b)
  }

  /** getDaysUntilDue: whole days, rounded up, from now until the due day's midnight. */
  function DaysUntilDue(due: Option<int>, nowMs: int): (d: int)
    ensures due.None? ==> d == MissingDays
    ensures due.Some? ==> (d - 1) * DayMs < due.value * DayMs - nowMs <= d * DayMs
  {
    match due
    case None => MissingDays
    case Some(day) => CeilDiv(day * DayMs - nowMs, DayMs)
  }

  /** At any moment of day `today`, a job due on day `day` is `day - today` days away. */
  lemma {:induction false} DaysUntilDueOnDay(day: int, today: int, nowMs: int)
    requires today * DayMs <= nowMs < (today + 1) * DayMs
    ensures DaysUntilDue(Some(day), nowMs) == day - today
  {
    var d := DaysUntilDue(Some(day), nowMs);
    assert (d - 1) * DayMs < (day - today) * DayMs;
    assert (day - today - 1) * DayMs < d * DayMs;
  }

  /** getDaysSinceUpdate: whole days, rounded down, since the update. */
  function DaysSinceUpdate(updated: Option<int>, nowMs: int): (d: int)
    ensures updated.None? ==> d == MissingDays
    ensures updated.Some? ==> d * DayMs <= nowMs - updated.value < (d + 1) * DayMs
  {
    match updated
    case None => MissingDays
    case Some(t) => (nowMs - t) / DayMs
  }

  datatype DaysAgoClass = Fresh | Stale

  /** getDaysAgoClass: an update more than a week old is shown as stale. */
  function DaysAgoClassOf(days: int): (c: DaysAgoClass)
    ensures c == Stale <==> days > 7
  {
    if days > 7 then Stale else Fresh
  }

  /** getLogoUrl: the One NZ business and simplification codes share the ONE logo. */
  function LogoUrl(code: string): (url: string)
    ensures code == "ONB" || code == "ONS" || code == "ONE" ==> url == "images/logos/ONE.png"
    ensures code != "ONB" && code != "ONS" ==> url == "images/logos/" + code + ".png"
  {
    var logoCode := if code == "ONB" || code == "ONS" then "ONE" else code;
    "images/logos/" + logoCode + ".png"
  }

  /** The label formatDueDate shows; a date further ahead is shown as a localised date. */
  datatype DueLabel = Tbc | Today | Tomorrow | Overdue | OnDate(day: int)

  /** formatDueDate, with the due date and today as day numbers. */
  function DueDateLabel(due: Option<int>, today: int): (l: DueLabel)
    ensures due.None? <==> l == Tbc
    ensures l == Today <==> due == Some(today)
    ensures l == Tomorrow <==> due == Some(today + 1)
    ensures l == Overdue <==> due.Some? && due.value < today
    ensures l.OnDate? <==> due.Some? && due.value > today + 1
    ensures l.OnDate? ==> l.day == due.value
  {
    match due
    case None => Tbc
    case Some(d) =>
      if d == today then Today
      else if d == today + 1 then Tomorrow
      else if d < today then Overdue
      else OnDate(d)
  }
}
