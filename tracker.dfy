/**
 * The spend tracker's month/quarter arithmetic (app.js, "TRACKER VIEW"):
 * getQuarterMonths and the budget/spent/remaining totals of renderTrackerContent.
 * Money is a real number; the display rounding of the percentage is not modelled.
 */
module Tracker {
  import opened Seqs

  const Months: seq<string> := ["January", "February", "March", "April", "May", "June",
                                "July", "August", "September", "October", "November", "December"]

  /** Calendar quarter `q` (0 for January to March). */
  function Quarter(q: nat): (r: seq<string>)
    requires q < 4
    ensures |r| == 3
  {
    Months[3 * q .. 3 * q + 3]
  }

  /** getQuarterMonths: the calendar quarter holding `month`, or just `[month]` for a name it does not know. */
  function QuarterMonths(month: string): (r: seq<string>)
    ensures month in r
    ensures month in Months ==> exists q :: 0 <= q < 4 && r == Quarter(q)
    ensures month !in Months ==> r == [month]
  {
    if month in Quarter(0) then Quarter(0)
    else if month in Quarter(1) then Quarter(1)
    else if month in Quarter(2) then Quarter(2)
    else if month in Quarter(3) then Quarter(3)
    else
      assert Quarter(0) + Quarter(1) + Quarter(2) + Quarter(3) == Months;
      [month]
  }

  /** A client's budget line as the tracker holds it (`rollover || 0` when loaded). */
  datatype TrackerClient = TrackerClient(code: string, name: string, committed: real, rollover: real)

  /** One spend line item of a month. */
  datatype SpendItem = SpendItem(jobNumber: string, month: string, spend: real)

  datatype Totals = Totals(budget: real, spent: real, remaining: real)

  function InMonths(months: seq<string>): SpendItem -> bool
  {
    (d: SpendItem) => d.month in months
  }

  function SpendOf(): SpendItem -> real
  {
    (d: SpendItem) => d.spend
  }

  /** The months a view covers: the current month's quarter, or the month alone. */
  function ViewMonths(currentMonth: string, quarterView: bool): seq<string>
  {
    if quarterView then QuarterMonths(currentMonth) else [currentMonth]
  }

  /**
   * The totals block: every line item of the shown months counts (whatever its spend type);
   * the quarter view's budget is three months of commitment plus the rollover.
   */
  function TrackerTotals(client: TrackerClient, items: seq<SpendItem>, currentMonth: string, quarterView: bool): (t: Totals)
    ensures t.spent == MonthSpend(items, ViewMonths(currentMonth, quarterView))
    ensures t.budget == if quarterView then client.committed * 3.0 + client.rollover else client.committed
    ensures t.remaining + t.spent == t.budget
    ensures t.remaining < 0.0 <==> t.spent > t.budget
  {
    var months := ViewMonths(currentMonth, quarterView);
    FilteredSumIsMonthSpend(items, months);
    var spent := SumOf(Filter(items, InMonths(months)), SpendOf());
    var budget := if quarterView then client.committed * 3.0 + client.rollover else client.committed;
    Totals(budget, spent, budget - spent)
  }

  /** The spend of the items dated in `months`, item by item. */
  function MonthSpend(items: seq<SpendItem>, months: seq<string>): real
  {
    if items == [] then 0.0
    else (if items[0].month in months then items[0].spend else 0.0) + MonthSpend(items[1..], months)
  }

  lemma {:induction false} FilteredSumIsMonthSpend(items: seq<SpendItem>, months: seq<string>)
    ensures SumOf(Filter(items, InMonths(months)), SpendOf()) == MonthSpend(items, months)
  {
    if items != [] {
      FilteredSumIsMonthSpend(items[1..], months);
      var h := if items[0].month in months then [items[0]] else [];
      assert Filter(items, InMonths(months)) == h + Filter(items[1..], InMonths(months));
      SumOfAppend(h, Filter(items[1..], InMonths(months)), SpendOf());
      assert SumOf(h, SpendOf()) == if items[0].month in months then items[0].spend else 0.0;
    }
  }

  /** Spend over three distinct months adds up to the three months' spend. */
  lemma {:induction false} SumOverThreeMonths(items: seq<SpendItem>, a: string, b: string, c: string)
    requires a != b && b != c && a != c
    ensures MonthSpend(items, [a, b, c]) == MonthSpend(items, [a]) + MonthSpend(items, [b]) + MonthSpend(items, [c])
  {
    if items != [] {
      SumOverThreeMonths(items[1..], a, b, c);
    }
  }

  /** The three months of a quarter are distinct names. */
  lemma {:induction false} QuarterDistinct(q: nat)
    requires q < 4
    ensures Quarter(q)[0] != Quarter(q)[1] && Quarter(q)[1] != Quarter(q)[2] && Quarter(q)[0] != Quarter(q)[2]
  {
    if q == 0 {
      assert Quarter(q) == ["January", "February", "March"];
    } else if q == 1 {
      assert Quarter(q) == ["April", "May", "June"];
      assert "April"[0] != "May"[0] && "May"[1] != "June"[1] && "April"[0] != "June"[0];
    } else if q == 2 {
      assert Quarter(q) == ["July", "August", "September"];
      assert "July"[0] != "August"[0];
    } else {
      assert Quarter(q) == ["October", "November", "December"];
    }
  }

  /** The quarter's spend is the sum of its three months' spend, whichever month is current. */
  lemma {:induction false} QuarterSpendIsMonthlySum(client: TrackerClient, items: seq<SpendItem>, currentMonth: string)
    requires currentMonth in Months
    ensures var qs := QuarterMonths(currentMonth);
      TrackerTotals(client, items, currentMonth, true).spent
        == TrackerTotals(client, items, qs[0], false).spent
         + TrackerTotals(client, items, qs[1], false).spent
         + TrackerTotals(client, items, qs[2], false).spent
  {
    var qs := QuarterMonths(currentMonth);
    var q :| 0 <= q < 4 && qs == Quarter(q);
    QuarterDistinct(q);
    ThreeMonthSpend(items, qs);
  }

  /** The spend filtered by three distinct months is the sum of the three single-month spends. */
  lemma {:induction false} ThreeMonthSpend(items: seq<SpendItem>, qs: seq<string>)
    requires |qs| == 3 && qs[0] != qs[1] && qs[1] != qs[2] && qs[0] != qs[2]
    ensures SumOf(Filter(items, InMonths(qs)), SpendOf())
            == SumOf(Filter(items, InMonths([qs[0]])), SpendOf())
             + SumOf(Filter(items, InMonths([qs[1]])), SpendOf())
             + SumOf(Filter(items, InMonths([qs[2]])), SpendOf())
  {
    assert qs == [qs[0], qs[1], qs[2]];
    SumOverThreeMonths(items, qs[0], qs[1], qs[2]);
    FilteredSumIsMonthSpend(items, qs);
    FilteredSumIsMonthSpend(items, [qs[0]]);
    FilteredSumIsMonthSpend(items, [qs[1]]);
    FilteredSumIsMonthSpend(items, [qs[2]]);
  }

  /** In quarter view the remaining budget is three months of commitment plus rollover, less the quarter's spend. */
  lemma {:induction false} QuarterRemainingByMonths(client: TrackerClient, items: seq<SpendItem>, currentMonth: string)
    requires currentMonth in Months
    ensures var qs := QuarterMonths(currentMonth);
      TrackerTotals(client, items, currentMonth, true).remaining
        == TrackerTotals(client, items, qs[0], false).remaining
         + TrackerTotals(client, items, qs[1], false).remaining
         + TrackerTotals(client, items, qs[2], false).remaining
         + client.rollover
  {
    QuarterSpendIsMonthlySum(client, items, currentMonth);
  }
}
