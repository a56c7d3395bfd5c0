/** The history of daily totals and the dashboard figures derived from it. */
module Records {

  /** kg CO2 a tree absorbs in a year. */
  const TreePerYear: real := 14.0

  /** One entry of the history: the day of a calculation and its total CFP. */
  datatype DailyRecord = DailyRecord(date: string, totalCfp: real)

  /**
   * Sum of `totalCfp` over the history, added in order from 0; never
   * negative when no record is.
   */
  function CumulativeCfp(records: seq<DailyRecord>): (total: real)
    ensures records == [] ==> total == 0.0
    ensures (forall i :: 0 <= i < |records| ==> records[i].totalCfp >= 0.0) ==> total >= 0.0
    decreases |records|
  {
    if records == [] then 0.0
    else CumulativeCfp(records[..|records| - 1]) + records[|records| - 1].totalCfp
  }

  /** The cumulative figure of a history is the sum of those of its parts. */
  lemma {:induction false} CumulativeConcat(a: seq<DailyRecord>, b: seq<DailyRecord>)
    ensures CumulativeCfp(a + b) == CumulativeCfp(a) + CumulativeCfp(b)
    decreases |b|
  {
    if b == [] {
      assert a + b == a;
    } else {
      var b' := b[..|b| - 1];
      assert (a + b)[..|a + b| - 1] == a + b';
      assert (a + b)[|a + b| - 1] == b[|b| - 1];
      CumulativeConcat(a, b');
    }
  }

  /** The cumulative figure counts every record exactly once, whatever their order. */
  lemma CumulativeOrderIndependent(a: seq<DailyRecord>, b: seq<DailyRecord>)
    ensures CumulativeCfp(a + b) == CumulativeCfp(b + a)
  {
    CumulativeConcat(a, b);
    CumulativeConcat(b, a);
  }

  /** Total CFP and the number of trees needed to absorb it in a year. */
  datatype DashboardStats = DashboardStats(totalCfp: real, trees: real)

  function Dashboard(records: seq<DailyRecord>): (d: DashboardStats)
    ensures d.totalCfp == CumulativeCfp(records)
    ensures d.trees * TreePerYear == d.totalCfp
    ensures records == [] ==> d == DashboardStats(0.0, 0.0)
  {
    var total := CumulativeCfp(records);
    DashboardStats(total, total / TreePerYear)
  }
}
