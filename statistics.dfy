/**
 * The landlord statistics page: per-property unit counts, occupancy and
 * revenue with their running totals, the rounded occupancy rate, the monthly
 * income / expense buckets and the chart scale.
 */
module Statistics {
  import opened Wrappers

  // ------------------------------------------------------------- properties

  /** A unit row; `rent` is `None` where the stored rent is not a number. */
  datatype Unit = Unit(status: string, rent: Option<int>)

  /** A property row with its units; `None` when the join returned none. */
  datatype Property = Property(name: string, units: Option<seq<Unit>>)

  datatype PropertyStats = PropertyStats(name: string, totalUnits: nat, occupiedUnits: nat, revenue: int)

  datatype Totals = Totals(totalRevenue: int, totalProperties: nat, totalUnits: nat, occupancyRate: int)

  /** A unit counts as let when it is occupied or near its due date. */
  predicate IsOccupied(u: Unit) {
    u.status == "occupied" || u.status == "neardue"
  }

  /** The number of let units. */
  function Occupied(us: seq<Unit>): (n: nat)
    ensures n <= |us|
  {
    if us == [] then 0 else (if IsOccupied(us[0]) then 1 else 0) + Occupied(us[1..])
  }

  /** The rent of the let units, a non-numeric rent counting as 0. */
  function Revenue(us: seq<Unit>): int {
    if us == [] then 0 else (if IsOccupied(us[0]) then us[0].rent.GetOr(0) else 0) + Revenue(us[1..])
  }

  /** Revenue is never negative when no rent is. */
  lemma {:induction false} RevenueNonNegative(us: seq<Unit>)
    requires forall i :: 0 <= i < |us| && us[i].rent.Some? ==> us[i].rent.value >= 0
    ensures Revenue(us) >= 0
  {
    if us != [] {
      RevenueNonNegative(us[1..]);
    }
  }

  /** The card of one property. */
  function StatsOf(p: Property): (s: PropertyStats)
    ensures s.name == p.name
    ensures s.occupiedUnits <= s.totalUnits
    ensures p.units == None ==> s.totalUnits == 0 && s.revenue == 0
  {
    var us := p.units.GetOr([]);
    PropertyStats(p.name, |us|, Occupied(us), Revenue(us))
  }

  function SumUnits(ss: seq<PropertyStats>): nat {
    if ss == [] then 0 else SumUnits(ss[..|ss| - 1]) + ss[|ss| - 1].totalUnits
  }

  function SumOccupied(ss: seq<PropertyStats>): nat {
    if ss == [] then 0 else SumOccupied(ss[..|ss| - 1]) + ss[|ss| - 1].occupiedUnits
  }

  function SumRevenue(ss: seq<PropertyStats>): int {
    if ss == [] then 0 else SumRevenue(ss[..|ss| - 1]) + ss[|ss| - 1].revenue
  }

  /** Across properties, no more units are let than exist. */
  lemma {:induction false} OccupiedAtMostUnits(ss: seq<PropertyStats>)
    requires forall i :: 0 <= i < |ss| ==> ss[i].occupiedUnits <= ss[i].totalUnits
    ensures SumOccupied(ss) <= SumUnits(ss)
  {
    if ss != [] {
      OccupiedAtMostUnits(ss[..|ss| - 1]);
    }
  }

  /** `Math.round(occupied / total * 100)`, 0 without units: the nearest whole percentage, halves rounded up. */
  function OccupancyRate(occupied: nat, total: nat): (r: int)
    ensures total == 0 ==> r == 0
    ensures total > 0 ==> 2 * r * total <= 200 * occupied + total < 2 * r * total + 2 * total
    ensures occupied <= total ==> 0 <= r <= 100
    ensures total > 0 && occupied == total ==> r == 100
  {
    if total > 0 then
      var r := (200 * occupied + total) / (2 * total);
      RoundingBounds(occupied, total, r);
      r
    else 0
  }

  /** What the rounded quotient of `(200 * occupied + total) / (2 * total)` satisfies. */
  lemma RoundingBounds(occupied: nat, total: nat, r: int)
    requires total > 0
    requires r == (200 * occupied + total) / (2 * total)
    ensures 2 * r * total <= 200 * occupied + total < 2 * r * total + 2 * total
    ensures 0 <= r
    ensures occupied <= total ==> r <= 100
    ensures occupied == total ==> r == 100
  {
    var n := 200 * occupied + total;
    var d := 2 * total;
    assert n == d * r + n % d && 0 <= n % d < d;
    assert d * r == 2 * r * total;
    if occupied <= total {
      assert d * r < d * 101;
      CancelLess(d, r, 101);
    }
    if occupied == total {
      assert d * 100 < d * (r + 1);
      CancelLess(d, 100, r + 1);
    }
    assert 0 < d * (r + 1);
    CancelLess(d, 0, r + 1);
  }

  /** Cancelling a positive factor keeps a strict order. */
  lemma CancelLess(d: int, a: int, b: int)
    requires d > 0 && d * a < d * b
    ensures a < b
  {
    assert d * (b - a) > 0;
  }

  /** The property cards and the totals, accumulated in one pass as `fetchStatistics` does. */
  method ComputeStatistics(properties: seq<Property>) returns (stats: seq<PropertyStats>, totals: Totals)
    ensures |stats| == |properties|
    ensures forall i :: 0 <= i < |properties| ==> stats[i] == StatsOf(properties[i])
    ensures totals.totalProperties == |properties|
    ensures totals.totalUnits == SumUnits(stats) && totals.totalRevenue == SumRevenue(stats)
    ensures SumOccupied(stats) <= totals.totalUnits
    ensures totals.occupancyRate == OccupancyRate(SumOccupied(stats), SumUnits(stats))
    ensures 0 <= totals.occupancyRate <= 100
  {
    var totalRevenue := 0;
    var totalUnits := 0;
    var occupiedUnits := 0;
    stats := [];
    var i := 0;
    while i < |properties|
      invariant 0 <= i <= |properties|
      invariant |stats| == i
      invariant forall j :: 0 <= j < i ==> stats[j] == StatsOf(properties[j])
      invariant totalUnits == SumUnits(stats) && occupiedUnits == SumOccupied(stats) && totalRevenue == SumRevenue(stats)
    {
      var units := properties[i].units.GetOr([]);
      var occupied := Occupied(units);
      var revenue := Revenue(units);
      totalUnits := totalUnits + |units|;
      occupiedUnits := occupiedUnits + occupied;
      totalRevenue := totalRevenue + revenue;
      var s := PropertyStats(properties[i].name, |units|, occupied, revenue);
      assert (stats + [s])[..|stats|] == stats;
      stats := stats + [s];
      i := i + 1;
    }
    OccupiedAtMostUnits(stats);
    totals := Totals(totalRevenue, |properties|, totalUnits, OccupancyRate(occupiedUnits, totalUnits));
  }

  // ---------------------------------------------------------------- monthly

  /** A transaction with the month label its date is shown under. */
  datatype StatTx = StatTx(month: string, txType: string, amount: int)

  datatype Bucket = Bucket(month: string, income: int, expenses: int)

  /** Only `income` counts as income; every other type is an expense. */
  predicate IsIncome(t: StatTx) {
    t.txType == "income"
  }

  /** The month labels in order of first appearance. */
  function Months(ts: seq<StatTx>): (ms: seq<string>)
    ensures forall m :: m in ms <==> exists t :: t in ts && t.month == m
    ensures forall i, j :: 0 <= i < j < |ms| ==> ms[i] != ms[j]
  {
    if ts == [] then []
    else
      var ms := Months(ts[..|ts| - 1]);
      assert forall t :: t in ts <==> t in ts[..|ts| - 1] || t == ts[|ts| - 1];
      if ts[|ts| - 1].month in ms then ms else ms + [ts[|ts| - 1].month]
  }

  /** The position of the first row of month `m`, or `|ts|` when there is none. */
  function FirstAt(ts: seq<StatTx>, m: string): (k: nat)
    ensures k <= |ts|
    ensures k < |ts| ==> ts[k].month == m
    ensures forall q :: 0 <= q < k ==> ts[q].month != m
  {
    if ts == [] then 0 else if ts[0].month == m then 0 else 1 + FirstAt(ts[1..], m)
  }

  /** A row added at the end is the first of its month only when the month is new. */
  lemma {:induction false} FirstAtSnoc(ts: seq<StatTx>, x: StatTx, m: string)
    ensures FirstAt(ts + [x], m) == if FirstAt(ts, m) < |ts| || x.month == m then FirstAt(ts, m) else |ts| + 1
    decreases |ts|
  {
    if ts != [] {
      assert (ts + [x])[1..] == ts[1..] + [x];
      FirstAtSnoc(ts[1..], x, m);
    }
  }

  /** A month no row has is found at the end. */
  lemma {:induction false} FirstAtMissing(ts: seq<StatTx>, m: string)
    requires forall t :: t in ts ==> t.month != m
    ensures FirstAt(ts, m) == |ts|
    decreases |ts|
  {
    if ts != [] {
      assert ts[0] in ts;
      FirstAtMissing(ts[1..], m);
    }
  }

  /** A month some row has is found before the end. */
  lemma {:induction false} FirstAtFound(ts: seq<StatTx>, m: string)
    requires exists t :: t in ts && t.month == m
    ensures FirstAt(ts, m) < |ts|
    decreases |ts|
  {
    if ts[0].month != m {
      var t :| t in ts && t.month == m;
      assert ts == [ts[0]] + ts[1..];
      assert t in ts[1..];
      FirstAtFound(ts[1..], m);
    }
  }

  /** Every label's month occurs among the rows. */
  lemma MonthsOccur(ts: seq<StatTx>)
    ensures forall i :: 0 <= i < |Months(ts)| ==> FirstAt(ts, Months(ts)[i]) < |ts|
  {
    forall i | 0 <= i < |Months(ts)|
      ensures FirstAt(ts, Months(ts)[i]) < |ts|
    {
      assert Months(ts)[i] in Months(ts);
      FirstAtFound(ts, Months(ts)[i]);
    }
  }

  /** The labels follow the order in which their months first occur among the rows. */
  lemma {:induction false} MonthsInFirstAppearanceOrder(ts: seq<StatTx>)
    ensures forall i, j :: 0 <= i < j < |Months(ts)| ==> FirstAt(ts, Months(ts)[i]) < FirstAt(ts, Months(ts)[j])
    decreases |ts|
  {
    if ts != [] {
      var init, x := ts[..|ts| - 1], ts[|ts| - 1];
      assert ts == init + [x];
      MonthsInFirstAppearanceOrder(init);
      MonthsOccur(init);
      var ms0, ms := Months(init), Months(ts);
      forall i | 0 <= i < |ms0|
        ensures FirstAt(ts, ms0[i]) == FirstAt(init, ms0[i]) < |init|
      {
        FirstAtSnoc(init, x, ms0[i]);
      }
      if x.month !in ms0 {
        FirstAtSnoc(init, x, x.month);
        FirstAtMissing(init, x.month);
        assert ms == ms0 + [x.month];
      } else {
        assert ms == ms0;
      }
    }
  }

  /** The income of one month. */
  function IncomeIn(ts: seq<StatTx>, m: string): int {
    if ts == [] then 0
    else IncomeIn(ts[..|ts| - 1], m) + (if ts[|ts| - 1].month == m && IsIncome(ts[|ts| - 1]) then ts[|ts| - 1].amount else 0)
  }

  /** The expenses of one month. */
  function ExpensesIn(ts: seq<StatTx>, m: string): int {
    if ts == [] then 0
    else ExpensesIn(ts[..|ts| - 1], m) + (if ts[|ts| - 1].month == m && !IsIncome(ts[|ts| - 1]) then ts[|ts| - 1].amount else 0)
  }

  /** All income and all expenses. */
  function IncomeTotal(ts: seq<StatTx>): int {
    if ts == [] then 0 else IncomeTotal(ts[..|ts| - 1]) + (if IsIncome(ts[|ts| - 1]) then ts[|ts| - 1].amount else 0)
  }

  function ExpenseTotal(ts: seq<StatTx>): int {
    if ts == [] then 0 else ExpenseTotal(ts[..|ts| - 1]) + (if !IsIncome(ts[|ts| - 1]) then ts[|ts| - 1].amount else 0)
  }

  function BucketIncome(bs: seq<Bucket>): int {
    if bs == [] then 0 else BucketIncome(bs[..|bs| - 1]) + bs[|bs| - 1].income
  }

  function BucketExpenses(bs: seq<Bucket>): int {
    if bs == [] then 0 else BucketExpenses(bs[..|bs| - 1]) + bs[|bs| - 1].expenses
  }

  /** Replacing one bucket changes the sums by the difference. */
  lemma {:induction false} BucketSumsUpdate(bs: seq<Bucket>, j: nat, b: Bucket)
    requires j < |bs|
    ensures BucketIncome(bs[j := b]) == BucketIncome(bs) - bs[j].income + b.income
    ensures BucketExpenses(bs[j := b]) == BucketExpenses(bs) - bs[j].expenses + b.expenses
    decreases |bs|
  {
    var n := |bs| - 1;
    if j < n {
      assert bs[j := b][..n] == bs[..n][j := b];
      BucketSumsUpdate(bs[..n], j, b);
    } else {
      assert bs[j := b][..n] == bs[..n];
    }
  }

  /** The index of the bucket for a month, if there is one. */
  function IndexOf(bs: seq<Bucket>, m: string): (r: Option<nat>)
    ensures r.Some? ==> r.value < |bs| && bs[r.value].month == m
    ensures r.None? ==> forall i :: 0 <= i < |bs| ==> bs[i].month != m
  {
    if bs == [] then None
    else if bs[0].month == m then Some(0)
    else match IndexOf(bs[1..], m)
      case None => None
      case Some(k) => Some(k + 1)
  }

  /** `bs` holds one bucket per month of `ts`, in order of first appearance, with that month's sums. */
  predicate Grouped(bs: seq<Bucket>, ts: seq<StatTx>) {
    var ms := Months(ts);
    && |bs| == |ms|
    && (forall i :: 0 <= i < |bs| ==> bs[i] == Bucket(ms[i], IncomeIn(ts, ms[i]), ExpensesIn(ts, ms[i])))
    && BucketIncome(bs) == IncomeTotal(ts)
    && BucketExpenses(bs) == ExpenseTotal(ts)
  }

  /** The amount a transaction adds to the income and to the expenses of its month. */
  function Share(t: StatTx): (int, int) {
    if IsIncome(t) then (t.amount, 0) else (0, t.amount)
  }

  /** A transaction of a month already present adds to that month's bucket. */
  lemma AddToBucket(bs: seq<Bucket>, ts: seq<StatTx>, t: StatTx, j: nat)
    requires Grouped(bs, ts) && j < |bs| && bs[j].month == t.month
    ensures Grouped(bs[j := Bucket(t.month, bs[j].income + Share(t).0, bs[j].expenses + Share(t).1)], ts + [t])
  {
    var ts' := ts + [t];
    assert ts'[..|ts|] == ts;
    assert Months(ts)[j] == t.month;
    assert Months(ts') == Months(ts);
    BucketSumsUpdate(bs, j, Bucket(t.month, bs[j].income + Share(t).0, bs[j].expenses + Share(t).1));
  }

  /** A transaction of a new month opens a bucket at the end. */
  lemma NewBucket(bs: seq<Bucket>, ts: seq<StatTx>, t: StatTx)
    requires Grouped(bs, ts) && forall i :: 0 <= i < |bs| ==> bs[i].month != t.month
    ensures Grouped(bs + [Bucket(t.month, Share(t).0, Share(t).1)], ts + [t])
  {
    var ts' := ts + [t];
    var b := Bucket(t.month, Share(t).0, Share(t).1);
    assert ts'[..|ts|] == ts;
    assert t.month !in Months(ts) by {
      forall i | 0 <= i < |Months(ts)|
        ensures Months(ts)[i] != t.month
      {
        assert bs[i].month == Months(ts)[i];
      }
    }
    assert Months(ts') == Months(ts) + [t.month];
    NoMonthNoSums(ts, t.month);
    assert (bs + [b])[..|bs|] == bs;
  }

  /**
   * The month buckets, grouped in one pass in order of first appearance as
   * the `Map` in `fetchStatistics` keeps them.
   */
  method ComputeMonthly(ts: seq<StatTx>) returns (buckets: seq<Bucket>)
    ensures |buckets| == |Months(ts)|
    ensures forall i :: 0 <= i < |buckets| ==>
      buckets[i] == Bucket(Months(ts)[i], IncomeIn(ts, Months(ts)[i]), ExpensesIn(ts, Months(ts)[i]))
    ensures BucketIncome(buckets) == IncomeTotal(ts)
    ensures BucketExpenses(buckets) == ExpenseTotal(ts)
  {
    buckets := [];
    var k := 0;
    while k < |ts|
      invariant 0 <= k <= |ts|
      invariant Grouped(buckets, ts[..k])
    {
      var t := ts[k];
      assert ts[..k + 1] == ts[..k] + [t];
      var found := IndexOf(buckets, t.month);
      match found {
        case Some(j) =>
          AddToBucket(buckets, ts[..k], t, j);
          var existing := buckets[j];
          if IsIncome(t) {
            buckets := buckets[j := Bucket(t.month, existing.income + t.amount, existing.expenses)];
          } else {
            buckets := buckets[j := Bucket(t.month, existing.income, existing.expenses + t.amount)];
          }
        case None =>
          NewBucket(buckets, ts[..k], t);
          if IsIncome(t) {
            buckets := buckets + [Bucket(t.month, t.amount, 0)];
          } else {
            buckets := buckets + [Bucket(t.month, 0, t.amount)];
          }
      }
      k := k + 1;
    }
    assert ts[..k] == ts;
  }

  /** A month no transaction falls in has no income and no expenses. */
  lemma {:induction false} NoMonthNoSums(ts: seq<StatTx>, m: string)
    requires m !in Months(ts)
    ensures IncomeIn(ts, m) == 0 && ExpensesIn(ts, m) == 0
  {
    if ts != [] {
      var init := ts[..|ts| - 1];
      assert ts[|ts| - 1] in ts;
      assert forall t :: t in init ==> t in ts;
      NoMonthNoSums(init, m);
    }
  }

  /** `maxValue`: the chart scale, at least 1 and at least every bar. */
  function MaxValue(bs: seq<Bucket>): (r: int)
    ensures r >= 1
    ensures forall b :: b in bs ==> b.income <= r && b.expenses <= r
    ensures r == 1 || exists b :: b in bs && (b.income == r || b.expenses == r)
  {
    if bs == [] then 1
    else
      var rest := MaxValue(bs[1..]);
      var top := if bs[0].income >= bs[0].expenses then bs[0].income else bs[0].expenses;
      assert forall b :: b in bs[1..] ==> b in bs;
      if top > rest then top else rest
  }

  /** The buckets the chart draws: the last six. */
  function ChartBuckets(bs: seq<Bucket>): (r: seq<Bucket>)
    ensures |r| == if |bs| <= 6 then |bs| else 6
    ensures r == bs[|bs| - |r|..]
  {
    if |bs| <= 6 then bs else bs[|bs| - 6..]
  }
}
