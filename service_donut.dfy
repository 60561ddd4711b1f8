/** The revenue donut chart (`ServiceDonutChart`) and the total of `MonthlyServiceAnalyticsView`. */
module ServiceDonut {
  import opened Wrappers
  import opened Seqs
  import opened Orders
  import opened ServiceAnalytics
  import opened Cumulative

  /** `totalRevenue`, and `MonthlyServiceAnalyticsView.total`: every slice's revenue added up. */
  function TotalRevenue(data: seq<ServiceRevenueSlice>): real {
    Sum(data, SliceRevenue)
  }

  /** Every slice enters the total with its revenue, so a zero-revenue slice leaves it unchanged. */
  lemma TotalRevenueAppend(data: seq<ServiceRevenueSlice>, sl: ServiceRevenueSlice)
    ensures TotalRevenue(data + [sl]) == TotalRevenue(data) + sl.revenue
  {
    SumAppend(data, [sl], SliceRevenue);
    assert [sl][1..] == [];
  }

  predicate PositiveRevenue(sl: ServiceRevenueSlice) {
    sl.revenue > 0.0
  }

  /** `chartData`: the slices with positive revenue, in input order. */
  function ChartData(data: seq<ServiceRevenueSlice>): (r: seq<ServiceRevenueSlice>)
    ensures forall sl :: sl in r <==> sl in data && sl.revenue > 0.0
    ensures IsSubsequence(r, data)
  {
    Filter(data, PositiveRevenue)
  }

  /** The revenues as slice weights. */
  function RevenueWeights(chart: seq<ServiceRevenueSlice>): (ws: seq<real>)
    ensures |ws| == |chart|
    ensures forall i :: 0 <= i < |chart| ==> ws[i] == chart[i].revenue
  {
    seq(|chart|, i requires 0 <= i < |chart| => chart[i].revenue)
  }

  /** `r` is the first chart slice whose range holds `a`, or nothing when none does. */
  ghost predicate SelectsSlice(chart: seq<ServiceRevenueSlice>, a: real, r: Option<ServiceRevenueSlice>) {
    match r
    case None => IsFirstHit(RevenueWeights(chart), a, None)
    case Some(sl) => exists k :: 0 <= k < |chart| && IsFirstHit(RevenueWeights(chart), a, Some(k)) && chart[k] == sl
  }

  /** `slice(at:)`: nothing before the chart is drawn or when it has no revenue, else the slice under `angle`. */
  method SliceAt(data: seq<ServiceRevenueSlice>, progress: real, angle: real) returns (r: Option<ServiceRevenueSlice>)
    ensures progress <= 0.0 || TotalRevenue(ChartData(data)) <= 0.0 ==> r == None
    ensures progress > 0.0 && TotalRevenue(ChartData(data)) > 0.0 ==> SelectsSlice(ChartData(data), angle / progress, r)
  {
    if progress <= 0.0 {
      return None;
    }
    var chart := ChartData(data);
    var total := TotalRevenue(chart);
    if total <= 0.0 {
      return None;
    }
    r := SliceAtScaled(chart, angle / progress);
  }

  /** The loop of `slice(at:)`, walking the chart with the running total `acc`. */
  method SliceAtScaled(chart: seq<ServiceRevenueSlice>, a: real) returns (r: Option<ServiceRevenueSlice>)
    ensures SelectsSlice(chart, a, r)
  {
    ghost var ws := RevenueWeights(chart);
    var acc := 0.0;
    for i := 0 to |chart|
      invariant acc == PrefixSum(ws, i)
      invariant forall j :: 0 <= j < i ==> !Hit(ws, a, j)
    {
      var next := acc + chart[i].revenue;
      assert next == PrefixSum(ws, i + 1) by { assert ws[i] == chart[i].revenue; }
      if a >= acc && a < next {
        assert IsFirstHit(ws, a, Some(i));
        return Some(chart[i]);
      }
      acc := next;
    }
    return None;
  }

  lemma {:induction false} PrefixSumIsTotal(chart: seq<ServiceRevenueSlice>, n: nat)
    requires n <= |chart|
    ensures PrefixSum(RevenueWeights(chart), n) == TotalRevenue(chart[..n])
  {
    if n > 0 {
      PrefixSumIsTotal(chart, n - 1);
      assert chart[..n] == chart[..n - 1] + [chart[n - 1]];
      SumAppend(chart[..n - 1], [chart[n - 1]], SliceRevenue);
      assert [chart[n - 1]][1..] == [];
    } else {
      assert chart[..0] == [];
    }
  }

  /** A slice is selected exactly when the scaled angle lies within the chart's total revenue. */
  lemma SliceSelection(data: seq<ServiceRevenueSlice>, a: real, r: Option<ServiceRevenueSlice>)
    requires SelectsSlice(ChartData(data), a, r)
    ensures r.Some? <==> 0.0 <= a < TotalRevenue(ChartData(data))
    ensures r.Some? ==> r.value in data && r.value.revenue > 0.0
  {
    var chart := ChartData(data);
    var ws := RevenueWeights(chart);
    assert NonNegative(ws) by {
      forall i | 0 <= i < |ws| ensures ws[i] >= 0.0 {
        assert chart[i] in chart;
      }
    }
    PrefixSumIsTotal(chart, |chart|);
    assert chart[..|chart|] == chart;
    if r.Some? {
      var k :| 0 <= k < |chart| && IsFirstHit(ws, a, Some(k)) && chart[k] == r.value;
      FirstHitIsOnlyHit(ws, a, Some(k));
      assert chart[k] in chart;
    } else {
      FirstHitIsOnlyHit(ws, a, None);
    }
  }

  /** Dropping the zero-revenue slices does not change the total when no revenue is negative. */
  lemma {:induction false} ChartKeepsTotal(data: seq<ServiceRevenueSlice>)
    requires forall i :: 0 <= i < |data| ==> data[i].revenue >= 0.0
    ensures TotalRevenue(ChartData(data)) == TotalRevenue(data)
  {
    if data != [] {
      ChartKeepsTotal(data[1..]);
      if PositiveRevenue(data[0]) {
        assert ([data[0]] + Filter(data[1..], PositiveRevenue))[1..] == Filter(data[1..], PositiveRevenue);
      }
    }
  }

  /** The centre's amount: the selected slice's revenue, or the total. */
  function CenterRevenue(data: seq<ServiceRevenueSlice>, selected: Option<ServiceRevenueSlice>): (v: real)
    ensures selected.Some? ==> v == selected.value.revenue
    ensures selected.None? ==> v == TotalRevenue(data)
  {
    if selected.Some? then selected.value.revenue else TotalRevenue(data)
  }

  /** The centre's caption: the selected slice's title, or "Всего" ("total"). */
  function CenterTitle(selected: Option<ServiceRevenueSlice>): (t: string)
    ensures selected.Some? ==> t == selected.value.Title()
    ensures selected.None? ==> t == "Всего"
  {
    if selected.Some? then selected.value.Title() else "Всего"
  }
}
