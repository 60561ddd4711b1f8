/** The status donut chart (`MonthlyStatusDonutChart`) and its breakdown column (`StatusBreakdownColumn`). */
module StatusDonut {
  import opened Wrappers
  import opened Seqs
  import opened Orders
  import opened Analytics
  import opened Cumulative

  predicate PositiveCount(sc: StatusCount) {
    sc.count > 0
  }

  /** `chartData`: the rows with a positive count, in input order. */
  function ChartData(data: seq<StatusCount>): (r: seq<StatusCount>)
    ensures forall sc :: sc in r <==> sc in data && sc.count > 0
    ensures IsSubsequence(r, data)
  {
    Filter(data, PositiveCount)
  }

  /** No status occurs twice: what `Dictionary(uniqueKeysWithValues:)` demands, trapping otherwise. */
  ghost predicate DistinctStatuses(data: seq<StatusCount>) {
    forall i, j :: 0 <= i < j < |data| ==> data[i].status != data[j].status
  }

  /** `countsByStatus`: each row's status mapped to its count. */
  function CountsMap(data: seq<StatusCount>): (m: map<OrderStatus, int>)
    requires DistinctStatuses(data)
    ensures forall st :: st in m <==> exists i :: 0 <= i < |data| && data[i].status == st
    ensures forall i :: 0 <= i < |data| ==> m[data[i].status] == data[i].count
  {
    if data == [] then map[]
    else
      var init := data[..|data| - 1];
      DistinctInit(data);
      var m := CountsMap(init);
      m[data[|data| - 1].status := data[|data| - 1].count]
  }

  /** Dropping the last row keeps the statuses distinct. */
  lemma DistinctInit(data: seq<StatusCount>)
    requires DistinctStatuses(data) && data != []
    ensures DistinctStatuses(data[..|data| - 1])
    ensures forall i :: 0 <= i < |data| - 1 ==> data[..|data| - 1][i] == data[i]
  {
  }

  /** `defaultCenterStatus`: `inProgress` if it has orders, else the first status with orders, else `inProgress`. */
  function DefaultCenterStatus(data: seq<StatusCount>): (st: OrderStatus)
    ensures (exists sc :: sc in data && sc.count > 0 && sc.status == InProgress) ==> st == InProgress
    ensures st != InProgress ==> ChartData(data) != [] && st == ChartData(data)[0].status
    ensures ChartData(data) == [] ==> st == InProgress
    ensures ChartData(data) != [] && !(exists sc :: sc in ChartData(data) && sc.status == InProgress) ==>
      st == ChartData(data)[0].status
  {
    var chart := ChartData(data);
    if exists sc :: sc in chart && sc.status == InProgress then InProgress
    else if chart != [] then chart[0].status
    else InProgress
  }

  /** The counts as slice weights. */
  function CountWeights(chart: seq<StatusCount>): (ws: seq<real>)
    ensures |ws| == |chart|
    ensures forall i :: 0 <= i < |chart| ==> ws[i] == chart[i].count as real
  {
    seq(|chart|, i requires 0 <= i < |chart| => chart[i].count as real)
  }

  /** `r` names the status of the first chart slice whose range holds `a`, or nothing when none does. */
  ghost predicate SelectsStatus(chart: seq<StatusCount>, a: real, r: Option<OrderStatus>) {
    match r
    case None => IsFirstHit(CountWeights(chart), a, None)
    case Some(st) => exists k :: 0 <= k < |chart| && IsFirstHit(CountWeights(chart), a, Some(k)) && chart[k].status == st
  }

  /**
   * `status(at:)`: the status under the chart angle `angle` while the chart is drawn to the
   * fraction `progress` of its full sweep.
   */
  method StatusAt(data: seq<StatusCount>, progress: real, angle: real) returns (r: Option<OrderStatus>)
    ensures progress <= 0.0 ==> r == None
    ensures progress > 0.0 ==> SelectsStatus(ChartData(data), angle / progress, r)
  {
    if progress <= 0.0 {
      return None;
    }
    r := StatusAtScaled(ChartData(data), angle / progress);
  }

  /** The loop of `status(at:)`, walking the chart with the running total `acc`. */
  method StatusAtScaled(chart: seq<StatusCount>, a: real) returns (r: Option<OrderStatus>)
    ensures SelectsStatus(chart, a, r)
  {
    ghost var ws := CountWeights(chart);
    var acc := 0.0;
    for i := 0 to |chart|
      invariant acc == PrefixSum(ws, i)
      invariant forall j :: 0 <= j < i ==> !Hit(ws, a, j)
    {
      var next := acc + chart[i].count as real;
      assert next == PrefixSum(ws, i + 1) by { assert ws[i] == chart[i].count as real; }
      if a >= acc && a < next {
        assert IsFirstHit(ws, a, Some(i));
        return Some(chart[i].status);
      }
      acc := next;
    }
    return None;
  }

  /** The chart's weights are the positive counts. */
  lemma ChartWeightsNonNegative(data: seq<StatusCount>)
    ensures NonNegative(CountWeights(ChartData(data)))
  {
    var chart := ChartData(data);
    forall i | 0 <= i < |chart| ensures CountWeights(chart)[i] >= 0.0 {
      assert chart[i] in chart;
    }
  }

  /** A status is selected exactly when the scaled angle lies within the chart's total count. */
  lemma StatusSelection(data: seq<StatusCount>, a: real, r: Option<OrderStatus>)
    requires SelectsStatus(ChartData(data), a, r)
    ensures r.Some? <==> 0.0 <= a < PrefixSum(CountWeights(ChartData(data)), |ChartData(data)|)
  {
    var chart := ChartData(data);
    ChartWeightsNonNegative(data);
    if r.Some? {
      var k :| 0 <= k < |chart| && IsFirstHit(CountWeights(chart), a, Some(k)) && chart[k].status == r.value;
      FirstHitIsOnlyHit(CountWeights(chart), a, Some(k));
    } else {
      FirstHitIsOnlyHit(CountWeights(chart), a, None);
    }
  }

  /** `centerStatus`: the selected status, or the default one. */
  function CenterStatus(data: seq<StatusCount>, selected: Option<OrderStatus>): (st: OrderStatus)
    ensures selected.Some? ==> st == selected.value
    ensures selected.None? ==> st == DefaultCenterStatus(data)
  {
    selected.GetOr(DefaultCenterStatus(data))
  }

  /** `centerValue`: the centre status's count, or 0 when no row has it. */
  function CenterValue(data: seq<StatusCount>, selected: Option<OrderStatus>): (n: int)
    requires DistinctStatuses(data)
    ensures forall i :: 0 <= i < |data| && data[i].status == CenterStatus(data, selected) ==> n == data[i].count
    ensures (forall i :: 0 <= i < |data| ==> data[i].status != CenterStatus(data, selected)) ==> n == 0
  {
    var m := CountsMap(data);
    var st := CenterStatus(data, selected);
    if st in m then m[st] else 0
  }

  /** `StatusBreakdownColumn.ordered`: the statuses with a positive count, in input order. */
  function Ordered(counts: seq<StatusCount>): (r: seq<OrderStatus>)
    ensures |r| == |ChartData(counts)|
    ensures forall i :: 0 <= i < |r| ==> r[i] == ChartData(counts)[i].status
    ensures forall st :: st in r <==> exists sc :: sc in counts && sc.count > 0 && sc.status == st
  {
    var chart := ChartData(counts);
    var r := seq(|chart|, i requires 0 <= i < |chart| => chart[i].status);
    assert forall st :: st in r ==> exists sc :: sc in chart && sc.status == st by {
      forall st | st in r ensures exists sc :: sc in chart && sc.status == st {
        var i :| 0 <= i < |r| && r[i] == st;
        assert chart[i] in chart;
      }
    }
    assert forall sc :: sc in chart ==> sc.status in r by {
      forall sc | sc in chart ensures sc.status in r {
        var i :| 0 <= i < |chart| && chart[i] == sc;
        assert r[i] == sc.status;
      }
    }
    r
  }

  /** `value(for:)`: the count of the first row with `status`, or 0. */
  function ValueFor(counts: seq<StatusCount>, status: OrderStatus): (n: int)
    ensures (forall i :: 0 <= i < |counts| ==> counts[i].status != status) ==> n == 0
    ensures forall k :: 0 <= k < |counts| && counts[k].status == status ==>
      (exists j :: 0 <= j < k && counts[j].status == status) || n == counts[k].count
  {
    if counts == [] then 0
    else if counts[0].status == status then counts[0].count
    else
      var n := ValueFor(counts[1..], status);
      assert forall k :: 1 <= k < |counts| ==> counts[1..][k - 1] == counts[k];
      n
  }

  /** Driven by the engine, the centre shows the month's tally for the centre status. */
  lemma CenterValueIsTally<T>(orders: seq<T>, view: T -> OrderFacts, interval: DateInterval, filter: T -> bool,
                              selected: Option<OrderStatus>)
    ensures CenterValue(StatusRows(orders, view, interval, filter), selected)
      == Tally(orders, view, interval, filter, CenterStatus(StatusRows(orders, view, interval, filter), selected))
  {
    var rows := StatusRows(orders, view, interval, filter);
    var st := CenterStatus(rows, selected);
    assert rows[st.SortOrder()].status == st;
  }

  /** The column of the engine's rows lists each status's tally. */
  lemma ValueForIsTally<T>(orders: seq<T>, view: T -> OrderFacts, interval: DateInterval, filter: T -> bool, st: OrderStatus)
    ensures ValueFor(StatusRows(orders, view, interval, filter), st) == Tally(orders, view, interval, filter, st)
  {
    var rows := StatusRows(orders, view, interval, filter);
    assert rows[st.SortOrder()].status == st;
  }
}
