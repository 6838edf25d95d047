/** The transactions area chart (src/components/TransactionChart.tsx): each
    bucket of a service's history gets a total, and the tooltip adds the two
    stacked values it is shown. */
module TransactionChart {
  import opened Lists
  import opened Types

  /** A bucket as the chart draws it; the locale-formatted `time` label is
      not part of this model. */
  datatype ChartPoint = ChartPoint(timestamp: string, successful: int, failed: int, total: int)

  function PointOf(item: TransactionData): ChartPoint
  {
    ChartPoint(item.timestamp, item.successful, item.failed, item.successful + item.failed)
  }

  /** `chartData`: one point per bucket, in order, counts kept, total added. */
  function ChartData(data: seq<TransactionData>): (points: seq<ChartPoint>)
    ensures |points| == |data|
    ensures forall k :: 0 <= k < |points| ==>
              points[k].timestamp == data[k].timestamp
              && points[k].successful == data[k].successful
              && points[k].failed == data[k].failed
              && points[k].total == points[k].successful + points[k].failed
  {
    seq(|data|, k requires 0 <= k < |data| => PointOf(data[k]))
  }

  function PointTotal(p: ChartPoint): int { p.total }
  function Successful(item: TransactionData): int { item.successful }
  function Failed(item: TransactionData): int { item.failed }

  /** Added over the whole history, the totals are all successful plus all
      failed transactions. */
  lemma {:induction false} TotalsAddUp(data: seq<TransactionData>)
    ensures Sum(PointTotal, ChartData(data)) == Sum(Successful, data) + Sum(Failed, data)
  {
    if data != [] {
      assert ChartData(data)[1..] == ChartData(data[1..]);
      TotalsAddUp(data[1..]);
    }
  }

  /** `payload[i]?.value || 0`: a missing entry or value counts as 0. */
  function OrZero(payload: seq<Option<int>>, i: nat): (v: int)
    ensures i < |payload| && payload[i].Some? ==> v == payload[i].value
    ensures i >= |payload| || payload[i].None? ==> v == 0
  {
    if i < |payload| && payload[i].Some? then payload[i].value else 0
  }

  /** The tooltip's total line; `None` when no tooltip is drawn. */
  function TooltipTotal(active: bool, payload: seq<Option<int>>): (r: Option<int>)
    ensures r.Some? <==> active && |payload| > 0
    ensures r.Some? ==> r.value == OrZero(payload, 0) + OrZero(payload, 1)
  {
    if active && |payload| > 0 then Some(OrZero(payload, 0) + OrZero(payload, 1)) else None
  }

  /** Hovering a point, whose two stacked values are its counts, shows the
      point's own total. */
  lemma TooltipMatchesPoint(p: ChartPoint)
    requires p.total == p.successful + p.failed
    ensures TooltipTotal(true, [Some(p.successful), Some(p.failed)]) == Some(p.total)
  {
  }

  /** A missing first value counts as 0 too, and later entries are ignored. */
  lemma TooltipMissingFirst(v: int, rest: seq<Option<int>>)
    ensures TooltipTotal(true, [None, Some(v)] + rest) == Some(v)
    ensures TooltipTotal(true, [None, None] + rest) == Some(0)
  {
  }

  /** With only the first value available the tooltip total is that value. */
  lemma TooltipMissingSecond(v: int)
    ensures TooltipTotal(true, [Some(v)]) == Some(v)
    ensures TooltipTotal(true, [Some(v), None]) == Some(v)
  {
  }
}
