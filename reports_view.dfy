/** The reports page (src/components/ReportsView.tsx): the reporting period
    and its buckets, the per-service comparison, the status distribution and
    the consolidated metrics. */
module ReportsView {
  import opened Lists
  import opened Types
  import ServiceCard
  import AlertsView
  import DashboardView
  import NetworkDiagram

  /** The four periods of the period selector. */
  datatype TimePeriod = Last24h | Last7d | Last30d | Last90d

  /** The period shown on the first render. */
  const DefaultPeriod: TimePeriod := Last7d

  function PeriodName(p: TimePeriod): string
  {
    match p
    case Last24h => "24h"
    case Last7d => "7d"
    case Last30d => "30d"
    case Last90d => "90d"
  }

  /** The selector's value back to a period; no other string names one. */
  function ParsePeriod(s: string): (r: Option<TimePeriod>)
    ensures r.Some? ==> PeriodName(r.value) == s
    ensures r.None? ==> forall p :: PeriodName(p) != s
  {
    match s
    case "24h" => Some(Last24h)
    case "7d" => Some(Last7d)
    case "30d" => Some(Last30d)
    case "90d" => Some(Last90d)
    case _ => None
  }

  lemma PeriodNameRoundTrip(p: TimePeriod)
    ensures ParsePeriod(PeriodName(p)) == Some(p)
  {
  }

  datatype Interval = Hour | Day

  /** The number of points of the performance chart: hourly points exactly
      for the last 24 hours. */
  function BucketCount(p: TimePeriod): (n: nat)
    ensures n > 0
    ensures n == 24 <==> IntervalOf(p) == Hour
  {
    match p
    case Last24h => 24
    case Last7d => 7
    case Last30d => 30
    case Last90d => 90
  }

  /** `interval`: hours for the last 24 hours, days otherwise. The component
      computes it but never reads it; here it names the unit of the period
      label. */
  function IntervalOf(p: TimePeriod): (i: Interval)
    ensures i == Hour <==> p == Last24h
  {
    if p == Last24h then Hour else Day
  }

  /** Point `i` of the performance chart lies `days - 1 - i` intervals
      before now: the points run from the oldest to the present. */
  function PerformanceOffsets(p: TimePeriod): (offsets: seq<int>)
    ensures |offsets| == BucketCount(p)
    ensures offsets[|offsets| - 1] == 0
    ensures forall i :: 0 <= i < |offsets| ==> offsets[i] >= 0
    ensures forall i, j :: 0 <= i < j < |offsets| ==> offsets[i] > offsets[j]
    ensures forall i :: 0 <= i < |offsets| ==> offsets[i] == |offsets| - 1 - i
  {
    var n := BucketCount(p);
    seq(n, i => n - 1 - i)
  }

  /** Every period has a distinct point count of its own. */
  lemma BucketCountInjective(p: TimePeriod, q: TimePeriod)
    requires p != q
    ensures BucketCount(p) != BucketCount(q)
  {
  }

  /** `getPeriodLabel`: each label spells out the period's point count and
      interval. */
  function PeriodLabel(p: TimePeriod): (text: string)
    ensures text ==
      (if p == Last24h then "Últimas " else "Últimos ")
      + AlertsView.IntToString(BucketCount(p))
      + (if IntervalOf(p) == Hour then " horas" else " días")
  {
    match p
    case Last24h =>
      assert AlertsView.IntToString(24) == "24";
      "Últimas 24 horas"
    case Last7d =>
      assert AlertsView.IntToString(7) == "7";
      "Últimos 7 días"
    case Last30d =>
      assert AlertsView.IntToString(30) == "30";
      "Últimos 30 días"
    case Last90d =>
      assert AlertsView.IntToString(90) == "90";
      "Últimos 90 días"
  }

  /** `\s` of a JavaScript regular expression. */
  predicate IsSpace(c: char)
  {
    c == '\t' || c == '\n' || c == '\U{B}' || c == '\U{C}' || c == '\r' || c == ' '
    || c == '\U{A0}' || c == '\U{1680}' || ('\U{2000}' <= c <= '\U{200A}')
    || c == '\U{2028}' || c == '\U{2029}' || c == '\U{202F}' || c == '\U{205F}'
    || c == '\U{3000}' || c == '\U{FEFF}'
  }

  /** The characters `.` does not match. */
  predicate IsLineTerminator(c: char)
  {
    c == '\n' || c == '\r' || c == '\U{2028}' || c == '\U{2029}'
  }

  /** `/\s.+/` can start matching at `k`: a space followed by at least one
      character `.` accepts. */
  predicate CutsAt(name: string, k: int)
  {
    0 <= k && k + 1 < |name| && IsSpace(name[k]) && !IsLineTerminator(name[k + 1])
  }

  /** The leftmost start of a match at or after `from`. */
  function FirstCut(name: string, from: nat): (r: Option<nat>)
    requires from <= |name|
    ensures r.Some? ==> from <= r.value && CutsAt(name, r.value)
    ensures r.Some? ==> forall k :: from <= k < r.value ==> !CutsAt(name, k)
    ensures r.None? ==> forall k :: from <= k ==> !CutsAt(name, k)
    decreases |name| - from
  {
    if from + 1 >= |name| then None
    else if CutsAt(name, from) then Some(from)
    else FirstCut(name, from + 1)
  }

  /** Where the greedy `.+` stops: the first line terminator at or after
      `j`, or the end of the name. */
  function MatchEnd(name: string, j: nat): (e: nat)
    requires j <= |name|
    ensures j <= e <= |name|
    ensures forall k :: j <= k < e ==> !IsLineTerminator(name[k])
    ensures e < |name| ==> IsLineTerminator(name[e])
    decreases |name| - j
  {
    if j == |name| || IsLineTerminator(name[j]) then j else MatchEnd(name, j + 1)
  }

  /** `name.replace(/\s.+/, '')`: the first match, if any, removed. */
  function ShortName(name: string): (short: string)
    ensures |short| <= |name|
    ensures short == name <==> FirstCut(name, 0).None?
  {
    match FirstCut(name, 0)
    case None => name
    case Some(i) => name[..i] + name[MatchEnd(name, i + 1)..]
  }

  /** A name without line breaks is cut at its first space that has a
      character after it: what is left is a prefix without spaces, or the
      whole name when only its last character may be a space. */
  lemma ShortNameIsFirstWord(name: string)
    requires forall k :: 0 <= k < |name| ==> !IsLineTerminator(name[k])
    ensures ShortName(name) == name[..|ShortName(name)|]
    ensures |ShortName(name)| < |name| ==>
              IsSpace(name[|ShortName(name)|]) && forall k :: 0 <= k < |ShortName(name)| ==> !IsSpace(name[k])
    ensures |ShortName(name)| == |name| ==> forall k :: 0 <= k < |name| - 1 ==> !IsSpace(name[k])
  {
    match FirstCut(name, 0)
    case None =>
      assert name[..|name|] == name;
      forall k | 0 <= k < |name| - 1 ensures !IsSpace(name[k]) {
        assert !CutsAt(name, k) && !IsLineTerminator(name[k + 1]);
      }
    case Some(i) =>
      var e := MatchEnd(name, i + 1);
      assert e == |name|;
      assert ShortName(name) == name[..i];
      forall k | 0 <= k < i ensures !IsSpace(name[k]) {
        assert !CutsAt(name, k) && !IsLineTerminator(name[k + 1]);
      }
  }

  /** Shortening a name without line breaks twice changes nothing more. */
  lemma ShortNameIdempotent(name: string)
    requires forall k :: 0 <= k < |name| ==> !IsLineTerminator(name[k])
    ensures ShortName(ShortName(name)) == ShortName(name)
  {
    ShortNameIsFirstWord(name);
  }

  /** A name whose first space is at `i`, with more after it, keeps
      exactly the characters before `i`. */
  lemma ShortNameAt(name: string, i: nat)
    requires forall k :: 0 <= k < |name| ==> !IsLineTerminator(name[k])
    requires i + 1 < |name| && IsSpace(name[i])
    requires forall k :: 0 <= k < i ==> !IsSpace(name[k])
    ensures ShortName(name) == name[..i]
  {
    ShortNameIsFirstWord(name);
  }

  /** Two-word names keep their first word. */
  lemma ShortNameOfApi()
    ensures ShortName("API Interno") == "API"
  {
    var name := "API Interno";
    ShortNameAt(name, 3);
    assert name[..3] == "API";
  }

  /** A trailing space has nothing after it for `.+`, so it stays. */
  lemma ShortNameKeepsTrailingSpace()
    ensures ShortName("Web ") == "Web "
  {
    var name := "Web ";
    assert !CutsAt(name, 0) && !CutsAt(name, 1) && !CutsAt(name, 2);
  }

  /** One bar group of the comparison chart. */
  datatype ComparisonRow = ComparisonRow(
    name: string,
    availability: real,
    responseTime: int,
    throughput: int,
    status: ServiceStatus)

  function ComparisonRowOf(s: Service): ComparisonRow
  {
    ComparisonRow(ShortName(s.name), s.metrics.availability, s.metrics.responseTime,
                  s.metrics.transactionsPerMinute, s.status)
  }

  /** `generateServiceComparison`: one row per service, in order. */
  function ServiceComparison(services: seq<Service>): (rows: seq<ComparisonRow>)
    ensures |rows| == |services|
    ensures forall k :: 0 <= k < |rows| ==>
              rows[k].availability == services[k].metrics.availability
              && rows[k].responseTime == services[k].metrics.responseTime
              && rows[k].throughput == services[k].metrics.transactionsPerMinute
              && rows[k].status == services[k].status
              && rows[k].name == ShortName(services[k].name)
              && |rows[k].name| <= |services[k].name|
  {
    seq(|services|, k requires 0 <= k < |services| => ComparisonRowOf(services[k]))
  }

  function RowThroughput(r: ComparisonRow): int { r.throughput }

  /** The comparison bars add up to the throughput tile. */
  lemma {:induction false} ComparisonThroughputTotal(services: seq<Service>)
    ensures Sum(RowThroughput, ServiceComparison(services)) == DashboardView.TotalThroughput(services)
  {
    if services != [] {
      assert ServiceComparison(services)[1..] == ServiceComparison(services[1..]);
      ComparisonThroughputTotal(services[1..]);
    }
  }

  /** One slice of the status pie. */
  datatype StatusSlice = StatusSlice(name: string, value: nat, color: string)

  function HasStatus(st: ServiceStatus): Service -> bool
  {
    (s: Service) => s.status == st
  }

  function StatusCount(services: seq<Service>, st: ServiceStatus): nat
  {
    |Filter(HasStatus(st), services)|
  }

  function SliceColor(st: ServiceStatus): string
  {
    match st
    case Online => "#22c55e"
    case Warning => "#fbbf24"
    case Error => "#ef4444"
  }

  /** The pie paints each status in the diagram's colour for it. */
  lemma SliceColorMatchesDiagram(st: ServiceStatus)
    ensures SliceColor(st) == NetworkDiagram.StatusHex(StatusName(st))
  {
  }

  /** A slice is named with the card's label for the status. */
  function SliceOf(services: seq<Service>, st: ServiceStatus): StatusSlice
  {
    StatusSlice(ServiceCard.StatusText(StatusName(st)), StatusCount(services, st), SliceColor(st))
  }

  predicate NonEmptySlice(x: StatusSlice) { x.value > 0 }

  function AllSlices(services: seq<Service>): seq<StatusSlice>
  {
    [SliceOf(services, Online), SliceOf(services, Warning), SliceOf(services, Error)]
  }

  /** `generateStatusDistribution`: online, warning and error in that order,
      the statuses no service has left out. */
  function StatusDistribution(services: seq<Service>): (slices: seq<StatusSlice>)
    ensures IsSubsequence(slices, AllSlices(services)) && |slices| <= 3
    ensures forall x :: x in slices ==> x.value > 0
    ensures forall st :: SliceOf(services, st) in slices <==> StatusCount(services, st) > 0
  {
    var slices := Filter(NonEmptySlice, AllSlices(services));
    SliceKeptIffCounted(services, slices);
    slices
  }

  lemma SliceKeptIffCounted(services: seq<Service>, slices: seq<StatusSlice>)
    requires forall x :: x in slices <==> x in AllSlices(services) && NonEmptySlice(x)
    ensures forall st :: SliceOf(services, st) in slices <==> StatusCount(services, st) > 0
  {
    forall st ensures SliceOf(services, st) in slices <==> StatusCount(services, st) > 0 {
      assert SliceOf(services, st) in AllSlices(services) by {
        match st
        case Online => assert AllSlices(services)[0] == SliceOf(services, st);
        case Warning => assert AllSlices(services)[1] == SliceOf(services, st);
        case Error => assert AllSlices(services)[2] == SliceOf(services, st);
      }
    }
  }

  function SliceValue(x: StatusSlice): int { x.value }

  lemma StatusCountCons(services: seq<Service>, st: ServiceStatus)
    requires services != []
    ensures StatusCount(services, st) == (if services[0].status == st then 1 else 0) + StatusCount(services[1..], st)
  {
  }

  /** Every service has exactly one of the three statuses. */
  lemma {:induction false} StatusCountsPartition(services: seq<Service>)
    ensures StatusCount(services, Online) + StatusCount(services, Warning) + StatusCount(services, Error) == |services|
  {
    if services != [] {
      StatusCountsPartition(services[1..]);
      StatusCountCons(services, Online);
      StatusCountCons(services, Warning);
      StatusCountCons(services, Error);
    }
  }

  lemma SumOfThree(f: StatusSlice -> int, a: StatusSlice, b: StatusSlice, c: StatusSlice)
    ensures Sum(f, [a, b, c]) == f(a) + f(b) + f(c)
  {
    assert [a, b, c][1..] == [b, c];
    assert [b, c][1..] == [c];
    assert Sum(f, [c]) == f(c);
    assert Sum(f, [b, c]) == f(b) + f(c);
  }

  /** The slices of the pie add up to the number of services. */
  lemma StatusDistributionSum(services: seq<Service>)
    ensures Sum(SliceValue, StatusDistribution(services)) == |services|
  {
    var all := AllSlices(services);
    SumFilterZeros(NonEmptySlice, SliceValue, all);
    assert all == [all[0], all[1], all[2]];
    SumOfThree(SliceValue, all[0], all[1], all[2]);
    StatusCountsPartition(services);
  }

  /** The online slice, when drawn, holds the numerator of the dashboard's
      "active services" tile. */
  lemma OnlineSliceMatchesDashboard(services: seq<Service>)
    ensures StatusCount(services, Online) == DashboardView.OnlineCount(services)
  {
    FilterSamePredicate(HasStatus(Online), DashboardView.IsOnline, services);
  }

  /** A drawn slice counts between one and all of the services, so its
      share of the fleet is well defined. */
  lemma SliceWithinFleet(services: seq<Service>, x: StatusSlice)
    requires x in StatusDistribution(services)
    ensures 0 < x.value <= |services|
  {
    StatusCountsPartition(services);
    assert x in AllSlices(services);
  }

  /** `servicio` or `servicios` after a slice's count. */
  function ServicesNoun(value: nat): (noun: string)
    ensures noun == "servicio" <==> value == 1
  {
    "servicio" + (if value != 1 then "s" else "")
  }

  function ActiveAlertsOf(s: Service): int { |Filter(ServiceCard.IsActive, s.alerts)| }

  /** The reports page's own `totalActiveAlerts` reduction: never negative,
      and 0 exactly when no service has an active alert. */
  function TotalActiveAlerts(services: seq<Service>): (n: int)
    ensures n >= 0
    ensures n == 0 <==> forall s :: s in services ==> forall a :: a in s.alerts ==> !a.isActive
  {
    assert forall s :: s in services ==>
             (ActiveAlertsOf(s) == 0 <==> forall a :: a in s.alerts ==> !a.isActive) by {
      forall s | s in services
        ensures ActiveAlertsOf(s) == 0 <==> forall a :: a in s.alerts ==> !a.isActive
      {
        var kept := Filter(ServiceCard.IsActive, s.alerts);
        assert kept == [] <==> forall a :: a !in kept;
      }
    }
    SumNonNegative(ActiveAlertsOf, services);
    SumZeroIff(ActiveAlertsOf, services);
    Sum(ActiveAlertsOf, services)
  }

  /** The reports page and the dashboard count the same active alerts. */
  lemma {:induction false} TotalActiveAlertsMatchDashboard(services: seq<Service>)
    ensures TotalActiveAlerts(services) == DashboardView.TotalActiveAlerts(services)
    ensures TotalActiveAlerts(services) == AlertsView.ActiveAlertsCount(AlertsView.AllAlerts(services))
  {
    if services != [] {
      TotalActiveAlertsMatchDashboard(services[1..]);
    }
    DashboardView.TotalActiveAlertsAgree(services);
  }

  function SumReal(values: seq<real>): real
  {
    if values == [] then 0.0 else values[0] + SumReal(values[1..])
  }

  /** A mean; `None` stands for the `NaN` of dividing by an empty fleet. */
  function Mean(values: seq<real>): (m: Option<real>)
    ensures m.None? <==> values == []
  {
    if values == [] then None else Some(SumReal(values) / (|values| as real))
  }

  lemma {:induction false} SumRealBounds(values: seq<real>, lo: real, hi: real)
    requires forall k :: 0 <= k < |values| ==> lo <= values[k] <= hi
    ensures (|values| as real) * lo <= SumReal(values) <= (|values| as real) * hi
  {
    if values != [] {
      SumRealBounds(values[1..], lo, hi);
    }
  }

  /** A mean lies between the smallest and the largest value. */
  lemma MeanBounded(values: seq<real>, lo: real, hi: real)
    requires values != []
    requires forall k :: 0 <= k < |values| ==> lo <= values[k] <= hi
    ensures lo <= Mean(values).value <= hi
  {
    SumRealBounds(values, lo, hi);
    var n := |values| as real;
    var s := SumReal(values);
    assert n * lo <= s <= n * hi;
    assert s / n <= hi by {
      assert s / n * n == s;
    }
    assert lo <= s / n by {
      assert s / n * n == s;
    }
  }

  function Uptimes(services: seq<Service>): (values: seq<real>)
    ensures |values| == |services|
  {
    seq(|services|, k requires 0 <= k < |services| => services[k].metrics.uptime)
  }

  function ResponseTimes(services: seq<Service>): (values: seq<real>)
    ensures |values| == |services|
  {
    seq(|services|, k requires 0 <= k < |services| => services[k].metrics.responseTime as real)
  }

  /** The four consolidated tiles of the reports page. */
  datatype Consolidated = Consolidated(
    meanUptime: Option<real>,
    totalThroughput: int,
    meanResponseTime: Option<real>,
    totalActiveAlerts: int)

  function ConsolidatedMetrics(services: seq<Service>): (c: Consolidated)
    ensures c.meanUptime.None? <==> services == []
    ensures c.meanResponseTime.None? <==> services == []
    ensures c.totalThroughput == DashboardView.TotalThroughput(services)
    ensures c.totalActiveAlerts == AlertsView.ActiveAlertsCount(AlertsView.AllAlerts(services))
  {
    TotalActiveAlertsMatchDashboard(services);
    Consolidated(Mean(Uptimes(services)), DashboardView.TotalThroughput(services),
                 Mean(ResponseTimes(services)), TotalActiveAlerts(services))
  }
}
