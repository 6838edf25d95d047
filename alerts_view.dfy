/** The alert centre (src/components/AlertsView.tsx): every service's alerts
    flattened into one tagged list, the search-and-filter over it, the three
    counters, the badge colour of an alert and the relative-time buckets. */
module AlertsView {
  import opened Lists
  import opened Types

  /** An alert together with the service it belongs to. */
  datatype TaggedAlert = TaggedAlert(
    alert: Alert,
    serviceName: string,
    serviceId: string,
    serviceIcon: string,
    serviceStatus: ServiceStatus)

  function Tag(service: Service, a: Alert): TaggedAlert
  {
    TaggedAlert(a, service.name, service.id, service.icon, service.status)
  }

  function TagAlerts(service: Service, alerts: seq<Alert>): seq<TaggedAlert>
  {
    seq(|alerts|, k requires 0 <= k < |alerts| => Tag(service, alerts[k]))
  }

  function AlertCountOf(service: Service): int { |service.alerts| }

  /** `allAlerts`: the services' alerts one service after another, each
      tagged with its owner. */
  function AllAlerts(services: seq<Service>): (r: seq<TaggedAlert>)
    ensures |r| == Sum(AlertCountOf, services)
  {
    if services == [] then [] else TagAlerts(services[0], services[0].alerts) + AllAlerts(services[1..])
  }

  /** Flattening respects the order of the services. */
  lemma {:induction false} AllAlertsAppend(a: seq<Service>, b: seq<Service>)
    ensures AllAlerts(a + b) == AllAlerts(a) + AllAlerts(b)
  {
    if a == [] {
      assert a + b == b;
    } else {
      assert (a + b)[1..] == a[1..] + b;
      AllAlertsAppend(a[1..], b);
    }
  }

  /** A tagged alert is in the list iff it is some service's alert tagged
      with that service. */
  lemma {:induction false} AllAlertsMembership(services: seq<Service>, t: TaggedAlert)
    ensures t in AllAlerts(services) <==>
      exists i, k :: 0 <= i < |services| && 0 <= k < |services[i].alerts| && t == Tag(services[i], services[i].alerts[k])
  {
    if services != [] {
      AllAlertsMembership(services[1..], t);
      var head := TagAlerts(services[0], services[0].alerts);
      assert t in AllAlerts(services) <==> t in head || t in AllAlerts(services[1..]);
      if t in head {
        var k :| 0 <= k < |head| && head[k] == t;
        assert t == Tag(services[0], services[0].alerts[k]);
      } else if t in AllAlerts(services[1..]) {
        var i, k :| 0 <= i < |services[1..]| && 0 <= k < |services[1..][i].alerts| && t == Tag(services[1..][i], services[1..][i].alerts[k]);
        assert t == Tag(services[i + 1], services[i + 1].alerts[k]);
      } else {
        forall i, k | 0 <= i < |services| && 0 <= k < |services[i].alerts|
          ensures t != Tag(services[i], services[i].alerts[k])
        {
          if i == 0 {
            assert head[k] == Tag(services[0], services[0].alerts[k]);
          } else {
            assert services[i] == services[1..][i - 1];
          }
        }
      }
    }
  }

  /** The filter selector; `alert.severity === filter` compares the literals. */
  datatype AlertFilter = AllFilter | ActiveFilter | ResolvedFilter | HighFilter | MediumFilter | LowFilter

  function FilterName(f: AlertFilter): string
  {
    match f
    case AllFilter => "all"
    case ActiveFilter => "active"
    case ResolvedFilter => "resolved"
    case HighFilter => "high"
    case MediumFilter => "medium"
    case LowFilter => "low"
  }

  predicate MatchesFilter(a: Alert, f: AlertFilter)
  {
    || f == AllFilter
    || (f == ActiveFilter && a.isActive)
    || (f == ResolvedFilter && !a.isActive)
    || SeverityName(a.severity) == FilterName(f)
  }

  /** What each filter keeps: `active` and `resolved` look only at the flag,
      the three severities only at the severity, active or not. */
  lemma MatchesFilterMeaning(a: Alert, f: AlertFilter)
    ensures f == AllFilter ==> MatchesFilter(a, f)
    ensures f == ActiveFilter ==> (MatchesFilter(a, f) <==> a.isActive)
    ensures f == ResolvedFilter ==> (MatchesFilter(a, f) <==> !a.isActive)
    ensures f == HighFilter ==> (MatchesFilter(a, f) <==> a.severity == High)
    ensures f == MediumFilter ==> (MatchesFilter(a, f) <==> a.severity == Medium)
    ensures f == LowFilter ==> (MatchesFilter(a, f) <==> a.severity == Low)
  {
    assert "active"[0] != SeverityName(a.severity)[0];
    assert "resolved"[0] != SeverityName(a.severity)[0];
  }

  /** `toLowerCase`, restricted to the ASCII letters. */
  function LowerChar(c: char): char
  {
    if 'A' <= c <= 'Z' then (c as int + 32) as char else c
  }

  function ToLower(s: string): string
  {
    seq(|s|, k requires 0 <= k < |s| => LowerChar(s[k]))
  }

  predicate OccursAt(hay: string, needle: string, i: int)
  {
    0 <= i && i + |needle| <= |hay| && hay[i..i + |needle|] == needle
  }

  /** `String.prototype.includes`, scanning from the left. */
  function Includes(hay: string, needle: string): bool
    decreases |hay|
  {
    (|needle| <= |hay| && hay[..|needle|] == needle) || (hay != [] && Includes(hay[1..], needle))
  }

  /** `includes` holds iff the needle occurs at some position. */
  lemma {:induction false} IncludesIffOccurs(hay: string, needle: string)
    ensures Includes(hay, needle) <==> exists i :: OccursAt(hay, needle, i)
    decreases |hay|
  {
    if hay != [] {
      IncludesIffOccurs(hay[1..], needle);
      if |needle| <= |hay| && hay[..|needle|] == needle {
        assert OccursAt(hay, needle, 0);
      }
      if Includes(hay[1..], needle) {
        var i :| OccursAt(hay[1..], needle, i);
        assert hay[1..][i..i + |needle|] == hay[i + 1..i + 1 + |needle|];
        assert OccursAt(hay, needle, i + 1);
      }
      if i :| OccursAt(hay, needle, i) {
        if i > 0 {
          assert hay[1..][i - 1..i - 1 + |needle|] == hay[i..i + |needle|];
          assert OccursAt(hay[1..], needle, i - 1);
        } else {
          assert hay[..|needle|] == needle;
        }
      }
    } else {
      if Includes(hay, needle) {
        assert OccursAt(hay, needle, 0);
      }
      if i :| OccursAt(hay, needle, i) {
        assert |needle| == 0 && hay[..0] == needle;
      }
    }
  }

  predicate MatchesSearch(t: TaggedAlert, query: string)
  {
    var q := ToLower(query);
    Includes(ToLower(t.alert.title), q) || Includes(ToLower(t.serviceName), q)
  }

  predicate Kept(t: TaggedAlert, f: AlertFilter, query: string)
  {
    MatchesSearch(t, query) && MatchesFilter(t.alert, f)
  }

  /** `filteredAlerts`: the order-preserving sub-list of the alerts that
      match both the search and the filter. */
  function FilteredAlerts(all: seq<TaggedAlert>, f: AlertFilter, query: string): (r: seq<TaggedAlert>)
    ensures IsSubsequence(r, all)
    ensures forall t :: t in r <==> t in all && Kept(t, f, query)
    ensures forall t :: multiset(r)[t] == if Kept(t, f, query) then multiset(all)[t] else 0
  {
    Filter(t => Kept(t, f, query), all)
  }

  /** With filter `all` and an empty search every alert is listed. */
  lemma AllFilterEmptyQuery(all: seq<TaggedAlert>)
    ensures FilteredAlerts(all, AllFilter, "") == all
  {
    assert ToLower("") == "";
    FilterKeepsAll(t => Kept(t, AllFilter, ""), all);
  }

  /** A search hit on the title ignores ASCII case: searching for the title
      in upper or lower case finds the alert. */
  lemma SearchIgnoresCase(t: TaggedAlert, query: string)
    requires ToLower(query) == ToLower(t.alert.title)
    ensures MatchesSearch(t, query)
  {
    var q := ToLower(query);
    assert OccursAt(ToLower(t.alert.title), q, 0);
    IncludesIffOccurs(ToLower(t.alert.title), q);
  }

  predicate IsActiveTagged(t: TaggedAlert) { t.alert.isActive }

  predicate IsResolvedTagged(t: TaggedAlert) { !t.alert.isActive }

  predicate IsHighPriority(t: TaggedAlert) { t.alert.isActive && t.alert.severity == High }

  /** The "active" counter: at most all alerts, and 0 iff none is active. */
  function ActiveAlertsCount(all: seq<TaggedAlert>): (n: nat)
    ensures n <= |all|
    ensures n == 0 <==> forall a :: a in all ==> !IsActiveTagged(a)
  {
    var kept := Filter(IsActiveTagged, all);
    assert kept == [] <==> forall a :: a !in kept;
    |kept|
  }

  /** The "resolved" counter: at most all alerts, and 0 iff none is resolved. */
  function ResolvedAlertsCount(all: seq<TaggedAlert>): (n: nat)
    ensures n <= |all|
    ensures n == 0 <==> forall a :: a in all ==> !IsResolvedTagged(a)
  {
    var kept := Filter(IsResolvedTagged, all);
    assert kept == [] <==> forall a :: a !in kept;
    |kept|
  }

  /** The "critical" counter: at most all alerts, and 0 iff no alert is both
      high and active. */
  function HighPriorityCount(all: seq<TaggedAlert>): (n: nat)
    ensures n <= |all|
    ensures n == 0 <==> forall a :: a in all ==> !IsHighPriority(a)
  {
    var kept := Filter(IsHighPriority, all);
    assert kept == [] <==> forall a :: a !in kept;
    |kept|
  }

  /** Active and resolved alerts add up to all alerts; critical ones are
      among the active ones. */
  lemma CountsAddUp(all: seq<TaggedAlert>)
    ensures ActiveAlertsCount(all) + ResolvedAlertsCount(all) == |all|
    ensures HighPriorityCount(all) <= ActiveAlertsCount(all)
  {
    FilterComplement(IsActiveTagged, IsResolvedTagged, all);
    FilterMonotone(IsActiveTagged, IsHighPriority, all);
  }

  /** The "active" counter is the length of the list the `active` filter
      shows with an empty search. */
  lemma ActiveCountIsActiveFilter(all: seq<TaggedAlert>)
    ensures ActiveAlertsCount(all) == |FilteredAlerts(all, ActiveFilter, "")|
  {
    assert ToLower("") == "";
    var p := t => Kept(t, ActiveFilter, "");
    forall t ensures p(t) == IsActiveTagged(t) {
      MatchesFilterMeaning(t.alert, ActiveFilter);
    }
    assert Filter(p, all) == Filter(IsActiveTagged, all) by {
      FilterSamePredicate(p, IsActiveTagged, all);
    }
  }

  /** `getSeverityColor`: a resolved alert is grey whatever its severity; an
      active one is red, yellow or blue by severity, grey if the severity
      string is none of the three. */
  function SeverityColor(severity: string, isActive: bool): (color: string)
    ensures color == "bg-gray-100 text-gray-600" <==> !isActive || ParseSeverity(severity).None?
  {
    if !isActive then "bg-gray-100 text-gray-600"
    else
      match severity
      case "high" => "bg-red-100 text-red-800"
      case "medium" => "bg-yellow-100 text-yellow-800"
      case "low" => "bg-blue-100 text-blue-800"
      case _ => "bg-gray-100 text-gray-600"
  }

  /** Active alerts of different severities get different colours. */
  lemma SeverityColorsDistinct(a: Severity, b: Severity)
    requires a != b
    ensures SeverityColor(SeverityName(a), true) != SeverityColor(SeverityName(b), true)
  {
  }

  datatype SeverityIcon = CheckCircle | AlertTriangle | Clock | Bell

  /** `getSeverityIcon`: a check mark for every resolved alert; an active
      one gets the icon of its severity, the bell for any other string. */
  function SeverityIconOf(severity: string, isActive: bool): (icon: SeverityIcon)
    ensures icon == CheckCircle <==> !isActive
    ensures icon == AlertTriangle <==> isActive && severity == "high"
    ensures icon == Clock <==> isActive && severity == "medium"
  {
    if !isActive then CheckCircle
    else match severity
      case "high" => AlertTriangle
      case "medium" => Clock
      case _ => Bell
  }

  /** The three buckets of `formatRelativeTime`. */
  datatype RelativeTime = MinutesAgo(minutes: int) | HoursAgo(hours: int) | CalendarDate

  /** `Math.floor(a / b)`; for a positive divisor Dafny's `/` on `int`
      already rounds down. */
  function FloorDiv(a: int, b: int): int
    requires b > 0
  {
    a / b
  }

  /** Buckets the milliseconds elapsed since an alert: whole minutes below
      one hour, whole hours below one day, a calendar date otherwise. */
  function FormatRelativeTime(diffMs: int): (r: RelativeTime)
    ensures r.MinutesAgo? <==> diffMs < 3600000
    ensures r.MinutesAgo? ==> r.minutes * 60000 <= diffMs < (r.minutes + 1) * 60000
    ensures r.HoursAgo? <==> 3600000 <= diffMs < 86400000
    ensures r.HoursAgo? ==> 1 <= r.hours < 24 && r.hours * 3600000 <= diffMs < (r.hours + 1) * 3600000
  {
    var diffMinutes := FloorDiv(diffMs, 1000 * 60);
    var diffHours := FloorDiv(diffMinutes, 60);
    if diffMinutes < 60 then MinutesAgo(diffMinutes)
    else if diffHours < 24 then HoursAgo(diffHours)
    else CalendarDate
  }

  predicate IsDigit(c: char) { '0' <= c <= '9' }

  predicate AllDigits(s: string) { forall i :: 0 <= i < |s| ==> IsDigit(s[i]) }

  /** The value of a string of decimal digits, most significant first: the
      reference reading of a numeral. */
  function ParseDigits(s: string): nat
    requires AllDigits(s)
  {
    if s == [] then 0
    else ParseDigits(s[..|s| - 1]) * 10 + (s[|s| - 1] as int - '0' as int)
  }

  lemma DigitChar(k: nat)
    requires k < 10
    ensures IsDigit("0123456789"[k]) && "0123456789"[k] as int - '0' as int == k
  {
  }

  /** The decimal numeral of a natural number: digits only, no leading zero,
      and reading it back gives the number. */
  function DigitsOf(n: nat): (d: string)
    ensures |d| > 0 && AllDigits(d)
    ensures |d| > 1 ==> d[0] != '0'
    ensures ParseDigits(d) == n
  {
    DigitChar(n % 10);
    if n < 10 then
      var d := ["0123456789"[n]];
      assert d[..0] == [];
      d
    else
      var prefix := DigitsOf(n / 10);
      var d := prefix + ["0123456789"[n % 10]];
      assert d[..|d| - 1] == prefix;
      d
  }

  /** A JavaScript integer in a template literal. */
  function IntToString(n: int): (s: string)
    ensures n >= 0 ==> AllDigits(s) && |s| > 0 && ParseDigits(s) == n && (|s| > 1 ==> s[0] != '0')
    ensures n < 0 ==> |s| > 1 && s[0] == '-' && AllDigits(s[1..]) && ParseDigits(s[1..]) == -n
  {
    if n < 0 then "-" + DigitsOf(-n) else DigitsOf(n)
  }

  /** Different integers have different numerals. */
  lemma IntToStringInjective(a: int, b: int)
    requires IntToString(a) == IntToString(b)
    ensures a == b
  {
  }

  /** The text shown; the locale-formatted date is supplied by the caller.
      Minutes and hours read "Hace <n> minutos" and "Hace <n> horas". */
  function RelativeTimeText(r: RelativeTime, localeDate: string): (text: string)
    ensures r.CalendarDate? ==> text == localeDate
    ensures r.MinutesAgo? ==> text == "Hace " + IntToString(r.minutes) + " minutos"
    ensures r.HoursAgo? ==> text == "Hace " + IntToString(r.hours) + " horas"
    ensures !r.CalendarDate? ==> |text| > 5 && text[..5] == "Hace "
    ensures r.MinutesAgo? ==> |text| > 8 && text[|text| - 8..] == " minutos"
    ensures r.HoursAgo? ==> |text| > 6 && text[|text| - 6..] == " horas"
  {
    match r
    case MinutesAgo(m) => "Hace " + IntToString(m) + " minutos"
    case HoursAgo(h) => "Hace " + IntToString(h) + " horas"
    case CalendarDate => localeDate
  }
}
