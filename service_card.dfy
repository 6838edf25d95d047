/** What one service card derives from its service
    (src/components/ServiceCard.tsx): the colour and text of a status, the
    badge variants, the response-time trend, and the split of the service's
    alerts into active ones and the resolved history. */
module ServiceCard {
  import opened Lists
  import opened Types

  /** `getStatusColor` takes any string; a string that is no status literal
      falls to the grey default. */
  function StatusColor(status: string): (color: string)
    ensures color == "bg-gray-500" <==> ParseStatus(status).None?
  {
    match status
    case "online" => "bg-green-500"
    case "warning" => "bg-yellow-500"
    case "error" => "bg-red-500"
    case _ => "bg-gray-500"
  }

  /** `getStatusText`: Spanish label of a status, "Desconocido" otherwise. */
  function StatusText(status: string): (text: string)
    ensures text == "Desconocido" <==> ParseStatus(status).None?
  {
    match status
    case "online" => "En línea"
    case "warning" => "Advertencia"
    case "error" => "Error"
    case _ => "Desconocido"
  }

  /** The three statuses get three different colours and three different
      labels. */
  lemma StatusPresentationInjective(a: ServiceStatus, b: ServiceStatus)
    requires a != b
    ensures StatusColor(StatusName(a)) != StatusColor(StatusName(b))
    ensures StatusText(StatusName(a)) != StatusText(StatusName(b))
  {
  }

  datatype BadgeVariant = Default | Secondary | Destructive

  /** The status badge: online is `default`, warning `secondary`, anything
      else `destructive`. */
  function StatusBadge(status: ServiceStatus): (variant: BadgeVariant)
    ensures variant == Default <==> status == Online
    ensures variant == Secondary <==> status == Warning
  {
    if status == Online then Default
    else if status == Warning then Secondary
    else Destructive
  }

  /** The badge of one recent transaction, by the same three-way rule. */
  function TransactionBadge(status: TransactionStatus): (variant: BadgeVariant)
    ensures variant == Default <==> status == TxSuccess
    ensures variant == Secondary <==> status == TxWarning
  {
    if status == TxSuccess then Default
    else if status == TxWarning then Secondary
    else Destructive
  }

  datatype Trend = Up | Down | Steady

  /** `getTrendIcon`: up above 110% of the threshold, otherwise down below
      90% of it, otherwise steady. */
  function TrendOf(current: real, threshold: real): (trend: Trend)
    ensures trend == Up <==> current > threshold * 1.1
    ensures trend == Down <==> current <= threshold * 1.1 && current < threshold * 0.9
  {
    if current > threshold * 1.1 then Up
    else if current < threshold * 0.9 then Down
    else Steady
  }

  /** For a positive threshold the two tests cannot both hold, so the order
      of the tests does not matter. */
  lemma TrendTestsExclusive(current: real, threshold: real)
    requires threshold > 0.0
    ensures !(current > threshold * 1.1 && current < threshold * 0.9)
    ensures TrendOf(current, threshold) == Down <==> current < threshold * 0.9
  {
  }

  /** The card tests a whole number of milliseconds against 200: up means
      more than 220 ms, down less than 180 ms. */
  lemma ResponseTimeTrend(responseTime: int)
    ensures TrendOf(responseTime as real, 200.0) == Up <==> responseTime > 220
    ensures TrendOf(responseTime as real, 200.0) == Down <==> responseTime < 180
    ensures TrendOf(responseTime as real, 200.0) == Steady <==> 180 <= responseTime <= 220
  {
  }

  /** A slower response never gives a lower trend (down < steady < up). */
  lemma TrendMonotone(a: real, b: real, threshold: real)
    requires a <= b
    ensures TrendOf(a, threshold) == Up ==> TrendOf(b, threshold) == Up
    ensures TrendOf(b, threshold) == Down ==> TrendOf(a, threshold) != Up
  {
  }

  predicate IsActive(a: Alert) { a.isActive }

  predicate IsResolved(a: Alert) { !a.isActive }

  /** `activeAlerts`: the active alerts, in their original order. */
  function ActiveAlerts(alerts: seq<Alert>): (r: seq<Alert>)
    ensures IsSubsequence(r, alerts)
    ensures forall a :: a in r ==> a.isActive
    ensures forall a :: a in alerts && a.isActive ==> a in r
  {
    Filter(IsActive, alerts)
  }

  /** The resolved history: the inactive alerts, in their original order. */
  function ResolvedAlerts(alerts: seq<Alert>): (r: seq<Alert>)
    ensures IsSubsequence(r, alerts)
    ensures forall a :: a in r ==> !a.isActive
    ensures forall a :: a in alerts && !a.isActive ==> a in r
  {
    Filter(IsResolved, alerts)
  }

  /** Active and resolved alerts partition a service's alerts. */
  lemma AlertPartition(alerts: seq<Alert>)
    ensures |ActiveAlerts(alerts)| + |ResolvedAlerts(alerts)| == |alerts|
    ensures multiset(ActiveAlerts(alerts)) + multiset(ResolvedAlerts(alerts)) == multiset(alerts)
  {
    FilterComplement(IsActive, IsResolved, alerts);
  }

  /** The border of an active alert inside the card: high is red, medium
      yellow, anything else blue. */
  function AlertTone(severity: Severity): (tone: string)
    ensures tone == "border-red-200 bg-red-50" <==> severity == High
    ensures tone == "border-yellow-200 bg-yellow-50" <==> severity == Medium
  {
    if severity == High then "border-red-200 bg-red-50"
    else if severity == Medium then "border-yellow-200 bg-yellow-50"
    else "border-blue-200 bg-blue-50"
  }

  /** The alerts block of an expanded card: the active alerts, and the
      resolved history when there is any. */
  datatype AlertsSection = AlertsSection(active: seq<Alert>, history: Option<seq<Alert>>)

  /** What a card shows that is computed from its service. */
  datatype CardView = CardView(
    statusColor: string,
    statusText: string,
    badge: BadgeVariant,
    responseTrend: Trend,
    errorsTile: Option<nat>,
    alertsSection: Option<AlertsSection>)

  /** The card of one service. The errors tile exists only on the full-width
      card; the alerts block only on a selected card whose service has
      alerts; the history only when some alert is resolved. */
  function Render(service: Service, isSelected: bool, isFullWidth: bool): (card: CardView)
    ensures card.statusColor == StatusColor(StatusName(service.status)) && card.statusColor != "bg-gray-500"
    ensures card.statusText == StatusText(StatusName(service.status)) && card.statusText != "Desconocido"
    ensures card.badge == StatusBadge(service.status)
    ensures card.responseTrend == TrendOf(service.metrics.responseTime as real, 200.0)
    ensures card.errorsTile.Some? <==> isFullWidth
    ensures card.errorsTile.Some? ==> card.errorsTile.value == |ActiveAlerts(service.alerts)|
    ensures card.alertsSection.Some? <==> isSelected && |service.alerts| > 0
    ensures card.alertsSection.Some? ==> card.alertsSection.value.active == ActiveAlerts(service.alerts)
    ensures card.alertsSection.Some? && card.alertsSection.value.history.Some? ==>
              card.alertsSection.value.history.value == ResolvedAlerts(service.alerts)
              && |card.alertsSection.value.history.value| > 0
    ensures card.alertsSection.Some? ==>
              (card.alertsSection.value.history.Some? <==> |ActiveAlerts(service.alerts)| < |service.alerts|)
  {
    var active := ActiveAlerts(service.alerts);
    var resolved := ResolvedAlerts(service.alerts);
    AlertPartition(service.alerts);
    CardView(
      StatusColor(StatusName(service.status)),
      StatusText(StatusName(service.status)),
      StatusBadge(service.status),
      TrendOf(service.metrics.responseTime as real, 200.0),
      if isFullWidth then Some(|active|) else None,
      if isSelected && |service.alerts| > 0 then
        Some(AlertsSection(active, if |resolved| > 0 then Some(resolved) else None))
      else None)
  }
}
