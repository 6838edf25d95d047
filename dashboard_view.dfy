/** The dashboard and service-list page (src/components/DashboardView.tsx):
    the heading, the fleet tiles, the full-width card of the selected
    service and the grid of the other services. */
module DashboardView {
  import opened Lists
  import opened Types
  import ServiceCard
  import AlertsView
  import NetworkDiagram

  datatype Heading = Heading(title: string, subtitle: string)

  /** `getTitle`: the heading depends on whether the diagram is shown. */
  function GetTitle(showNetworkDiagram: bool): (h: Heading)
    ensures h.title == "Dashboard de Monitoreo" <==> showNetworkDiagram
    ensures h.title == "Servicios del Sistema" <==> !showNetworkDiagram
  {
    if showNetworkDiagram then
      Heading("Dashboard de Monitoreo", "Estado en tiempo real de todos los servicios críticos")
    else
      Heading("Servicios del Sistema", "Gestión y monitoreo detallado de cada servicio")
  }

  predicate IsOnline(s: Service) { s.status == Online }

  /** The numerator of the "active services" tile. */
  function OnlineCount(services: seq<Service>): (n: nat)
    ensures n <= |services|
  {
    |Filter(IsOnline, services)|
  }

  function ThroughputOf(s: Service): int { s.metrics.transactionsPerMinute }

  predicate ThroughputsNonNegative(services: seq<Service>)
  {
    forall s :: s in services ==> ThroughputOf(s) >= 0
  }

  /** The throughput tile, before it is scaled to thousands. With
      non-negative rates it is non-negative, bounds every service's rate and
      is 0 only when every service is idle. */
  function TotalThroughput(services: seq<Service>): (t: int)
    ensures ThroughputsNonNegative(services) ==> t >= 0
    ensures ThroughputsNonNegative(services) ==>
              forall k :: 0 <= k < |services| ==> ThroughputOf(services[k]) <= t
    ensures ThroughputsNonNegative(services) ==>
              (t == 0 <==> forall s :: s in services ==> ThroughputOf(s) == 0)
  {
    var t := Sum(ThroughputOf, services);
    assert ThroughputsNonNegative(services) ==>
             t >= 0 && (forall k :: 0 <= k < |services| ==> ThroughputOf(services[k]) <= t)
             && (t == 0 <==> forall s :: s in services ==> ThroughputOf(s) == 0) by {
      if ThroughputsNonNegative(services) {
        SumNonNegative(ThroughputOf, services);
        SumAtLeastEachTerm(ThroughputOf, services);
        SumZeroIff(ThroughputOf, services);
      }
    }
    t
  }

  function ActiveAlertCountOf(s: Service): int { |ServiceCard.ActiveAlerts(s.alerts)| }

  /** The active-alerts tile: the services' active-alert counts added up. */
  function TotalActiveAlerts(services: seq<Service>): (n: int)
    ensures n >= 0
  {
    SumNonNegative(ActiveAlertCountOf, services);
    Sum(ActiveAlertCountOf, services)
  }

  /** Tagging alerts with their service keeps the number of active ones. */
  lemma {:induction false} ActiveTaggedCount(service: Service, alerts: seq<Alert>)
    ensures |Filter(AlertsView.IsActiveTagged, AlertsView.TagAlerts(service, alerts))| == |ServiceCard.ActiveAlerts(alerts)|
  {
    if alerts != [] {
      var tagged := AlertsView.TagAlerts(service, alerts);
      assert tagged[1..] == AlertsView.TagAlerts(service, alerts[1..]);
      ActiveTaggedCount(service, alerts[1..]);
    }
  }

  /** The dashboard tile and the alert centre's "active" counter agree. */
  lemma {:induction false} TotalActiveAlertsAgree(services: seq<Service>)
    ensures TotalActiveAlerts(services) == AlertsView.ActiveAlertsCount(AlertsView.AllAlerts(services))
  {
    if services != [] {
      var s := services[0];
      TotalActiveAlertsAgree(services[1..]);
      FilterAppend(AlertsView.IsActiveTagged, AlertsView.TagAlerts(s, s.alerts), AlertsView.AllAlerts(services[1..]));
      ActiveTaggedCount(s, s.alerts);
    }
  }

  /** The grid: every service except the selected one, in order. */
  function GridServices(services: seq<Service>, selected: Option<string>): (grid: seq<Service>)
    ensures IsSubsequence(grid, services)
    ensures forall s :: s in grid <==> s in services && selected != Some(s.id)
    ensures forall s :: multiset(grid)[s] == if selected != Some(s.id) then multiset(services)[s] else 0
  {
    Filter((s: Service) => selected != Some(s.id), services)
  }

  /** With no selection the grid lists every service. */
  lemma GridWithoutSelection(services: seq<Service>)
    ensures GridServices(services, None) == services
  {
    FilterKeepsAll((s: Service) => None != Some(s.id), services);
  }

  /** The full-width card: none without a (truthy) selection, else the card
      of `services.find(...)!`. The `!` only silences the type checker: when
      the id names no service the card receives `undefined`, and it fails
      when it renders (`service.alerts` at ServiceCard.tsx:72). That
      render-time failure is `MissingService`. */
  datatype FullWidth = NoCard | Card(service: Service) | MissingService

  function FullWidthCard(services: seq<Service>, selected: Option<string>): (r: FullWidth)
    ensures r.NoCard? <==> !NetworkDiagram.Truthy(selected)
    ensures r.Card? ==> r.service in services && selected == Some(r.service.id)
    ensures r.Card? ==> exists k :: 0 <= k < |services| && services[k] == r.service
                                    && forall j :: 0 <= j < k ==> services[j].id != selected.value
    ensures r.MissingService? <==> NetworkDiagram.Truthy(selected) && forall s :: s in services ==> s.id != selected.value
  {
    if !NetworkDiagram.Truthy(selected) then NoCard
    else
      match Find((s: Service) => s.id == selected.value, services)
      case None => MissingService
      case Some(s) => Card(s)
  }

  /** A service occurs once in a list whose ids are unique. */
  lemma {:induction false} UniqueOccursOnce(services: seq<Service>, c: Service)
    requires UniqueIds(services) && c in services
    ensures multiset(services)[c] == 1
  {
    assert services == [services[0]] + services[1..];
    if services[0] == c {
      assert forall s :: s in services[1..] ==> s.id != c.id by {
        forall s | s in services[1..] ensures s.id != c.id {
          var k :| 0 <= k < |services[1..]| && services[1..][k] == s;
          assert services[k + 1] == s;
        }
      }
      assert c !in services[1..];
    } else {
      UniqueOccursOnce(services[1..], c);
    }
  }

  /** With unique ids and a selection naming an existing service, the
      full-width card and the grid together show every service exactly
      once. */
  lemma ShownExactlyOnce(services: seq<Service>, id: string)
    requires UniqueIds(services) && id != ""
    requires exists s :: s in services && s.id == id
    ensures FullWidthCard(services, Some(id)).Card?
    ensures multiset(GridServices(services, Some(id))) + multiset{FullWidthCard(services, Some(id)).service} == multiset(services)
  {
    var card := FullWidthCard(services, Some(id));
    assert !card.MissingService?;
    var c := card.service;
    var grid := GridServices(services, Some(id));
    UniqueOccursOnce(services, c);
    forall x ensures (multiset(grid) + multiset{c})[x] == multiset(services)[x] {
      if x.id == id && x != c && x in services {
        assert false;
      }
    }
    assert multiset(grid) + multiset{c} == multiset(services);
  }

  /** A service whose id is "" is hidden when selected: the grid leaves it
      out, yet "" is falsy, so no full-width card is drawn either. */
  lemma EmptyIdSelectionHidden(s: Service)
    requires s.id == ""
    ensures GridServices([s], Some("")) == []
    ensures FullWidthCard([s], Some("")) == NoCard
  {
    var g := GridServices([s], Some(""));
    assert s !in g;
  }

  datatype Tiles = Tiles(online: nat, serviceCount: nat, activeAlerts: nat, throughput: int)

  datatype Page = Page(
    heading: Heading,
    tiles: Option<Tiles>,
    fullWidth: FullWidth,
    grid: seq<Service>,
    showsDiagram: bool)

  /** The page: tiles and diagram only on the dashboard tab. */
  function Render(services: seq<Service>, selected: Option<string>, showNetworkDiagram: bool): (page: Page)
    ensures page.heading == GetTitle(showNetworkDiagram)
    ensures page.tiles.Some? <==> showNetworkDiagram
    ensures page.showsDiagram <==> showNetworkDiagram
    ensures page.tiles.Some? ==> page.tiles.value.online <= page.tiles.value.serviceCount == |services|
    ensures page.tiles.Some? ==> page.tiles.value.online == OnlineCount(services)
    ensures page.tiles.Some? ==> page.tiles.value.throughput == TotalThroughput(services)
    ensures page.tiles.Some? ==> page.tiles.value.activeAlerts == AlertsView.ActiveAlertsCount(AlertsView.AllAlerts(services))
    ensures page.fullWidth == FullWidthCard(services, selected)
    ensures page.grid == GridServices(services, selected)
  {
    TotalActiveAlertsAgree(services);
    Page(
      GetTitle(showNetworkDiagram),
      if showNetworkDiagram then
        Some(Tiles(OnlineCount(services), |services|, TotalActiveAlerts(services), TotalThroughput(services)))
      else None,
      FullWidthCard(services, selected),
      GridServices(services, selected),
      showNetworkDiagram)
  }
}
