/** The fleet the application starts with (src/components/mockData.ts), with
    the generated parts (transaction history, recent transactions, sparkline,
    alert timestamps) left empty, and what the views derive from it. */
module MockData {
  import opened Lists
  import opened Types
  import ServiceCard
  import AlertsView
  import DashboardView
  import ReportsView

  const ApiGateway: Service := Service(
    "api-gateway", "API Interno", "Gateway", Online, "10.0.1.15", "443", "🌐",
    ServiceMetrics(156, 1247, 45, 62, 99.97, 99.8), [],
    ResponseDistribution(1134, 89, 12, 3),
    DetailedMetrics(156, 320, 567, 1850, "Hace 1h 23m"), [],
    [Alert("alert-1", "Latencia elevada detectada", Medium, "", true,
           "P95 superó los 400ms durante 5 minutos")],
    ["api-pagos", "mysql-db", "redis-cache"], [])

  const MysqlDb: Service := Service(
    "mysql-db", "SQL Server", "Database", Online, "10.0.2.10", "3306", "🗄️",
    ServiceMetrics(23, 892, 78, 84, 99.99, 99.95), [],
    ResponseDistribution(845, 28, 15, 4),
    DetailedMetrics(23, 89, 156, 1200, "Hace 3h 45m"), [],
    [Alert("alert-2", "Uso de CPU elevado", High, "", true,
           "CPU sostenido >75% durante 10 minutos"),
     Alert("alert-3", "Conexiones simultáneas altas", Medium, "", false,
           "Pool de conexiones al 90%")],
    [], [])

  const NginxWeb: Service := Service(
    "nginx-web", "EPM Portal Web", "Web Server", Warning, "10.0.1.5", "80", "🌍",
    ServiceMetrics(89, 2340, 67, 56, 98.5, 98.2), [],
    ResponseDistribution(2156, 156, 23, 5),
    DetailedMetrics(89, 234, 445, 3200, "Hace 12m"), [],
    [Alert("alert-4", "Disponibilidad reducida", High, "", true,
           "Múltiples timeouts en los últimos 30 minutos")],
    ["api-gateway"], [])

  const ApiPagos: Service := Service(
    "api-pagos", "API Portal", "API Service", Online, "10.0.3.20", "8080", "💳",
    ServiceMetrics(312, 456, 34, 48, 99.8, 99.6), [],
    ResponseDistribution(423, 28, 3, 2),
    DetailedMetrics(312, 567, 890, 650, "Hace 2h 15m"), [],
    [],
    ["mysql-db", "redis-cache"], [])

  const RedisCache: Service := Service(
    "redis-cache", "TokenergyGp", "Token", Error, "10.0.2.25", "6379", "🚀",
    ServiceMetrics(1234, 89, 15, 92, 87.3, 85.1), [],
    ResponseDistribution(67, 12, 8, 2),
    DetailedMetrics(1234, 2340, 4560, 200, "Hace 3m"), [],
    [Alert("alert-5", "Servicio degradado", High, "", true,
           "Multiple fallos de conexión, posible problema de red"),
     Alert("alert-6", "Memoria crítica", High, "", true,
           "Uso de memoria >90%, posible memory leak")],
    [], [])

  /** `mockServices`, in its order. */
  const Fleet: seq<Service> := [ApiGateway, MysqlDb, NginxWeb, ApiPagos, RedisCache]

  /** The fleet's ids are unique, so selecting any of its services shows
      every service exactly once. */
  lemma FleetIdsUnique()
    ensures UniqueIds(Fleet)
  {
  }

  /** Only the statuses decide the online count of five services. */
  lemma OnlineOfFive(a: Service, b: Service, c: Service, d: Service, e: Service)
    requires a.status == Online && b.status == Online && c.status != Online
    requires d.status == Online && e.status != Online
    ensures DashboardView.OnlineCount([a, b, c, d, e]) == 3
  {
    var p := DashboardView.IsOnline;
    assert [a, b, c, d, e][1..] == [b, c, d, e];
    assert [b, c, d, e][1..] == [c, d, e];
    assert [c, d, e][1..] == [d, e];
    assert [d, e][1..] == [e];
    assert |Filter(p, [e])| == 0;
    assert |Filter(p, [d, e])| == 1;
    assert |Filter(p, [c, d, e])| == 1;
    assert |Filter(p, [b, c, d, e])| == 2;
  }

  /** Three of the five services are online. */
  lemma FleetOnline()
    ensures DashboardView.OnlineCount(Fleet) == 3
  {
    OnlineOfFive(ApiGateway, MysqlDb, NginxWeb, ApiPagos, RedisCache);
  }

  /** Only the `isActive` flags decide how many of a service's alerts are
      active. */
  lemma ActiveOfTwo(x: Alert, y: Alert)
    ensures |Filter(ServiceCard.IsActive, [x, y])| == (if x.isActive then 1 else 0) + (if y.isActive then 1 else 0)
  {
    assert [x, y][1..] == [y];
  }

  lemma SumOfFive(f: Service -> int, a: Service, b: Service, c: Service, d: Service, e: Service)
    ensures Sum(f, [a, b, c, d, e]) == f(a) + f(b) + f(c) + f(d) + f(e)
  {
    assert [a, b, c, d, e][1..] == [b, c, d, e];
    assert [b, c, d, e][1..] == [c, d, e];
    assert [c, d, e][1..] == [d, e];
    assert [d, e][1..] == [e];
    assert Sum(f, [e]) == f(e);
    assert Sum(f, [d, e]) == f(d) + f(e);
    assert Sum(f, [c, d, e]) == f(c) + f(d) + f(e);
  }

  /** The alert centre counts five active alerts and one resolved one. */
  lemma FleetAlertCounts()
    ensures AlertsView.ActiveAlertsCount(AlertsView.AllAlerts(Fleet)) == 5
    ensures AlertsView.ResolvedAlertsCount(AlertsView.AllAlerts(Fleet)) == 1
    ensures |AlertsView.AllAlerts(Fleet)| == 6
  {
    var f := DashboardView.ActiveAlertCountOf;
    ActiveOfTwo(MysqlDb.alerts[0], MysqlDb.alerts[1]);
    ActiveOfTwo(RedisCache.alerts[0], RedisCache.alerts[1]);
    assert f(ApiGateway) == 1 && f(MysqlDb) == 1 && f(NginxWeb) == 1 && f(ApiPagos) == 0 && f(RedisCache) == 2;
    SumOfFive(f, ApiGateway, MysqlDb, NginxWeb, ApiPagos, RedisCache);
    DashboardView.TotalActiveAlertsAgree(Fleet);
    SumOfFive(AlertsView.AlertCountOf, ApiGateway, MysqlDb, NginxWeb, ApiPagos, RedisCache);
    AlertsView.CountsAddUp(AlertsView.AllAlerts(Fleet));
  }

  /** The comparison chart labels both the internal API and the portal API
      "API": shortening the fleet's names makes two bars share a label. */
  lemma FleetShortNamesCollide()
    ensures ReportsView.ServiceComparison(Fleet)[0].name == "API"
    ensures ReportsView.ServiceComparison(Fleet)[3].name == "API"
  {
    ReportsView.ShortNameAt(ApiGateway.name, 3);
    ReportsView.ShortNameAt(ApiPagos.name, 3);
    assert ApiGateway.name[..3] == "API";
    assert ApiPagos.name[..3] == "API";
  }
}
