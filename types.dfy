/** The records shared by every view of the monitoring dashboard
    (src/components/types.ts). Counts and milliseconds are `int`; the
    percentages `availability` and `uptime` are `real`. */
module Types {
  import opened Lists

  /** A service is online, in warning or in error, and nothing else. */
  datatype ServiceStatus = Online | Warning | Error

  /** An alert's severity. */
  datatype Severity = Low | Medium | High

  /** The outcome recorded for one recent transaction. */
  datatype TransactionStatus = TxSuccess | TxWarning | TxError

  datatype ServiceMetrics = ServiceMetrics(
    responseTime: int,
    transactionsPerMinute: int,
    cpu: int,
    memory: int,
    availability: real,
    uptime: real)

  /** One bucket of the transaction history. */
  datatype TransactionData = TransactionData(timestamp: string, successful: int, failed: int)

  /** Exactly four response counters. */
  datatype ResponseDistribution = ResponseDistribution(http200: int, http4xx: int, http5xx: int, timeout: int)

  datatype DetailedMetrics = DetailedMetrics(
    avgLatency: int,
    p95Latency: int,
    p99Latency: int,
    peakThroughput: int,
    lastError: string)

  datatype Transaction = Transaction(
    id: string,
    timestamp: string,
    transactionType: string,
    status: TransactionStatus,
    responseTime: int,
    userIp: string)

  datatype Alert = Alert(
    id: string,
    title: string,
    severity: Severity,
    timestamp: string,
    isActive: bool,
    description: string)

  /** A monitored service. `dependencies` are plain service ids: nothing
      forces them to name a service that exists. */
  datatype Service = Service(
    id: string,
    name: string,
    serviceType: string,
    status: ServiceStatus,
    ip: string,
    port: string,
    icon: string,
    metrics: ServiceMetrics,
    transactionHistory: seq<TransactionData>,
    responseDistribution: ResponseDistribution,
    detailedMetrics: DetailedMetrics,
    recentTransactions: seq<Transaction>,
    alerts: seq<Alert>,
    dependencies: seq<string>,
    sparklineData: seq<real>)

  /** The string literal that stands for a status at run time. */
  function StatusName(status: ServiceStatus): string
  {
    match status
    case Online => "online"
    case Warning => "warning"
    case Error => "error"
  }

  /** Reads a string as a `ServiceStatus`: it succeeds on exactly the three
      literals of the union type. */
  function ParseStatus(s: string): (r: Option<ServiceStatus>)
    ensures r.Some? ==> StatusName(r.value) == s
    ensures r.None? ==> forall status :: StatusName(status) != s
  {
    if s == "online" then Some(Online)
    else if s == "warning" then Some(Warning)
    else if s == "error" then Some(Error)
    else None
  }

  function SeverityName(severity: Severity): string
  {
    match severity
    case Low => "low"
    case Medium => "medium"
    case High => "high"
  }

  /** Reads a string as a `Severity`: it succeeds on exactly "low", "medium"
      and "high". */
  function ParseSeverity(s: string): (r: Option<Severity>)
    ensures r.Some? ==> SeverityName(r.value) == s
    ensures r.None? ==> forall severity :: SeverityName(severity) != s
  {
    if s == "low" then Some(Low)
    else if s == "medium" then Some(Medium)
    else if s == "high" then Some(High)
    else None
  }

  function TransactionStatusName(status: TransactionStatus): string
  {
    match status
    case TxSuccess => "success"
    case TxWarning => "warning"
    case TxError => "error"
  }

  /** Each status and severity has exactly one literal, and parsing it
      gives the value back. */
  lemma NamesRoundTrip(status: ServiceStatus, severity: Severity)
    ensures ParseStatus(StatusName(status)) == Some(status)
    ensures ParseSeverity(SeverityName(severity)) == Some(severity)
  {
  }

  /** Distinct transaction statuses have distinct literals. */
  lemma TransactionStatusNameInjective(a: TransactionStatus, b: TransactionStatus)
    requires a != b
    ensures TransactionStatusName(a) != TransactionStatusName(b)
  {
  }

  /** No two services share an id. */
  predicate UniqueIds(services: seq<Service>)
  {
    forall i, j :: 0 <= i < j < |services| ==> services[i].id != services[j].id
  }
}
