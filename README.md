# A verified model of the ExcelecMagnament monitoring dashboard

ExcelecMagnament is a React dashboard for a small fleet of services: an API
gateway, a database, a web server, a payments API and a token cache. Under its
JSX there is a thin layer of deterministic logic, and this project models that
layer in Dafny:

- the alert centre flattens every service's alerts into one tagged list, then
  searches and filters it and counts it;
- the application shell keeps two state cells, the active tab and the selected
  service;
- the dependency diagram places nodes, builds edges from dependency ids and
  highlights what touches the selection;
- the dashboard and the reports page compute fleet aggregates: online count,
  throughput, active alerts, status distribution, period buckets and short
  names;
- each service card classifies its service: status colour and text, badges,
  response-time trend, active and resolved alerts;
- the two charts derive their data: the response-code pie and the
  transactions area chart.

There is one module per source file, plus `Lists`. `Lists` holds the array
operations the source uses: `filter` with its sub-sequence, membership and
multiset laws, the `reduce` sum and `find`. The shell's state is a class,
`App.AppState`, whose two handlers are proved against a pure transition
function, `App.Step`. Everything else is functions over datatypes with lemmas.
`MockData` holds the literal fleet the application starts with. On that fleet
the model shows:

- the ids are unique;
- 3 of the 5 services are online;
- the alert centre counts 5 active alerts and 1 resolved one;
- shortening names gives two bars of the comparison chart the same label,
  "API".

JavaScript behaviour is modelled explicitly where it matters:

- The selection is `Option<string>`. Where the source tests its truthiness,
  `""` counts as no selection. `DashboardView.EmptyIdSelectionHidden` shows
  the consequence: a service whose id is `""` disappears when selected. The
  grid drops it, and no full-width card replaces it.
- TypeScript erases the `!` of `services.find(...)!`. When the selected id
  names no service, the full-width card receives `undefined` and fails when it
  renders, reading `service.alerts`. `DashboardView.FullWidth.MissingService`
  stands for that failure.
- The `||` in the position table also replaces a coordinate of 0.
- `alert.severity === filter` compares string literals.
- `name.replace(/\s.+/, '')` uses the JavaScript whitespace class, and `.`
  does not match line terminators.

## Model

| member | source | states |
|---|---|---|
| Lists.Filter | src/components/ServiceCard.tsx:72 | `Array.filter` keeps an order-preserving sub-sequence, no longer than the input. It holds exactly the elements satisfying the predicate, each as often as in the input. |
| Lists.Find | src/components/DashboardView.tsx:119 | `Array.find` is `None` iff no element matches. Otherwise it is the element at the first matching index. |
| Lists.FilterAppend | src/components/AlertsView.tsx:46 | Filtering a concatenation filters each part. |
| Lists.FilterKeepsAll | src/components/AlertsView.tsx:34-44 | A predicate that holds everywhere keeps the whole list. |
| Lists.FilterComplement | src/components/ServiceCard.tsx:72 | A predicate and its negation split a list: the lengths and multisets add up to the original. |
| Lists.FilterMonotone | src/components/AlertsView.tsx:46-48 | A stronger predicate keeps no more elements. |
| Lists.FilterSamePredicate | src/components/AlertsView.tsx:38-39 | Two predicates that agree everywhere filter alike. |
| Lists.FilterCount | src/components/AlertsView.tsx:46 | A filter's length is the sum of a 0/1 indicator. |
| Lists.SumAppend | src/components/DashboardView.tsx:83 | `reduce` with `+` over a concatenation adds the two sums. |
| Lists.SumFilterZeros | src/components/ReportsView.tsx:60-64 | Dropping elements worth 0 leaves a sum unchanged. |
| Lists.SumNonNegative | src/components/DashboardView.tsx:83 | A sum of non-negative terms is non-negative. |
| Lists.SumAtLeastTerm | src/components/DashboardView.tsx:97 | With non-negative terms, each term is at most the `reduce` sum. |
| Lists.SumZeroIff | src/components/DashboardView.tsx:97 | With non-negative terms, the sum is 0 iff every term is 0. |
| Types.ParseStatus | src/components/types.ts:1 | A status is exactly one of three literals. A parsed string is that status's name, and an unparsed string names no status. |
| Types.ParseSeverity | src/components/types.ts:45 | A severity is exactly one of `low`, `medium`, `high`, with the same round trip. |
| Types.NamesRoundTrip | src/components/types.ts:1-49 | Parsing a status's or severity's name gives it back. |
| Types.TransactionStatusNameInjective | src/components/types.ts:37 | Distinct transaction statuses have distinct literals. |
| ServiceCard.StatusColor | src/components/ServiceCard.tsx:25-32 | The colour is grey iff the string is none of the three statuses. |
| ServiceCard.StatusText | src/components/ServiceCard.tsx:34-41 | "Desconocido" iff the string is none of the three statuses. |
| ServiceCard.StatusPresentationInjective | src/components/ServiceCard.tsx:25-41 | Distinct statuses get distinct colours and distinct labels. |
| ServiceCard.StatusBadge | src/components/ServiceCard.tsx:105 | Online gives `default` and warning gives `secondary`, both iff. Anything else gives `destructive`. |
| ServiceCard.TransactionBadge | src/components/ServiceCard.tsx:427-428 | Success gives `default` and warning gives `secondary`, both iff. Error gives `destructive`. |
| ServiceCard.TrendOf | src/components/ServiceCard.tsx:43-47 | Up iff above 110% of the threshold. Down iff not up and below 90%. |
| ServiceCard.TrendTestsExclusive | src/components/ServiceCard.tsx:43-47 | For a positive threshold the two tests exclude each other, so down iff below 90%. |
| ServiceCard.ResponseTimeTrend | src/components/ServiceCard.tsx:143 | With threshold 200 and whole milliseconds: up iff > 220, down iff < 180, steady iff 180..220. |
| ServiceCard.TrendMonotone | src/components/ServiceCard.tsx:43-47 | A slower response never gives a lower trend. |
| ServiceCard.ActiveAlerts | src/components/ServiceCard.tsx:72 | An order-preserving sub-list holding all and only the active alerts. |
| ServiceCard.ResolvedAlerts | src/components/ServiceCard.tsx:289-295 | An order-preserving sub-list holding all and only the inactive alerts. |
| ServiceCard.AlertPartition | src/components/ServiceCard.tsx:72 | Active and resolved alerts split the alerts: the sizes sum to the alert count and the multisets to the alerts. |
| ServiceCard.AlertTone | src/components/ServiceCard.tsx:268-272 | Red iff high, yellow iff medium, blue otherwise. |
| ServiceCard.Render | src/components/ServiceCard.tsx:94-295 | The status colour, label, badge and trend are those of the card's own status and response time, and a real status is never grey or unknown. The errors tile exists iff the card is full width, and shows the active-alert count. The alerts block exists iff the card is selected and its service has alerts, and lists the active alerts. Its history exists iff some alert is resolved, and is exactly the resolved alerts. |
| AlertsView.AllAlerts | src/components/AlertsView.tsx:23-31 | The flattened list's length is the sum of the per-service alert counts. |
| AlertsView.AllAlertsAppend | src/components/AlertsView.tsx:23-31 | Flattening follows service order: the alerts of `a + b` are those of `a`, then those of `b`. |
| AlertsView.AllAlertsMembership | src/components/AlertsView.tsx:23-31 | A tagged alert is listed iff it is some service's alert, tagged with that service's name, id, icon and status. |
| AlertsView.MatchesFilterMeaning | src/components/AlertsView.tsx:38-41 | `all` keeps everything. `active` and `resolved` look only at the flag. `high`, `medium` and `low` look only at the severity, active or not. |
| AlertsView.IncludesIffOccurs | src/components/AlertsView.tsx:35-36 | `includes` holds iff the needle occurs at some position. |
| AlertsView.FilteredAlerts | src/components/AlertsView.tsx:34-44 | An order-preserving sub-list of all alerts. An alert is kept iff it matches both the search and the filter, with its multiplicity. |
| AlertsView.AllFilterEmptyQuery | src/components/AlertsView.tsx:35-38 | With filter `all` and an empty search, the list equals all alerts. |
| AlertsView.SearchIgnoresCase | src/components/AlertsView.tsx:35 | A query equal to the title up to ASCII case finds the alert. |
| AlertsView.ActiveAlertsCount | src/components/AlertsView.tsx:46 | The active counter is at most the number of alerts, and 0 iff no alert is active. |
| AlertsView.ResolvedAlertsCount | src/components/AlertsView.tsx:47 | The resolved counter is at most the number of alerts, and 0 iff no alert is resolved. |
| AlertsView.HighPriorityCount | src/components/AlertsView.tsx:48 | The critical counter is at most the number of alerts, and 0 iff no alert is both active and high. |
| AlertsView.CountsAddUp | src/components/AlertsView.tsx:46-48 | active + resolved = all alerts, and critical ≤ active. |
| AlertsView.ActiveCountIsActiveFilter | src/components/AlertsView.tsx:38-46 | The active counter equals the length of the `active` filter's list under an empty search. |
| AlertsView.SeverityColor | src/components/AlertsView.tsx:50-59 | Grey iff the alert is resolved or its severity is unknown. |
| AlertsView.SeverityColorsDistinct | src/components/AlertsView.tsx:53-56 | Active alerts of different severities get different colours. |
| AlertsView.SeverityIconOf | src/components/AlertsView.tsx:61-70 | A check mark iff resolved. Triangle iff active and high, clock iff active and medium. |
| AlertsView.DigitsOf | src/components/AlertsView.tsx:80-82 | A natural number's numeral is non-empty and all digits, with no leading zero, and reading it back gives the number. |
| AlertsView.IntToString | src/components/AlertsView.tsx:80-82 | A template literal's integer: the numeral of a non-negative number, or "-" and the numeral of its magnitude. |
| AlertsView.IntToStringInjective | src/components/AlertsView.tsx:80-82 | Different integers have different numerals. |
| AlertsView.FormatRelativeTime | src/components/AlertsView.tsx:72-91 | Minutes iff diffMs < 3600000, with minutes = ⌊diffMs/60000⌋. Hours iff 3600000 ≤ diffMs < 86400000, with 1 ≤ hours < 24 and hours = ⌊minutes/60⌋. A calendar date otherwise. |
| AlertsView.RelativeTimeText | src/components/AlertsView.tsx:79-84 | The date branch shows the locale date. The others read "Hace " + the decimal numeral of the minutes or hours + " minutos" or " horas". |
| App.Toggle | src/App.tsx:16-18 | The new selection is empty iff the clicked id was selected. Otherwise it is the clicked id. |
| App.ToggleTwice | src/App.tsx:17 | From no selection, or with the id selected, two clicks on it restore the selection. |
| App.Step | src/App.tsx:16-24 | A click keeps the tab and toggles the selection. A tab change sets the tab and clears the selection, even for the same tab. |
| App.RunSnoc | src/App.tsx:16-24 | Running events then one more is one more step. |
| App.SelectionIsLastClick | src/App.tsx:16-24 | A service is selected only when the last event was a click on it. |
| App.RepeatedClicks | src/App.tsx:16-18 | k clicks on one service leave it selected iff k is odd, and leave the tab unchanged. |
| App.ActiveTabIsLastChange | src/App.tsx:12-24 | The active tab is the last tab changed to, or `dashboard` initially. |
| App.RenderContent | src/App.tsx:26-44 | `dashboard` and `servicios` both show the dashboard view, with the diagram iff `dashboard`. `alertas` and `reportes` show their own views. |
| App.AppState.constructor | src/App.tsx:12-14 | Starts on `dashboard` with nothing selected, holding the given services. |
| App.AppState.HandleServiceSelect | src/App.tsx:16-18 | The new state is `Step` of the old one on a click. |
| App.AppState.HandleTabChange | src/App.tsx:20-24 | The new state is `Step` of the old one on a tab change. |
| NetworkDiagram.MeasuredDimensions | src/components/NetworkDiagram.tsx:30-33 | Width is at least 800 and equals the measured width when that is larger. Height is 500. |
| NetworkDiagram.FixedPosition | src/components/NetworkDiagram.tsx:48-54 | A table entry exists exactly for the five known ids. It lies within 150 of the centre column, between heights 80 and 380. |
| NetworkDiagram.FixedPositionsDistinct | src/components/NetworkDiagram.tsx:48-54 | No two known services share a position. |
| NetworkDiagram.PlaceNode | src/components/NetworkDiagram.tsx:56-65 | Id, name, status, icon, type and dependencies are copied. An unknown id sits at the canvas centre. |
| NetworkDiagram.NodePositions | src/components/NetworkDiagram.tsx:56-65 | One node per service, in service order. |
| NetworkDiagram.KnownServicesAtFixedPosition | src/components/NetworkDiagram.tsx:44-59 | On a valid canvas each of the five known services sits exactly at its table position. |
| NetworkDiagram.ZeroCoordinateFallsBack | src/components/NetworkDiagram.tsx:51-58 | On a 300-wide canvas the `||` moves the payments API from x = 0 to the centre. |
| NetworkDiagram.StatusHex | src/components/NetworkDiagram.tsx:70-77 | Grey iff the string is no status. |
| NetworkDiagram.StatusGradient | src/components/NetworkDiagram.tsx:79-86 | The grey gradient iff the string is no status. The component never calls this function. |
| NetworkDiagram.StatusStylesDistinct | src/components/NetworkDiagram.tsx:70-86 | Distinct statuses get distinct colours, and distinct gradients from the unused `getStatusGradient`. |
| NetworkDiagram.EdgesOf | src/components/NetworkDiagram.tsx:90-98 | At most one edge per dependency id. Each edge goes from the node to a diagram node named by one of its dependencies, with id "source-target". |
| NetworkDiagram.Connections | src/components/NetworkDiagram.tsx:89-99 | Every edge joins two diagram nodes, from a node to one of its dependencies, with id "source-target". |
| NetworkDiagram.ConnectionsBounded | src/components/NetworkDiagram.tsx:89-99 | There are no more edges than dependency ids. |
| NetworkDiagram.EdgesOfCount | src/components/NetworkDiagram.tsx:90-98 | A node has exactly one edge per dependency id that names a node. |
| NetworkDiagram.EdgesOfMembership | src/components/NetworkDiagram.tsx:90-98 | An edge from a node exists iff one of its dependency ids names a node, and it goes to the first such node. |
| NetworkDiagram.ConnectionMembership | src/components/NetworkDiagram.tsx:89-99 | An edge exists iff some (node, dependency id) pair names a node, with the id "source-dependency". |
| NetworkDiagram.DanglingDependencyDropped | src/components/NetworkDiagram.tsx:91-92 | A dependency id naming no service produces no edge. |
| NetworkDiagram.JoinsMeaning | src/components/NetworkDiagram.tsx:169-172 | `some` holds iff one edge joins the two ids in either direction. The relation is symmetric. |
| NetworkDiagram.EdgeHighlighted | src/components/NetworkDiagram.tsx:134 | An edge is highlighted iff there is a selection and it is one of the edge's two ends. |
| NetworkDiagram.NodeHighlighted | src/components/NetworkDiagram.tsx:168-174 | Only with a selection. The selected node always is. Any other highlighted node needs a truthy selection and a highlighted edge ending at it. |
| NetworkDiagram.NothingHighlightedWithoutSelection | src/components/NetworkDiagram.tsx:134-174 | With no selection no node and no edge is highlighted. |
| NetworkDiagram.HighlightConsistent | src/components/NetworkDiagram.tsx:134-174 | For a non-empty selection, a node other than the selected one is highlighted iff a highlighted edge ends at it. |
| NetworkDiagram.TruncateName | src/components/NetworkDiagram.tsx:254 | Names of up to 14 characters are unchanged. Longer ones become their first 12 characters and "...", 15 in all. |
| NetworkDiagram.TruncateIdempotent | src/components/NetworkDiagram.tsx:254 | A label is never truncated twice. |
| DashboardView.GetTitle | src/components/DashboardView.tsx:19-31 | The monitoring title iff the diagram is shown, the services title iff not. |
| DashboardView.OnlineCount | src/components/DashboardView.tsx:55 | The numerator of "active services" never exceeds the number of services. |
| DashboardView.TotalThroughput | src/components/DashboardView.tsx:97 | With non-negative rates the throughput tile is non-negative, bounds every service's rate, and is 0 iff every service is idle. |
| DashboardView.TotalActiveAlerts | src/components/DashboardView.tsx:83 | The active-alerts tile is non-negative. |
| DashboardView.ActiveTaggedCount | src/components/AlertsView.tsx:23-31 | Tagging a service's alerts keeps the number of active ones. |
| DashboardView.TotalActiveAlertsAgree | src/components/DashboardView.tsx:83 | The tile (a sum of per-service active counts) equals the alert centre's active counter. |
| DashboardView.GridServices | src/components/DashboardView.tsx:129-131 | An order-preserving sub-list holding exactly the services whose id is not the selection, each as often as in the input. |
| DashboardView.GridWithoutSelection | src/components/DashboardView.tsx:131 | With no selection the grid lists every service. |
| DashboardView.FullWidthCard | src/components/DashboardView.tsx:109-122 | No card iff the selection is falsy. A card shows the first listed service carrying the selected id. The card receives `undefined`, and fails when rendered, iff no service has the id. |
| DashboardView.ShownExactlyOnce | src/components/DashboardView.tsx:109-131 | With unique ids and an existing, non-empty selection, the full-width card plus the grid show each service exactly once. |
| DashboardView.EmptyIdSelectionHidden | src/components/DashboardView.tsx:109-131 | Selecting a service whose id is "" removes it from the grid without drawing a full-width card. |
| DashboardView.Render | src/components/DashboardView.tsx:41-170 | The heading comes from `GetTitle`. Tiles and diagram appear iff the diagram flag is set. The tiles show the online count (at most the number of services), the throughput total, and an alert count equal to the alert centre's active counter. |
| ReportsView.ParsePeriod | src/components/ReportsView.tsx:15 | A parsed string is that period's name. No other string names a period. |
| ReportsView.PeriodNameRoundTrip | src/components/ReportsView.tsx:103 | Parsing a period's selector value gives the period back. |
| ReportsView.IntervalOf | src/components/ReportsView.tsx:23 | Hours iff the last 24 hours. The component computes `interval` but never reads it. |
| ReportsView.BucketCount | src/components/ReportsView.tsx:22 | Every period has at least one point, and 24 points iff hourly buckets. |
| ReportsView.PerformanceOffsets | src/components/ReportsView.tsx:22-31 | One point per bucket (24, 7, 30, 90). Point i lies days - 1 - i intervals before now, so offsets are non-negative, strictly decreasing and end at 0 (now). |
| ReportsView.BucketCountInjective | src/components/ReportsView.tsx:22 | Different periods have different point counts. |
| ReportsView.PeriodLabel | src/components/ReportsView.tsx:77-84 | Each label spells out the period's point count and its interval. |
| ReportsView.FirstCut | src/components/ReportsView.tsx:47 | The leftmost position where `/\s.+/` can match, if any. |
| ReportsView.MatchEnd | src/components/ReportsView.tsx:47 | The greedy `.+` runs to the first line terminator or the end. |
| ReportsView.ShortName | src/components/ReportsView.tsx:47 | Never longer than the name. Unchanged iff the pattern matches nowhere. |
| ReportsView.ShortNameIsFirstWord | src/components/ReportsView.tsx:47 | Without line breaks the result is a prefix. It is cut at the first space that has a character after it, and no space precedes the cut. |
| ReportsView.ShortNameIdempotent | src/components/ReportsView.tsx:47 | Shortening twice equals shortening once. |
| ReportsView.ShortNameAt | src/components/ReportsView.tsx:47 | A name whose first space is at i, with more after it, keeps exactly its first i characters. |
| ReportsView.ShortNameOfApi | src/components/ReportsView.tsx:47 | "API Interno" becomes "API". |
| ReportsView.ShortNameKeepsTrailingSpace | src/components/ReportsView.tsx:47 | A trailing space is kept, because `.+` needs a character after it. |
| ReportsView.ServiceComparison | src/components/ReportsView.tsx:45-53 | One row per service, in order. Each row copies availability, response time, throughput and status, and is named by the service's short name, no longer than the original. |
| ReportsView.ComparisonThroughputTotal | src/components/ReportsView.tsx:45-73 | The comparison bars' throughputs add up to the throughput total. |
| ReportsView.SliceColorMatchesDiagram | src/components/ReportsView.tsx:61-63 | Each slice uses the diagram's colour for its status. |
| ReportsView.StatusDistribution | src/components/ReportsView.tsx:55-65 | A sub-sequence of the online, warning, error slices, in that order. Every kept value is > 0, and a status's slice is kept iff some service has that status. |
| ReportsView.StatusCountsPartition | src/components/ReportsView.tsx:56-58 | The three status counts add up to the number of services. |
| ReportsView.StatusDistributionSum | src/components/ReportsView.tsx:55-65 | The slice values sum to the number of services. |
| ReportsView.OnlineSliceMatchesDashboard | src/components/ReportsView.tsx:56 | The online count equals the dashboard's "active services" numerator. |
| ReportsView.SliceWithinFleet | src/components/ReportsView.tsx:274-278 | A drawn slice counts between 1 and all of the services, so its share is defined. |
| ReportsView.ServicesNoun | src/components/ReportsView.tsx:274 | Singular iff the count is 1. |
| ReportsView.TotalActiveAlerts | src/components/ReportsView.tsx:75 | The reports total is non-negative, and 0 iff no service has an active alert. |
| ReportsView.TotalActiveAlertsMatchDashboard | src/components/ReportsView.tsx:75 | The reports page's active-alert total equals the dashboard tile and the alert centre's counter. |
| ReportsView.Mean | src/components/ReportsView.tsx:72-74 | Undefined (NaN) iff there are no services. |
| ReportsView.MeanBounded | src/components/ReportsView.tsx:72-74 | A mean lies between the smallest and largest value. |
| ReportsView.ConsolidatedMetrics | src/components/ReportsView.tsx:72-75 | The means are undefined iff there are no services. Throughput equals the dashboard's, and active alerts equal the alert centre's counter. |
| PieChart.TablesDistinct | src/components/PieChart.tsx:8-20 | No two keys share a label or a colour. |
| PieChart.Values | src/components/PieChart.tsx:29 | The four counters in key order. |
| PieChart.Total | src/components/PieChart.tsx:29 | With non-negative counters the total bounds every counter, and is 0 iff all counters are. |
| PieChart.ChartData | src/components/PieChart.tsx:23-27 | One entry per counter, in key order, with the value copied and the label and colour from the tables. |
| PieChart.TotalOfCounters | src/components/PieChart.tsx:29 | The total is the sum of the four counters. |
| PieChart.ChartSumIsTotal | src/components/PieChart.tsx:23-29 | The chart entries' values add up to the total. |
| PieChart.Percentage | src/components/PieChart.tsx:53-71 | Undefined iff the total is 0. Otherwise percentage × total = value × 100. |
| PieChart.ShareInRange | src/components/PieChart.tsx:71 | A counter between 0 and a positive total has a share between 0 and 100. |
| PieChart.PercentagesAddUp | src/components/PieChart.tsx:71 | With non-negative counters and a non-zero total, each share lies in [0, 100] and the four shares add up to 100. |
| TransactionChart.ChartData | src/components/TransactionChart.tsx:9-16 | Same length and order as the buckets. Timestamp, successful and failed are kept, and total = successful + failed. |
| TransactionChart.TotalsAddUp | src/components/TransactionChart.tsx:15 | Summed over the history, the totals equal all successful plus all failed transactions. |
| TransactionChart.OrZero | src/components/TransactionChart.tsx:57 | A missing payload entry or value counts as 0. |
| TransactionChart.TooltipTotal | src/components/TransactionChart.tsx:46-57 | A tooltip iff it is active and has a payload. Its total is the first payload value plus the second, a missing value counting as 0. |
| TransactionChart.TooltipMatchesPoint | src/components/TransactionChart.tsx:57 | Hovering a point shows that point's own total. |
| TransactionChart.TooltipMissingSecond | src/components/TransactionChart.tsx:57 | With the second value missing, the total is the first value. |
| TransactionChart.TooltipMissingFirst | src/components/TransactionChart.tsx:57 | A missing first value counts as 0, and entries after the second are ignored. |
| MockData.FleetIdsUnique | src/components/mockData.ts:31-259 | The five services have distinct ids. |
| MockData.FleetOnline | src/components/mockData.ts:36-211 | 3 of the 5 services are online. |
| MockData.FleetAlertCounts | src/components/mockData.ts:64-254 | 6 alerts: 5 active and 1 resolved. |
| MockData.FleetShortNamesCollide | src/components/mockData.ts:34-174 | "API Interno" and "API Portal" are both labelled "API" in the comparison chart. |

## Left out

- Rendering is not modelled: JSX, `motion` animations, recharts, lucide icons and the `./ui/*` components. Their code is not part of this model.
- The random and clock-driven generators in `mockData.ts` are left out: transaction history, recent transactions and sparklines. The fleet in `MockData` leaves them empty, and its alert timestamps, computed from `Date.now()`, are "".
- `generatePerformanceData` draws random values and formats locale dates. Only its point count and the offset of each point are modelled (`ReportsView.PerformanceOffsets`).
- AlertsView.FormatRelativeTime: takes the millisecond difference as a parameter. It does not read the clock or parse the timestamp. The calendar-date branch's locale text is a parameter of `RelativeTimeText`.
- AlertsView.ToLower: lower-cases ASCII letters only, whereas `toLowerCase` maps all of Unicode. Searches that rely on non-ASCII case folding are not captured.
- Numbers are modelled as unbounded `int` and exact `real`. IEEE-754 double rounding is left out. In the trend test (200 × 1.1 is 220.00000000000003 as a double) this does not change any verdict for whole milliseconds. `toFixed` and `Math.round` display rounding are left out, as is the Dashboard's rounded mean latency.
- PieChart.Percentage: gives the exact share. The one-decimal `toFixed` rendering is not modelled.
- PieChart.ChartData: follows the interface's key order. `Object.entries` follows insertion order, which is the same for every distribution the application builds.
- ReportsView.Mean: exact mean of the values. `None` stands for the `NaN` of an empty fleet.
- DOM and timers are left out:
  - `getBoundingClientRect` and the resize listener are reduced to `MeasuredDimensions(rectWidth)`;
  - the clipboard copy and its 2-second `copiedIp` flag are left out;
  - so is the random animation delay of the diagram.
- React batches the two state updates in `handleTabChange`. `App.AppState.HandleTabChange` applies both at once, which gives the same state.
- `renderContent`'s `default: return null` cannot be reached, because the tab type has four values.
- `Header.tsx` is presentation only. Its "4/5 Online" and badge "3" are constants, not values computed from the services, and they disagree with the fleet (3/5 online, 5 active alerts). `Sparkline.tsx` only zips values with their indexes. The unused `NetworkNode` type is not modelled.
- The executive-summary lines of the reports page repeat `OnlineCount` and the active-alert total. They are not modelled as separate members.
- NetworkDiagram.TruncateName: counts lengths in Unicode code points, whereas JavaScript's `length` and `substring` count UTF-16 code units. A name with characters outside the Basic Multilingual Plane (emoji, say) can be truncated in the browser yet left whole here, or be cut at a different point. A UTF-16 cut can leave half a surrogate pair, which a Dafny string cannot hold.
- ServiceCard.Render: records which parts of a card exist and what they count. The text of the recent-transactions list, the formatted times and the IP/port line are not modelled.
