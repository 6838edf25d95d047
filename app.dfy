/** The application shell (src/App.tsx): two state cells, the active tab and
    the selected service id, changed by two handlers, and the choice of the
    view each tab shows. */
module App {
  import opened Lists
  import opened Types

  /** The four tabs of the header. */
  datatype Tab = Dashboard | Servicios | Alertas | Reportes

  /** The contents of both state cells. */
  datatype State = State(activeTab: Tab, selectedService: Option<string>)

  /** The first render: dashboard tab, nothing selected. */
  const Initial: State := State(Dashboard, None)

  /** What the user can do to the shell. */
  datatype Event = Select(id: string) | ChangeTab(tab: Tab)

  /** `handleServiceSelect`'s new selection: selecting the selected id
      clears the selection, any other id becomes the selection. */
  function Toggle(selected: Option<string>, id: string): (r: Option<string>)
    ensures r == None <==> selected == Some(id)
    ensures r != None ==> r == Some(id)
  {
    if selected == Some(id) then None else Some(id)
  }

  /** From no selection, or with `id` selected, selecting `id` twice returns
      to where it started. */
  lemma ToggleTwice(selected: Option<string>, id: string)
    requires selected == None || selected == Some(id)
    ensures Toggle(Toggle(selected, id), id) == selected
  {
  }

  /** One event applied to the state. Changing tab always clears the
      selection, even when the tab does not change. */
  function Step(st: State, e: Event): (next: State)
    ensures e.Select? ==> next.activeTab == st.activeTab
    ensures e.Select? ==> next.selectedService == Toggle(st.selectedService, e.id)
    ensures e.ChangeTab? ==> next == State(e.tab, None)
  {
    match e
    case Select(id) => st.(selectedService := Toggle(st.selectedService, id))
    case ChangeTab(tab) => State(tab, None)
  }

  /** A sequence of events applied in order. */
  function Run(st: State, events: seq<Event>): State
    decreases |events|
  {
    if events == [] then st else Run(Step(st, events[0]), events[1..])
  }

  lemma {:induction false} RunSnoc(st: State, events: seq<Event>, e: Event)
    ensures Run(st, events + [e]) == Step(Run(st, events), e)
    decreases |events|
  {
    if events == [] {
      assert events + [e] == [e];
    } else {
      assert (events + [e])[1..] == events[1..] + [e];
      RunSnoc(Step(st, events[0]), events[1..], e);
    }
  }

  /** A service is selected only right after it was clicked: the last event
      selected exactly that id. */
  lemma {:induction false} SelectionIsLastClick(st: State, events: seq<Event>, id: string)
    requires events != []
    requires Run(st, events).selectedService == Some(id)
    ensures events[|events| - 1] == Select(id)
  {
    var n := |events| - 1;
    assert events == events[..n] + [events[n]];
    RunSnoc(st, events[..n], events[n]);
  }

  /** `k` clicks on the same service: it is selected iff `k` is odd. */
  lemma {:induction false} RepeatedClicks(tab: Tab, id: string, k: nat)
    ensures Run(State(tab, None), seq(k, _ => Select(id))).selectedService == if k % 2 == 1 then Some(id) else None
    ensures Run(State(tab, None), seq(k, _ => Select(id))).activeTab == tab
  {
    if k > 0 {
      var clicks := seq(k, _ => Select(id));
      assert clicks == seq(k - 1, _ => Select(id)) + [Select(id)];
      RepeatedClicks(tab, id, k - 1);
      RunSnoc(State(tab, None), seq(k - 1, _ => Select(id)), Select(id));
    }
  }

  /** The active tab is the one of the last tab change, or the dashboard if
      there was none. */
  function LastTab(events: seq<Event>, default: Tab): Tab
    decreases |events|
  {
    if events == [] then default
    else if events[|events| - 1].ChangeTab? then events[|events| - 1].tab
    else LastTab(events[..|events| - 1], default)
  }

  lemma {:induction false} ActiveTabIsLastChange(events: seq<Event>)
    ensures Run(Initial, events).activeTab == LastTab(events, Dashboard)
    decreases |events|
  {
    if events != [] {
      var n := |events| - 1;
      assert events == events[..n] + [events[n]];
      RunSnoc(Initial, events[..n], events[n]);
      ActiveTabIsLastChange(events[..n]);
    }
  }

  /** What `renderContent` shows for a tab. */
  datatype Content = DashboardContent(showNetworkDiagram: bool) | AlertsContent | ReportsContent

  /** `dashboard` and `servicios` both show the dashboard view, with the
      diagram only on `dashboard`; the other two tabs show their own view. */
  function RenderContent(tab: Tab): (c: Content)
    ensures c.DashboardContent? <==> tab == Dashboard || tab == Servicios
    ensures c.DashboardContent? ==> (c.showNetworkDiagram <==> tab == Dashboard)
    ensures c == AlertsContent <==> tab == Alertas
    ensures c == ReportsContent <==> tab == Reportes
  {
    match tab
    case Dashboard => DashboardContent(true)
    case Servicios => DashboardContent(false)
    case Alertas => AlertsContent
    case Reportes => ReportsContent
  }

  /** The running shell. `services` is a `const`: no setter for the service
      list is ever taken. */
  class AppState {
    var activeTab: Tab
    var selectedService: Option<string>
    const services: seq<Service>

    function Current(): State
      reads this
    {
      State(activeTab, selectedService)
    }

    constructor (services: seq<Service>)
      ensures Current() == Initial
      ensures this.services == services
    {
      this.services := services;
      activeTab := Dashboard;
      selectedService := None;
    }

    method HandleServiceSelect(serviceId: string)
      modifies this
      ensures Current() == Step(old(Current()), Select(serviceId))
    {
      selectedService := if selectedService == Some(serviceId) then None else Some(serviceId);
    }

    method HandleTabChange(tab: Tab)
      modifies this
      ensures Current() == Step(old(Current()), ChangeTab(tab))
    {
      activeTab := tab;
      selectedService := None;
    }

    function Content(): Content
      reads this
    {
      RenderContent(activeTab)
    }
  }
}
