/** The dependency diagram (src/components/NetworkDiagram.tsx): the canvas
    size, the fixed position table with its fallback, the edges built from
    dependency ids, the highlighting around the selected service and the
    truncated node labels. Coordinates are `real`. */
module NetworkDiagram {
  import opened Lists
  import opened Types

  datatype Dimensions = Dimensions(width: real, height: real)

  /** The size before the first measurement. */
  const InitialDimensions: Dimensions := Dimensions(800.0, 500.0)

  /** The canvas is at least 800 wide and always 500 high. */
  predicate ValidDimensions(d: Dimensions)
  {
    d.width >= 800.0 && d.height == 500.0
  }

  /** `updateDimensions`: the measured width, but never below 800. */
  function MeasuredDimensions(rectWidth: real): (d: Dimensions)
    ensures ValidDimensions(d)
    ensures d.width == rectWidth || d.width == 800.0
    ensures rectWidth >= 800.0 ==> d.width == rectWidth
  {
    Dimensions(if rectWidth > 800.0 then rectWidth else 800.0, 500.0)
  }

  datatype Point = Point(x: real, y: real)

  /** The position table of the five known services, around the centre
      column `centerX`: an entry exactly for those ids, inside a band 300
      wide and between heights 80 and 380. */
  function FixedPosition(id: string, centerX: real): (p: Option<Point>)
    ensures p.Some? <==> id in {"nginx-web", "api-gateway", "api-pagos", "redis-cache", "mysql-db"}
    ensures p.Some? ==> centerX - 150.0 <= p.value.x <= centerX + 150.0 && 80.0 <= p.value.y <= 380.0
  {
    match id
    case "nginx-web" => Some(Point(centerX, 80.0))
    case "api-gateway" => Some(Point(centerX, 180.0))
    case "api-pagos" => Some(Point(centerX - 150.0, 280.0))
    case "redis-cache" => Some(Point(centerX + 150.0, 280.0))
    case "mysql-db" => Some(Point(centerX, 380.0))
    case _ => None
  }

  /** No two known services share a position. */
  lemma FixedPositionsDistinct(a: string, b: string, centerX: real)
    requires a != b && FixedPosition(a, centerX).Some? && FixedPosition(b, centerX).Some?
    ensures FixedPosition(a, centerX).value != FixedPosition(b, centerX).value
  {
  }

  /** `positions[id]?.x || fallback`: a missing entry and a coordinate of 0
      both give the fallback. */
  function OrFallback(v: Option<real>, fallback: real): real
  {
    if v.Some? && v.value != 0.0 then v.value else fallback
  }

  datatype NodePosition = NodePosition(
    id: string,
    x: real,
    y: real,
    name: string,
    status: ServiceStatus,
    icon: string,
    serviceType: string,
    dependencies: seq<string>)

  function PlaceNode(service: Service, d: Dimensions): (node: NodePosition)
    ensures node.id == service.id && node.name == service.name && node.status == service.status
    ensures node.icon == service.icon && node.serviceType == service.serviceType
    ensures node.dependencies == service.dependencies
    ensures FixedPosition(service.id, d.width / 2.0).None? ==> node.x == d.width / 2.0 && node.y == d.height / 2.0
  {
    var centerX := d.width / 2.0;
    var centerY := d.height / 2.0;
    var p := FixedPosition(service.id, centerX);
    NodePosition(
      service.id,
      OrFallback(if p.Some? then Some(p.value.x) else None, centerX),
      OrFallback(if p.Some? then Some(p.value.y) else None, centerY),
      service.name, service.status, service.icon, service.serviceType, service.dependencies)
  }

  /** `getNodePositions`: one node per service, in the same order. */
  function NodePositions(services: seq<Service>, d: Dimensions): (nodes: seq<NodePosition>)
    ensures |nodes| == |services|
    ensures forall k :: 0 <= k < |nodes| ==> nodes[k] == PlaceNode(services[k], d)
  {
    seq(|services|, k requires 0 <= k < |services| => PlaceNode(services[k], d))
  }

  /** On a valid canvas no fixed coordinate is 0, so every known service sits
      exactly at its table position. */
  lemma KnownServicesAtFixedPosition(service: Service, d: Dimensions)
    requires ValidDimensions(d)
    requires FixedPosition(service.id, d.width / 2.0).Some?
    ensures Point(PlaceNode(service, d).x, PlaceNode(service, d).y) == FixedPosition(service.id, d.width / 2.0).value
  {
  }

  /** On a canvas 300 wide the payments API would sit at x = 0, and the `||`
      fallback moves it to the centre instead. */
  lemma ZeroCoordinateFallsBack(service: Service)
    requires service.id == "api-pagos"
    ensures PlaceNode(service, Dimensions(300.0, 500.0)).x == 150.0
  {
  }

  /** The diagram's `getStatusColor`: a hex colour per status, grey for any
      other string. */
  function StatusHex(status: string): (color: string)
    ensures color == "#6b7280" <==> ParseStatus(status).None?
  {
    match status
    case "online" => "#22c55e"
    case "warning" => "#fbbf24"
    case "error" => "#ef4444"
    case _ => "#6b7280"
  }

  /** `getStatusGradient`, grey for any other string. The component declares
      it but never calls it: nodes are filled with `getStatusColor`. */
  function StatusGradient(status: string): (gradient: string)
    ensures gradient == "from-gray-400 to-gray-600" <==> ParseStatus(status).None?
  {
    match status
    case "online" => "from-green-400 to-green-600"
    case "warning" => "from-yellow-400 to-yellow-600"
    case "error" => "from-red-400 to-red-600"
    case _ => "from-gray-400 to-gray-600"
  }

  /** Different statuses get different colours, and `getStatusGradient`
      would give them different gradients. */
  lemma StatusStylesDistinct(a: ServiceStatus, b: ServiceStatus)
    requires a != b
    ensures StatusHex(StatusName(a)) != StatusHex(StatusName(b))
    ensures StatusGradient(StatusName(a)) != StatusGradient(StatusName(b))
  {
  }

  /** One edge of the diagram. */
  datatype Connection = Connection(from: NodePosition, to: NodePosition, id: string)

  predicate HasId(id: string, n: NodePosition) { n.id == id }

  /** `nodes.find(n => n.id === depId)`. */
  function FindNode(nodes: seq<NodePosition>, id: string): Option<NodePosition>
  {
    Find(n => HasId(id, n), nodes)
  }

  /** The edges of one node, dependency by dependency, dangling ids dropped. */
  function EdgesOf(node: NodePosition, deps: seq<string>, nodes: seq<NodePosition>): (r: seq<Connection>)
    ensures |r| <= |deps|
    ensures forall e :: e in r ==> e.from == node && e.to in nodes && e.to.id in deps && e.id == node.id + "-" + e.to.id
  {
    if deps == [] then []
    else
      var rest := EdgesOf(node, deps[1..], nodes);
      match FindNode(nodes, deps[0])
      case None => rest
      case Some(target) => [Connection(node, target, node.id + "-" + deps[0])] + rest
  }

  /** The edges of a run of source nodes, one source after another. */
  function EdgesFrom(sources: seq<NodePosition>, nodes: seq<NodePosition>): (r: seq<Connection>)
    ensures forall e :: e in r ==> e.from in sources && e.to in nodes && e.to.id in e.from.dependencies && e.id == e.from.id + "-" + e.to.id
  {
    if sources == [] then []
    else EdgesOf(sources[0], sources[0].dependencies, nodes) + EdgesFrom(sources[1..], nodes)
  }

  /** `connections`: every edge joins two nodes of the diagram, goes from a
      node to one of its dependencies and is named "source-target". */
  function Connections(nodes: seq<NodePosition>): (r: seq<Connection>)
    ensures forall e :: e in r ==> e.from in nodes && e.to in nodes && e.to.id in e.from.dependencies && e.id == e.from.id + "-" + e.to.id
  {
    EdgesFrom(nodes, nodes)
  }

  function DependencyCount(n: NodePosition): int { |n.dependencies| }

  /** There are at most as many edges as dependency ids. */
  lemma {:induction false} ConnectionsBounded(sources: seq<NodePosition>, nodes: seq<NodePosition>)
    ensures |EdgesFrom(sources, nodes)| <= Sum(DependencyCount, sources)
  {
    if sources != [] {
      ConnectionsBounded(sources[1..], nodes);
    }
  }

  /** How many of `deps` name a node of the diagram. */
  function ResolvedCount(deps: seq<string>, nodes: seq<NodePosition>): nat
  {
    if deps == [] then 0
    else (if FindNode(nodes, deps[0]).Some? then 1 else 0) + ResolvedCount(deps[1..], nodes)
  }

  /** A node has exactly one edge per dependency id that names a node. */
  lemma {:induction false} EdgesOfCount(node: NodePosition, deps: seq<string>, nodes: seq<NodePosition>)
    ensures |EdgesOf(node, deps, nodes)| == ResolvedCount(deps, nodes)
  {
    if deps != [] {
      EdgesOfCount(node, deps[1..], nodes);
    }
  }

  /** An edge from `node` exists for dependency `deps[j]` iff that id names a
      node; the edge then goes to the first node with that id. */
  lemma {:induction false} EdgesOfMembership(node: NodePosition, deps: seq<string>, nodes: seq<NodePosition>, e: Connection)
    ensures e in EdgesOf(node, deps, nodes) <==>
      exists j :: 0 <= j < |deps| && FindNode(nodes, deps[j]) == Some(e.to) && e.from == node && e.id == node.id + "-" + deps[j]
  {
    if deps != [] {
      EdgesOfMembership(node, deps[1..], nodes, e);
      if e in EdgesOf(node, deps[1..], nodes) {
        var j :| 0 <= j < |deps[1..]| && FindNode(nodes, deps[1..][j]) == Some(e.to) && e.from == node && e.id == node.id + "-" + deps[1..][j];
        assert deps[j + 1] == deps[1..][j];
      }
      if j :| 0 <= j < |deps| && FindNode(nodes, deps[j]) == Some(e.to) && e.from == node && e.id == node.id + "-" + deps[j] {
        if j > 0 {
          assert deps[1..][j - 1] == deps[j];
        }
      }
    }
  }

  /** Every (node, dependency id) pair whose id names a node gives exactly
      the edge to the first such node, and no other edge exists. */
  lemma {:induction false} ConnectionMembership(sources: seq<NodePosition>, nodes: seq<NodePosition>, e: Connection)
    ensures e in EdgesFrom(sources, nodes) <==>
      exists k, j :: 0 <= k < |sources| && 0 <= j < |sources[k].dependencies| &&
        e.from == sources[k] && FindNode(nodes, sources[k].dependencies[j]) == Some(e.to) &&
        e.id == sources[k].id + "-" + sources[k].dependencies[j]
  {
    if sources != [] {
      var s := sources[0];
      ConnectionMembership(sources[1..], nodes, e);
      EdgesOfMembership(s, s.dependencies, nodes, e);
      if e in EdgesOf(s, s.dependencies, nodes) {
        var j :| 0 <= j < |s.dependencies| && FindNode(nodes, s.dependencies[j]) == Some(e.to) && e.from == s && e.id == s.id + "-" + s.dependencies[j];
        assert sources[0] == s;
      }
      if e in EdgesFrom(sources[1..], nodes) {
        var k, j :| 0 <= k < |sources[1..]| && 0 <= j < |sources[1..][k].dependencies| &&
          e.from == sources[1..][k] && FindNode(nodes, sources[1..][k].dependencies[j]) == Some(e.to) &&
          e.id == sources[1..][k].id + "-" + sources[1..][k].dependencies[j];
        assert sources[k + 1] == sources[1..][k];
      }
      if k, j :| (0 <= k < |sources| && 0 <= j < |sources[k].dependencies| &&
                  e.from == sources[k] && FindNode(nodes, sources[k].dependencies[j]) == Some(e.to) &&
                  e.id == sources[k].id + "-" + sources[k].dependencies[j]) {
        if k > 0 {
          assert sources[1..][k - 1] == sources[k];
        }
      }
    }
  }

  /** A dependency id naming no service produces no edge. */
  lemma DanglingDependencyDropped(nodes: seq<NodePosition>, k: int, j: int, e: Connection)
    requires 0 <= k < |nodes| && 0 <= j < |nodes[k].dependencies|
    requires forall n :: n in nodes ==> n.id != nodes[k].dependencies[j]
    requires e in Connections(nodes) && e.from == nodes[k]
    ensures e.to.id != nodes[k].dependencies[j]
  {
  }

  /** JavaScript truthiness of `selectedService`: null and "" are false. */
  predicate Truthy(selected: Option<string>)
  {
    selected.Some? && selected.value != ""
  }

  /** An edge is drawn highlighted iff the selection is one of its ends. */
  predicate EdgeHighlighted(selected: Option<string>, e: Connection)
    ensures EdgeHighlighted(selected, e) ==> selected.Some?
    ensures EdgeHighlighted(selected, e) <==> selected.Some? && selected.value in {e.from.id, e.to.id}
  {
    selected == Some(e.from.id) || selected == Some(e.to.id)
  }

  /** `connections.some(...)`: some edge joins `a` and `b`, in either
      direction. */
  function Joins(conns: seq<Connection>, a: string, b: string): bool
  {
    if conns == [] then false
    else
      var c := conns[0];
      (c.from.id == a && c.to.id == b) || (c.to.id == a && c.from.id == b) || Joins(conns[1..], a, b)
  }

  /** `some` holds iff one edge joins the two ids, and the relation is
      symmetric. */
  lemma {:induction false} JoinsMeaning(conns: seq<Connection>, a: string, b: string)
    ensures Joins(conns, a, b) <==>
      exists c :: c in conns && ((c.from.id == a && c.to.id == b) || (c.to.id == a && c.from.id == b))
    ensures Joins(conns, a, b) == Joins(conns, b, a)
  {
    if conns != [] {
      JoinsMeaning(conns[1..], a, b);
      assert forall c :: c in conns <==> c == conns[0] || c in conns[1..];
    }
  }

  /** A node is drawn highlighted iff it is selected or a truthy selection
      is joined to it by an edge. */
  predicate NodeHighlighted(selected: Option<string>, node: NodePosition, conns: seq<Connection>)
    ensures NodeHighlighted(selected, node, conns) ==> selected.Some?
    ensures selected == Some(node.id) ==> NodeHighlighted(selected, node, conns)
    ensures NodeHighlighted(selected, node, conns) && selected != Some(node.id) ==>
              Truthy(selected)
              && exists c :: c in conns && EdgeHighlighted(selected, c) && (c.from.id == node.id || c.to.id == node.id)
  {
    if selected.Some? then
      JoinsMeaning(conns, node.id, selected.value);
      selected == Some(node.id) || (Truthy(selected) && Joins(conns, node.id, selected.value))
    else
      false
  }

  /** With no selection nothing is highlighted. */
  lemma NothingHighlightedWithoutSelection(node: NodePosition, conns: seq<Connection>, e: Connection)
    ensures !NodeHighlighted(None, node, conns)
    ensures !EdgeHighlighted(None, e)
  {
  }

  /** Node and edge highlighting agree: for a non-empty selection, a node
      other than the selected one is highlighted iff some highlighted edge
      ends at it. */
  lemma HighlightConsistent(selected: string, node: NodePosition, conns: seq<Connection>)
    requires selected != "" && node.id != selected
    ensures NodeHighlighted(Some(selected), node, conns) <==>
      exists c :: c in conns && (c.from.id == node.id || c.to.id == node.id) && EdgeHighlighted(Some(selected), c)
  {
    JoinsMeaning(conns, node.id, selected);
  }

  /** The node label: names longer than 14 characters become their first 12
      characters and "...". */
  function TruncateName(name: string): (shown: string)
    ensures |shown| <= 15 && |shown| <= |name|
    ensures |name| <= 14 ==> shown == name
    ensures |name| > 14 ==> |shown| == 15 && shown[..12] == name[..12] && shown[12..] == "..."
  {
    if |name| > 14 then name[..12] + "..." else name
  }

  /** A label is never truncated twice. */
  lemma TruncateIdempotent(name: string)
    ensures TruncateName(TruncateName(name)) == TruncateName(name)
  {
  }
}
