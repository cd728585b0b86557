/** ValidateDefinition and hasCycle. */
module Validator {
  import opened Text
  import opened Graphs
  import Definitions

  type Node = Definitions.Node
  type Edge = Definitions.Edge
  type Definition = Definitions.Definition

  // ----- Depth-first search for a cycle -----

  /** Reading a missing key of a Go map of booleans gives false. */
  predicate Flag(m: map<string, bool>, k: string) {
    k in m && m[k]
  }

  /** What the two maps of hasCycle mean: `open` is the chain of calls that have not returned,
      and `rank` numbers the nodes whose calls have, in the order in which they did. */
  ghost predicate Consistent(g: Graph, visiting: map<string, bool>, visited: map<string, bool>,
                             open: seq<string>, rank: map<string, nat>)
  {
    && (forall n :: Flag(visiting, n) <==> n in open)
    && (forall n :: Flag(visited, n) <==> n in rank)
    && (forall n | n in open :: n !in rank)
    && (open == [] || IsPath(g, open))
    && Closed(g, rank)
  }

  lemma OpenKeeps(g: Graph, visiting: map<string, bool>, visited: map<string, bool>,
                  open: seq<string>, rank: map<string, nat>, node: string)
    requires Consistent(g, visiting, visited, open, rank)
    requires !Flag(visited, node) && !Flag(visiting, node) && node in Vertices(g)
    requires IsPath(g, open + [node])
    ensures Consistent(g, visiting[node := true], visited, open + [node], rank)
    ensures Vertices(g) - Elements(open + [node]) < Vertices(g) - Elements(open)
  {
    assert Elements(open + [node]) == Elements(open) + {node};
    assert node in Vertices(g) - Elements(open);
  }

  lemma PathFront(g: Graph, path: seq<string>, node: string)
    requires IsPath(g, path + [node])
    ensures path == [] || IsPath(g, path)
  {
    if path != [] {
      PrefixIsPath(g, path + [node], |path|);
      assert (path + [node])[..|path|] == path;
    }
  }

  lemma CloseKeeps(g: Graph, visiting: map<string, bool>, visited: map<string, bool>,
                   open: seq<string>, rank: map<string, nat>, node: string) returns (extended: map<string, nat>)
    requires Consistent(g, visiting, visited, open + [node], rank)
    requires node !in open
    requires forall n | Linked(g, node, n) :: n in rank
    ensures Consistent(g, visiting[node := false], visited[node := true], open, extended)
    ensures Extends(rank, extended) && node in extended
  {
    assert forall n :: n in open + [node] <==> n in open || n == node;
    assert node !in rank;
    extended := ClosedStep(g, rank, node);
    PathFront(g, open, node);
  }

  lemma NextGoesOn(g: Graph, visiting: map<string, bool>, visited: map<string, bool>,
                   open: seq<string>, rank: map<string, nat>, next: string)
    requires Consistent(g, visiting, visited, open, rank)
    requires open != [] && Linked(g, open[|open| - 1], next)
    ensures next in Vertices(g) && IsPath(g, open + [next])
  {
    PathAppend(g, open, next);
    EdgeEndsAreVertices(g, open[|open| - 1], next);
  }

  ghost predicate FirstAreIn(next: seq<string>, i: nat, rank: map<string, nat>) {
    i <= |next| && forall j | 0 <= j < i :: next[j] in rank
  }

  lemma NextIsIn(next: seq<string>, i: nat, before: map<string, nat>, reached: map<string, nat>, rank: map<string, nat>)
    requires i < |next| && FirstAreIn(next, i, reached) && next[i] in rank
    requires Extends(before, reached) && Extends(reached, rank)
    ensures FirstAreIn(next, i + 1, rank) && Extends(before, rank)
  {
  }

  lemma AllAreIn(g: Graph, node: string, rank: map<string, nat>)
    requires FirstAreIn(Successors(g, node), |Successors(g, node)|, rank)
    ensures forall n | Linked(g, node, n) :: n in rank
  {
  }

  /** The closure of hasCycle with the two maps it updates. */
  class CycleSearch {
    const adjacency: Graph
    var visiting: map<string, bool>
    var visited: map<string, bool>
    ghost var open: seq<string>
    ghost var rank: map<string, nat>

    ghost predicate Valid()
      reads this
    {
      Consistent(adjacency, visiting, visited, open, rank)
    }

    constructor (adjacency: Graph)
      ensures Valid() && this.adjacency == adjacency && open == [] && rank == map[]
    {
      this.adjacency := adjacency;
      visiting, visited := map[], map[];
      open, rank := [], map[];
    }

    method Visit(node: string, ghost room: set<string>) returns (found: bool)
      requires Valid() && room == Vertices(adjacency) - Elements(open)
      requires node in Vertices(adjacency)
      requires IsPath(adjacency, open + [node])
      modifies this
      ensures found ==> Cyclic(adjacency)
      ensures !found ==> Valid() && open == old(open) && Extends(old(rank), rank) && node in rank
      decreases room, 0
    {
      if Flag(visited, node) {
        return false;
      }
      if Flag(visiting, node) {
        ReturnClosesCycle(adjacency, open, node);
        return true;
      }

      ghost var chain := open;
      OpenKeeps(adjacency, visiting, visited, open, rank, node);
      visiting := visiting[node := true];
      open := chain + [node];
      found := VisitNext(node, Vertices(adjacency) - Elements(open));
      if found {
        return true;
      }
      rank := CloseKeeps(adjacency, visiting, visited, chain, rank, node);
      visiting := visiting[node := false];
      visited := visited[node := true];
      open := chain;
      return false;
    }

    /** The loop of Visit over the successors of the node that was opened last. */
    method VisitNext(node: string, ghost room: set<string>) returns (found: bool)
      requires Valid() && room == Vertices(adjacency) - Elements(open)
      requires open != [] && open[|open| - 1] == node
      modifies this
      ensures found ==> Cyclic(adjacency)
      ensures !found ==> Valid() && open == old(open) && Extends(old(rank), rank)
      ensures !found ==> forall n | Linked(adjacency, node, n) :: n in rank
      decreases room, 1
    {
      var next := Successors(adjacency, node);
      ghost var chain, before := open, rank;
      for i := 0 to |next|
        invariant Valid() && open == chain
        invariant Extends(before, rank) && FirstAreIn(next, i, rank)
      {
        NextGoesOn(adjacency, visiting, visited, open, rank, next[i]);
        ghost var reached := rank;
        found := Visit(next[i], room);
        if found {
          return true;
        }
        NextIsIn(next, i, before, reached, rank);
      }
      AllAreIn(adjacency, node, rank);
      return false;
    }
  }

  /** hasCycle. The keys are taken in an arbitrary order, as Go's range over a map takes them.
      Without a cycle, the order in which the calls finished numbers every edge downwards. */
  method HasCycle(adjacency: Graph) returns (found: bool, ghost rank: map<string, nat>)
    ensures found <==> Cyclic(adjacency)
    ensures !found ==> Ranked(adjacency, rank)
  {
    var search := new CycleSearch(adjacency);
    rank := map[];
    var rest := adjacency.Keys;
    while rest != {}
      invariant search.Valid() && search.adjacency == adjacency && search.open == []
      invariant fresh(search)
      invariant forall n | n in adjacency :: n in rest || n in search.rank
    {
      var node :| node in rest;
      rest := rest - {node};
      assert search.open + [node] == [node];
      found := search.Visit(node, Vertices(adjacency));
      if found {
        return true, rank;
      }
    }
    rank := search.rank;
    RankedIsAcyclic(adjacency, rank);
    return false, rank;
  }

  // ----- Validation -----

  /** The adjacency map that the validator builds: trimmed targets under trimmed sources. */
  function Adjacency(edges: seq<Edge>): Graph {
    if edges == [] then map[]
    else
      var g := Adjacency(edges[..|edges| - 1]);
      var last := edges[|edges| - 1];
      var source := TrimSpace(last.source);
      g[source := Successors(g, source) + [TrimSpace(last.target)]]
  }

  predicate Links(e: Edge, u: string, v: string) {
    TrimSpace(e.source) == u && TrimSpace(e.target) == v
  }

  /** The trimmed targets of the edges out of `u`, in the order of the edges. */
  function Targets(edges: seq<Edge>, u: string): (r: seq<string>)
  {
    if edges == [] then []
    else
      var last := edges[|edges| - 1];
      var r := Targets(edges[..|edges| - 1], u);
      if TrimSpace(last.source) == u then r + [TrimSpace(last.target)] else r
  }

  lemma {:induction false} TargetsAre(edges: seq<Edge>, u: string, v: string)
    ensures v in Targets(edges, u) <==> exists e :: e in edges && Links(e, u, v)
  {
    if edges != [] {
      var front, last := edges[..|edges| - 1], edges[|edges| - 1];
      TargetsAre(front, u, v);
      assert edges == front + [last];
      if Links(last, u, v) {
        assert last in edges;
      }
    }
  }

  lemma {:induction false} AdjacencyTargets(edges: seq<Edge>, u: string)
    ensures Successors(Adjacency(edges), u) == Targets(edges, u)
  {
    if edges != [] {
      AdjacencyTargets(edges[..|edges| - 1], u);
    }
  }

  /** Two nodes are linked in the adjacency map exactly when some edge links them up to trimming. */
  lemma AdjacencyEdges(edges: seq<Edge>, u: string, v: string)
    ensures Linked(Adjacency(edges), u, v) <==> exists e :: e in edges && Links(e, u, v)
  {
    AdjacencyTargets(edges, u);
    TargetsAre(edges, u, v);
  }

  ghost predicate HasId(nodes: seq<Node>, id: string) {
    exists n :: n in nodes && TrimSpace(n.id) == id
  }

  ghost predicate NodesOk(nodes: seq<Node>) {
    && (forall i | 0 <= i < |nodes| :: TrimSpace(nodes[i].id) != "" && Definitions.ValidNode(nodes[i].kind))
    && (forall i, j | 0 <= i < j < |nodes| :: TrimSpace(nodes[i].id) != TrimSpace(nodes[j].id))
  }

  ghost predicate EdgeOk(nodes: seq<Node>, e: Edge) {
    && TrimSpace(e.source) != "" && HasId(nodes, TrimSpace(e.source))
    && TrimSpace(e.target) != "" && HasId(nodes, TrimSpace(e.target))
  }

  ghost predicate EdgesOk(nodes: seq<Node>, edges: seq<Edge>) {
    forall e | e in edges :: EdgeOk(nodes, e)
  }

  /** What a valid definition is: no start-node clause is needed, see StartIsImplied. */
  ghost predicate WellFormed(d: Definition) {
    && TrimSpace(d.event) != ""
    && d.nodes != []
    && NodesOk(d.nodes)
    && EdgesOk(d.nodes, d.edges)
    && !Cyclic(Adjacency(d.edges))
  }

  /** The start-node test of the validator: some node whose raw id is no trimmed target. */
  ghost predicate HasStart(nodes: seq<Node>, edges: seq<Edge>) {
    exists n :: n in nodes && forall e | e in edges :: TrimSpace(e.target) != n.id
  }

  function CountTargets(edges: seq<Edge>, id: string): (r: nat)
    ensures r == 0 <==> forall e | e in edges :: TrimSpace(e.target) != id
  {
    if edges == [] then 0
    else
      var last := edges[|edges| - 1];
      assert edges == edges[..|edges| - 1] + [last];
      CountTargets(edges[..|edges| - 1], id) + if TrimSpace(last.target) == id then 1 else 0
  }

  /** Acyclicity already gives every non-empty definition a start node. */
  lemma StartIsImplied(nodes: seq<Node>, edges: seq<Edge>)
    requires nodes != [] && EdgesOk(nodes, edges) && !Cyclic(Adjacency(edges))
    ensures HasStart(nodes, edges)
  {
    var ids := set n | n in nodes :: TrimSpace(n.id);
    assert TrimSpace(nodes[0].id) in ids;
    var start := SourceExists(Adjacency(edges), ids);
    var node :| node in nodes && TrimSpace(node.id) == start;
    forall e | e in edges
      ensures TrimSpace(e.target) != node.id
    {
      TrimIdempotent(e.target);
      if TrimSpace(e.target) == node.id {
        var source := TrimSpace(e.source);
        assert HasId(nodes, source) && Links(e, source, start);
        AdjacencyEdges(edges, source, start);
      }
    }
  }

  /** The first loop of ValidateDefinition: check the nodes and index them by trimmed id. */
  method IndexNodes(nodes: seq<Node>) returns (ok: bool, nodesByID: map<string, Node>)
    ensures ok <==> NodesOk(nodes)
    ensures ok ==> forall id :: id in nodesByID <==> HasId(nodes, id)
  {
    nodesByID := map[];
    for i := 0 to |nodes|
      invariant NodesOk(nodes[..i])
      invariant forall id :: id in nodesByID <==> HasId(nodes[..i], id)
    {
      var node := nodes[i];
      var nodeID := TrimSpace(node.id);
      assert nodes[..i + 1] == nodes[..i] + [node];
      if nodeID == "" {
        return false, nodesByID;
      }
      if nodeID in nodesByID {
        assert HasId(nodes[..i], nodeID);
        return false, nodesByID;
      }
      if !Definitions.ValidNode(node.kind) {
        return false, nodesByID;
      }
      nodesByID := nodesByID[nodeID := node.(id := nodeID)];
      assert forall id :: HasId(nodes[..i + 1], id) <==> HasId(nodes[..i], id) || id == nodeID by {
        assert node in nodes[..i + 1];
      }
    }
    assert nodes[..|nodes|] == nodes;
    return true, nodesByID;
  }

  ghost predicate Counts(incoming: map<string, nat>, edges: seq<Edge>) {
    forall id :: CountTargets(edges, id) == if id in incoming then incoming[id] else 0
  }

  lemma CountsStep(incoming: map<string, nat>, edges: seq<Edge>, edge: Edge)
    requires Counts(incoming, edges)
    ensures var target := TrimSpace(edge.target);
            Counts(incoming[target := (if target in incoming then incoming[target] else 0) + 1], edges + [edge])
  {
    assert (edges + [edge])[..|edges|] == edges;
  }

  lemma EdgesNext(nodes: seq<Node>, edges: seq<Edge>, i: nat)
    requires i < |edges|
    ensures edges[..i + 1] == edges[..i] + [edges[i]]
    ensures EdgesOk(nodes, edges[..i + 1]) <==> EdgesOk(nodes, edges[..i]) && EdgeOk(nodes, edges[i])
    ensures EdgesOk(nodes, edges) ==> EdgeOk(nodes, edges[i])
    ensures var g, source := Adjacency(edges[..i]), TrimSpace(edges[i].source);
            Adjacency(edges[..i + 1]) == g[source := Successors(g, source) + [TrimSpace(edges[i].target)]]
  {
    assert edges[..i + 1] == edges[..i] + [edges[i]];
    assert edges[..i + 1][..i] == edges[..i];
    assert edges[i] in edges && edges[i] in edges[..i + 1];
  }

  /** The second loop: check the edges, build the adjacency map and count incoming edges. */
  method IndexEdges(nodes: seq<Node>, nodesByID: map<string, Node>, edges: seq<Edge>)
    returns (ok: bool, adjacency: Graph, incoming: map<string, nat>)
    requires forall id :: id in nodesByID <==> HasId(nodes, id)
    ensures ok <==> EdgesOk(nodes, edges)
    ensures ok ==> adjacency == Adjacency(edges) && Counts(incoming, edges)
  {
    incoming := map[];
    adjacency := map[];
    for i := 0 to |edges|
      invariant EdgesOk(nodes, edges[..i])
      invariant adjacency == Adjacency(edges[..i])
      invariant Counts(incoming, edges[..i])
    {
      var edge := edges[i];
      EdgesNext(nodes, edges, i);
      CountsStep(incoming, edges[..i], edge);
      var source := TrimSpace(edge.source);
      var target := TrimSpace(edge.target);
      if source == "" || target == "" {
        return false, adjacency, incoming;
      }
      if source !in nodesByID {
        return false, adjacency, incoming;
      }
      if target !in nodesByID {
        return false, adjacency, incoming;
      }
      adjacency := adjacency[source := Successors(adjacency, source) + [target]];
      incoming := incoming[target := (if target in incoming then incoming[target] else 0) + 1];
    }
    assert edges[..|edges|] == edges;
    return true, adjacency, incoming;
  }

  /** ValidateDefinition */
  method ValidateDefinition(d: Definition) returns (ok: bool)
    ensures ok <==> WellFormed(d)
  {
    if TrimSpace(d.event) == "" {
      return false;
    }
    if |d.nodes| == 0 {
      return false;
    }
    var nodesOk, nodesByID := IndexNodes(d.nodes);
    if !nodesOk {
      return false;
    }
    var edgesOk, adjacency, incoming := IndexEdges(d.nodes, nodesByID, d.edges);
    if !edgesOk {
      return false;
    }
    var hasStartNode := false;
    for i := 0 to |d.nodes|
      invariant !hasStartNode
      invariant forall n | n in d.nodes[..i] :: CountTargets(d.edges, n.id) > 0
    {
      assert d.nodes[..i + 1] == d.nodes[..i] + [d.nodes[i]];
      if d.nodes[i].id !in incoming || incoming[d.nodes[i].id] == 0 {
        hasStartNode := true;
        break;
      }
    }
    if !hasStartNode {
      assert d.nodes[..|d.nodes|] == d.nodes;
      if !Cyclic(Adjacency(d.edges)) {
        StartIsImplied(d.nodes, d.edges);
      }
      return false;
    }
    var cyclic, _ := HasCycle(adjacency);
    return !cyclic;
  }
}
