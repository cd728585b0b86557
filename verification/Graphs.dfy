/** Directed graphs as adjacency maps: cycles, ranks and how the two exclude each other. */
module Graphs {

  type Graph = map<string, seq<string>>

  /** Reading a missing key of a Go map gives the empty list. */
  function Successors(g: Graph, n: string): seq<string> {
    if n in g then g[n] else []
  }

  ghost predicate Linked(g: Graph, u: string, v: string) {
    v in Successors(g, u)
  }

  ghost predicate IsPath(g: Graph, p: seq<string>) {
    p != [] && forall i, j | 0 <= i && j == i + 1 < |p| :: Linked(g, p[i], p[j])
  }

  ghost predicate Cyclic(g: Graph) {
    exists p :: IsPath(g, p) && |p| > 1 && p[0] == p[|p| - 1]
  }

  /** `rank` numbers every node that an edge touches so that edges go downwards. */
  ghost predicate Ranked(g: Graph, rank: map<string, nat>) {
    forall u, v | Linked(g, u, v) :: u in rank && v in rank && rank[v] < rank[u]
  }

  /** The numbered nodes are closed under edges, and edges between them go downwards. */
  ghost predicate Closed(g: Graph, rank: map<string, nat>) {
    && (forall u, v | u in rank && Linked(g, u, v) :: v in rank && rank[v] < rank[u])
    && (forall u | u in rank :: rank[u] < |rank|)
  }

  ghost predicate Extends(small: map<string, nat>, large: map<string, nat>) {
    forall n | n in small :: n in large && large[n] == small[n]
  }

  ghost function Vertices(g: Graph): set<string> {
    g.Keys + (set u, v | u in g && v in g[u] :: v)
  }

  lemma SuffixIsPath(g: Graph, p: seq<string>, k: nat)
    requires IsPath(g, p) && k < |p|
    ensures IsPath(g, p[k..])
  {
    var suffix := p[k..];
    forall i, j | 0 <= i && j == i + 1 < |suffix|
      ensures Linked(g, suffix[i], suffix[j])
    {
      assert Linked(g, p[k + i], p[k + j]);
    }
  }

  lemma PrefixIsPath(g: Graph, p: seq<string>, k: nat)
    requires IsPath(g, p) && 0 < k <= |p|
    ensures IsPath(g, p[..k])
  {
    var prefix := p[..k];
    forall i, j | 0 <= i && j == i + 1 < |prefix|
      ensures Linked(g, prefix[i], prefix[j])
    {
      assert Linked(g, p[i], p[j]);
    }
  }

  /** A path that comes back to a node it has already been through closes a cycle. */
  lemma ReturnClosesCycle(g: Graph, path: seq<string>, node: string)
    requires node in path
    requires IsPath(g, path + [node])
    ensures Cyclic(g)
  {
    var k :| 0 <= k < |path| && path[k] == node;
    var whole := path + [node];
    var cycle := whole[k..];
    SuffixIsPath(g, whole, k);
    assert cycle[0] == cycle[|cycle| - 1];
  }

  lemma {:induction false} RankDescends(g: Graph, rank: map<string, nat>, p: seq<string>)
    requires Ranked(g, rank)
    requires IsPath(g, p) && |p| > 1
    ensures p[0] in rank && p[|p| - 1] in rank && rank[p[|p| - 1]] < rank[p[0]]
  {
    assert Linked(g, p[0], p[1]);
    if |p| > 2 {
      SuffixIsPath(g, p, 1);
      RankDescends(g, rank, p[1..]);
    }
  }

  lemma RankedIsAcyclic(g: Graph, rank: map<string, nat>)
    requires Ranked(g, rank)
    ensures !Cyclic(g)
  {
    forall p | IsPath(g, p) && |p| > 1
      ensures p[0] != p[|p| - 1]
    {
      RankDescends(g, rank, p);
    }
  }

  lemma ClosedStep(g: Graph, rank: map<string, nat>, node: string) returns (extended: map<string, nat>)
    requires Closed(g, rank)
    requires forall v | Linked(g, node, v) :: v in rank
    ensures Closed(g, extended) && Extends(rank, extended) && node in extended
    ensures node !in rank ==> extended == rank[node := |rank|]
    ensures extended.Keys == rank.Keys + {node}
  {
    if node in rank {
      extended := rank;
    } else {
      extended := rank[node := |rank|];
      assert extended.Keys == rank.Keys + {node};
      assert |extended.Keys| == |rank.Keys| + 1;
    }
  }

  /** One depth-first exploration: in an acyclic graph every node it reaches can be numbered. */
  lemma Explore(g: Graph, path: seq<string>, node: string, rank: map<string, nat>) returns (extended: map<string, nat>)
    requires !Cyclic(g)
    requires IsPath(g, path + [node])
    requires node in Vertices(g)
    requires Closed(g, rank)
    ensures Closed(g, extended) && Extends(rank, extended) && node in extended
    decreases Vertices(g) - Elements(path), 0
  {
    extended := rank;
    if node !in rank {
      if node in path {
        ReturnClosesCycle(g, path, node);
      }
      assert Elements(path + [node]) == Elements(path) + {node};
      extended := ExploreAll(g, path + [node], Successors(g, node), rank);
      extended := ClosedStep(g, extended, node);
    }
  }

  lemma ExploreAll(g: Graph, path: seq<string>, next: seq<string>, rank: map<string, nat>)
    returns (extended: map<string, nat>)
    requires !Cyclic(g)
    requires IsPath(g, path)
    requires forall n | n in next :: Linked(g, path[|path| - 1], n)
    requires Closed(g, rank)
    ensures Closed(g, extended) && Extends(rank, extended)
    ensures forall n | n in next :: n in extended
    decreases Vertices(g) - Elements(path), |next| + 1
  {
    extended := rank;
    if next != [] {
      assert next[0] in next;
      PathAppend(g, path, next[0]);
      EdgeEndsAreVertices(g, path[|path| - 1], next[0]);
      extended := Explore(g, path, next[0], extended);
      assert forall n | n in next[1..] :: n in next;
      extended := ExploreAll(g, path, next[1..], extended);
    }
  }

  lemma EdgeEndsAreVertices(g: Graph, u: string, v: string)
    requires Linked(g, u, v)
    ensures u in Vertices(g) && v in Vertices(g)
  {
  }

  ghost function Elements(s: seq<string>): set<string> {
    set n | n in s
  }

  lemma PathAppend(g: Graph, path: seq<string>, node: string)
    requires IsPath(g, path) && Linked(g, path[|path| - 1], node)
    ensures IsPath(g, path + [node])
  {
    var longer := path + [node];
    forall i, j | 0 <= i && j == i + 1 < |longer|
      ensures Linked(g, longer[i], longer[j])
    {
      if j < |path| {
        assert Linked(g, path[i], path[j]);
      }
    }
  }

  lemma RankOfAcyclic(g: Graph) returns (rank: map<string, nat>)
    requires !Cyclic(g)
    ensures Ranked(g, rank)
  {
    rank := map[];
    var rest := g.Keys;
    while rest != {}
      invariant Closed(g, rank)
      invariant forall n | n in g :: n in rest || n in rank
    {
      var node :| node in rest;
      assert [] + [node] == [node];
      rank := Explore(g, [], node, rank);
      rest := rest - {node};
    }
  }

  /** Having no directed cycle and having a topological numbering are the same thing. */
  lemma AcyclicIffRanked(g: Graph)
    ensures !Cyclic(g) <==> exists rank :: Ranked(g, rank)
  {
    if !Cyclic(g) {
      var rank := RankOfAcyclic(g);
    }
    forall rank | Ranked(g, rank)
      ensures !Cyclic(g)
    {
      RankedIsAcyclic(g, rank);
    }
  }

  lemma HighestOf(rank: map<string, nat>, ids: set<string>) returns (top: string)
    requires ids != {} && ids <= rank.Keys
    ensures top in ids && forall n | n in ids :: rank[n] <= rank[top]
    decreases ids
  {
    top :| top in ids;
    var rest := ids - {top};
    if rest != {} {
      var other := HighestOf(rank, rest);
      forall n | n in ids
        ensures rank[n] <= rank[top] || rank[n] <= rank[other]
      {
        assert n == top || n in rest;
      }
      if rank[other] > rank[top] {
        top := other;
      }
    } else {
      assert ids == {top};
    }
  }

  /** A finite non-empty set of nodes of an acyclic graph has one that no edge enters from the set. */
  lemma SourceExists(g: Graph, ids: set<string>) returns (start: string)
    requires !Cyclic(g) && ids != {}
    ensures start in ids && forall u | u in ids :: !Linked(g, u, start)
  {
    var rank := RankOfAcyclic(g);
    if ids <= rank.Keys {
      start := HighestOf(rank, ids);
    } else {
      start :| start in ids && start !in rank;
    }
  }
}
