/** Workflow definitions, with the JSON of each node already decoded. */
module Definitions {
  import opened Wrappers
  import opened Text
  import Channels

  type Uuid = nat

  /** A decoded JSON value; `text` is what fmt.Sprint prints for it. */
  datatype Json = Object(text: string, fields: map<string, Json>) | Scalar(text: string)

  /** `parsed` is what uuid.Parse makes of the trimmed text. */
  datatype TemplateId = TemplateId(text: string, parsed: Option<Uuid>)

  datatype NotificationConfig = NotificationConfig(template: TemplateId, channels: seq<string>)

  /** `duration` is what time.ParseDuration makes of the trimmed text. */
  datatype DelayConfig = DelayConfig(duration: Option<int>)

  datatype ConditionConfig = ConditionConfig(field: string, operator: string, value: string)

  /** The type of a node together with its configuration; None where the JSON does not decode. */
  datatype Kind =
    | Trigger
    | Notification(notification: Option<NotificationConfig>)
    | Delay(delay: Option<DelayConfig>)
    | Condition(condition: Option<ConditionConfig>)
    | Unknown(name: string)

  datatype Node = Node(id: string, kind: Kind)

  datatype Edge = Edge(source: string, target: string, branch: string)

  datatype Definition = Definition(event: string, nodes: seq<Node>, edges: seq<Edge>)

  const OPERATORS: set<string> := {"equals", "not_equals", "contains", "exists"}

  /** findNode: the first node with exactly this id. */
  function FindNode(nodes: seq<Node>, id: string): (r: Option<Node>)
    ensures r.Some? ==> r.value in nodes && r.value.id == id
    ensures r.None? <==> forall n | n in nodes :: n.id != id
  {
    if nodes == [] then None
    else if nodes[0].id == id then Some(nodes[0])
    else FindNode(nodes[1..], id)
  }

  /** The node that is found is the first one with the id. */
  lemma {:induction false} FindNodeIsFirst(nodes: seq<Node>, id: string) returns (i: nat)
    requires exists n :: n in nodes && n.id == id
    ensures i < |nodes| && FindNode(nodes, id) == Some(nodes[i]) && nodes[i].id == id
    ensures forall j | 0 <= j < i :: nodes[j].id != id
  {
    i := 0;
    if nodes[0].id != id {
      assert nodes == [nodes[0]] + nodes[1..];
      i := FindNodeIsFirst(nodes[1..], id);
      i := i + 1;
    }
  }

  /** Does nextNodeIDs follow this edge out of `id` on this branch? */
  predicate Follows(e: Edge, id: string, branch: string) {
    && e.source == id
    && (branch == "" || Fold(e.branch) == "" || Fold(e.branch) == branch)
  }

  /** The targets of the followed edges, in the order of the edges. */
  function Followed(edges: seq<Edge>, id: string, branch: string): (r: seq<string>)
    ensures forall t :: t in r <==> exists e :: e in edges && Follows(e, id, branch) && e.target == t
  {
    if edges == [] then []
    else
      var last := edges[|edges| - 1];
      var r := Followed(edges[..|edges| - 1], id, branch);
      assert edges == edges[..|edges| - 1] + [last];
      if Follows(last, id, branch) then r + [last.target] else r
  }

  /** Each followed edge gives its target once, and the order is that of the edges. */
  lemma {:induction false} FollowedInOrder(before: seq<Edge>, e: Edge, later: seq<Edge>, id: string, branch: string)
    ensures Followed(before + [e] + later, id, branch) ==
            Followed(before, id, branch) + (if Follows(e, id, branch) then [e.target] else [])
            + Followed(later, id, branch)
    decreases |later|
  {
    if later == [] {
      FollowedNext(before, e, id, branch);
      assert before + [e] + later == before + [e];
    } else {
      var front, last := later[..|later| - 1], later[|later| - 1];
      FollowedInOrder(before, e, front, id, branch);
      FollowedNext(before + [e] + front, last, id, branch);
      FollowedNext(front, last, id, branch);
      assert later == front + [last];
      Grouped(before + [e], front, [last]);
      Grouped(Followed(before, id, branch) + (if Follows(e, id, branch) then [e.target] else []),
              Followed(front, id, branch), if Follows(last, id, branch) then [last.target] else []);
    }
  }

  lemma Grouped<T>(a: seq<T>, b: seq<T>, c: seq<T>)
    ensures a + (b + c) == a + b + c
  {
  }

  lemma FollowedNext(edges: seq<Edge>, last: Edge, id: string, branch: string)
    ensures Followed(edges + [last], id, branch) ==
            Followed(edges, id, branch) + if Follows(last, id, branch) then [last.target] else []
  {
    assert (edges + [last])[..|edges|] == edges;
  }

  /** The rule that the builder's documentation gives: the edges with exactly this branch. */
  function WithBranch(edges: seq<Edge>, id: string, branch: string): seq<string> {
    if edges == [] then []
    else
      var last := edges[|edges| - 1];
      var r := WithBranch(edges[..|edges| - 1], id, branch);
      if last.source == id && Fold(last.branch) == branch then r + [last.target] else r
  }

  /** An edge that is followed on a branch although the documented rule leaves it out. */
  predicate Undocumented(e: Edge, id: string, branch: string) {
    e.source == id && if branch == "" then Fold(e.branch) != "" else Fold(e.branch) == ""
  }

  lemma {:induction false} DocumentedLength(edges: seq<Edge>, id: string, branch: string)
    ensures |WithBranch(edges, id, branch)| <= |Followed(edges, id, branch)|
    ensures |WithBranch(edges, id, branch)| == |Followed(edges, id, branch)| <==>
            forall e | e in edges :: !Undocumented(e, id, branch)
    ensures |WithBranch(edges, id, branch)| == |Followed(edges, id, branch)| ==>
              WithBranch(edges, id, branch) == Followed(edges, id, branch)
  {
    if edges != [] {
      var front, last := edges[..|edges| - 1], edges[|edges| - 1];
      assert edges == front + [last];
      DocumentedLength(front, id, branch);
      assert last in edges && forall e | e in front :: e in edges;
    }
  }

  /** A step keeps to the documented rule exactly if none of its edges is against it: for a step that is no
      condition, which follows all its edges, one with a branch; for a condition, on both of its results,
      one without. */
  lemma DocumentedRuleIff(edges: seq<Edge>, id: string, branch: string)
    ensures Followed(edges, id, branch) == WithBranch(edges, id, branch) <==>
            forall e | e in edges :: !Undocumented(e, id, branch)
  {
    DocumentedLength(edges, id, branch);
  }

  /** nextNodeIDs */
  method NextNodeIDs(definition: Definition, id: string, branch: string) returns (result: seq<string>)
    ensures result == Followed(definition.edges, id, branch)
  {
    var edges := definition.edges;
    result := [];
    for i := 0 to |edges|
      invariant result == Followed(edges[..i], id, branch)
    {
      assert edges[..i + 1][..i] == edges[..i];
      var edge := edges[i];
      if edge.source != id {
        continue;
      }
      var edgeBranch := Fold(edge.branch);
      if branch != "" && edgeBranch != "" && edgeBranch != branch {
        continue;
      }
      result := result + [edge.target];
    }
    assert edges[..|edges|] == edges;
  }

  /** validateNode */
  predicate ValidNode(kind: Kind) {
    match kind
    case Trigger => true
    case Notification(config) =>
      && config.Some?
      && Channels.Strict(config.value.channels).Some?
      && |Channels.Strict(config.value.channels).value| == 1
      && (TrimSpace(config.value.template.text) != "" ==> config.value.template.parsed.Some?)
    case Delay(config) => config.Some? && config.value.duration.Some?
    case Condition(config) =>
      && config.Some?
      && TrimSpace(config.value.field) != ""
      && Fold(config.value.operator) in OPERATORS
    case Unknown(_) => false
  }
}
