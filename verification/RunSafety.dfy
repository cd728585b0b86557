/** What holds in every state of every run: the rows stay consistent and count attempts, and jobs
    only ever name steps that the run can reach. */
module RunSafety {
  import opened Wrappers
  import opened Text
  import opened Definitions
  import opened Runtime
  import opened Runs
  import Validator
  import Conditions
  import Graphs

  // ----- Rows -----

  ghost predicate RowOk(row: StepRow) {
    && row.attempts >= 1
    && (row.completedAt.Some? <==> row.status == Completed)
    && (row.failedAt.Some? <==> row.status == Failed)
  }

  ghost predicate ExecutionOk(x: Execution) {
    && (x.completedAt.Some? <==> x.status == Completed)
    && (x.failedAt.Some? <==> x.status == Failed)
    && (x.currentStep.None? <==> x.status == Completed)
  }

  ghost predicate RowsOk(w: World) {
    && ExecutionOk(w.execution)
    && forall id | id in w.steps :: RowOk(w.steps[id])
  }

  lemma CarryKeepsRows(s: Settings, w: World, id: string, plan: Plan, env: Env)
    requires RowsOk(w) && id in w.steps && (plan.Schedule? ==> plan.later != [])
    ensures RowsOk(Carry(s, w, id, plan, env).0)
  {
  }

  lemma ProcessKeepsRows(s: Settings, w: World, stepId: string, env: Env)
    requires RowsOk(w)
    ensures RowsOk(Process(s, w, stepId, env).0)
  {
    if WritesRow(s, stepId, env) {
      var id := TrimSpace(stepId);
      var w1 := w.(steps := w.steps[id := Started(w.steps, id)]);
      if StartExecution !in env.faults {
        var w2 := w1.(execution := Execution(Running, Some(id), None, None));
        CarryKeepsRows(s, w2, id, Decide(s, s.definition.value, NodeOf(s, stepId, env).value, env), env);
      }
    }
  }

  function AttemptsOf(w: World, id: string): nat {
    if id in w.steps then w.steps[id].attempts else 0
  }

  function NoticesOf(notices: seq<Notice>, id: string): nat {
    if notices == [] then 0
    else NoticesOf(notices[..|notices| - 1], id) + if notices[|notices| - 1].stepId == id then 1 else 0
  }

  /** Does this delivery write the row of step `id`? */
  predicate Writes(s: Settings, w: World, e: Event, id: string)
    requires e.index < |w.pending|
  {
    var stepId := w.pending[e.index].stepId;
    TrimSpace(stepId) == id && WritesRow(s, stepId, e.env)
  }

  function WritesDuring(s: Settings, w: World, events: seq<Event>, id: string): nat
    requires IsRun(s, w, events)
    decreases |events|
  {
    if events == [] then 0
    else (if Writes(s, w, events[0], id) then 1 else 0) + WritesDuring(s, Attempt(s, w, events[0]), events[1..], id)
  }

  lemma NoticesStep(before: seq<Notice>, after: seq<Notice>, id: string)
    requires before <= after && |after| <= |before| + 1
    ensures NoticesOf(after, id) == NoticesOf(before, id) +
            if |after| > |before| && after[|before|].stepId == id then 1 else 0
  {
    if |after| > |before| {
      assert after[..|after| - 1] == before;
    } else {
      assert after == before;
    }
  }

  /** One delivery, seen from one step: its attempts grow exactly when its row is written, and its
      notification jobs grow at most then. */
  lemma AttemptCounts(s: Settings, w: World, e: Event, id: string)
    requires e.index < |w.pending|
    ensures AttemptsOf(Attempt(s, w, e), id) == AttemptsOf(w, id) + if Writes(s, w, e, id) then 1 else 0
    ensures NoticesOf(w.notices, id) <= NoticesOf(Attempt(s, w, e).notices, id)
    ensures NoticesOf(Attempt(s, w, e).notices, id) <= NoticesOf(w.notices, id) + if Writes(s, w, e, id) then 1 else 0
  {
    var rest, stepId := Without(w, e.index), w.pending[e.index].stepId;
    ProcessRows(s, rest, stepId, e.env);
    ProcessNotices(s, rest, stepId, e.env);
    NoticesStep(w.notices, Process(s, rest, stepId, e.env).0.notices, id);
  }

  /** Main result on records. In every reachable state, after any failures: a row has a completion
      time exactly when it is completed and a failure time exactly when it has failed, the execution
      likewise, and it has no current step exactly when it is completed; each step's attempts are the
      deliveries that wrote its row; and no step has had more notification jobs than attempts. */
  lemma {:induction false} RecordsStayConsistent(s: Settings, w: World, events: seq<Event>, id: string)
    requires RowsOk(w) && IsRun(s, w, events)
    requires NoticesOf(w.notices, id) <= AttemptsOf(w, id)
    ensures RowsOk(After(s, w, events))
    ensures AttemptsOf(After(s, w, events), id) == AttemptsOf(w, id) + WritesDuring(s, w, events, id)
    ensures NoticesOf(After(s, w, events).notices, id) <= AttemptsOf(After(s, w, events), id)
    decreases |events|
  {
    if events != [] {
      var e := events[0];
      AttemptCounts(s, w, e, id);
      ProcessKeepsRows(s, Without(w, e.index), w.pending[e.index].stepId, e.env);
      RecordsStayConsistent(s, Attempt(s, w, e), events[1..], id);
    }
  }

  /** The premises hold at the start of every run of a validated definition. */
  lemma TriggeredIsConsistent(s: Settings, id: string)
    requires s.definition.Some? && Validator.WellFormed(s.definition.value)
    ensures RowsOk(Triggered(s)) && NoticesOf(Triggered(s).notices, id) <= AttemptsOf(Triggered(s), id)
  {
    FirstStepExists(s.definition.value);
  }

  // ----- Reachability -----

  /** A chain of hand-overs from the first step: each entry is on the route of the one before. */
  ghost predicate IsChain(s: Settings, chain: seq<string>) {
    && chain != [] && First(s) == Some(chain[0])
    && forall i, j | 0 <= i && j == i + 1 < |chain| :: chain[j] in Route(s, chain[i])
  }

  ghost predicate Reachable(s: Settings, stepId: string) {
    exists chain :: IsChain(s, chain) && chain[|chain| - 1] == stepId
  }

  lemma ReachableStep(s: Settings, from: string, next: string)
    requires Reachable(s, from) && next in Route(s, from)
    ensures Reachable(s, next)
  {
    var chain :| IsChain(s, chain) && chain[|chain| - 1] == from;
    var longer := chain + [next];
    forall i, j | 0 <= i && j == i + 1 < |longer|
      ensures longer[j] in Route(s, longer[i])
    {
      if j < |chain| {
        assert chain[j] in Route(s, chain[i]);
      }
    }
    assert IsChain(s, longer) && longer[|longer| - 1] == next;
  }

  ghost predicate AllReachable(s: Settings, pending: seq<Task>) {
    forall t | t in pending :: Reachable(s, t.stepId)
  }

  lemma AttemptStaysReachable(s: Settings, w: World, e: Event)
    requires e.index < |w.pending| && AllReachable(s, w.pending)
    ensures AllReachable(s, Attempt(s, w, e).pending)
  {
    var i, delay, again := AttemptQueue(s, w, e);
    var task, route := w.pending[e.index], Route(s, w.pending[e.index].stepId);
    assert task in w.pending && Reachable(s, task.stepId);
    RouteReachable(s, task.stepId, i, delay);
    PartsReachable(s, Without(w, e.index).pending, NewTasks(s, route[..i], delay), again);
  }

  lemma RouteReachable(s: Settings, from: string, i: nat, delay: int)
    requires Reachable(s, from) && i <= |Route(s, from)|
    ensures AllReachable(s, NewTasks(s, Route(s, from)[..i], delay))
  {
    forall t | t in NewTasks(s, Route(s, from)[..i], delay)
      ensures Reachable(s, t.stepId)
    {
      ReachableStep(s, from, t.stepId);
    }
  }

  lemma PartsReachable(s: Settings, rest: seq<Task>, added: seq<Task>, again: seq<Task>)
    requires AllReachable(s, rest) && AllReachable(s, added) && AllReachable(s, again)
    ensures AllReachable(s, rest + added) && AllReachable(s, rest + added + again)
  {
  }

  /** Main result on jobs: every job that is ever in the queue names a step that branch-allowed
      edges lead to from the first step. */
  lemma {:induction false} JobsStayReachable(s: Settings, w: World, events: seq<Event>)
    requires AllReachable(s, w.pending) && IsRun(s, w, events)
    ensures AllReachable(s, After(s, w, events).pending)
    decreases |events|
  {
    if events != [] {
      AttemptStaysReachable(s, w, events[0]);
      JobsStayReachable(s, Attempt(s, w, events[0]), events[1..]);
    }
  }

  lemma TriggeredIsReachable(s: Settings)
    ensures AllReachable(s, Triggered(s).pending)
  {
    if First(s).Some? {
      assert IsChain(s, [First(s).value]);
    }
  }

  lemma RouteTarget(s: Settings, from: string, next: string) returns (e: Edge)
    requires s.definition.Some? && next in Route(s, from)
    ensures e in s.definition.value.edges && e.target == next
  {
    var branch := RouteIsFollowed(s, from);
    assert next in Followed(s.definition.value.edges, TrimSpace(from), branch);
    e :| e in s.definition.value.edges && e.target == next;
  }

  /** A reachable step is a node of the definition, up to spaces around its id. */
  lemma ReachableIsNode(s: Settings, stepId: string) returns (node: Node)
    requires s.definition.Some? && Validator.WellFormed(s.definition.value)
    requires Reachable(s, stepId)
    ensures node in s.definition.value.nodes && TrimSpace(node.id) == TrimSpace(stepId) != ""
  {
    var d := s.definition.value;
    var chain :| IsChain(s, chain) && chain[|chain| - 1] == stepId;
    if |chain| == 1 {
      node :| node in d.nodes && node.id == stepId;
      var i :| 0 <= i < |d.nodes| && d.nodes[i] == node;
    } else {
      var from := chain[|chain| - 2];
      var e := RouteTarget(s, from, stepId);
      assert Validator.HasId(d.nodes, TrimSpace(e.target));
      node :| node in d.nodes && TrimSpace(node.id) == TrimSpace(e.target);
    }
  }

  /** The decision at a node that the validator accepts never is that the workflow is invalid. */
  lemma DecideAcceptsValidNodes(s: Settings, d: Definition, node: Node, env: Env)
    requires ValidNode(node.kind)
    ensures var plan := Decide(s, d, node, env);
            plan.Fail? ==> plan.error != InvalidWorkflow && plan.error != InvalidWorkflowEvent
  {
    match node.kind
    case Notification(config) => NoticeErrors(s, node.id, config, env);
    case Condition(config) =>
      if s.payload.Some? {
        Conditions.EvaluableIffAllowed(s.payload.value, config.value);
      }
    case _ =>
  }

  lemma NoticeErrors(s: Settings, id: string, config: Option<NotificationConfig>, env: Env)
    requires config.Some?
    ensures var r := NoticeFor(s, id, config, env);
            r.Err? ==> r.error != InvalidWorkflow && r.error != InvalidWorkflowEvent
  {
  }

  predicate GivenUp(outcome: Outcome) {
    outcome == Failure(InvalidWorkflow) || outcome == Failure(InvalidWorkflowEvent)
  }

  /** Main result on validation. A job for a node of a validated definition is given up as invalid
      exactly when its two lookups succeed and the stored id of the node has spaces around it: the
      validator compares trimmed ids, while the runtime looks the trimmed id up among the stored
      ones. For definitions without such ids no job is ever given up. */
  lemma GivenUpIffUntrimmed(s: Settings, w: World, stepId: string, env: Env, node: Node)
    requires s.definition.Some? && Validator.WellFormed(s.definition.value)
    requires node in s.definition.value.nodes && TrimSpace(node.id) == TrimSpace(stepId)
    ensures GivenUp(Process(s, w, stepId, env).1) <==>
            GetExecution !in env.faults && GetWorkflow !in env.faults && !Trimmed(node.id)
  {
    var d, id := s.definition.value, TrimSpace(stepId);
    var i :| 0 <= i < |d.nodes| && d.nodes[i] == node;
    assert id != "";
    TrimmedIff(node.id);
    TrimIdempotent(stepId);
    var found := FindNode(d.nodes, id);
    if found.Some? {
      var j :| 0 <= j < |d.nodes| && d.nodes[j] == found.value;
      assert TrimSpace(d.nodes[j].id) == TrimSpace(d.nodes[i].id);
      assert i == j;
      DecideAcceptsValidNodes(s, d, found.value, env);
      if WritesRow(s, stepId, env) && StartExecution !in env.faults {
        CarryOutcome(s, w, id, found.value, env);
      }
    }
  }

  lemma CarryOutcome(s: Settings, w: World, id: string, node: Node, env: Env)
    requires s.definition.Some? && ValidNode(node.kind)
    ensures var w1 := w.(steps := w.steps[id := Started(w.steps, id)],
                         execution := Execution(Running, Some(id), None, None));
            !GivenUp(Carry(s, w1, id, Decide(s, s.definition.value, node, env), env).1)
  {
    DecideAcceptsValidNodes(s, s.definition.value, node, env);
  }

  /** Hence: with trimmed ids, no delivery in any run of a validated definition is given up. */
  lemma NoJobIsGivenUp(s: Settings, events: seq<Event>, e: Event)
    requires s.definition.Some? && Validator.WellFormed(s.definition.value)
    requires forall n | n in s.definition.value.nodes :: Trimmed(n.id)
    requires IsRun(s, Triggered(s), events)
    requires e.index < |After(s, Triggered(s), events).pending|
    ensures !GivenUp(Deliver(s, After(s, Triggered(s), events), e).1)
  {
    var w := After(s, Triggered(s), events);
    TriggeredIsReachable(s);
    JobsStayReachable(s, Triggered(s), events);
    var stepId := w.pending[e.index].stepId;
    assert w.pending[e.index] in w.pending && Reachable(s, stepId);
    var node := ReachableIsNode(s, stepId);
    GivenUpIffUntrimmed(s, Without(w, e.index), stepId, e.env, node);
  }

  lemma TrimmedLiterals()
    ensures TrimSpace("a") == "a" && TrimSpace("b") == "b" && TrimSpace(" b") == "b" && TrimSpace("signup") == "signup"
  {
    TrimmedIff("signup");
    assert " b"[1..] == "b";
  }

  lemma OneEdgeRoute(s: Settings, a: Node, edge: Edge)
    requires s.definition.Some? && s.definition.value.edges == [edge]
    requires FindNode(s.definition.value.nodes, a.id) == Some(a)
    requires a.kind == Trigger && TrimSpace(a.id) == a.id == edge.source
    ensures Route(s, a.id) == [edge.target]
  {
    assert Followed([edge][..0], a.id, "") == [];
    assert [] + [edge.target] == [edge.target];
  }

  /** A definition with an untrimmed id can validate, and then the job for that node is given up. */
  lemma UntrimmedIdIsGivenUp(env: Env)
    requires env.faults == {}
    ensures var d := Definition("signup", [Node("a", Trigger), Node(" b", Trigger)], [Edge("a", " b", "")]);
            var s := Settings(Some(d), None, Some(map[]), true, 5);
            && Validator.WellFormed(d)
            && Route(s, "a") == [" b"]
            && forall w :: GivenUp(Process(s, w, " b", env).1)
  {
    var a, b := Node("a", Trigger), Node(" b", Trigger);
    var edge := Edge("a", " b", "");
    var d := Definition("signup", [a, b], [edge]);
    var s := Settings(Some(d), None, Some(map[]), true, 5);
    TrimmedLiterals();
    TwoNodesValidate(d.nodes, a, b, edge);
    OneEdgeRoute(s, a, edge);
    forall w
      ensures GivenUp(Process(s, w, " b", env).1)
    {
      GivenUpIffUntrimmed(s, w, " b", env, b);
    }
  }

  lemma TwoNodesValidate(nodes: seq<Node>, a: Node, b: Node, edge: Edge)
    requires nodes == [a, b] || nodes == [b, a]
    requires a.kind == Trigger && b.kind == Trigger
    requires TrimSpace(a.id) == TrimSpace(edge.source) != ""
    requires TrimSpace(b.id) == TrimSpace(edge.target) != ""
    requires TrimSpace(a.id) != TrimSpace(b.id)
    ensures Validator.NodesOk(nodes) && Validator.EdgesOk(nodes, [edge])
    ensures !Graphs.Cyclic(Validator.Adjacency([edge]))
    ensures Graphs.Linked(Validator.Adjacency([edge]), TrimSpace(a.id), TrimSpace(b.id))
  {
    TwoNodesOk(nodes[0], nodes[1]);
    OneEdgeGraph(edge);
    OneEdgeOk(nodes, a, b, edge);
  }

  lemma TwoNodesOk(a: Node, b: Node)
    requires a.kind == Trigger && b.kind == Trigger
    requires TrimSpace(a.id) != "" && TrimSpace(b.id) != "" && TrimSpace(a.id) != TrimSpace(b.id)
    ensures Validator.NodesOk([a, b])
  {
  }

  lemma OneEdgeOk(nodes: seq<Node>, a: Node, b: Node, edge: Edge)
    requires a in nodes && b in nodes
    requires TrimSpace(a.id) == TrimSpace(edge.source) != ""
    requires TrimSpace(b.id) == TrimSpace(edge.target) != ""
    ensures Validator.EdgesOk(nodes, [edge])
  {
    assert Validator.HasId(nodes, TrimSpace(a.id)) && Validator.HasId(nodes, TrimSpace(b.id));
  }

  lemma OneEdgeGraph(edge: Edge)
    requires TrimSpace(edge.source) != TrimSpace(edge.target)
    ensures !Graphs.Cyclic(Validator.Adjacency([edge]))
    ensures Graphs.Linked(Validator.Adjacency([edge]), TrimSpace(edge.source), TrimSpace(edge.target))
  {
    var source, target := TrimSpace(edge.source), TrimSpace(edge.target);
    assert Validator.Adjacency([edge][..0]) == map[];
    assert [] + [target] == [target];
    assert Validator.Adjacency([edge]) == map[source := [target]];
    Graphs.RankedIsAcyclic(Validator.Adjacency([edge]), map[source := 1, target := 0]);
  }

  // ----- Edges -----

  /** No edge names its ends with spaces around them. */
  ghost predicate EdgesTrimmed(edges: seq<Edge>) {
    forall e | e in edges :: Trimmed(e.source) && Trimmed(e.target)
  }

  lemma {:induction false} FollowedLength(edges: seq<Edge>, u: string)
    requires TrimSpace(u) == u
    ensures |Followed(edges, u, "")| <= |Validator.Targets(edges, u)|
    ensures (exists e :: e in edges && e.source != u && TrimSpace(e.source) == u) ==>
              |Followed(edges, u, "")| < |Validator.Targets(edges, u)|
    ensures forall t | t in Validator.Targets(edges, u) :: TrimSpace(t) == t
  {
    if edges != [] {
      var front, last := edges[..|edges| - 1], edges[|edges| - 1];
      assert edges == front + [last];
      FollowedLength(front, u);
      TrimIdempotent(last.target);
    }
  }

  lemma {:induction false} FollowedIsTargets(edges: seq<Edge>, u: string)
    requires TrimSpace(u) == u && EdgesTrimmed(edges)
    ensures Followed(edges, u, "") == Validator.Targets(edges, u)
  {
    if edges != [] {
      var front, last := edges[..|edges| - 1], edges[|edges| - 1];
      assert edges == front + [last] && last in edges;
      TrimmedIff(last.source);
      TrimmedIff(last.target);
      FollowedIsTargets(front, u);
    }
  }

  /** Out of every node the runtime follows what the validator has checked. */
  ghost predicate FollowsValidated(edges: seq<Edge>) {
    forall u | TrimSpace(u) == u :: Followed(edges, u, "") == Validator.Targets(edges, u)
  }

  /** That is so exactly if no edge names its ends with spaces around them; otherwise the runtime loses
      or renames some edges. */
  lemma FollowsValidatedIff(edges: seq<Edge>)
    ensures FollowsValidated(edges) <==> EdgesTrimmed(edges)
  {
    if EdgesTrimmed(edges) {
      forall u | TrimSpace(u) == u
        ensures Followed(edges, u, "") == Validator.Targets(edges, u)
      {
        FollowedIsTargets(edges, u);
      }
    }
    if FollowsValidated(edges) {
      forall e | e in edges
        ensures Trimmed(e.source) && Trimmed(e.target)
      {
        TrimIdempotent(e.source);
        assert Followed(edges, TrimSpace(e.source), "") == Validator.Targets(edges, TrimSpace(e.source));
        KeptEdge(edges, e);
      }
    }
  }

  lemma KeptEdge(edges: seq<Edge>, e: Edge)
    requires e in edges && Followed(edges, TrimSpace(e.source), "") == Validator.Targets(edges, TrimSpace(e.source))
    ensures Trimmed(e.source) && Trimmed(e.target)
  {
    var u := TrimSpace(e.source);
    TrimIdempotent(e.source);
    TrimmedIff(e.source);
    TrimmedIff(e.target);
    FollowedLength(edges, u);
    assert e.source == u;
    assert Follows(e, u, "") && e.target in Followed(edges, u, "");
  }

  /** Where no edge has such ends, the first step is a node that no edge of the validated graph enters,
      and a step that is no condition hands on to all its successors in that graph. */
  lemma TrimmedEdgesAreKept(s: Settings)
    requires s.definition.Some? && Validator.WellFormed(s.definition.value) && EdgesTrimmed(s.definition.value.edges)
    ensures First(s).Some?
    ensures forall u :: !Graphs.Linked(Validator.Adjacency(s.definition.value.edges), u, First(s).value)
    ensures forall n | n in s.definition.value.nodes && Trimmed(n.id) && !n.kind.Condition? ::
              Route(s, n.id) == Graphs.Successors(Validator.Adjacency(s.definition.value.edges), n.id)
  {
    var d := s.definition.value;
    FirstStepExists(d);
    forall u
      ensures !Graphs.Linked(Validator.Adjacency(d.edges), u, First(s).value)
    {
      Validator.AdjacencyEdges(d.edges, u, First(s).value);
      if e :| e in d.edges && Validator.Links(e, u, First(s).value) {
        TrimmedIff(e.target);
        assert false;
      }
    }
    forall n | n in d.nodes && Trimmed(n.id) && !n.kind.Condition?
      ensures Route(s, n.id) == Graphs.Successors(Validator.Adjacency(d.edges), n.id)
    {
      TrimmedIff(n.id);
      FoundNode(d, n);
      FollowedIsTargets(d.edges, n.id);
      Validator.AdjacencyTargets(d.edges, n.id);
    }
  }

  lemma FoundNode(d: Definition, node: Node)
    requires Validator.WellFormed(d) && node in d.nodes && Trimmed(node.id)
    ensures FindNode(d.nodes, TrimSpace(node.id)) == Some(node) && ValidNode(node.kind) && TrimSpace(node.id) != ""
  {
    TrimmedIff(node.id);
    var i :| 0 <= i < |d.nodes| && d.nodes[i] == node;
    var found := FindNode(d.nodes, node.id);
    var j :| 0 <= j < |d.nodes| && d.nodes[j] == found.value;
    assert TrimSpace(d.nodes[j].id) == TrimSpace(d.nodes[i].id);
  }

  lemma EdgeLiterals()
    ensures TrimSpace("b ") == "b" && TrimSpace("a ") == "a"
  {
    assert "b "[..1] == "b" && "a "[..1] == "a";
    TrimmedIff("a");
    TrimmedIff("b");
  }

  /** A definition with trimmed ids that validates with an edge from a to b, and starts at b all the same. */
  lemma UntrimmedTargetIsMissed()
    ensures var d := Definition("signup", [Node("b", Trigger), Node("a", Trigger)], [Edge("a", "b ", "")]);
            && Validator.WellFormed(d) && Graphs.Linked(Validator.Adjacency(d.edges), "a", "b")
            && FirstStep(d.nodes, d.edges) == Some("b")
  {
    var a, b, edge := Node("a", Trigger), Node("b", Trigger), Edge("a", "b ", "");
    TrimmedLiterals();
    EdgeLiterals();
    TwoNodesValidate([b, a], a, b, edge);
    assert CountRawTargets([edge][..0], "b") == 0;
  }

  /** Another one, in which b is never reached. */
  lemma UntrimmedSourceIsDropped()
    ensures var d := Definition("signup", [Node("a", Trigger), Node("b", Trigger)], [Edge("a ", "b", "")]);
            && Validator.WellFormed(d) && Graphs.Linked(Validator.Adjacency(d.edges), "a", "b")
            && FirstStep(d.nodes, d.edges) == Some("a")
            && Route(Settings(Some(d), None, Some(map[]), true, 5), "a") == []
  {
    var a, b, edge := Node("a", Trigger), Node("b", Trigger), Edge("a ", "b", "");
    TrimmedLiterals();
    EdgeLiterals();
    TwoNodesValidate([a, b], a, b, edge);
    assert CountRawTargets([edge][..0], "a") == 0;
    assert Followed([edge][..0], "a", "") == [];
  }

  /** A trigger that hands on along an edge with a branch, against the documented rule. */
  lemma LabelledEdgeIsFollowed()
    ensures var d := Definition("signup", [Node("a", Trigger), Node("b", Trigger)], [Edge("a", "b", "true")]);
            && Validator.WellFormed(d)
            && Route(Settings(Some(d), None, Some(map[]), true, 5), "a") == ["b"]
            && WithBranch(d.edges, "a", "") == []
  {
    var a, b, edge := Node("a", Trigger), Node("b", Trigger), Edge("a", "b", "true");
    var s := Settings(Some(Definition("signup", [a, b], [edge])), None, Some(map[]), true, 5);
    TrimmedLiterals();
    TwoNodesValidate([a, b], a, b, edge);
    OneEdgeRoute(s, a, edge);
    LabelLiteral();
    OneLabelledEdge(edge);
  }

  lemma LabelLiteral()
    ensures Fold("true") == "true"
  {
    TrimmedIff("true");
    assert ToLower("true") == "true";
  }

  lemma OneLabelledEdge(edge: Edge)
    requires Fold(edge.branch) != ""
    ensures WithBranch([edge], edge.source, "") == []
  {
    assert WithBranch([edge][..0], edge.source, "") == [];
  }

  /** A condition that hands on along an edge without a branch whatever its result, against the documented
      rule. */
  lemma UnlabelledEdgeIsFollowed(result: bool)
    ensures var edges := [Edge("a", "b", "")];
            Followed(edges, "a", BranchName(result)) == ["b"] && WithBranch(edges, "a", BranchName(result)) == []
  {
    var edge := Edge("a", "b", "");
    assert Fold("") == "";
    assert [edge][..0] == [] && [] + ["b"] == ["b"];
  }
}
