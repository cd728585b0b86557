/** Whole runs: TriggerEvent starts an execution, and the queue then hands its jobs out one by one,
    in any order, each at most `maxRetry` times more after a failure that is worth a retry. */
module Runs {
  import opened Wrappers
  import opened Text
  import opened Definitions
  import opened Runtime
  import Channels
  import Validator
  import Graphs
  import Conditions

  // ----- The start of a run -----

  function CountRawTargets(edges: seq<Edge>, id: string): (r: nat)
    ensures r == 0 <==> forall e | e in edges :: e.target != id
  {
    if edges == [] then 0
    else
      var last := edges[|edges| - 1];
      assert edges == edges[..|edges| - 1] + [last];
      CountRawTargets(edges[..|edges| - 1], id) + if last.target == id then 1 else 0
  }

  /** The id of the first node that no edge targets; ids are compared as they are stored. */
  function FirstStep(nodes: seq<Node>, edges: seq<Edge>): (r: Option<string>)
    ensures r.Some? ==> (exists n :: n in nodes && n.id == r.value) && forall e | e in edges :: e.target != r.value
    ensures r.None? ==> forall n | n in nodes :: exists e :: e in edges && e.target == n.id
  {
    if nodes == [] then None
    else if CountRawTargets(edges, nodes[0].id) == 0 then
      assert nodes[0] in nodes;
      Some(nodes[0].id)
    else FirstStep(nodes[1..], edges)
  }

  ghost predicate Counts(incoming: map<string, nat>, edges: seq<Edge>) {
    forall id | id in incoming :: incoming[id] == CountRawTargets(edges, id)
  }

  lemma CountsNext(incoming: map<string, nat>, edges: seq<Edge>, i: nat)
    requires i < |edges| && Counts(incoming, edges[..i])
    ensures var target := edges[i].target;
            Counts(if target in incoming then incoming[target := incoming[target] + 1] else incoming, edges[..i + 1])
  {
    assert edges[..i + 1][..i] == edges[..i];
  }

  /** The first two loops of firstStepID: how many edges enter each node. */
  method CountIncoming(d: Definition) returns (incoming: map<string, nat>)
    ensures forall n | n in d.nodes :: n.id in incoming
    ensures forall id | id in incoming :: incoming[id] == CountRawTargets(d.edges, id)
  {
    incoming := map[];
    for i := 0 to |d.nodes|
      invariant forall j | 0 <= j < i :: d.nodes[j].id in incoming
      invariant forall id | id in incoming :: incoming[id] == 0
    {
      incoming := incoming[d.nodes[i].id := 0];
    }
    for i := 0 to |d.edges|
      invariant forall n | n in d.nodes :: n.id in incoming
      invariant Counts(incoming, d.edges[..i])
    {
      var target := d.edges[i].target;
      CountsNext(incoming, d.edges, i);
      if target in incoming {
        incoming := incoming[target := incoming[target] + 1];
      }
    }
    assert d.edges[..|d.edges|] == d.edges;
  }

  ghost predicate Entered(edges: seq<Edge>, id: string) {
    exists e :: e in edges && e.target == id
  }

  /** firstStepID on a definition that decodes. */
  method FirstStepID(d: Definition) returns (first: Option<string>)
    ensures first == FirstStep(d.nodes, d.edges)
    ensures first.None? ==> forall i | 0 <= i < |d.nodes| :: Entered(d.edges, d.nodes[i].id)
    ensures first.Some? ==> exists i ::
      && 0 <= i < |d.nodes| && first == Some(d.nodes[i].id) && !Entered(d.edges, d.nodes[i].id)
      && forall j | 0 <= j < i :: Entered(d.edges, d.nodes[j].id)
  {
    var incoming := CountIncoming(d);
    for i := 0 to |d.nodes|
      invariant FirstStep(d.nodes, d.edges) == FirstStep(d.nodes[i..], d.edges)
      invariant forall j | 0 <= j < i :: Entered(d.edges, d.nodes[j].id)
    {
      assert d.nodes[i..][0] == d.nodes[i] && d.nodes[i..][1..] == d.nodes[i + 1..];
      if incoming[d.nodes[i].id] == 0 {
        return Some(d.nodes[i].id);
      }
    }
    return None;
  }

  function First(s: Settings): Option<string> {
    if s.definition.None? then None else FirstStep(s.definition.value.nodes, s.definition.value.edges)
  }

  /** The rows and the queue that TriggerEvent leaves for one workflow. */
  function Triggered(s: Settings): World {
    World(Execution(Queued, First(s), None, None), map[],
          if s.hasProducer && First(s).Some? then [NewTask(s, First(s).value, 0)] else [], [])
  }

  /** An event as it comes in. */
  datatype Input = Input(event: string, subscriberId: string, data: Json)

  /** A stored definition may be absent ("{}" or null) or may not decode. */
  datatype Stored = Absent | Undecodable | Defined(definition: Definition)

  /** What TriggerEvent meets for one active workflow: its definition, and whether the two writes fail. */
  datatype Workflow = Workflow(stored: Stored, createFails: bool, enqueueFails: bool)

  /** The settings of a run: the payload has the event, the subscriber and the data. */
  function SettingsFor(input: Input, subscriber: Option<Uuid>, stored: Stored, hasProducer: bool, maxRetry: nat)
    : Settings
  {
    Settings(if stored.Defined? then Some(stored.definition) else None, subscriber,
             Some(map["event" := Scalar(TrimSpace(input.event)),
                      "subscriber_id" := Scalar(TrimSpace(input.subscriberId)),
                      "data" := input.data]),
             hasProducer, maxRetry)
  }

  /** Whether one workflow fails, and how. */
  function Problem(w: Workflow, s: Settings): Option<Error> {
    if w.stored.Undecodable? then Some(BadDefinition)
    else if w.createFails then Some(StoreError)
    else if Triggered(s).pending != [] && w.enqueueFails then Some(QueueError)
    else None
  }

  /** The body of TriggerEvent's loop: the execution that one workflow gets, if any, and the error. */
  method Activate(w: Workflow, s: Settings) returns (created: Option<World>, error: Option<Error>)
    requires s.definition == if w.stored.Defined? then Some(w.stored.definition) else None
    ensures error == Problem(w, s)
    ensures error == Some(BadDefinition) <==> w.stored.Undecodable?
    ensures error == Some(StoreError) <==> !w.stored.Undecodable? && w.createFails
    ensures error == Some(QueueError) <==>
      && w.stored.Defined? && !w.createFails && w.enqueueFails && s.hasProducer
      && exists n :: n in w.stored.definition.nodes && forall e | e in w.stored.definition.edges :: e.target != n.id
    ensures error.None? ==> created == Some(Triggered(s))
    ensures error.None? ==>
      var first := if w.stored.Defined? then FirstStep(w.stored.definition.nodes, w.stored.definition.edges) else None;
      && created.value.execution == Execution(Queued, first, None, None)
      && created.value.pending == if s.hasProducer && first.Some? then [Task(first.value, 0, s.maxRetry + 1)] else []
    ensures error.Some? ==> created == if error.value == QueueError then Some(Triggered(s).(pending := [])) else None
  {
    var nextStepID := None;
    if w.stored.Undecodable? {
      return None, Some(BadDefinition);
    }
    if w.stored.Defined? {
      nextStepID := FirstStepID(w.stored.definition);
    }
    if w.createFails {
      return None, Some(StoreError);
    }
    var execution := World(Execution(Queued, nextStepID, None, None), map[], [], []);
    if s.hasProducer && nextStepID.Some? {
      if w.enqueueFails {
        return Some(execution), Some(QueueError);
      }
      execution := execution.(pending := [NewTask(s, nextStepID.value, 0)]);
    }
    return Some(execution), None;
  }

  /** The event is blank, or its subscriber is given and does not parse. */
  predicate Refused(input: Input, parse: string -> Option<Uuid>) {
    TrimSpace(input.event) == "" ||
    (TrimSpace(input.subscriberId) != "" && parse(TrimSpace(input.subscriberId)).None?)
  }

  function RunsFor(input: Input, subscriber: Option<Uuid>, ws: seq<Workflow>, hasProducer: bool, maxRetry: nat)
    : (runs: seq<Settings>)
    ensures |runs| == |ws|
    ensures forall i | 0 <= i < |ws| :: runs[i] == SettingsFor(input, subscriber, ws[i].stored, hasProducer, maxRetry)
  {
    seq(|ws|, i requires 0 <= i < |ws| => SettingsFor(input, subscriber, ws[i].stored, hasProducer, maxRetry))
  }

  /** The runs are started in order up to the first workflow that fails; only that one can be there
      without its first job. */
  ghost predicate Activated(ws: seq<Workflow>, runs: seq<Settings>, error: Option<Error>, created: seq<World>)
    requires |runs| == |ws|
  {
    && |created| <= |ws|
    && (error.None? ==> |created| == |ws|)
    && (forall i | 0 <= i < |created| && Problem(ws[i], runs[i]).None? :: created[i] == Triggered(runs[i]))
    && (error.None? ==> forall i | 0 <= i < |ws| :: Problem(ws[i], runs[i]).None?)
    && (error.Some? ==> exists i :: FailsFirst(ws, runs, i, error, created))
  }

  ghost predicate FailsFirst(ws: seq<Workflow>, runs: seq<Settings>, i: int, error: Option<Error>, created: seq<World>)
    requires |runs| == |ws|
  {
    && 0 <= i < |ws| && Problem(ws[i], runs[i]) == error
    && (forall j | 0 <= j < i :: Problem(ws[j], runs[j]).None?)
    && |created| == (if error == Some(QueueError) then i + 1 else i)
    && (error == Some(QueueError) ==> created[i] == Triggered(runs[i]).(pending := []))
  }

  /** The first `i` workflows have been started. */
  ghost predicate AllStarted(ws: seq<Workflow>, runs: seq<Settings>, i: nat, created: seq<World>)
    requires |runs| == |ws|
  {
    && i <= |ws| && |created| == i
    && forall j | 0 <= j < i :: Problem(ws[j], runs[j]).None? && created[j] == Triggered(runs[j])
  }

  /** The loop of TriggerEvent. */
  method ActivateAll(input: Input, subscriber: Option<Uuid>, ws: seq<Workflow>, hasProducer: bool, maxRetry: nat)
    returns (error: Option<Error>, created: seq<World>)
    ensures Activated(ws, RunsFor(input, subscriber, ws, hasProducer, maxRetry), error, created)
  {
    created := [];
    ghost var runs := RunsFor(input, subscriber, ws, hasProducer, maxRetry);
    for i := 0 to |ws|
      invariant AllStarted(ws, runs, i, created)
    {
      var execution;
      var s := SettingsFor(input, subscriber, ws[i].stored, hasProducer, maxRetry);
      assert s == runs[i];
      execution, error := Activate(ws[i], s);
      if execution.Some? {
        created := created + [execution.value];
      }
      if error.Some? {
        StopsAt(ws, runs, i, error, created);
        return;
      }
    }
    return None, created;
  }

  lemma StopsAt(ws: seq<Workflow>, runs: seq<Settings>, i: nat, error: Option<Error>, created: seq<World>)
    requires |runs| == |ws| && i < |ws| && error.Some? && Problem(ws[i], runs[i]) == error
    requires if error.value == QueueError
             then |created| == i + 1 && created[i] == Triggered(runs[i]).(pending := [])
                  && AllStarted(ws, runs, i, created[..i])
             else AllStarted(ws, runs, i, created)
    ensures Activated(ws, runs, error, created)
  {
    forall j | 0 <= j < i
      ensures Problem(ws[j], runs[j]).None? && created[j] == Triggered(runs[j])
    {
      assert error.value == QueueError ==> created[..i][j] == created[j];
    }
    assert FailsFirst(ws, runs, i, error, created);
  }

  /** TriggerEvent. `workflows` are the active workflows of the event, or None if their query fails. It
      stops at the first workflow that fails, and then it returns no executions; but those created so far
      stay. `created` is what is there afterwards. */
  method TriggerEvent(input: Input, parse: string -> Option<Uuid>, workflows: Option<seq<Workflow>>,
                      hasProducer: bool, maxRetry: nat)
    returns (r: Result<seq<World>, Error>, created: seq<World>)
    ensures Refused(input, parse) ==> r == Err(InvalidWorkflowEvent) && created == []
    ensures !Refused(input, parse) && workflows.None? ==> r == Err(StoreError) && created == []
    ensures !Refused(input, parse) && workflows.Some? ==>
              var raw := TrimSpace(input.subscriberId);
              var subscriber := if raw == "" then None else parse(raw);
              var runs := RunsFor(input, subscriber, workflows.value, hasProducer, maxRetry);
              && (r.Ok? ==> r.value == created)
              && Activated(workflows.value, runs, if r.Ok? then None else Some(r.error), created)
  {
    if TrimSpace(input.event) == "" {
      return Err(InvalidWorkflowEvent), [];
    }
    var subscriber := None;
    var raw := TrimSpace(input.subscriberId);
    if raw != "" {
      var parsed := parse(raw);
      if parsed.None? {
        return Err(InvalidWorkflowEvent), [];
      }
      subscriber := parsed;
    }
    if workflows.None? {
      return Err(StoreError), [];
    }
    var error;
    error, created := ActivateAll(input, subscriber, workflows.value, hasProducer, maxRetry);
    return if error.Some? then Err(error.value) else Ok(created), created;
  }

  /** A validated definition always has a first step. */
  lemma FirstStepExists(d: Definition)
    requires Validator.WellFormed(d)
    ensures FirstStep(d.nodes, d.edges).Some?
  {
    var ids := set n | n in d.nodes :: TrimSpace(n.id);
    assert TrimSpace(d.nodes[0].id) in ids;
    var g := Validator.Adjacency(d.edges);
    var start := Graphs.SourceExists(g, ids);
    var node :| node in d.nodes && TrimSpace(node.id) == start;
    forall e | e in d.edges
      ensures e.target != node.id
    {
      var source := TrimSpace(e.source);
      if e.target == node.id {
        assert Validator.HasId(d.nodes, source) && Validator.Links(e, source, start);
        Validator.AdjacencyEdges(d.edges, source, start);
      }
    }
  }

  // ----- The queue -----

  /** One delivery: which of the pending jobs the queue hands out, and what the attempt meets. */
  datatype Event = Event(index: nat, env: Env)

  predicate Retries(task: Task, outcome: Outcome) {
    && outcome.Failure?
    && outcome.error != InvalidWorkflow && outcome.error != InvalidWorkflowEvent
    && task.left > 1
  }

  function Without(w: World, i: nat): World
    requires i < |w.pending|
  {
    w.(pending := w.pending[..i] + w.pending[i + 1..])
  }

  function Deliver(s: Settings, w: World, e: Event): (World, Outcome)
    requires e.index < |w.pending|
  {
    Process(s, Without(w, e.index), w.pending[e.index].stepId, e.env)
  }

  /** The worker takes a job off the queue and processes it; a failure puts it back with one attempt
      less, unless its attempts are used up or the error says that the job is invalid. */
  function Attempt(s: Settings, w: World, e: Event): World
    requires e.index < |w.pending|
  {
    var task := w.pending[e.index];
    var (w', outcome) := Deliver(s, w, e);
    if Retries(task, outcome) then w'.(pending := w'.pending + [task.(left := task.left - 1)]) else w'
  }

  predicate IsRun(s: Settings, w: World, events: seq<Event>)
    decreases |events|
  {
    events == [] ||
    (events[0].index < |w.pending| && IsRun(s, Attempt(s, w, events[0]), events[1..]))
  }

  function After(s: Settings, w: World, events: seq<Event>): World
    requires IsRun(s, w, events)
    decreases |events|
  {
    if events == [] then w else After(s, Attempt(s, w, events[0]), events[1..])
  }

  // ----- What an attempt hands on -----

  /** The steps that a successful attempt at `stepId` hands on to. */
  function Route(s: Settings, stepId: string): seq<string> {
    var id := TrimSpace(stepId);
    if s.definition.None? || FindNode(s.definition.value.nodes, id).None? then []
    else
      var edges := s.definition.value.edges;
      match FindNode(s.definition.value.nodes, id).value.kind
      case Trigger => Followed(edges, id, "")
      case Delay(config) => Followed(edges, id, "")
      case Notification(config) => Followed(edges, id, "")
      case Condition(config) =>
        if config.Some? && s.payload.Some? && Conditions.Holds(s.payload.value, config.value).Some? then
          Followed(edges, id, BranchName(Conditions.Holds(s.payload.value, config.value).value))
        else []
      case Unknown(_) => []
  }

  /** How long the jobs wait that an attempt at `stepId` hands on: as long as a delay step says, and not at
      all after any other step. */
  function Wait(s: Settings, stepId: string): int {
    var id := TrimSpace(stepId);
    if s.definition.None? || FindNode(s.definition.value.nodes, id).None? then 0
    else
      match FindNode(s.definition.value.nodes, id).value.kind
      case Delay(Some(DelayConfig(Some(duration)))) => duration
      case _ => 0
  }

  /** A route consists of the followed edges of one branch, if of any. */
  lemma RouteIsFollowed(s: Settings, stepId: string) returns (branch: string)
    requires s.definition.Some?
    ensures Route(s, stepId) == [] || Route(s, stepId) == Followed(s.definition.value.edges, TrimSpace(stepId), branch)
  {
    branch := "";
    if Route(s, stepId) != Followed(s.definition.value.edges, TrimSpace(stepId), "") {
      branch := "true";
      if Route(s, stepId) != Followed(s.definition.value.edges, TrimSpace(stepId), "true") {
        branch := "false";
      }
    }
  }

  predicate IsNotification(s: Settings, id: string) {
    && s.definition.Some?
    && FindNode(s.definition.value.nodes, id).Some?
    && FindNode(s.definition.value.nodes, id).value.kind.Notification?
  }

  function Handed(plan: Plan): seq<string>
    requires !plan.Fail?
  {
    if plan.Schedule? then plan.later else plan.next
  }

  function HandedAfter(plan: Plan): int {
    if plan.Schedule? then plan.delay else 0
  }

  lemma DecidedWait(s: Settings, d: Definition, node: Node, stepId: string, env: Env)
    requires s.definition == Some(d) && FindNode(d.nodes, TrimSpace(stepId)) == Some(node)
    requires !Decide(s, d, node, env).Fail? && Handed(Decide(s, d, node, env)) != []
    ensures HandedAfter(Decide(s, d, node, env)) == Wait(s, stepId)
  {
  }

  lemma DecidedRoute(s: Settings, d: Definition, node: Node, stepId: string, env: Env)
    requires s.definition == Some(d) && FindNode(d.nodes, TrimSpace(stepId)) == Some(node)
    requires !Decide(s, d, node, env).Fail?
    ensures Handed(Decide(s, d, node, env)) == Route(s, stepId)
  {
  }

  lemma CarryShape(s: Settings, w: World, id: string, plan: Plan, env: Env) returns (k: nat)
    requires id in w.steps && !plan.Fail? && (plan.Schedule? ==> plan.later != [])
    ensures k <= |Handed(plan)| && forall j: nat | j < k :: EnqueueStep(j) !in env.faults
    ensures var (w', outcome) := Carry(s, w, id, plan, env);
            var next := Handed(plan);
            && w'.pending == w.pending + NewTasks(s, next[..k], HandedAfter(plan))
            && (outcome == Done ==> k == |next|)
            && (outcome == Done ==>
                w'.execution == if next == [] then Execution(Completed, None, Some(env.now), None)
                                else Execution(Queued, Some(next[0]), None, None))
  {
    var next := Handed(plan);
    k := 0;
    if plan.Schedule? || (FinishStepRow !in env.faults && s.hasProducer) {
      k := Accepted(env, |next|);
    }
    assert next[..0] == [];
    assert w.pending + NewTasks(s, [], HandedAfter(plan)) == w.pending;
  }

  /** Whatever fails, an attempt adds fresh jobs for a first part of its route, those whose enqueue calls
      went through, and nothing else; they wait as long as a delay step says. It adds all of them if it
      succeeds; then its row is completed, and the execution is completed if the route is empty and queued
      for the first step of it otherwise. */
  lemma ProcessShape(s: Settings, w: World, stepId: string, env: Env) returns (k: nat, delay: int)
    ensures delay == Wait(s, stepId)
    ensures k <= |Route(s, stepId)| && forall j: nat | j < k :: EnqueueStep(j) !in env.faults
    ensures var (w', outcome) := Process(s, w, stepId, env);
            var route := Route(s, stepId);
            && w'.pending == w.pending + NewTasks(s, route[..k], delay)
            && (outcome == Done ==> k == |route|)
            && (outcome == Done ==>
                w'.execution == if route == [] then Execution(Completed, None, Some(env.now), None)
                                else Execution(Queued, Some(route[0]), None, None))
  {
    k, delay := 0, Wait(s, stepId);
    NothingHandedOn(s, w.pending, Route(s, stepId), delay);
    if WritesRow(s, stepId, env) && StartExecution !in env.faults {
      var id, node := TrimSpace(stepId), NodeOf(s, stepId, env).value;
      var plan := Decide(s, s.definition.value, node, env);
      if !plan.Fail? {
        var w1 := w.(steps := w.steps[id := Started(w.steps, id)],
                     execution := Execution(Running, Some(id), None, None));
        k := CarryShape(s, w1, id, plan, env);
        DecidedRoute(s, s.definition.value, node, stepId, env);
        if Handed(plan) != [] {
          DecidedWait(s, s.definition.value, node, stepId, env);
        } else {
          NothingHandedOn(s, w.pending, Handed(plan), HandedAfter(plan));
        }
      }
    }
  }

  lemma NothingHandedOn(s: Settings, pending: seq<Task>, route: seq<string>, delay: int)
    ensures pending + NewTasks(s, route[..0], delay) == pending
  {
  }

  /** The queue after an attempt: the other jobs, fresh jobs for a first part of the route, and the job
      itself with one attempt less if it has one left and has failed, but not as invalid. */
  lemma AttemptQueue(s: Settings, w: World, e: Event) returns (i: nat, delay: int, again: seq<Task>)
    requires e.index < |w.pending|
    ensures delay == Wait(s, w.pending[e.index].stepId)
    ensures i <= |Route(s, w.pending[e.index].stepId)| && forall j: nat | j < i :: EnqueueStep(j) !in e.env.faults
    ensures var task, outcome := w.pending[e.index], Deliver(s, w, e).1;
            again == if task.left > 1 && outcome != Done && outcome != Failure(InvalidWorkflow) &&
                        outcome != Failure(InvalidWorkflowEvent)
                     then [task.(left := task.left - 1)] else []
    ensures Attempt(s, w, e).pending ==
            Without(w, e.index).pending + NewTasks(s, Route(s, w.pending[e.index].stepId)[..i], delay) + again
  {
    var task := w.pending[e.index];
    i, delay := ProcessShape(s, Without(w, e.index), task.stepId, e.env);
    again := if Retries(task, Deliver(s, w, e).1) then [task.(left := task.left - 1)] else [];
  }

  /** Carrying out a plan closes the row of the step, without counting another attempt. */
  lemma CarryRows(s: Settings, w: World, id: string, plan: Plan, env: Env)
    requires id in w.steps && (plan.Schedule? ==> plan.later != [])
    ensures var (w', outcome) := Carry(s, w, id, plan, env);
            && id in w'.steps && w'.steps == w.steps[id := w'.steps[id]]
            && w'.steps[id].attempts == w.steps[id].attempts
            && (outcome == Done ==> w'.steps[id].status == Completed)
            && (outcome == Done ==> !plan.Fail?)
            && w'.notices == if plan.Dispatch? && plan.notice.Some? then w.notices + [plan.notice.value] else w.notices
  {
  }

  /** The rows: only the step's own row changes, and by one attempt if its row is written at all. */
  lemma ProcessRows(s: Settings, w: World, stepId: string, env: Env)
    ensures var (w', outcome) := Process(s, w, stepId, env);
            var id := TrimSpace(stepId);
            if WritesRow(s, stepId, env) then
              && id in w'.steps && w'.steps == w.steps[id := w'.steps[id]]
              && w'.steps[id].attempts == Started(w.steps, id).attempts
              && (outcome == Done ==> w'.steps[id].status == Completed)
            else w' == w && outcome != Done
  {
    if WritesRow(s, stepId, env) && StartExecution !in env.faults {
      var id := TrimSpace(stepId);
      var w1 := w.(steps := w.steps[id := Started(w.steps, id)], execution := Execution(Running, Some(id), None, None));
      CarryRows(s, w1, id, Decide(s, s.definition.value, NodeOf(s, stepId, env).value, env), env);
    }
  }

  lemma DecidedNotice(s: Settings, d: Definition, node: Node, env: Env)
    ensures var plan := Decide(s, d, node, env);
            && (plan.Dispatch? && plan.notice.Some? ==> node.kind.Notification? && plan.notice.value.stepId == node.id)
            && (node.kind.Notification? && !plan.Fail? ==> plan.Dispatch? && plan.notice.Some?)
  {
    if node.kind.Notification? {
      NoticeIsOwn(s, node.id, node.kind.notification, env);
    }
  }

  /** The step runtime folds the channel that a node names: its notification jobs are for known channels. */
  lemma NoticeIsForKnownChannel(s: Settings, id: string, config: Option<NotificationConfig>, env: Env)
    ensures var r := NoticeFor(s, id, config, env);
            r.Ok? ==> r.value.channel in Channels.KNOWN
  {
    if config.Some? && Channels.Strict(config.value.channels).Some? {
      var channels := config.value.channels;
      forall c | c in Channels.Folded(channels)
        ensures c in Channels.KNOWN
      {
        var i :| 0 <= i < |channels| && Channels.Folded(channels)[i] == c;
        assert channels[i] in channels;
      }
    }
  }

  lemma NoticeIsOwn(s: Settings, id: string, config: Option<NotificationConfig>, env: Env)
    ensures var r := NoticeFor(s, id, config, env);
            r.Ok? ==> r.value.stepId == id
  {
    if s.subscriber.Some? && config.Some? {
      NoticeOnIsOwn(s, id, Channels.Strict(config.value.channels), config.value.template.parsed, env);
    }
  }

  lemma NoticeOnIsOwn(s: Settings, id: string, channels: Option<seq<string>>, template: Option<Uuid>, env: Env)
    requires s.subscriber.Some?
    ensures var r := NoticeOn(s, id, channels, template, env);
            r.Ok? ==> r.value.stepId == id
  {
  }

  /** The notification log: one entry at most, for the step itself, and only with a written row. */
  lemma ProcessNotices(s: Settings, w: World, stepId: string, env: Env)
    ensures var (w', outcome) := Process(s, w, stepId, env);
            var id := TrimSpace(stepId);
            && w.notices <= w'.notices && |w'.notices| <= |w.notices| + 1
            && (|w'.notices| > |w.notices| ==> w'.notices[|w.notices|].stepId == id && WritesRow(s, stepId, env))
            && (outcome == Done ==> (|w'.notices| > |w.notices| <==> IsNotification(s, id)))
  {
    if WritesRow(s, stepId, env) && StartExecution !in env.faults {
      var id := TrimSpace(stepId);
      var w1 := w.(steps := w.steps[id := Started(w.steps, id)], execution := Execution(Running, Some(id), None, None));
      DecidedNotice(s, s.definition.value, NodeOf(s, stepId, env).value, env);
      CarryRows(s, w1, id, Decide(s, s.definition.value, NodeOf(s, stepId, env).value, env), env);
    }
  }
}
