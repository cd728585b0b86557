/** What the status "completed" is worth: for which definitions it means that a run is over. */
module Completion {
  import opened Wrappers
  import opened Text
  import opened Definitions
  import opened Runtime
  import opened Runs
  import opened Graphs
  import opened Draining
  import opened RunSafety
  import opened Confluence
  import opened Interpreter
  import Validator

  /** The status says that the run is over while there are jobs left. */
  predicate Early(w: World) {
    w.execution.status == Completed && w.pending != []
  }

  /** A run of an execution from its start in which nothing can fail. */
  ghost predicate FavourableRun(s: Settings, events: seq<Event>) {
    IsRun(s, Triggered(s), events) && forall e | e in events :: Favourable(s, e.env)
  }

  lemma {:induction false} RunConcat(s: Settings, w: World, a: seq<Event>, b: seq<Event>)
    requires IsRun(s, w, a) && IsRun(s, After(s, w, a), b)
    ensures IsRun(s, w, a + b) && After(s, w, a + b) == After(s, After(s, w, a), b)
    decreases |a|
  {
    if a == [] {
      assert a + b == b;
    } else {
      RunConcat(s, Attempt(s, w, a[0]), a[1..], b);
      RunCons(s, w, a[0], a[1..] + b);
      Regroup(a, b);
    }
  }

  lemma Regroup(a: seq<Event>, b: seq<Event>)
    requires a != []
    ensures [a[0]] + (a[1..] + b) == a + b
  {
  }

  lemma RunCons(s: Settings, w: World, e: Event, rest: seq<Event>)
    requires e.index < |w.pending| && IsRun(s, Attempt(s, w, e), rest)
    ensures IsRun(s, w, [e] + rest) && After(s, w, [e] + rest) == After(s, Attempt(s, w, e), rest)
  {
    assert ([e] + rest)[1..] == rest;
  }

  /** In favourable circumstances a delivery replaces its job by fresh jobs for its whole route. */
  lemma FavourableAttempt(s: Settings, w: World, e: Event) returns (delay: int)
    requires e.index < |w.pending| && AllReachable(s, w.pending) && Favourable(s, e.env)
    ensures var route := Route(s, w.pending[e.index].stepId);
            && Attempt(s, w, e).pending == Without(w, e.index).pending + NewTasks(s, route, delay)
            && (Attempt(s, w, e).execution.status == Completed <==> route == [])
    ensures AllReachable(s, Attempt(s, w, e).pending)
  {
    assert w.pending[e.index] in w.pending;
    var stepId := w.pending[e.index].stepId;
    FavourableSucceeds(s, Without(w, e.index), stepId, e.env);
    var i;
    i, delay := ProcessShape(s, Without(w, e.index), stepId, e.env);
    assert Route(s, stepId)[..|Route(s, stepId)|] == Route(s, stepId);
    AttemptStaysReachable(s, w, e);
  }

  // ----- Early completion, where nothing fails -----

  lemma ChainFront(s: Settings, chain: seq<string>)
    requires IsChain(s, chain) && |chain| > 1
    ensures IsChain(s, chain[..|chain| - 1]) && chain[|chain| - 1] in Route(s, chain[|chain| - 2])
  {
    var front := chain[..|chain| - 1];
    forall i, j | 0 <= i && j == i + 1 < |front|
      ensures front[j] in Route(s, front[i])
    {
      assert chain[j] in Route(s, chain[i]);
    }
  }

  lemma JobAt(rest: seq<Task>, s: Settings, route: seq<string>, delay: int, next: string) returns (i: nat)
    requires next in route
    ensures i < |rest + NewTasks(s, route, delay)| && (rest + NewTasks(s, route, delay))[i].stepId == next
  {
    var j :| 0 <= j < |route| && route[j] == next;
    i := |rest| + j;
  }

  /** Delivering along a chain brings the run to a state in which the end of the chain is pending. */
  lemma {:induction false} FollowChain(s: Settings, env: Env, chain: seq<string>) returns (events: seq<Event>, i: nat)
    requires Favourable(s, env) && IsChain(s, chain)
    ensures FavourableRun(s, events) && AllReachable(s, After(s, Triggered(s), events).pending)
    ensures i < |After(s, Triggered(s), events).pending|
    ensures After(s, Triggered(s), events).pending[i].stepId == chain[|chain| - 1]
    decreases |chain|
  {
    TriggeredIsReachable(s);
    events, i := [], 0;
    if |chain| > 1 {
      ChainFront(s, chain);
      events, i := FollowChain(s, env, chain[..|chain| - 1]);
      var e := Event(i, env);
      i := FollowOne(s, env, After(s, Triggered(s), events), i, chain[|chain| - 1]);
      RunConcat(s, Triggered(s), events, [e]);
      events := events + [e];
    }
  }

  lemma FollowOne(s: Settings, env: Env, w: World, i: nat, next: string) returns (j: nat)
    requires Favourable(s, env) && AllReachable(s, w.pending)
    requires i < |w.pending| && next in Route(s, w.pending[i].stepId)
    ensures IsRun(s, w, [Event(i, env)])
    ensures var pending := After(s, w, [Event(i, env)]).pending;
            AllReachable(s, pending) && j < |pending| && pending[j].stepId == next
  {
    var e := Event(i, env);
    var delay := FavourableAttempt(s, w, e);
    j := JobAt(Without(w, i).pending, s, Route(s, w.pending[i].stepId), delay, next);
    OneMore(s, w, e);
  }

  lemma OneMore(s: Settings, w: World, e: Event)
    requires e.index < |w.pending|
    ensures IsRun(s, w, [e]) && After(s, w, [e]) == Attempt(s, w, e)
  {
    assert [e][1..] == [];
    assert IsRun(s, Attempt(s, w, e), []) && After(s, Attempt(s, w, e), []) == Attempt(s, w, e);
  }

  lemma NewestJob(rest: seq<Task>, s: Settings, route: seq<string>, delay: int)
    requires route != []
    ensures var pending := rest + NewTasks(s, route, delay);
            |pending| == |rest| + |route| && pending[|pending| - 1].stepId == route[|route| - 1]
  {
  }

  /** With two jobs or more pending, delivering the newest one again and again comes to a step without
      successors while an older job is still pending. */
  lemma {:induction false} DescendToLeaf(k: Weights, s: Settings, w: World, env: Env) returns (events: seq<Event>)
    requires Suits(k, s) && Favourable(s, env) && AllReachable(s, w.pending) && |w.pending| >= 2
    ensures IsRun(s, w, events) && (forall e | e in events :: e.env == env)
    ensures Early(After(s, w, events))
    decreases Height(k.rank, TrimSpace(w.pending[|w.pending| - 1].stepId))
  {
    var last := |w.pending| - 1;
    var e, route := Event(last, env), Route(s, w.pending[last].stepId);
    var delay := FavourableAttempt(s, w, e);
    var next := Attempt(s, w, e);
    if route == [] {
      OneMore(s, w, e);
      events := [e];
    } else {
      RouteIsLinked(k, s, w.pending[last].stepId, |route| - 1);
      NewestJob(Without(w, last).pending, s, route, delay);
      var more := DescendToLeaf(k, s, next, env);
      RunCons(s, w, e, more);
      events := [e] + more;
    }
  }

  lemma SplitsUp(s: Settings, w: World, i: nat, env: Env) returns (events: seq<Event>)
    requires Favourable(s, env) && AllReachable(s, w.pending)
    requires i < |w.pending| && |Route(s, w.pending[i].stepId)| >= 2
    ensures IsRun(s, w, events) && (forall e | e in events :: e.env == env)
    ensures Early(After(s, w, events))
  {
    var e := Event(i, env);
    var delay := FavourableAttempt(s, w, e);
    NewestJob(Without(w, i).pending, s, Route(s, w.pending[i].stepId), delay);
    var more := DescendToLeaf(WeightsOf(s), s, Attempt(s, w, e), env);
    RunCons(s, w, e, more);
    events := [e] + more;
  }

  /** A step that hands on to two others lets a run complete early. */
  lemma FanOutCompletesEarly(s: Settings, env: Env, stepId: string) returns (events: seq<Event>)
    requires Favourable(s, env) && Reachable(s, stepId) && |Route(s, stepId)| >= 2
    ensures FavourableRun(s, events) && Early(After(s, Triggered(s), events))
  {
    var chain :| IsChain(s, chain) && chain[|chain| - 1] == stepId;
    var before, i := FollowChain(s, env, chain);
    var after := SplitsUp(s, After(s, Triggered(s), before), i, env);
    RunConcat(s, Triggered(s), before, after);
    events := before + after;
  }

  /** Main result on the status: where nothing fails, "completed" always means that no job is left if
      and only if no reachable step hands on to two others. */
  lemma CompletedIsFinalIff(s: Settings, env: Env)
    requires Favourable(s, env)
    ensures Narrow(s) <==> forall events | FavourableRun(s, events) :: !Early(After(s, Triggered(s), events))
  {
    TriggeredIsReachable(s);
    if Narrow(s) {
      forall events | FavourableRun(s, events)
        ensures !Early(After(s, Triggered(s), events))
      {
        FavourableRunsAreSmooth(s, Triggered(s), events);
        RunsTheTrace(s, events);
      }
    } else {
      var stepId :| Reachable(s, stepId) && |Route(s, stepId)| > 1;
      var events := FanOutCompletesEarly(s, env, stepId);
    }
  }

  // ----- Early completion after a failing write -----

  lemma LastWriteIsNoCheck(s: Settings, d: Definition, node: Node, env: Env)
    requires env.faults == {}
    ensures Decide(s, d, node, env.(faults := {FinishExecution})) == Decide(s, d, node, env)
  {
    if node.kind.Notification? {
      NoticeIgnoresLastWrite(s, node.id, node.kind.notification, env);
    }
  }

  lemma NoticeIgnoresLastWrite(s: Settings, id: string, config: Option<NotificationConfig>, env: Env)
    requires env.faults == {}
    ensures NoticeFor(s, id, config, env.(faults := {FinishExecution})) == NoticeFor(s, id, config, env)
  {
  }

  lemma LastWriteOfPlan(s: Settings, w: World, id: string, plan: Plan, env: Env)
    requires id in w.steps && !plan.Fail? && s.hasProducer && env.faults == {FinishExecution}
    requires plan.Schedule? ==> plan.later != []
    requires plan.Dispatch? ==> plan.next != []
    ensures var (w', outcome) := Carry(s, w, id, plan, env);
            && w'.pending == w.pending + NewTasks(s, Handed(plan), if plan.Schedule? then plan.delay else 0)
            && outcome == Failure(StoreError)
  {
    var next := Handed(plan);
    assert next[..|next|] == next;
  }

  lemma LastWriteFailsAt(s: Settings, w: World, stepId: string, node: Node, env: Env) returns (delay: int)
    requires s.definition.Some? && s.hasProducer && env.faults == {}
    requires TrimSpace(stepId) == node.id != "" && FindNode(s.definition.value.nodes, node.id) == Some(node)
    requires !Decide(s, s.definition.value, node, env).Fail? && Route(s, stepId) != []
    ensures var (w', outcome) := Process(s, w, stepId, env.(faults := {FinishExecution}));
            && w'.pending == w.pending + NewTasks(s, Route(s, stepId), delay)
            && outcome == Failure(StoreError)
  {
    var d := s.definition.value;
    DecidedRoute(s, d, node, stepId, env);
    LastWriteIsNoCheck(s, d, node, env);
    delay := ProcessedPlan(s, w, stepId, node, Decide(s, d, node, env), env.(faults := {FinishExecution}));
  }

  /** An attempt in which only the last write fails has queued its successors, and comes back itself. */
  lemma LastWriteFails(s: Settings, w: World, stepId: string, env: Env) returns (delay: int)
    requires Favourable(s, env) && Reachable(s, stepId) && Route(s, stepId) != []
    ensures var (w', outcome) := Process(s, w, stepId, env.(faults := {FinishExecution}));
            && w'.pending == w.pending + NewTasks(s, Route(s, stepId), delay)
            && outcome == Failure(StoreError)
  {
    var node := FavourableNode(s, stepId, env);
    delay := LastWriteFailsAt(s, w, stepId, node, env);
  }

  lemma ProcessedPlan(s: Settings, w: World, stepId: string, node: Node, plan: Plan, env: Env) returns (delay: int)
    requires s.definition.Some? && NodeOf(s, stepId, env) == Ok(node) && env.faults == {FinishExecution}
    requires Decide(s, s.definition.value, node, env) == plan && !plan.Fail? && s.hasProducer && Handed(plan) != []
    ensures var (w', outcome) := Process(s, w, stepId, env);
            && w'.pending == w.pending + NewTasks(s, Handed(plan), delay)
            && outcome == Failure(StoreError)
  {
    var w1 := w.(steps := w.steps[node.id := Started(w.steps, node.id)],
                 execution := Execution(Running, Some(node.id), None, None));
    LastWriteOfPlan(s, w1, node.id, plan, env);
    delay := if plan.Schedule? then plan.delay else 0;
  }

  lemma RetriedAttempt(s: Settings, w: World, index: nat, env: Env) returns (delay: int)
    requires index < |w.pending| && Favourable(s, env) && Reachable(s, w.pending[index].stepId)
    requires w.pending[index].left > 1 && Route(s, w.pending[index].stepId) != []
    ensures Attempt(s, w, Event(index, env.(faults := {FinishExecution}))).pending ==
            Without(w, index).pending + NewTasks(s, Route(s, w.pending[index].stepId), delay)
            + [w.pending[index].(left := w.pending[index].left - 1)]
  {
    delay := LastWriteFails(s, Without(w, index), w.pending[index].stepId, env);
  }

  /** With retries, a first step that hands on at all lets a run complete early, fan-out or not: the first
      step has queued its successors when its last write fails, so that it is pending again together with
      them; and then the newest job is delivered down to a step without successors. */
  lemma FailedWriteCompletesEarly(s: Settings, env: Env) returns (events: seq<Event>)
    requires Favourable(s, env) && s.maxRetry >= 1
    requires First(s).Some? && Route(s, First(s).value) != []
    ensures IsRun(s, Triggered(s), events) && Early(After(s, Triggered(s), events))
  {
    var w, first := Triggered(s), Event(0, env.(faults := {FinishExecution}));
    TriggeredIsReachable(s);
    assert w.pending[0] in w.pending;
    var delay := RetriedAttempt(s, w, 0, env);
    AttemptStaysReachable(s, w, first);
    SeveralLeft(w.pending, s, Route(s, First(s).value), delay, w.pending[0].(left := w.pending[0].left - 1));
    var more := DescendToLeaf(WeightsOf(s), s, Attempt(s, w, first), env);
    RunCons(s, w, first, more);
    events := [first] + more;
  }

  lemma SeveralLeft(pending: seq<Task>, s: Settings, route: seq<string>, delay: int, again: Task)
    requires |pending| == 1 && route != []
    ensures |pending[..0] + pending[1..] + NewTasks(s, route, delay) + [again]| >= 2
  {
  }

  // ----- Exactly when -----

  /** At most one job is pending, and none once the status is "completed". */
  predicate Lone(w: World) {
    |w.pending| <= 1 && (w.execution.status == Completed ==> w.pending == [])
  }

  /** Only a successful attempt at a step without successors completes an execution. */
  lemma CompletesOnlyAtLeaf(s: Settings, w: World, stepId: string, env: Env)
    requires w.execution.status != Completed
    requires Process(s, w, stepId, env).0.execution.status == Completed
    ensures Process(s, w, stepId, env).1 == Done && Route(s, stepId) == []
  {
    if WritesRow(s, stepId, env) && StartExecution !in env.faults {
      var d, node := s.definition.value, NodeOf(s, stepId, env).value;
      var w1 := w.(steps := w.steps[node.id := Started(w.steps, node.id)],
                   execution := Execution(Running, Some(node.id), None, None));
      CompletesByPlan(s, w1, node.id, Decide(s, d, node, env), env);
      DecidedRoute(s, d, node, stepId, env);
    }
  }

  lemma CompletesByPlan(s: Settings, w: World, id: string, plan: Plan, env: Env)
    requires id in w.steps && w.execution.status == Running && (plan.Schedule? ==> plan.later != [])
    requires Carry(s, w, id, plan, env).0.execution.status == Completed
    ensures !plan.Fail? && Handed(plan) == [] && Carry(s, w, id, plan, env).1 == Done
  {
  }

  /** One attempt at a lone job that hands on to at most one other, and to none if it can come back itself. */
  lemma LoneStep(s: Settings, w: World, e: Event)
    requires e.index < |w.pending| && Lone(w)
    requires var task := w.pending[e.index]; |Route(s, task.stepId)| <= if task.left > 1 then 0 else 1
    ensures Lone(Attempt(s, w, e))
    ensures forall t | t in Attempt(s, w, e).pending ::
              || (t.stepId == w.pending[e.index].stepId && w.pending[e.index].left > 1)
              || (t.stepId in Route(s, w.pending[e.index].stepId) && t.left == s.maxRetry + 1)
  {
    var i, delay, again := AttemptQueue(s, w, e);
    var stepId := w.pending[e.index].stepId;
    assert Without(w, e.index).pending == [];
    LoneQueue(s, Route(s, stepId), i, delay, again);
    if Attempt(s, w, e).execution.status == Completed {
      CompletesOnlyAtLeaf(s, Without(w, e.index), stepId, e.env);
      assert !Retries(w.pending[e.index], Done);
    }
  }

  lemma LoneQueue(s: Settings, route: seq<string>, i: nat, delay: int, again: seq<Task>)
    requires i <= |route| && |route| + |again| <= 1
    ensures |[] + NewTasks(s, route[..i], delay) + again| <= 1
    ensures forall t | t in [] + NewTasks(s, route[..i], delay) + again ::
              t in again || (t.stepId in route && t.left == s.maxRetry + 1)
  {
  }

  /** Every pending job is for a step that hands on as little as LoneStep asks for. */
  ghost predicate HandsOnLittle(s: Settings, pending: seq<Task>) {
    AllReachable(s, pending) &&
    if s.maxRetry == 0 then forall t | t in pending :: t.left <= 1
    else forall t | t in pending :: Some(t.stepId) == First(s)
  }

  lemma {:induction false} LoneRun(s: Settings, w: World, events: seq<Event>)
    requires IsRun(s, w, events) && Lone(w) && HandsOnLittle(s, w.pending)
    requires if s.maxRetry == 0 then Narrow(s) else First(s).Some? && Route(s, First(s).value) == []
    ensures Lone(After(s, w, events))
    decreases |events|
  {
    if events != [] {
      var e := events[0];
      assert w.pending[e.index] in w.pending;
      LoneStep(s, w, e);
      AttemptStaysReachable(s, w, e);
      LoneRun(s, Attempt(s, w, e), events[1..]);
    }
  }

  /** In every run, with any faults, "completed" means that no job is left. */
  ghost predicate AlwaysFinal(s: Settings) {
    forall events | IsRun(s, Triggered(s), events) :: !Early(After(s, Triggered(s), events))
  }

  /** Main result on the status with faults: where failed attempts come back, "completed" is always final if
      and only if the first step hands on to nothing; and where they do not, if and only if no reachable step
      hands on to two others. */
  lemma AlwaysFinalIff(s: Settings, env: Env)
    requires Favourable(s, env)
    ensures First(s).Some?
    ensures AlwaysFinal(s) <==> if s.maxRetry == 0 then Narrow(s) else Route(s, First(s).value) == []
  {
    FirstStepExists(s.definition.value);
    TriggeredIsReachable(s);
    if if s.maxRetry == 0 then Narrow(s) else Route(s, First(s).value) == [] {
      forall events | IsRun(s, Triggered(s), events)
        ensures !Early(After(s, Triggered(s), events))
      {
        LoneRun(s, Triggered(s), events);
      }
    } else if s.maxRetry == 0 {
      var stepId :| Reachable(s, stepId) && |Route(s, stepId)| > 1;
      var events := FanOutCompletesEarly(s, env, stepId);
    } else {
      var events := FailedWriteCompletesEarly(s, env);
    }
  }

  // ----- Definitions for which this happens -----

  function TwoSteps(): Settings {
    Settings(Some(Definition("signup", [Node("a", Trigger), Node("b", Trigger)], [Edge("a", "b", "")])),
             None, Some(map[]), true, 5)
  }

  function Fork(): Settings {
    Settings(Some(Definition("signup", [Node("a", Trigger), Node("b", Trigger), Node("c", Trigger)],
                             [Edge("a", "b", ""), Edge("a", "c", "")])),
             None, Some(map[]), true, 5)
  }

  ghost predicate TriggersOnly(s: Settings) {
    && s.definition.Some? && Validator.WellFormed(s.definition.value)
    && (forall n | n in s.definition.value.nodes :: n.kind == Trigger && Trimmed(n.id))
    && s.hasProducer && s.payload.Some?
  }

  lemma TriggersAreFavourable(s: Settings, env: Env)
    requires TriggersOnly(s) && env.faults == {}
    ensures Favourable(s, env)
  {
  }

  lemma TwoStepsValidate()
    ensures TriggersOnly(TwoSteps())
    ensures First(TwoSteps()) == Some("a") && Route(TwoSteps(), "a") == ["b"] && Route(TwoSteps(), "b") == []
  {
    TrimmedLiterals();
    TwoTriggersValidate(TwoSteps(), Node("a", Trigger), Node("b", Trigger));
    TwoTriggersStart(TwoSteps(), Node("a", Trigger), Node("b", Trigger));
  }

  /** Two triggers and an edge from the first to the second one. */
  ghost predicate TwoTriggers(s: Settings, a: Node, b: Node) {
    && s.definition.Some? && s.definition.value.nodes == [a, b] && s.definition.value.edges == [Edge(a.id, b.id, "")]
    && a.kind == b.kind == Trigger && a.id != b.id
    && TrimSpace(a.id) == a.id != "" && TrimSpace(b.id) == b.id != ""
  }

  lemma TwoTriggersValidate(s: Settings, a: Node, b: Node)
    requires TwoTriggers(s, a, b) && TrimSpace(s.definition.value.event) != "" && s.hasProducer && s.payload.Some?
    ensures TriggersOnly(s)
  {
    TwoNodesValidate([a, b], a, b, Edge(a.id, b.id, ""));
    TrimmedIff(a.id);
    TrimmedIff(b.id);
  }

  lemma TwoTriggersStart(s: Settings, a: Node, b: Node)
    requires TwoTriggers(s, a, b)
    ensures First(s) == Some(a.id) && Route(s, a.id) == [b.id] && Route(s, b.id) == []
  {
    var edge := Edge(a.id, b.id, "");
    OneEdgeRoute(s, a, edge);
    assert CountRawTargets([edge][..0], a.id) == 0;
    assert Followed([edge][..0], b.id, "") == [];
  }

  lemma TwoStepsAreFavourable(env: Env)
    requires env.faults == {}
    ensures Favourable(TwoSteps(), env)
    ensures First(TwoSteps()) == Some("a") && Route(TwoSteps(), "a") == ["b"] && Route(TwoSteps(), "b") == []
  {
    TwoStepsValidate();
    TriggersAreFavourable(TwoSteps(), env);
  }

  /** A definition without fan-out that can complete early after a failing write. */
  lemma TwoStepsCompleteEarly(env: Env)
    requires env.faults == {}
    ensures var s, events := TwoSteps(), [Event(0, env.(faults := {FinishExecution})), Event(0, env)];
            && Validator.WellFormed(s.definition.value)
            && IsRun(s, Triggered(s), events) && Early(After(s, Triggered(s), events))
  {
    TwoStepsAreFavourable(env);
    OvertakenCompletesEarly(TwoSteps(), env);
  }

  /** The second step overtakes the next attempt at the first one. */
  lemma OvertakenCompletesEarly(s: Settings, env: Env)
    requires Favourable(s, env) && s.maxRetry >= 1
    requires First(s).Some? && |Route(s, First(s).value)| == 1 && Route(s, Route(s, First(s).value)[0]) == []
    ensures var events := [Event(0, env.(faults := {FinishExecution})), Event(0, env)];
            IsRun(s, Triggered(s), events) && Early(After(s, Triggered(s), events))
  {
    var w, first, second := Triggered(s), Event(0, env.(faults := {FinishExecution})), Event(0, env);
    TriggeredIsReachable(s);
    assert w.pending[0] in w.pending;
    var delay := RetriedAttempt(s, w, 0, env);
    var between := Attempt(s, w, first);
    TwoLeft(w.pending, s, Route(s, First(s).value), delay, w.pending[0].(left := w.pending[0].left - 1));
    AttemptStaysReachable(s, w, first);
    var again := FavourableAttempt(s, between, second);
    TwoMore(s, w, first, second);
  }

  lemma TwoMore(s: Settings, w: World, first: Event, second: Event)
    requires first.index < |w.pending| && second.index < |Attempt(s, w, first).pending|
    ensures IsRun(s, w, [first, second]) && After(s, w, [first, second]) == Attempt(s, Attempt(s, w, first), second)
  {
    OneMore(s, Attempt(s, w, first), second);
    RunCons(s, w, first, [second]);
    assert [first] + [second] == [first, second];
  }

  lemma TwoLeft(pending: seq<Task>, s: Settings, route: seq<string>, delay: int, again: Task)
    requires |pending| == 1 && |route| == 1
    ensures var after := pending[..0] + pending[1..] + NewTasks(s, route, delay) + [again];
            |after| == 2 && after[0].stepId == route[0]
  {
  }

  function ForkEdges(a: string, b: string, c: string): seq<Edge> {
    [Edge(a, b, ""), Edge(a, c, "")]
  }

  lemma ForkNodes(a: Node, b: Node, c: Node)
    requires a.kind == b.kind == c.kind == Trigger
    requires TrimSpace(a.id) == a.id != "" && TrimSpace(b.id) == b.id != "" && TrimSpace(c.id) == c.id != ""
    requires a.id != b.id && a.id != c.id && b.id != c.id
    ensures Validator.NodesOk([a, b, c]) && Validator.EdgesOk([a, b, c], ForkEdges(a.id, b.id, c.id))
  {
    var nodes := [a, b, c];
    assert a in nodes && b in nodes && c in nodes;
    assert Validator.HasId(nodes, a.id) && Validator.HasId(nodes, b.id) && Validator.HasId(nodes, c.id);
  }

  lemma ForkGraph(a: string, b: string, c: string)
    requires TrimSpace(a) == a && TrimSpace(b) == b && TrimSpace(c) == c && a != b && a != c
    ensures !Cyclic(Validator.Adjacency(ForkEdges(a, b, c)))
  {
    var edges := ForkEdges(a, b, c);
    assert edges[..1][..0] == [] && [] + [b] == [b] && [b] + [c] == [b, c];
    assert Validator.Adjacency(edges[..1]) == map[a := [b]];
    assert Validator.Adjacency(edges) == map[a := [b, c]];
    RankedIsAcyclic(Validator.Adjacency(edges), map[a := 1, b := 0, c := 0]);
  }

  lemma ForkRoute(a: string, b: string, c: string)
    requires a != b && a != c
    ensures Followed(ForkEdges(a, b, c), a, "") == [b, c] && CountRawTargets(ForkEdges(a, b, c), a) == 0
  {
    var edges := ForkEdges(a, b, c);
    assert edges[..1][..0] == [] && [] + [b] == [b] && [b] + [c] == [b, c];
    assert Followed(edges[..1], a, "") == [b];
    assert CountRawTargets(edges[..1], a) == 0;
  }

  lemma ForkLiterals()
    ensures TrimSpace("a") == "a" && TrimSpace("b") == "b" && TrimSpace("c") == "c" && TrimSpace("signup") == "signup"
    ensures Trimmed("a") && Trimmed("b") && Trimmed("c")
  {
    TrimmedLiterals();
    TrimmedIff("a");
    TrimmedIff("b");
    TrimmedIff("c");
    assert TrimSpace("c") == "c";
  }

  lemma ForkValidates()
    ensures TriggersOnly(Fork())
  {
    ForkLiterals();
    ForkNodes(Node("a", Trigger), Node("b", Trigger), Node("c", Trigger));
    ForkGraph("a", "b", "c");
  }

  lemma ForkStarts()
    ensures First(Fork()) == Some("a") && Route(Fork(), "a") == ["b", "c"]
  {
    ForkLiterals();
    ForkRoute("a", "b", "c");
  }

  lemma ForkIsFavourable(env: Env)
    requires env.faults == {}
    ensures Favourable(Fork(), env) && First(Fork()) == Some("a") && Route(Fork(), "a") == ["b", "c"]
  {
    ForkValidates();
    ForkStarts();
    TriggersAreFavourable(Fork(), env);
  }

  /** A definition with a fan-out that can complete early although nothing fails. */
  lemma ForkCompletesEarly(env: Env) returns (events: seq<Event>)
    requires env.faults == {}
    ensures Validator.WellFormed(Fork().definition.value)
    ensures FavourableRun(Fork(), events) && Early(After(Fork(), Triggered(Fork()), events))
  {
    ForkIsFavourable(env);
    assert IsChain(Fork(), ["a"]);
    events := FanOutCompletesEarly(Fork(), env, "a");
  }
}
