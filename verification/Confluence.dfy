/** What a run does when nothing fails: it carries out the definition exactly as a direct recursive
    reading of it would, whatever the order in which the queue hands jobs out. */
module Confluence {
  import opened Wrappers
  import opened Text
  import opened Definitions
  import opened Runtime
  import opened Runs
  import opened Graphs
  import opened Draining
  import opened RunSafety
  import Conditions
  import Validator

  // ----- The direct reading: how often each step is visited -----

  lemma RouteIsLinked(k: Weights, s: Settings, stepId: string, i: nat)
    requires Suits(k, s) && i < |Route(s, stepId)|
    ensures Linked(k.graph, TrimSpace(stepId), TrimSpace(Route(s, stepId)[i]))
  {
    var id, edges := TrimSpace(stepId), s.definition.value.edges;
    var next := Route(s, stepId)[i];
    var branch := RouteIsFollowed(s, stepId);
    assert next in Followed(edges, id, branch);
    var e: Edge :| e in edges && e.source == id && e.target == next;
    TrimIdempotent(stepId);
    assert Validator.Links(e, id, TrimSpace(next));
    Validator.AdjacencyEdges(edges, id, TrimSpace(next));
  }

  /** The number of ways to get from `stepId` to step `x` along routes: how often a reading that
      carries out a step and then, one after the other, everything it hands on to, carries out `x`. */
  ghost function Visits(k: Weights, s: Settings, stepId: string, x: string): nat
    requires Suits(k, s)
    decreases Height(k.rank, TrimSpace(stepId)), |Route(s, stepId)| + 1
  {
    (if TrimSpace(stepId) == x then 1 else 0) + VisitsBelow(k, s, stepId, |Route(s, stepId)|, x)
  }

  ghost function VisitsBelow(k: Weights, s: Settings, stepId: string, i: nat, x: string): nat
    requires Suits(k, s) && i <= |Route(s, stepId)|
    decreases Height(k.rank, TrimSpace(stepId)), i
  {
    if i == 0 then 0
    else
      RouteIsLinked(k, s, stepId, i - 1);
      VisitsBelow(k, s, stepId, i - 1, x) + Visits(k, s, Route(s, stepId)[i - 1], x)
  }

  ghost function VisitsOf(k: Weights, s: Settings, pending: seq<Task>, x: string): nat
    requires Suits(k, s)
  {
    if pending == [] then 0
    else VisitsOf(k, s, pending[..|pending| - 1], x) + Visits(k, s, pending[|pending| - 1].stepId, x)
  }

  lemma {:induction false} VisitsOfConcat(k: Weights, s: Settings, a: seq<Task>, b: seq<Task>, x: string)
    requires Suits(k, s)
    ensures VisitsOf(k, s, a + b, x) == VisitsOf(k, s, a, x) + VisitsOf(k, s, b, x)
  {
    if b == [] {
      assert a + b == a;
    } else {
      VisitsOfConcat(k, s, a, b[..|b| - 1], x);
      ConcatFront(a, b);
    }
  }

  lemma ConcatFront(a: seq<Task>, b: seq<Task>)
    requires b != []
    ensures (a + b)[..|a + b| - 1] == a + b[..|b| - 1] && (a + b)[|a + b| - 1] == b[|b| - 1]
  {
  }

  lemma VisitsWithout(k: Weights, s: Settings, pending: seq<Task>, i: nat, x: string)
    requires Suits(k, s) && i < |pending|
    ensures VisitsOf(k, s, pending, x) ==
            VisitsOf(k, s, pending[..i] + pending[i + 1..], x) + Visits(k, s, pending[i].stepId, x)
  {
    var task := [pending[i]];
    assert pending == pending[..i] + task + pending[i + 1..];
    VisitsOfConcat(k, s, pending[..i], task, x);
    VisitsOfConcat(k, s, pending[..i] + task, pending[i + 1..], x);
    VisitsOfConcat(k, s, pending[..i], pending[i + 1..], x);
    assert VisitsOf(k, s, task[..0], x) == 0;
  }

  lemma {:induction false} VisitsOfRoute(k: Weights, s: Settings, stepId: string, i: nat, delay: int, x: string)
    requires Suits(k, s) && i <= |Route(s, stepId)|
    ensures VisitsOf(k, s, NewTasks(s, Route(s, stepId)[..i], delay), x) == VisitsBelow(k, s, stepId, i, x)
  {
    if i > 0 {
      VisitsOfRoute(k, s, stepId, i - 1, delay, x);
      NewTasksFront(s, Route(s, stepId), i, delay);
      VisitsOfNext(k, s, NewTasks(s, Route(s, stepId)[..i], delay), x);
    }
  }

  lemma VisitsOfNext(k: Weights, s: Settings, pending: seq<Task>, x: string)
    requires Suits(k, s) && pending != []
    ensures var n := |pending| - 1;
            VisitsOf(k, s, pending, x) == VisitsOf(k, s, pending[..n], x) + Visits(k, s, pending[n].stepId, x)
  {
  }

  lemma NewTasksFront(s: Settings, ids: seq<string>, i: nat, delay: int)
    requires 0 < i <= |ids|
    ensures var tasks := NewTasks(s, ids[..i], delay);
            tasks[..i - 1] == NewTasks(s, ids[..i - 1], delay) && tasks[i - 1].stepId == ids[i - 1]
  {
  }

  // ----- Runs in which every attempt succeeds -----

  predicate Smooth(s: Settings, w: World, events: seq<Event>)
    requires IsRun(s, w, events)
    decreases |events|
  {
    events == [] ||
    (Deliver(s, w, events[0]).1 == Done && Smooth(s, Attempt(s, w, events[0]), events[1..]))
  }

  /** A successful delivery replaces its job by fresh jobs for the whole route. */
  lemma SmoothQueue(s: Settings, w: World, e: Event) returns (delay: int)
    requires e.index < |w.pending| && Deliver(s, w, e).1 == Done
    ensures Attempt(s, w, e).pending ==
            Without(w, e.index).pending + NewTasks(s, Route(s, w.pending[e.index].stepId), delay)
  {
    var stepId := w.pending[e.index].stepId;
    var i;
    i, delay := ProcessShape(s, Without(w, e.index), stepId, e.env);
    assert Route(s, stepId)[..|Route(s, stepId)|] == Route(s, stepId);
  }

  lemma SmoothCounts(s: Settings, w: World, e: Event, x: string)
    requires e.index < |w.pending| && Deliver(s, w, e).1 == Done
    ensures AttemptsOf(Attempt(s, w, e), x) ==
            AttemptsOf(w, x) + if TrimSpace(w.pending[e.index].stepId) == x then 1 else 0
  {
    AttemptCounts(s, w, e, x);
    ProcessRows(s, Without(w, e.index), w.pending[e.index].stepId, e.env);
  }

  lemma QueueConserves(k: Weights, s: Settings, pending: seq<Task>, index: nat, delay: int, x: string)
    requires Suits(k, s) && index < |pending|
    ensures var stepId := pending[index].stepId;
            var after := pending[..index] + pending[index + 1..] + NewTasks(s, Route(s, stepId), delay);
            VisitsOf(k, s, pending, x) == VisitsOf(k, s, after, x) + if TrimSpace(stepId) == x then 1 else 0
  {
    var stepId := pending[index].stepId;
    var n := |Route(s, stepId)|;
    VisitsWithout(k, s, pending, index, x);
    VisitsOfConcat(k, s, pending[..index] + pending[index + 1..], NewTasks(s, Route(s, stepId), delay), x);
    VisitsOfRoute(k, s, stepId, n, delay, x);
    assert Route(s, stepId)[..n] == Route(s, stepId);
  }

  /** Visits made and visits still to come: a successful delivery moves one of the second kind to
      the first and loses none. */
  lemma SmoothConserves(k: Weights, s: Settings, w: World, e: Event, x: string)
    requires Suits(k, s)
    requires e.index < |w.pending| && Deliver(s, w, e).1 == Done
    ensures var w' := Attempt(s, w, e);
            AttemptsOf(w', x) + VisitsOf(k, s, w'.pending, x) == AttemptsOf(w, x) + VisitsOf(k, s, w.pending, x)
  {
    var delay := SmoothQueue(s, w, e);
    SmoothCounts(s, w, e, x);
    QueueConserves(k, s, w.pending, e.index, delay, x);
  }

  lemma {:induction false} SmoothRunConserves(k: Weights, s: Settings, w: World, events: seq<Event>, x: string)
    requires Suits(k, s) && IsRun(s, w, events) && Smooth(s, w, events)
    ensures var w' := After(s, w, events);
            AttemptsOf(w', x) + VisitsOf(k, s, w'.pending, x) == AttemptsOf(w, x) + VisitsOf(k, s, w.pending, x)
    decreases |events|
  {
    if events != [] {
      SmoothConserves(k, s, w, events[0], x);
      SmoothRunConserves(k, s, Attempt(s, w, events[0]), events[1..], x);
    }
  }

  // ----- The rows that a smooth run leaves -----

  ghost predicate Tidy(s: Settings, w: World) {
    && (forall id | id in w.steps :: w.steps[id].status == Completed)
    && (w.pending == [] ==> w.execution.status == Completed && w.execution.currentStep == None)
    && (forall id :: NoticesOf(w.notices, id) == if IsNotification(s, id) then AttemptsOf(w, id) else 0)
  }

  lemma SmoothKeepsTidy(s: Settings, w: World, e: Event)
    requires e.index < |w.pending| && Deliver(s, w, e).1 == Done
    requires Tidy(s, w)
    ensures Tidy(s, Attempt(s, w, e))
  {
    var rest, stepId := Without(w, e.index), w.pending[e.index].stepId;
    var i, delay := ProcessShape(s, rest, stepId, e.env);
    ProcessRows(s, rest, stepId, e.env);
    ProcessNotices(s, rest, stepId, e.env);
    var w' := Attempt(s, w, e);
    forall id
      ensures NoticesOf(w'.notices, id) == if IsNotification(s, id) then AttemptsOf(w', id) else 0
    {
      NoticesStep(w.notices, w'.notices, id);
    }
  }

  lemma {:induction false} SmoothRunIsTidy(s: Settings, w: World, events: seq<Event>)
    requires IsRun(s, w, events) && Smooth(s, w, events)
    requires Tidy(s, w)
    ensures Tidy(s, After(s, w, events))
    decreases |events|
  {
    if events != [] {
      SmoothKeepsTidy(s, w, events[0]);
      SmoothRunIsTidy(s, Attempt(s, w, events[0]), events[1..]);
    }
  }

  /** Main result: whatever the order of deliveries, a triggered run in which every attempt succeeds
      and that has emptied the queue has carried out every step exactly as often as the direct
      reading visits it, has sent one notification job for each such visit of a notification step,
      has all rows completed, and leaves the execution completed with no current step. */
  lemma SmoothRunsAgree(s: Settings, events: seq<Event>, x: string)
    requires s.definition.Some? && Validator.WellFormed(s.definition.value) && s.hasProducer
    requires IsRun(s, Triggered(s), events) && Smooth(s, Triggered(s), events)
    requires After(s, Triggered(s), events).pending == []
    ensures First(s).Some?
    ensures var w := After(s, Triggered(s), events);
            && AttemptsOf(w, x) == Visits(WeightsOf(s), s, First(s).value, x)
            && NoticesOf(w.notices, x) == (if IsNotification(s, x) then AttemptsOf(w, x) else 0)
            && (forall id | id in w.steps :: w.steps[id].status == Completed)
            && w.execution.status == Completed && w.execution.currentStep == None
  {
    FirstStepExists(s.definition.value);
    var k, w := WeightsOf(s), Triggered(s);
    assert w.pending[..0] == [];
    SmoothRunConserves(k, s, w, events, x);
    SmoothRunIsTidy(s, w, events);
  }

  // ----- Runs in which failed attempts come back -----

  /** Every attempt succeeds or is made again: no job is given up, and none uses up its retries. */
  predicate Persistent(s: Settings, w: World, events: seq<Event>)
    requires IsRun(s, w, events)
    decreases |events|
  {
    events == [] ||
    (&& (Deliver(s, w, events[0]).1 == Done || Retries(w.pending[events[0].index], Deliver(s, w, events[0]).1))
     && Persistent(s, Attempt(s, w, events[0]), events[1..]))
  }

  lemma QueueRetries(k: Weights, s: Settings, pending: seq<Task>, i: nat, added: seq<Task>, again: Task, x: string)
    requires Suits(k, s) && i < |pending| && again.stepId == pending[i].stepId
    ensures VisitsOf(k, s, pending[..i] + pending[i + 1..] + added + [again], x) >= VisitsOf(k, s, pending, x)
  {
    var rest := pending[..i] + pending[i + 1..];
    VisitsWithout(k, s, pending, i, x);
    VisitsOfConcat(k, s, rest, added, x);
    VisitsOfConcat(k, s, rest + added, [again], x);
    assert [again][..0] == [];
  }

  lemma RetriedVisits(k: Weights, s: Settings, w: World, e: Event, x: string)
    requires Suits(k, s) && e.index < |w.pending| && Retries(w.pending[e.index], Deliver(s, w, e).1)
    ensures VisitsOf(k, s, Attempt(s, w, e).pending, x) >= VisitsOf(k, s, w.pending, x)
  {
    var task := w.pending[e.index];
    var i, delay := ProcessShape(s, Without(w, e.index), task.stepId, e.env);
    QueueRetries(k, s, w.pending, e.index, NewTasks(s, Route(s, task.stepId)[..i], delay),
                 task.(left := task.left - 1), x);
  }

  lemma DoneNotices(s: Settings, w: World, e: Event, x: string)
    requires e.index < |w.pending| && Deliver(s, w, e).1 == Done && IsNotification(s, x)
    ensures NoticesOf(Attempt(s, w, e).notices, x) ==
            NoticesOf(w.notices, x) + if TrimSpace(w.pending[e.index].stepId) == x then 1 else 0
  {
    var rest, stepId := Without(w, e.index), w.pending[e.index].stepId;
    ProcessNotices(s, rest, stepId, e.env);
    NoticesStep(w.notices, Attempt(s, w, e).notices, x);
  }

  /** Visits to come and attempts made, or notification jobs sent, never become fewer together. */
  lemma PersistentStep(k: Weights, s: Settings, w: World, e: Event, x: string)
    requires Suits(k, s) && e.index < |w.pending|
    requires Deliver(s, w, e).1 == Done || Retries(w.pending[e.index], Deliver(s, w, e).1)
    ensures var w' := Attempt(s, w, e);
            && AttemptsOf(w', x) + VisitsOf(k, s, w'.pending, x) >= AttemptsOf(w, x) + VisitsOf(k, s, w.pending, x)
            && (IsNotification(s, x) ==>
                  NoticesOf(w'.notices, x) + VisitsOf(k, s, w'.pending, x) >=
                  NoticesOf(w.notices, x) + VisitsOf(k, s, w.pending, x))
  {
    if Deliver(s, w, e).1 == Done {
      SmoothConserves(k, s, w, e, x);
      SmoothCounts(s, w, e, x);
      if IsNotification(s, x) {
        DoneNotices(s, w, e, x);
      }
    } else {
      RetriedVisits(k, s, w, e, x);
      AttemptCounts(s, w, e, x);
    }
  }

  lemma {:induction false} PersistentRun(k: Weights, s: Settings, w: World, events: seq<Event>, x: string)
    requires Suits(k, s) && IsRun(s, w, events) && Persistent(s, w, events)
    ensures var w' := After(s, w, events);
            && AttemptsOf(w', x) + VisitsOf(k, s, w'.pending, x) >= AttemptsOf(w, x) + VisitsOf(k, s, w.pending, x)
            && (IsNotification(s, x) ==>
                  NoticesOf(w'.notices, x) + VisitsOf(k, s, w'.pending, x) >=
                  NoticesOf(w.notices, x) + VisitsOf(k, s, w.pending, x))
    decreases |events|
  {
    if events != [] {
      PersistentStep(k, s, w, events[0], x);
      PersistentRun(k, s, Attempt(s, w, events[0]), events[1..], x);
    }
  }

  /** Main result with failures: a triggered run that has emptied the queue, and in which no job was given up
      or used up its retries, has attempted every step at least as often as the direct reading visits it, and
      has sent at least that many notification jobs for it if it is a notification step. */
  lemma NothingIsLost(s: Settings, events: seq<Event>, x: string)
    requires s.definition.Some? && Validator.WellFormed(s.definition.value) && s.hasProducer
    requires IsRun(s, Triggered(s), events) && Persistent(s, Triggered(s), events)
    requires After(s, Triggered(s), events).pending == []
    ensures First(s).Some?
    ensures var w, visits := After(s, Triggered(s), events), Visits(WeightsOf(s), s, First(s).value, x);
            AttemptsOf(w, x) >= visits && (IsNotification(s, x) ==> NoticesOf(w.notices, x) >= visits)
  {
    FirstStepExists(s.definition.value);
    assert Triggered(s).pending[..0] == [];
    PersistentRun(WeightsOf(s), s, Triggered(s), events, x);
  }

  // ----- When nothing can fail -----

  /** The circumstances in which no attempt at a step of a validated definition fails. That there are no
      faults includes that the queue refuses no job, on which see Locks. */
  ghost predicate Favourable(s: Settings, env: Env) {
    && s.definition.Some? && Validator.WellFormed(s.definition.value)
    && (forall n | n in s.definition.value.nodes :: Trimmed(n.id))
    && s.hasProducer && s.payload.Some? && env.faults == {}
    && forall n | n in s.definition.value.nodes && n.kind.Notification? ::
         NoticeFor(s, n.id, n.kind.notification, env).Ok?
  }

  lemma ValidNodeProceeds(s: Settings, d: Definition, node: Node, env: Env)
    requires ValidNode(node.kind) && s.hasProducer && s.payload.Some?
    requires node.kind.Notification? ==> NoticeFor(s, node.id, node.kind.notification, env).Ok?
    ensures !Decide(s, d, node, env).Fail?
  {
    if node.kind.Condition? {
      Conditions.EvaluableIffAllowed(s.payload.value, node.kind.condition.value);
    }
  }

  lemma FaultlessCarrySucceeds(s: Settings, w: World, id: string, plan: Plan, env: Env)
    requires id in w.steps && !plan.Fail? && (plan.Schedule? ==> plan.later != [])
    requires s.hasProducer && env.faults == {}
    ensures Carry(s, w, id, plan, env).1 == Done
  {
  }

  lemma FavourableNode(s: Settings, stepId: string, env: Env) returns (node: Node)
    requires Favourable(s, env) && Reachable(s, stepId)
    ensures TrimSpace(stepId) == node.id != "" && FindNode(s.definition.value.nodes, node.id) == Some(node)
    ensures !Decide(s, s.definition.value, node, env).Fail?
  {
    node := ReachableIsNode(s, stepId);
    TrimmedIff(node.id);
    FoundNode(s.definition.value, node);
    ValidNodeProceeds(s, s.definition.value, node, env);
  }

  lemma SucceedsAt(s: Settings, w: World, stepId: string, node: Node, env: Env)
    requires s.definition.Some? && s.hasProducer && env.faults == {}
    requires TrimSpace(stepId) == node.id != "" && FindNode(s.definition.value.nodes, node.id) == Some(node)
    requires !Decide(s, s.definition.value, node, env).Fail?
    ensures Process(s, w, stepId, env).1 == Done
  {
    var w1 := w.(steps := w.steps[node.id := Started(w.steps, node.id)],
                 execution := Execution(Running, Some(node.id), None, None));
    FaultlessCarrySucceeds(s, w1, node.id, Decide(s, s.definition.value, node, env), env);
  }

  lemma FavourableSucceeds(s: Settings, w: World, stepId: string, env: Env)
    requires Favourable(s, env) && Reachable(s, stepId)
    ensures Process(s, w, stepId, env).1 == Done
  {
    var node := FavourableNode(s, stepId, env);
    SucceedsAt(s, w, stepId, node, env);
  }

  /** In such circumstances every run is one without failures. */
  lemma {:induction false} FavourableRunsAreSmooth(s: Settings, w: World, events: seq<Event>)
    requires AllReachable(s, w.pending) && IsRun(s, w, events)
    requires forall e | e in events :: Favourable(s, e.env)
    ensures Smooth(s, w, events)
    decreases |events|
  {
    if events != [] {
      var e := events[0];
      assert e in events && w.pending[e.index] in w.pending;
      assert forall later | later in events[1..] :: later in events;
      FavourableSucceeds(s, Without(w, e.index), w.pending[e.index].stepId, e.env);
      AttemptStaysReachable(s, w, e);
      FavourableRunsAreSmooth(s, Attempt(s, w, e), events[1..]);
    }
  }

  /** Main result, total version: in favourable circumstances a triggered run can be carried through to
      the end, with the execution completed. With the two results above, every other run in such
      circumstances that has emptied the queue ends in the same way. */
  lemma FavourableRunsComplete(s: Settings, env: Env) returns (events: seq<Event>)
    requires Favourable(s, env)
    ensures IsRun(s, Triggered(s), events) && Smooth(s, Triggered(s), events)
    ensures After(s, Triggered(s), events).pending == []
    ensures After(s, Triggered(s), events).execution.status == Completed
  {
    var k, w := WeightsOf(s), Triggered(s);
    FirstStepExists(s.definition.value);
    StartLoad(k, s);
    events := RunsCanFinish(k, s, w, env);
    TriggeredIsReachable(s);
    FavourableRunsAreSmooth(s, w, events);
    SmoothRunIsTidy(s, w, events);
  }
}
