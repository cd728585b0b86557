/** Every run of a validated definition comes to an end: the absence of cycles that the validator
    checks bounds the number of attempts, however jobs are ordered, delayed, refused and retried. */
module Draining {
  import opened Text
  import opened Definitions
  import opened Runtime
  import opened Runs
  import opened Graphs
  import Validator

  /** The graph of a definition, a rank of it, and the number of retries of a job. */
  datatype Weights = Weights(graph: Graph, rank: map<string, nat>, retries: nat) {
    ghost predicate Valid() {
      Ranked(graph, rank)
    }
  }

  function Height(rank: map<string, nat>, n: string): nat {
    if n in rank then rank[n] + 1 else 0
  }

  /** The most attempts that a fresh job for `n` can cause, its own attempts included:
      (retries + 1) * (1 + the cost of one fresh job for every edge out of `n`). */
  ghost function Cost(k: Weights, n: string): nat
    requires k.Valid()
    decreases Height(k.rank, n), |Successors(k.graph, n)| + 1
  {
    (k.retries + 1) * (1 + CostUpTo(k, n, |Successors(k.graph, n)|))
  }

  ghost function CostUpTo(k: Weights, n: string, i: nat): nat
    requires k.Valid() && i <= |Successors(k.graph, n)|
    decreases Height(k.rank, n), i
  {
    if i == 0 then 0
    else
      var next := Successors(k.graph, n)[i - 1];
      assert Linked(k.graph, n, next);
      CostUpTo(k, n, i - 1) + Cost(k, next)
  }

  /** The attempts that one attempt at `n` can cause, not counting itself. */
  ghost function Aftermath(k: Weights, n: string): nat
    requires k.Valid()
  {
    CostUpTo(k, n, |Successors(k.graph, n)|)
  }

  ghost function Total(k: Weights, ids: seq<string>): nat
    requires k.Valid()
  {
    if ids == [] then 0 else Total(k, ids[..|ids| - 1]) + Cost(k, ids[|ids| - 1])
  }

  ghost function TrimmedTotal(k: Weights, ids: seq<string>): nat
    requires k.Valid()
  {
    if ids == [] then 0 else TrimmedTotal(k, ids[..|ids| - 1]) + Cost(k, TrimSpace(ids[|ids| - 1]))
  }

  /** The number does not depend on which rank of the graph is taken. */
  lemma {:induction false} CostIsUnique(k: Weights, other: map<string, nat>, n: string)
    requires k.Valid() && Ranked(k.graph, other)
    ensures Cost(k, n) == Cost(k.(rank := other), n)
    decreases Height(k.rank, n), |Successors(k.graph, n)| + 1
  {
    CostUpToIsUnique(k, other, n, |Successors(k.graph, n)|);
  }

  lemma {:induction false} CostUpToIsUnique(k: Weights, other: map<string, nat>, n: string, i: nat)
    requires k.Valid() && Ranked(k.graph, other)
    requires i <= |Successors(k.graph, n)|
    ensures CostUpTo(k, n, i) == CostUpTo(k.(rank := other), n, i)
    decreases Height(k.rank, n), i
  {
    if i > 0 {
      assert Linked(k.graph, n, Successors(k.graph, n)[i - 1]);
      CostUpToIsUnique(k, other, n, i - 1);
      CostIsUnique(k, other, Successors(k.graph, n)[i - 1]);
    }
  }

  lemma {:induction false} AftermathIsTotal(k: Weights, n: string, i: nat)
    requires k.Valid() && i <= |Successors(k.graph, n)|
    ensures CostUpTo(k, n, i) == Total(k, Successors(k.graph, n)[..i])
  {
    if i > 0 {
      AftermathIsTotal(k, n, i - 1);
      assert Successors(k.graph, n)[..i][..i - 1] == Successors(k.graph, n)[..i - 1];
    }
  }

  lemma {:induction false} TotalOfPrefix(k: Weights, ids: seq<string>, i: nat)
    requires k.Valid() && i <= |ids|
    ensures TrimmedTotal(k, ids[..i]) <= TrimmedTotal(k, ids)
  {
    if i < |ids| {
      TotalOfPrefix(k, ids[..|ids| - 1], i);
      assert ids[..|ids| - 1][..i] == ids[..i];
    } else {
      assert ids[..i] == ids;
    }
  }

  lemma TotalOfAppend(k: Weights, ids: seq<string>, id: string)
    requires k.Valid()
    ensures Total(k, ids + [id]) == Total(k, ids) + Cost(k, id)
    ensures TrimmedTotal(k, ids + [id]) == TrimmedTotal(k, ids) + Cost(k, TrimSpace(id))
  {
    assert (ids + [id])[..|ids|] == ids;
  }

  /** The followed edges are among the edges of the graph. */
  lemma {:induction false} FollowedCost(k: Weights, edges: seq<Edge>, id: string, branch: string)
    requires k.Valid() && TrimSpace(id) == id
    ensures TrimmedTotal(k, Followed(edges, id, branch)) <= Total(k, Validator.Targets(edges, id))
  {
    if edges != [] {
      var front, last := edges[..|edges| - 1], edges[|edges| - 1];
      FollowedCost(k, front, id, branch);
      TotalOfAppend(k, Followed(front, id, branch), last.target);
      TotalOfAppend(k, Validator.Targets(front, id), TrimSpace(last.target));
    }
  }

  // ----- The measure of a queue -----

  ghost function TaskLoad(k: Weights, task: Task): nat
    requires k.Valid()
  {
    task.left * (1 + Aftermath(k, TrimSpace(task.stepId)))
  }

  ghost function Load(k: Weights, pending: seq<Task>): nat
    requires k.Valid()
  {
    if pending == [] then 0 else Load(k, pending[..|pending| - 1]) + TaskLoad(k, pending[|pending| - 1])
  }

  lemma {:induction false} LoadOfConcat(k: Weights, a: seq<Task>, b: seq<Task>)
    requires k.Valid()
    ensures Load(k, a + b) == Load(k, a) + Load(k, b)
  {
    if b == [] {
      assert a + b == a;
    } else {
      LoadOfConcat(k, a, b[..|b| - 1]);
      assert (a + b)[..|a + b| - 1] == a + b[..|b| - 1];
    }
  }

  lemma LoadWithout(k: Weights, pending: seq<Task>, i: nat)
    requires k.Valid() && i < |pending|
    ensures Load(k, pending) == Load(k, pending[..i] + pending[i + 1..]) + TaskLoad(k, pending[i])
  {
    var task := [pending[i]];
    assert pending == pending[..i] + task + pending[i + 1..];
    LoadOfConcat(k, pending[..i], task);
    LoadOfConcat(k, pending[..i] + task, pending[i + 1..]);
    LoadOfConcat(k, pending[..i], pending[i + 1..]);
    assert Load(k, task[..0]) == 0;
  }

  lemma {:induction false} LoadOfNewTasks(k: Weights, s: Settings, ids: seq<string>, delay: int)
    requires k.Valid() && k.retries == s.maxRetry
    ensures Load(k, NewTasks(s, ids, delay)) == TrimmedTotal(k, ids)
  {
    if ids != [] {
      var front, last := ids[..|ids| - 1], ids[|ids| - 1];
      LoadOfNewTasks(k, s, front, delay);
      NewTasksNext(s, ids, delay);
      LoadNext(k, NewTasks(s, front, delay), NewTask(s, last, delay));
      LoadOfNewTask(k, s, last, delay);
    }
  }

  lemma NewTasksNext(s: Settings, ids: seq<string>, delay: int)
    requires ids != []
    ensures NewTasks(s, ids, delay) ==
            NewTasks(s, ids[..|ids| - 1], delay) + [NewTask(s, ids[|ids| - 1], delay)]
  {
  }

  lemma LoadOfNewTask(k: Weights, s: Settings, id: string, delay: int)
    requires k.Valid() && k.retries == s.maxRetry
    ensures TaskLoad(k, NewTask(s, id, delay)) == Cost(k, TrimSpace(id))
  {
  }

  lemma LoadNext(k: Weights, pending: seq<Task>, task: Task)
    requires k.Valid()
    ensures Load(k, pending + [task]) == Load(k, pending) + TaskLoad(k, task)
  {
    assert (pending + [task])[..|pending|] == pending;
  }

  ghost predicate Suits(k: Weights, s: Settings) {
    && k.Valid()
    && k.retries == s.maxRetry
    && s.definition.Some?
    && k.graph == Validator.Adjacency(s.definition.value.edges)
  }

  /** What one attempt adds to the queue costs no more than its aftermath. */
  lemma RouteCost(k: Weights, s: Settings, stepId: string, i: nat)
    requires Suits(k, s) && i <= |Route(s, stepId)|
    ensures TrimmedTotal(k, Route(s, stepId)[..i]) <= Aftermath(k, TrimSpace(stepId))
  {
    var id, edges := TrimSpace(stepId), s.definition.value.edges;
    var route := Route(s, stepId);
    TrimIdempotent(stepId);
    TotalOfPrefix(k, route, i);
    Validator.AdjacencyTargets(edges, id);
    AftermathIsTotal(k, id, |Successors(k.graph, id)|);
    assert Successors(k.graph, id)[..|Successors(k.graph, id)|] == Validator.Targets(edges, id);
    var branch := RouteIsFollowed(s, stepId);
    FollowedCost(k, edges, id, branch);
  }

  lemma LoadOfOne(k: Weights, task: Task)
    requires k.Valid()
    ensures Load(k, [task]) == TaskLoad(k, task)
  {
    assert [task][..0] == [];
  }

  /** Every attempt makes the measure smaller: the job itself loses an attempt, and what it hands
      on weighs at most the rest of that attempt's share. */
  lemma AttemptShrinks(k: Weights, s: Settings, w: World, e: Event)
    requires Suits(k, s)
    requires e.index < |w.pending| && w.pending[e.index].left > 0
    ensures Load(k, Attempt(s, w, e).pending) < Load(k, w.pending)
  {
    var i, delay, again := AttemptQueue(s, w, e);
    var stepId := w.pending[e.index].stepId;
    RouteCost(k, s, stepId, i);
    LoadOfNewTasks(k, s, Route(s, stepId)[..i], delay);
    QueueShrinks(k, w.pending, e.index, NewTasks(s, Route(s, stepId)[..i], delay), again);
  }

  lemma QueueShrinks(k: Weights, pending: seq<Task>, index: nat, added: seq<Task>, again: seq<Task>)
    requires k.Valid()
    requires index < |pending| && pending[index].left > 0
    requires Load(k, added) <= Aftermath(k, TrimSpace(pending[index].stepId))
    requires again == [] || again == [pending[index].(left := pending[index].left - 1)]
    ensures Load(k, pending[..index] + pending[index + 1..] + added + again) < Load(k, pending)
  {
    var rest := pending[..index] + pending[index + 1..];
    LoadWithout(k, pending, index);
    LoadOfConcat(k, rest, added);
    LoadOfConcat(k, rest + added, again);
    AgainShrinks(k, pending[index], again);
  }

  lemma AgainShrinks(k: Weights, task: Task, again: seq<Task>)
    requires k.Valid() && task.left > 0
    requires again == [] || again == [task.(left := task.left - 1)]
    ensures Load(k, again) + Aftermath(k, TrimSpace(task.stepId)) < TaskLoad(k, task)
  {
    ShareOfAttempt(task.left, 1 + Aftermath(k, TrimSpace(task.stepId)));
    if again != [] {
      LoadOfOne(k, again[0]);
    }
  }

  lemma ShareOfAttempt(left: nat, share: nat)
    requires left > 0
    ensures left * share == (left - 1) * share + share
  {
  }

  ghost predicate AllAlive(pending: seq<Task>) {
    forall t | t in pending :: t.left > 0
  }

  lemma AttemptKeepsAlive(s: Settings, w: World, e: Event)
    requires e.index < |w.pending| && AllAlive(w.pending)
    ensures AllAlive(Attempt(s, w, e).pending)
  {
    var i, delay, again := AttemptQueue(s, w, e);
  }

  /** Over a whole run, attempts made and measure left never exceed the measure at the start. */
  lemma {:induction false} RunShrinks(k: Weights, s: Settings, w: World, events: seq<Event>)
    requires Suits(k, s) && AllAlive(w.pending) && IsRun(s, w, events)
    ensures |events| + Load(k, After(s, w, events).pending) <= Load(k, w.pending)
    ensures AllAlive(After(s, w, events).pending)
    decreases |events|
  {
    if events != [] {
      assert w.pending[events[0].index] in w.pending;
      AttemptShrinks(k, s, w, events[0]);
      AttemptKeepsAlive(s, w, events[0]);
      RunShrinks(k, s, Attempt(s, w, events[0]), events[1..]);
    }
  }

  ghost function WeightsOf(s: Settings): (k: Weights)
    requires s.definition.Some? && Validator.WellFormed(s.definition.value)
    ensures Suits(k, s)
  {
    var g := Validator.Adjacency(s.definition.value.edges);
    AcyclicIffRanked(g);
    var rank :| Ranked(g, rank);
    Weights(g, rank, s.maxRetry)
  }

  lemma StartLoad(k: Weights, s: Settings)
    requires Suits(k, s) && First(s).Some?
    ensures Load(k, Triggered(s).pending) <= Cost(k, TrimSpace(First(s).value))
    ensures AllAlive(Triggered(s).pending)
  {
    LoadOfOne(k, NewTask(s, First(s).value, 0));
  }

  /** Main result: for every validated definition, every order of deliveries, every combination of
      failing calls and every number of retries, a triggered run makes at most Cost(first step)
      attempts. As a delivery is possible whenever a job is pending, the queue ends up empty. */
  lemma EveryRunDrains(s: Settings, events: seq<Event>)
    requires s.definition.Some? && Validator.WellFormed(s.definition.value)
    requires IsRun(s, Triggered(s), events)
    ensures First(s).Some?
    ensures |events| <= Cost(WeightsOf(s), TrimSpace(First(s).value))
    ensures |events| == Cost(WeightsOf(s), TrimSpace(First(s).value)) ==> After(s, Triggered(s), events).pending == []
  {
    FirstStepExists(s.definition.value);
    var k, w := WeightsOf(s), Triggered(s);
    StartLoad(k, s);
    RunShrinks(k, s, w, events);
    var left := After(s, w, events).pending;
    if left != [] {
      assert left[|left| - 1] in left;
      PositiveLoad(k, left[|left| - 1]);
    }
  }

  /** A run that has jobs left can be carried on until it has none, whatever its deliveries meet. */
  lemma {:induction false} RunsCanFinish(k: Weights, s: Settings, w: World, env: Env) returns (events: seq<Event>)
    requires Suits(k, s) && AllAlive(w.pending)
    ensures IsRun(s, w, events) && After(s, w, events).pending == []
    ensures forall e | e in events :: e.env == env
    decreases Load(k, w.pending)
  {
    events := [];
    if w.pending != [] {
      var e := Event(0, env);
      assert w.pending[0] in w.pending;
      AttemptShrinks(k, s, w, e);
      AttemptKeepsAlive(s, w, e);
      var rest := RunsCanFinish(k, s, Attempt(s, w, e), env);
      events := [e] + rest;
      assert events[1..] == rest;
    }
  }

  lemma PositiveLoad(k: Weights, task: Task)
    requires k.Valid() && task.left > 0
    ensures TaskLoad(k, task) > 0
  {
    ShareOfAttempt(task.left, 1 + Aftermath(k, TrimSpace(task.stepId)));
  }
}
