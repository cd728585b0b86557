/** The queue refuses a job while an equal one is pending: step jobs are enqueued with a uniqueness lock on
    their content, which within one execution is the stored id of the step. Which definitions meet it? */
module Locks {
  import opened Wrappers
  import opened Text
  import opened Definitions
  import opened Runtime
  import opened Runs
  import opened Graphs
  import opened Draining
  import opened RunSafety
  import opened Confluence
  import opened Completion
  import Validator

  // ----- The lock -----

  predicate IsPending(pending: seq<Task>, stepId: string) {
    exists i :: 0 <= i < |pending| && pending[i].stepId == stepId
  }

  /** The lock refuses the j-th job of a route if an equal one is pending or has just been queued. */
  predicate Refused(rest: seq<Task>, route: seq<string>, j: nat)
    requires j < |route|
  {
    IsPending(rest, route[j]) || route[j] in route[..j]
  }

  /** The enqueue calls of an attempt that the lock refuses. */
  function LockFaults(rest: seq<Task>, route: seq<string>): set<Call> {
    set j: nat | j < |route| && Refused(rest, route, j) :: EnqueueStep(j)
  }

  /** A delivery under the lock, whatever else fails. */
  predicate Locked(s: Settings, w: World, e: Event)
    requires e.index < |w.pending|
  {
    LockFaults(Without(w, e.index).pending, Route(s, w.pending[e.index].stepId)) <= e.env.faults
  }

  predicate IsLockedRun(s: Settings, w: World, events: seq<Event>)
    requires IsRun(s, w, events)
    decreases |events|
  {
    events == [] || (Locked(s, w, events[0]) && IsLockedRun(s, Attempt(s, w, events[0]), events[1..]))
  }

  /** No two pending jobs are for the same stored id. */
  predicate NoneTwice(pending: seq<Task>) {
    forall i, j | 0 <= i < j < |pending| :: pending[i].stepId != pending[j].stepId
  }

  // ----- What the lock keeps -----

  lemma AcceptedIsNew(rest: seq<Task>, s: Settings, route: seq<string>, i: nat, delay: int, faults: set<Call>)
    requires NoneTwice(rest) && i <= |route| && LockFaults(rest, route) <= faults
    requires forall j: nat | j < i :: EnqueueStep(j) !in faults
    ensures NoneTwice(rest + NewTasks(s, route[..i], delay))
  {
    forall j: nat | j < i
      ensures !IsPending(rest, route[j]) && route[j] !in route[..j]
    {
      assert Refused(rest, route, j) ==> EnqueueStep(j) in LockFaults(rest, route);
    }
    var all := rest + NewTasks(s, route[..i], delay);
    forall a, b | 0 <= a < b < |all|
      ensures all[a].stepId != all[b].stepId
    {
      if b >= |rest| {
        var j := b - |rest|;
        assert all[b].stepId == route[j];
        if a < |rest| {
          assert rest[a].stepId != route[j];
        } else {
          assert route[a - |rest|] in route[..j];
        }
      }
    }
  }

  lemma WithoutOne(pending: seq<Task>, i: nat)
    requires NoneTwice(pending) && i < |pending|
    ensures var rest := pending[..i] + pending[i + 1..];
            NoneTwice(rest) && forall n | 0 <= n < |rest| :: rest[n].stepId != pending[i].stepId
  {
    var rest := pending[..i] + pending[i + 1..];
    assert forall n | 0 <= n < |rest| :: rest[n] == pending[if n < i then n else n + 1];
  }

  lemma OneBack(pending: seq<Task>, again: seq<Task>, stepId: string)
    requires NoneTwice(pending) && |again| <= 1 && (again != [] ==> again[0].stepId == stepId)
    requires forall n | 0 <= n < |pending| :: pending[n].stepId != stepId
    ensures NoneTwice(pending + again)
  {
  }

  /** A step never hands on to itself. */
  lemma NotOwnSuccessor(k: Weights, s: Settings, stepId: string)
    requires Suits(k, s)
    ensures stepId !in Route(s, stepId)
  {
    if stepId in Route(s, stepId) {
      var i :| 0 <= i < |Route(s, stepId)| && Route(s, stepId)[i] == stepId;
      RouteDescends(k, s, stepId, i);
    }
  }

  lemma LockedStep(k: Weights, s: Settings, w: World, e: Event)
    requires Suits(k, s) && e.index < |w.pending| && NoneTwice(w.pending) && Locked(s, w, e)
    ensures NoneTwice(Attempt(s, w, e).pending)
  {
    var stepId, rest := w.pending[e.index].stepId, Without(w, e.index).pending;
    var i, delay, again := AttemptQueue(s, w, e);
    WithoutOne(w.pending, e.index);
    AcceptedIsNew(rest, s, Route(s, stepId), i, delay, e.env.faults);
    NotOwnSuccessor(k, s, stepId);
    OneBack(rest + NewTasks(s, Route(s, stepId)[..i], delay), again, stepId);
  }

  /** Under the lock, with any other faults, no stored id is ever pending twice. */
  lemma {:induction false} LockKeepsNoneTwice(k: Weights, s: Settings, w: World, events: seq<Event>)
    requires Suits(k, s) && IsRun(s, w, events) && IsLockedRun(s, w, events) && NoneTwice(w.pending)
    ensures NoneTwice(After(s, w, events).pending)
    decreases |events|
  {
    if events != [] {
      LockedStep(k, s, w, events[0]);
      LockKeepsNoneTwice(k, s, Attempt(s, w, events[0]), events[1..]);
    }
  }

  /** Main result on what the lock is for. */
  lemma NoStepPendingTwice(s: Settings, events: seq<Event>)
    requires s.definition.Some? && Validator.WellFormed(s.definition.value)
    requires IsRun(s, Triggered(s), events) && IsLockedRun(s, Triggered(s), events)
    ensures NoneTwice(After(s, Triggered(s), events).pending)
  {
    LockKeepsNoneTwice(WeightsOf(s), s, Triggered(s), events);
  }

  // ----- What the lock costs -----

  lemma RefusedIsNotDone(s: Settings, w: World, stepId: string, env: Env, j: nat)
    requires j < |Route(s, stepId)| && EnqueueStep(j) in env.faults
    ensures Process(s, w, stepId, env).1 != Done
  {
    if WritesRow(s, stepId, env) && StartExecution !in env.faults {
      var d, node := s.definition.value, NodeOf(s, stepId, env).value;
      var w1 := w.(steps := w.steps[node.id := Started(w.steps, node.id)],
                   execution := Execution(Running, Some(node.id), None, None));
      if !Decide(s, d, node, env).Fail? {
        DecidedRoute(s, d, node, stepId, env);
        RefusedCarry(s, w1, node.id, Decide(s, d, node, env), env, j);
      }
    }
  }

  lemma RefusedCarry(s: Settings, w: World, id: string, plan: Plan, env: Env, j: nat)
    requires id in w.steps && !plan.Fail? && (plan.Schedule? ==> plan.later != [])
    requires j < |Handed(plan)| && EnqueueStep(j) in env.faults
    ensures Carry(s, w, id, plan, env).1 != Done
  {
  }

  lemma RefusalIsNotDone(s: Settings, w: World, e: Event)
    requires e.index < |w.pending| && Locked(s, w, e)
    requires LockFaults(Without(w, e.index).pending, Route(s, w.pending[e.index].stepId)) != {}
    ensures Deliver(s, w, e).1 != Done
  {
    var rest, route := Without(w, e.index).pending, Route(s, w.pending[e.index].stepId);
    var call :| call in LockFaults(rest, route);
    var j: nat :| j < |route| && Refused(rest, route, j) && call == EnqueueStep(j);
    RefusedIsNotDone(s, Without(w, e.index), w.pending[e.index].stepId, e.env, j);
  }

  /** Under the lock a step with two followed edges to one stored target never succeeds, however often it is
      attempted. */
  lemma ParallelEdgesNeverSucceed(s: Settings, w: World, e: Event, i: nat, j: nat)
    requires e.index < |w.pending| && Locked(s, w, e)
    requires var route := Route(s, w.pending[e.index].stepId); i < j < |route| && route[i] == route[j]
    ensures Deliver(s, w, e).1 != Done
  {
    var rest, route := Without(w, e.index).pending, Route(s, w.pending[e.index].stepId);
    assert route[i] in route[..j] && Refused(rest, route, j);
    assert EnqueueStep(j) in LockFaults(rest, route);
    RefusalIsNotDone(s, w, e);
  }

  // ----- How often a stored id is visited -----

  lemma RouteDescends(k: Weights, s: Settings, stepId: string, i: nat)
    requires Suits(k, s) && i < |Route(s, stepId)|
    ensures Height(k.rank, TrimSpace(Route(s, stepId)[i])) < Height(k.rank, TrimSpace(stepId))
  {
    RouteIsLinked(k, s, stepId, i);
  }

  /** All steps of a route are of smaller height. */
  ghost predicate Below(k: Weights, bound: nat, route: seq<string>) {
    forall r | r in route :: Height(k.rank, TrimSpace(r)) < bound
  }

  lemma RouteIsBelow(k: Weights, s: Settings, stepId: string)
    requires Suits(k, s)
    ensures Below(k, Height(k.rank, TrimSpace(stepId)), Route(s, stepId))
  {
    forall r | r in Route(s, stepId)
      ensures Height(k.rank, TrimSpace(r)) < Height(k.rank, TrimSpace(stepId))
    {
      var i :| 0 <= i < |Route(s, stepId)| && Route(s, stepId)[i] == r;
      RouteDescends(k, s, stepId, i);
    }
  }

  /** The number of ways to get from `stepId` to the stored id `x` along routes. */
  ghost function Ways(k: Weights, s: Settings, stepId: string, x: string): nat
    requires Suits(k, s)
    decreases Height(k.rank, TrimSpace(stepId)), |Route(s, stepId)| + 1
  {
    RouteIsBelow(k, s, stepId);
    (if stepId == x then 1 else 0) + WaysAlong(k, s, Height(k.rank, TrimSpace(stepId)), Route(s, stepId), x)
  }

  ghost function WaysAlong(k: Weights, s: Settings, bound: nat, route: seq<string>, x: string): nat
    requires Suits(k, s) && Below(k, bound, route)
    decreases bound, |route|
  {
    if route == [] then 0
    else
      assert route[|route| - 1] in route;
      WaysAlong(k, s, bound, route[..|route| - 1], x) + Ways(k, s, route[|route| - 1], x)
  }

  ghost function WaysOf(k: Weights, s: Settings, pending: seq<Task>, x: string): nat
    requires Suits(k, s)
  {
    if pending == [] then 0
    else WaysOf(k, s, pending[..|pending| - 1], x) + Ways(k, s, pending[|pending| - 1].stepId, x)
  }

  lemma {:induction false} WaysOfConcat(k: Weights, s: Settings, a: seq<Task>, b: seq<Task>, x: string)
    requires Suits(k, s)
    ensures WaysOf(k, s, a + b, x) == WaysOf(k, s, a, x) + WaysOf(k, s, b, x)
  {
    if b == [] {
      assert a + b == a;
    } else {
      WaysOfConcat(k, s, a, b[..|b| - 1], x);
      ConcatFront(a, b);
    }
  }

  lemma WaysOfOne(k: Weights, s: Settings, task: Task, x: string)
    requires Suits(k, s)
    ensures WaysOf(k, s, [task], x) == Ways(k, s, task.stepId, x)
  {
    assert [task][..0] == [];
  }

  lemma WaysWithout(k: Weights, s: Settings, pending: seq<Task>, i: nat, x: string)
    requires Suits(k, s) && i < |pending|
    ensures WaysOf(k, s, pending, x) ==
            WaysOf(k, s, pending[..i] + pending[i + 1..], x) + Ways(k, s, pending[i].stepId, x)
  {
    assert pending == pending[..i] + [pending[i]] + pending[i + 1..];
    WaysOfOne(k, s, pending[i], x);
    WaysOfConcat(k, s, pending[..i], [pending[i]], x);
    WaysOfConcat(k, s, pending[..i] + [pending[i]], pending[i + 1..], x);
    WaysOfConcat(k, s, pending[..i], pending[i + 1..], x);
  }

  lemma {:induction false} WaysOfRoute(k: Weights, s: Settings, bound: nat, route: seq<string>, delay: int, x: string)
    requires Suits(k, s) && Below(k, bound, route)
    ensures WaysOf(k, s, NewTasks(s, route, delay), x) == WaysAlong(k, s, bound, route, x)
  {
    if route != [] {
      var n := |route| - 1;
      assert route[..n + 1] == route;
      WaysOfRoute(k, s, bound, route[..n], delay, x);
      NewTasksFront(s, route, n + 1, delay);
    }
  }

  lemma QueueWays(k: Weights, s: Settings, pending: seq<Task>, i: nat, route: seq<string>, delay: int, x: string)
    requires Suits(k, s) && i < |pending| && Below(k, Height(k.rank, TrimSpace(pending[i].stepId)), route)
    ensures var bound := Height(k.rank, TrimSpace(pending[i].stepId));
            WaysOf(k, s, pending, x) + WaysAlong(k, s, bound, route, x) ==
            WaysOf(k, s, pending[..i] + pending[i + 1..] + NewTasks(s, route, delay), x) +
            Ways(k, s, pending[i].stepId, x)
  {
    WaysWithout(k, s, pending, i, x);
    WaysOfConcat(k, s, pending[..i] + pending[i + 1..], NewTasks(s, route, delay), x);
    WaysOfRoute(k, s, Height(k.rank, TrimSpace(pending[i].stepId)), route, delay, x);
  }

  /** A successful delivery of a job takes away one way to its own stored id, and leaves all others. */
  lemma SmoothWays(k: Weights, s: Settings, w: World, e: Event, x: string)
    requires Suits(k, s) && e.index < |w.pending| && Deliver(s, w, e).1 == Done
    ensures WaysOf(k, s, w.pending, x) ==
            WaysOf(k, s, Attempt(s, w, e).pending, x) + if w.pending[e.index].stepId == x then 1 else 0
  {
    var stepId := w.pending[e.index].stepId;
    var delay := SmoothQueue(s, w, e);
    RouteIsBelow(k, s, stepId);
    QueueWays(k, s, w.pending, e.index, Route(s, stepId), delay, x);
  }

  lemma OwnWay(k: Weights, s: Settings, stepId: string)
    requires Suits(k, s)
    ensures Ways(k, s, stepId, stepId) >= 1
  {
  }

  lemma {:induction false} AlongGrows(k: Weights, s: Settings, bound: nat, route: seq<string>, n: nat, x: string)
    requires Suits(k, s) && Below(k, bound, route) && n <= |route|
    ensures Below(k, bound, route[..n]) && WaysAlong(k, s, bound, route[..n], x) <= WaysAlong(k, s, bound, route, x)
  {
    if n == |route| {
      assert route[..n] == route;
    } else {
      var front := route[..|route| - 1];
      assert front[..n] == route[..n];
      AlongGrows(k, s, bound, front, n, x);
    }
  }

  lemma AlongAtLeast(k: Weights, s: Settings, bound: nat, route: seq<string>, j: nat, x: string)
    requires Suits(k, s) && Below(k, bound, route) && j < |route| && route[j] == x
    ensures Below(k, bound, route[..j]) && WaysAlong(k, s, bound, route, x) >= WaysAlong(k, s, bound, route[..j], x) + 1
  {
    AlongGrows(k, s, bound, route, j + 1, x);
    assert route[..j + 1][..j] == route[..j];
    OwnWay(k, s, x);
  }

  /** Each place on the route is a way to the id there; two places with one id are two. */
  lemma WaysByRoute(k: Weights, s: Settings, stepId: string, j: nat)
    requires Suits(k, s) && j < |Route(s, stepId)|
    ensures Ways(k, s, stepId, Route(s, stepId)[j]) >= 1
    ensures Route(s, stepId)[j] in Route(s, stepId)[..j] ==> Ways(k, s, stepId, Route(s, stepId)[j]) >= 2
  {
    var route, bound := Route(s, stepId), Height(k.rank, TrimSpace(stepId));
    RouteIsBelow(k, s, stepId);
    AlongAtLeast(k, s, bound, route, j, route[j]);
    if route[j] in route[..j] {
      var i :| 0 <= i < j && route[..j][i] == route[j];
      AlongAtLeast(k, s, bound, route[..j], i, route[j]);
    }
  }

  lemma PendingWay(k: Weights, s: Settings, pending: seq<Task>, i: nat)
    requires Suits(k, s) && i < |pending|
    ensures WaysOf(k, s, pending, pending[i].stepId) >= 1
  {
    OwnWay(k, s, pending[i].stepId);
    WaysWithout(k, s, pending, i, pending[i].stepId);
  }

  /** A refusal means that the refused id could be reached in two ways. */
  lemma RefusalNeedsTwoWays(k: Weights, s: Settings, pending: seq<Task>, index: nat, j: nat)
    requires Suits(k, s) && index < |pending| && j < |Route(s, pending[index].stepId)|
    requires Refused(pending[..index] + pending[index + 1..], Route(s, pending[index].stepId), j)
    ensures WaysOf(k, s, pending, Route(s, pending[index].stepId)[j]) >= 2
  {
    var rest, route := pending[..index] + pending[index + 1..], Route(s, pending[index].stepId);
    WaysWithout(k, s, pending, index, route[j]);
    WaysByRoute(k, s, pending[index].stepId, j);
    if IsPending(rest, route[j]) {
      var i: nat :| i < |rest| && rest[i].stepId == route[j];
      PendingWay(k, s, rest, i);
    }
  }

  // ----- Definitions that never meet the lock -----

  /** A delivery in which nothing fails but what the lock refuses. */
  ghost predicate OnlyLocked(s: Settings, w: World, e: Event)
    requires e.index < |w.pending|
  {
    && Favourable(s, e.env.(faults := {}))
    && e.env.faults == LockFaults(Without(w, e.index).pending, Route(s, w.pending[e.index].stepId))
  }

  ghost predicate IsOnlyLockedRun(s: Settings, w: World, events: seq<Event>)
    requires IsRun(s, w, events)
    decreases |events|
  {
    events == [] || (OnlyLocked(s, w, events[0]) && IsOnlyLockedRun(s, Attempt(s, w, events[0]), events[1..]))
  }

  ghost predicate OneWay(k: Weights, s: Settings, pending: seq<Task>)
    requires Suits(k, s)
  {
    forall x :: WaysOf(k, s, pending, x) <= 1
  }

  lemma OneWayIsNotRefused(k: Weights, s: Settings, w: World, index: nat)
    requires Suits(k, s) && OneWay(k, s, w.pending) && index < |w.pending|
    ensures LockFaults(Without(w, index).pending, Route(s, w.pending[index].stepId)) == {}
  {
    var rest, route := Without(w, index).pending, Route(s, w.pending[index].stepId);
    forall j: nat | j < |route|
      ensures !Refused(rest, route, j)
    {
      assert WaysOf(k, s, w.pending, route[j]) <= 1;
      if Refused(rest, route, j) {
        RefusalNeedsTwoWays(k, s, w.pending, index, j);
      }
    }
  }

  lemma OneWayStep(k: Weights, s: Settings, w: World, e: Event)
    requires Suits(k, s) && OneWay(k, s, w.pending) && AllReachable(s, w.pending)
    requires e.index < |w.pending| && Favourable(s, e.env)
    ensures Deliver(s, w, e).1 == Done
    ensures OneWay(k, s, Attempt(s, w, e).pending) && AllReachable(s, Attempt(s, w, e).pending)
  {
    assert w.pending[e.index] in w.pending;
    FavourableSucceeds(s, Without(w, e.index), w.pending[e.index].stepId, e.env);
    AttemptStaysReachable(s, w, e);
    forall x
      ensures WaysOf(k, s, Attempt(s, w, e).pending, x) <= 1
    {
      SmoothWays(k, s, w, e, x);
      assert WaysOf(k, s, w.pending, x) <= 1;
    }
  }

  lemma {:induction false} OneWayIsSmooth(k: Weights, s: Settings, w: World, events: seq<Event>)
    requires Suits(k, s) && OneWay(k, s, w.pending) && AllReachable(s, w.pending)
    requires IsRun(s, w, events) && IsOnlyLockedRun(s, w, events)
    ensures Smooth(s, w, events)
    decreases |events|
  {
    if events != [] {
      var e := events[0];
      OneWayIsNotRefused(k, s, w, e.index);
      assert e.env.(faults := {}) == e.env;
      OneWayStep(k, s, w, e);
      OneWayIsSmooth(k, s, Attempt(s, w, e), events[1..]);
    }
  }

  /** Conversely a run in which nothing fails is one under the lock then. */
  lemma {:induction false} OneWayIsLocked(k: Weights, s: Settings, w: World, events: seq<Event>)
    requires Suits(k, s) && OneWay(k, s, w.pending) && AllReachable(s, w.pending)
    requires IsRun(s, w, events) && forall e | e in events :: Favourable(s, e.env)
    ensures IsOnlyLockedRun(s, w, events)
    decreases |events|
  {
    if events != [] {
      var e := events[0];
      assert e in events && forall later | later in events[1..] :: later in events;
      OneWayIsNotRefused(k, s, w, e.index);
      assert e.env.(faults := {}) == e.env;
      OneWayStep(k, s, w, e);
      OneWayIsLocked(k, s, Attempt(s, w, e), events[1..]);
    }
  }

  // ----- And those that do -----

  lemma {:induction false} WaysDescend(k: Weights, s: Settings, stepId: string, x: string)
    requires Suits(k, s) && Ways(k, s, stepId, x) > 0
    ensures Height(k.rank, TrimSpace(x)) <= Height(k.rank, TrimSpace(stepId))
    decreases Height(k.rank, TrimSpace(stepId)), |Route(s, stepId)| + 1
  {
    if stepId != x {
      RouteIsBelow(k, s, stepId);
      AlongDescends(k, s, Height(k.rank, TrimSpace(stepId)), Route(s, stepId), x);
    }
  }

  lemma {:induction false} AlongDescends(k: Weights, s: Settings, bound: nat, route: seq<string>, x: string)
    requires Suits(k, s) && Below(k, bound, route) && WaysAlong(k, s, bound, route, x) > 0
    ensures Height(k.rank, TrimSpace(x)) < bound
    decreases bound, |route|
  {
    var n := |route| - 1;
    assert route[n] in route;
    if Ways(k, s, route[n], x) > 0 {
      WaysDescend(k, s, route[n], x);
    } else {
      AlongDescends(k, s, bound, route[..n], x);
    }
  }

  lemma WaysToItself(k: Weights, s: Settings, x: string)
    requires Suits(k, s)
    ensures Ways(k, s, x, x) == 1
  {
    var bound := Height(k.rank, TrimSpace(x));
    RouteIsBelow(k, s, x);
    if WaysAlong(k, s, bound, Route(s, x), x) > 0 {
      AlongDescends(k, s, bound, Route(s, x), x);
    }
  }

  /** With at most one pending job, which is for `x`, there is at most one way to `x`. */
  lemma OnlyOneLeft(k: Weights, s: Settings, pending: seq<Task>, x: string)
    requires Suits(k, s) && NoneTwice(pending) && forall t | t in pending :: t.stepId == x
    ensures WaysOf(k, s, pending, x) <= 1
  {
    if pending != [] {
      var first, last := pending[0], pending[|pending| - 1];
      assert first in pending && last in pending;
      if |pending| >= 2 {
        assert false;
      } else {
        assert pending == [first];
        WaysOfOne(k, s, first, x);
        WaysToItself(k, s, x);
      }
    }
  }

  /** Keeping back the jobs for an id that can be reached in two ways comes to a refusal. */
  lemma {:induction false} FindRefusal(k: Weights, s: Settings, w: World, env: Env, x: string)
    returns (events: seq<Event>)
    requires Suits(k, s) && Favourable(s, env) && AllAlive(w.pending) && AllReachable(s, w.pending)
    requires NoneTwice(w.pending) && WaysOf(k, s, w.pending, x) >= 2
    ensures IsRun(s, w, events) && IsOnlyLockedRun(s, w, events) && !Smooth(s, w, events)
    decreases Load(k, w.pending)
  {
    if i :| 0 <= i < |w.pending| && w.pending[i].stepId != x {
      var faults := LockFaults(Without(w, i).pending, Route(s, w.pending[i].stepId));
      var e := Event(i, env.(faults := faults));
      assert e.env.(faults := {}) == env;
      assert w.pending[i] in w.pending;
      if faults != {} {
        RefusalIsNotDone(s, w, e);
        events := [e];
        NotSmoothNow(s, w, e);
      } else {
        assert e.env == env;
        AttemptShrinks(k, s, w, e);
        AttemptKeepsAlive(s, w, e);
        FavourableSucceeds(s, Without(w, i), w.pending[i].stepId, env);
        SmoothWays(k, s, w, e, x);
        AttemptStaysReachable(s, w, e);
        LockedStep(k, s, w, e);
        var rest := FindRefusal(k, s, Attempt(s, w, e), env, x);
        NotSmoothLater(s, w, e, rest);
        events := [e] + rest;
      }
    } else {
      events := [];
      OnlyOneLeft(k, s, w.pending, x);
    }
  }

  lemma NotSmoothNow(s: Settings, w: World, e: Event)
    requires e.index < |w.pending| && OnlyLocked(s, w, e) && Deliver(s, w, e).1 != Done
    ensures IsRun(s, w, [e]) && IsOnlyLockedRun(s, w, [e]) && !Smooth(s, w, [e])
  {
    assert [e][1..] == [];
    assert IsRun(s, Attempt(s, w, e), []);
  }

  lemma NotSmoothLater(s: Settings, w: World, e: Event, rest: seq<Event>)
    requires e.index < |w.pending| && OnlyLocked(s, w, e) && IsRun(s, Attempt(s, w, e), rest)
    requires IsOnlyLockedRun(s, Attempt(s, w, e), rest) && !Smooth(s, Attempt(s, w, e), rest)
    ensures IsRun(s, w, [e] + rest) && IsOnlyLockedRun(s, w, [e] + rest) && !Smooth(s, w, [e] + rest)
  {
    assert ([e] + rest)[1..] == rest;
  }

  lemma StartWays(k: Weights, s: Settings, x: string)
    requires Suits(k, s) && First(s).Some? && s.hasProducer
    ensures WaysOf(k, s, Triggered(s).pending, x) == Ways(k, s, First(s).value, x)
  {
    WaysOfOne(k, s, NewTask(s, First(s).value, 0), x);
  }

  /** No stored id can be reached from the first step in two ways. */
  ghost predicate OnePath(s: Settings)
    requires s.definition.Some? && Validator.WellFormed(s.definition.value) && First(s).Some?
  {
    forall x :: Ways(WeightsOf(s), s, First(s).value, x) <= 1
  }

  lemma OnePathIsOneWay(s: Settings)
    requires s.definition.Some? && Validator.WellFormed(s.definition.value) && First(s).Some? && s.hasProducer
    ensures OnePath(s) <==> OneWay(WeightsOf(s), s, Triggered(s).pending)
  {
    var k, pending := WeightsOf(s), Triggered(s).pending;
    forall x
      ensures WaysOf(k, s, pending, x) == Ways(k, s, First(s).value, x)
    {
      StartWays(k, s, x);
    }
  }

  /** Main result on the lock: every run in which nothing fails but what the lock refuses is one in which
      nothing fails at all, so that the lock is never met, if and only if no stored id can be reached from
      the first step in two ways. */
  lemma LockNeverMetIff(s: Settings, env: Env)
    requires Favourable(s, env)
    ensures First(s).Some?
    ensures OnePath(s) <==>
            forall events | IsRun(s, Triggered(s), events) && IsOnlyLockedRun(s, Triggered(s), events) ::
              Smooth(s, Triggered(s), events)
  {
    FirstStepExists(s.definition.value);
    var k, w := WeightsOf(s), Triggered(s);
    TriggeredIsReachable(s);
    OnePathIsOneWay(s);
    if OnePath(s) {
      forall events | IsRun(s, w, events) && IsOnlyLockedRun(s, w, events)
        ensures Smooth(s, w, events)
      {
        OneWayIsSmooth(k, s, w, events);
      }
    } else {
      var x :| Ways(k, s, First(s).value, x) > 1;
      StartLoad(k, s);
      StartWays(k, s, x);
      var events := FindRefusal(k, s, w, env, x);
    }
  }

  /** For such definitions the runs in which nothing fails exist under the lock too: a triggered run can be
      carried through to the end, with the execution completed. */
  lemma LockedRunsComplete(s: Settings, env: Env) returns (events: seq<Event>)
    requires Favourable(s, env) && First(s).Some? && OnePath(s)
    ensures IsRun(s, Triggered(s), events) && IsOnlyLockedRun(s, Triggered(s), events)
    ensures After(s, Triggered(s), events).pending == []
    ensures After(s, Triggered(s), events).execution.status == Completed
  {
    var k, w := WeightsOf(s), Triggered(s);
    StartLoad(k, s);
    events := RunsCanFinish(k, s, w, env);
    TriggeredIsReachable(s);
    OnePathIsOneWay(s);
    FavourableRunsAreSmooth(s, w, events);
    SmoothRunIsTidy(s, w, events);
    OneWayIsLocked(k, s, w, events);
  }

  // ----- A definition that meets the lock -----

  function Twin(): Settings {
    Settings(Some(Definition("signup", [Node("a", Trigger), Node("b", Trigger)], ForkEdges("a", "b", "b"))),
             None, Some(map[]), true, 5)
  }

  lemma TwinNodes(a: Node, b: Node)
    requires a.kind == b.kind == Trigger && a.id != b.id
    requires TrimSpace(a.id) == a.id != "" && TrimSpace(b.id) == b.id != ""
    ensures Validator.NodesOk([a, b]) && Validator.EdgesOk([a, b], ForkEdges(a.id, b.id, b.id))
  {
    assert a in [a, b] && b in [a, b];
    assert Validator.HasId([a, b], a.id) && Validator.HasId([a, b], b.id);
  }

  lemma TwinValidates()
    ensures TriggersOnly(Twin())
  {
    ForkLiterals();
    TwinNodes(Node("a", Trigger), Node("b", Trigger));
    ForkGraph("a", "b", "b");
  }

  lemma TwinStarts()
    ensures First(Twin()) == Some("a") && Route(Twin(), "a") == ["b", "b"]
  {
    ForkLiterals();
    ForkRoute("a", "b", "b");
  }

  /** A validated definition of two steps, with two edges between them, whose first step never succeeds under
      the lock, although nothing else fails. */
  lemma TwinNeverSucceeds(w: World, e: Event)
    requires e.index < |w.pending| && w.pending[e.index].stepId == "a" && Locked(Twin(), w, e)
    ensures Validator.WellFormed(Twin().definition.value) && First(Twin()) == Some("a")
    ensures Deliver(Twin(), w, e).1 != Done
  {
    TwinValidates();
    TwinStarts();
    ParallelEdgesNeverSucceed(Twin(), w, e, 0, 1);
  }
}
