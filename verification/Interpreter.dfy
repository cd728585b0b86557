/** Definitions in which every step hands on to at most one step: the queue machine is then a plain
    interpreter that carries out one step after the other. */
module Interpreter {
  import opened Wrappers
  import opened Text
  import opened Definitions
  import opened Runtime
  import opened Runs
  import opened Draining
  import opened RunSafety
  import opened Confluence
  import Channels
  import Validator

  /** No step that the run can reach hands on to two. */
  ghost predicate Narrow(s: Settings) {
    forall stepId | Reachable(s, stepId) :: |Route(s, stepId)| <= 1
  }

  /** The direct interpreter: carry out the step, then go on with the one step it hands on to. */
  ghost function Trace(k: Weights, s: Settings, stepId: string): (trace: seq<string>)
    requires Suits(k, s) && Narrow(s) && Reachable(s, stepId)
    ensures trace != [] && trace[0] == TrimSpace(stepId)
    decreases Height(k.rank, TrimSpace(stepId))
  {
    var route := Route(s, stepId);
    if route == [] then [TrimSpace(stepId)]
    else
      RouteIsLinked(k, s, stepId, 0);
      ReachableStep(s, stepId, route[0]);
      [TrimSpace(stepId)] + Trace(k, s, route[0])
  }

  /** An interpreter never comes back to a step: ranks go down along a trace. */
  lemma {:induction false} TraceDescends(k: Weights, s: Settings, stepId: string)
    requires Suits(k, s) && Narrow(s) && Reachable(s, stepId)
    ensures forall x | x in Trace(k, s, stepId) :: Height(k.rank, x) <= Height(k.rank, TrimSpace(stepId))
    ensures Channels.Distinct(Trace(k, s, stepId))
    decreases Height(k.rank, TrimSpace(stepId))
  {
    var route := Route(s, stepId);
    if route != [] {
      RouteIsLinked(k, s, stepId, 0);
      ReachableStep(s, stepId, route[0]);
      TraceDescends(k, s, route[0]);
      var rest := Trace(k, s, route[0]);
      assert TrimSpace(stepId) !in rest;
    }
  }

  lemma VisitsOfNarrowStep(k: Weights, s: Settings, stepId: string, x: string)
    requires Suits(k, s) && |Route(s, stepId)| <= 1
    ensures Visits(k, s, stepId, x) ==
            (if TrimSpace(stepId) == x then 1 else 0) +
            if Route(s, stepId) == [] then 0 else Visits(k, s, Route(s, stepId)[0], x)
  {
    NarrowBelow(k, s, stepId, |Route(s, stepId)|, x);
  }

  lemma NarrowBelow(k: Weights, s: Settings, stepId: string, i: nat, x: string)
    requires Suits(k, s) && i <= |Route(s, stepId)| && i <= 1
    ensures VisitsBelow(k, s, stepId, i, x) == if i == 0 then 0 else Visits(k, s, Route(s, stepId)[0], x)
  {
    assert VisitsBelow(k, s, stepId, 0, x) == 0;
  }

  /** The steps visited by the direct reading are those of the trace, once each. */
  lemma {:induction false} TraceVisits(k: Weights, s: Settings, stepId: string, x: string)
    requires Suits(k, s) && Narrow(s) && Reachable(s, stepId)
    ensures Visits(k, s, stepId, x) == if x in Trace(k, s, stepId) then 1 else 0
    decreases Height(k.rank, TrimSpace(stepId))
  {
    var route := Route(s, stepId);
    VisitsOfNarrowStep(k, s, stepId, x);
    if route != [] {
      RouteIsLinked(k, s, stepId, 0);
      ReachableStep(s, stepId, route[0]);
      TraceVisits(k, s, route[0], x);
      TraceDescends(k, s, route[0]);
    }
  }

  /** The steps in the order in which a run attempts them. */
  function Processed(s: Settings, w: World, events: seq<Event>): seq<string>
    requires IsRun(s, w, events)
    decreases |events|
  {
    if events == [] then []
    else [TrimSpace(w.pending[events[0].index].stepId)] + Processed(s, Attempt(s, w, events[0]), events[1..])
  }

  /** What is left to do when at most one job is pending. */
  ghost function Rest(k: Weights, s: Settings, pending: seq<Task>): seq<string>
    requires Suits(k, s) && Narrow(s) && AllReachable(s, pending) && |pending| <= 1
  {
    if pending == [] then []
    else
      assert pending[0] in pending;
      Trace(k, s, pending[0].stepId)
  }

  lemma OneStep(k: Weights, s: Settings, w: World, e: Event)
    requires Suits(k, s) && Narrow(s) && AllReachable(s, w.pending) && |w.pending| <= 1
    requires e.index < |w.pending| && Deliver(s, w, e).1 == Done
    ensures var w' := Attempt(s, w, e);
            && AllReachable(s, w'.pending) && |w'.pending| <= 1
            && Rest(k, s, w.pending) == [TrimSpace(w.pending[e.index].stepId)] + Rest(k, s, w'.pending)
            && (w'.execution.status == Completed <==> w'.pending == [])
  {
    var stepId := w.pending[0].stepId;
    assert w.pending[0] in w.pending && Reachable(s, stepId);
    AttemptStaysReachable(s, w, e);
    var i, delay := ProcessShape(s, Without(w, e.index), stepId, e.env);
    assert Without(w, e.index).pending == [];
    assert Route(s, stepId)[..|Route(s, stepId)|] == Route(s, stepId);
    assert Attempt(s, w, e).pending == NewTasks(s, Route(s, stepId), delay);
  }

  lemma Prepend(step: string, rest: seq<string>, done: seq<string>, left: seq<string>)
    requires rest == done + left
    ensures [step] + rest == ([step] + done) + left
  {
  }

  lemma {:induction false} StepByStep(k: Weights, s: Settings, w: World, events: seq<Event>)
    requires Suits(k, s) && Narrow(s) && AllReachable(s, w.pending) && |w.pending| <= 1
    requires IsRun(s, w, events) && Smooth(s, w, events)
    ensures var w' := After(s, w, events);
            && AllReachable(s, w'.pending) && |w'.pending| <= 1
            && Rest(k, s, w.pending) == Processed(s, w, events) + Rest(k, s, w'.pending)
            && (events != [] ==> (w'.execution.status == Completed <==> w'.pending == []))
    decreases |events|
  {
    if events != [] {
      var next := Attempt(s, w, events[0]);
      OneStep(k, s, w, events[0]);
      StepByStep(k, s, next, events[1..]);
      Prepend(TrimSpace(w.pending[events[0].index].stepId), Rest(k, s, next.pending), Processed(s, next, events[1..]),
              Rest(k, s, After(s, next, events[1..]).pending));
    }
  }

  lemma StartOfTrace(k: Weights, s: Settings)
    requires Suits(k, s) && Narrow(s) && First(s).Some? && s.hasProducer
    ensures var w := Triggered(s);
            && AllReachable(s, w.pending) && |w.pending| == 1 && Reachable(s, First(s).value)
            && Rest(k, s, w.pending) == Trace(k, s, First(s).value)
            && w.execution.status == Queued
  {
    TriggeredIsReachable(s);
    assert Triggered(s).pending[0] in Triggered(s).pending;
  }

  /** Main result: if no reachable step hands on to two steps, then at every moment of a triggered
      run without failures at most one job is pending, the steps attempted so far are a first part
      of the interpreter's trace, and the execution is completed exactly when the queue is empty, so
      that "completed" is final; by then the whole trace has been carried out. */
  lemma RunsTheTrace(s: Settings, events: seq<Event>)
    requires s.definition.Some? && Validator.WellFormed(s.definition.value) && s.hasProducer
    requires Narrow(s)
    requires IsRun(s, Triggered(s), events) && Smooth(s, Triggered(s), events)
    ensures First(s).Some? && Reachable(s, First(s).value)
    ensures var w := After(s, Triggered(s), events);
            var trace := Trace(WeightsOf(s), s, First(s).value);
            && |w.pending| <= 1
            && Processed(s, Triggered(s), events) <= trace
            && (w.execution.status == Completed <==> w.pending == [])
            && (w.pending == [] ==> Processed(s, Triggered(s), events) == trace)
  {
    FirstStepExists(s.definition.value);
    var k := WeightsOf(s);
    StartOfTrace(k, s);
    StepByStep(k, s, Triggered(s), events);
  }

  /** And each step of the trace has then been attempted once, and no other step at all. */
  lemma EachStepOnce(s: Settings, events: seq<Event>, x: string)
    requires s.definition.Some? && Validator.WellFormed(s.definition.value) && s.hasProducer
    requires Narrow(s) && First(s).Some? && Reachable(s, First(s).value)
    requires IsRun(s, Triggered(s), events) && Smooth(s, Triggered(s), events)
    requires After(s, Triggered(s), events).pending == []
    ensures AttemptsOf(After(s, Triggered(s), events), x) ==
            if x in Trace(WeightsOf(s), s, First(s).value) then 1 else 0
  {
    SmoothRunsAgree(s, events, x);
    TraceVisits(WeightsOf(s), s, First(s).value, x);
  }
}
