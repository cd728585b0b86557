/** ProcessStep and its handlers: one attempt at one step of one workflow execution. */
module Runtime {
  import opened Wrappers
  import opened Text
  import opened Definitions
  import Channels
  import Conditions

  // ----- Rows and jobs -----

  datatype Status = Queued | Running | Completed | Failed

  datatype Execution = Execution(status: Status, currentStep: Option<string>,
                                 completedAt: Option<int>, failedAt: Option<int>)

  datatype StepRow = StepRow(status: Status, attempts: nat, completedAt: Option<int>, failedAt: Option<int>)

  /** A step job in the queue; `left` is how often the queue will still hand it out. */
  datatype Task = Task(stepId: string, delay: int, left: nat)

  datatype Recipient = Email(address: string) | Phone(number: string) | Push(token: string)

  datatype Notice = Notice(stepId: string, channel: string, template: Uuid, recipient: Recipient)

  datatype World = World(execution: Execution, steps: map<string, StepRow>,
                         pending: seq<Task>, notices: seq<Notice>)

  // ----- What stays fixed during a run, and what each attempt meets -----

  /** `definition` and `payload` are None where the stored JSON does not decode. */
  datatype Settings = Settings(definition: Option<Definition>, subscriber: Option<Uuid>,
                               payload: Option<map<string, Json>>, hasProducer: bool, maxRetry: nat)

  datatype Subscriber = Subscriber(email: Option<string>, phone: Option<string>, pushToken: Option<string>)

  datatype Template = Template(channel: string, isActive: bool)

  /** The calls of one attempt that can fail. */
  datatype Call =
    | GetExecution | GetWorkflow | GetStepRow | StartStepRow | StartExecution
    | GetSubscriber | GetTemplate | BuildVariables | Render | EnqueueNotice
    | EnqueueStep(index: nat)
    | FinishStepRow | FinishExecution

  datatype Env = Env(now: int, faults: set<Call>,
                     subscribers: map<Uuid, Subscriber>, templates: map<Uuid, Template>)

  datatype Error =
    | InvalidWorkflow | InvalidWorkflowEvent
    | StoreError | QueueError | NoProducer | NoSubscriber | NotOneChannel | BadTemplateId
    | TemplateInactive | ChannelMismatch | BadDefinition | BadPayload | RenderError | NoTarget

  datatype Outcome = Done | Failure(error: Error)

  // ----- Decision: what an attempt at a node sets out to do -----

  datatype Plan =
    | Fail(error: Error)
    | Dispatch(next: seq<string>, notice: Option<Notice>)
    | Schedule(later: seq<string>, delay: int)

  function Target(contact: Option<string>): Option<string> {
    if contact.Some? && TrimSpace(contact.value) != "" then Some(TrimSpace(contact.value)) else None
  }

  /** buildRuntimeRecipient */
  function RecipientFor(s: Subscriber, channel: string): Option<Recipient> {
    if channel == "email" && Target(s.email).Some? then Some(Email(Target(s.email).value))
    else if channel == "sms" && Target(s.phone).Some? then Some(Phone(Target(s.phone).value))
    else if channel == "push" && Target(s.pushToken).Some? then Some(Push(Target(s.pushToken).value))
    else None
  }

  /** The checks of handleNotificationStep, in its order. */
  function NoticeFor(s: Settings, id: string, config: Option<NotificationConfig>, env: Env): Result<Notice, Error> {
    if s.subscriber.None? then Err(NoSubscriber)
    else if !s.hasProducer then Err(NoProducer)
    else if config.None? then Err(InvalidWorkflow)
    else NoticeOn(s, id, Channels.Strict(config.value.channels), config.value.template.parsed, env)
  }

  /** The rest of the checks, once the configuration is read. */
  function NoticeOn(s: Settings, id: string, channels: Option<seq<string>>, template: Option<Uuid>, env: Env)
    : Result<Notice, Error>
    requires s.subscriber.Some?
  {
    if channels.None? || |channels.value| != 1 then Err(NotOneChannel)
    else if template.None? then Err(BadTemplateId)
    else if GetSubscriber in env.faults || s.subscriber.value !in env.subscribers then Err(StoreError)
    else if GetTemplate in env.faults || template.value !in env.templates then Err(StoreError)
    else if !env.templates[template.value].isActive then Err(TemplateInactive)
    else if env.templates[template.value].channel != channels.value[0] then Err(ChannelMismatch)
    else if s.payload.None? || BuildVariables in env.faults then Err(BadPayload)
    else if Render in env.faults then Err(RenderError)
    else
      var recipient := RecipientFor(env.subscribers[s.subscriber.value], channels.value[0]);
      if recipient.None? then Err(NoTarget)
      else if EnqueueNotice in env.faults then Err(QueueError)
      else Ok(Notice(id, channels.value[0], template.value, recipient.value))
  }

  function BranchName(b: bool): string {
    if b then "true" else "false"
  }

  function Decide(s: Settings, d: Definition, node: Node, env: Env): Plan {
    match node.kind
    case Trigger => Dispatch(Followed(d.edges, node.id, ""), None)
    case Delay(config) =>
      if config.None? || config.value.duration.None? then Fail(InvalidWorkflow)
      else
        var next := Followed(d.edges, node.id, "");
        if next == [] then Dispatch([], None)
        else if !s.hasProducer then Fail(NoProducer)
        else Schedule(next, config.value.duration.value)
    case Condition(config) =>
      if config.None? then Fail(InvalidWorkflow)
      else if s.payload.None? then Fail(BadPayload)
      else
        var holds := Conditions.Holds(s.payload.value, config.value);
        if holds.None? then Fail(InvalidWorkflow)
        else Dispatch(Followed(d.edges, node.id, BranchName(holds.value)), None)
    case Notification(config) =>
      var notice := NoticeFor(s, node.id, config, env);
      if notice.Err? then Fail(notice.error)
      else Dispatch(Followed(d.edges, node.id, ""), Some(notice.value))
    case Unknown(_) => Fail(InvalidWorkflow)
  }

  // ----- Effect: what an attempt does to the rows and the queue -----

  function NewTask(s: Settings, id: string, delay: int): Task {
    Task(id, delay, s.maxRetry + 1)
  }

  function NewTasks(s: Settings, ids: seq<string>, delay: int): (tasks: seq<Task>)
    ensures |tasks| == |ids| && forall i | 0 <= i < |ids| :: tasks[i] == NewTask(s, ids[i], delay)
  {
    seq(|ids|, i requires 0 <= i < |ids| => NewTask(s, ids[i], delay))
  }

  /** How many of `n` enqueue calls in a row go through. */
  function Accepted(env: Env, n: nat): (k: nat)
    ensures k <= n
    ensures forall i | 0 <= i < k :: EnqueueStep(i) !in env.faults
    ensures k < n ==> EnqueueStep(k) in env.faults
  {
    AcceptedFrom(env, n, 0)
  }

  function AcceptedFrom(env: Env, n: nat, i: nat): (k: nat)
    requires i <= n && forall j | 0 <= j < i :: EnqueueStep(j) !in env.faults
    ensures k <= n
    ensures forall j | 0 <= j < k :: EnqueueStep(j) !in env.faults
    ensures k < n ==> EnqueueStep(k) in env.faults
    decreases n - i
  {
    if i == n || EnqueueStep(i) in env.faults then i else AcceptedFrom(env, n, i + 1)
  }

  function Closing(row: StepRow, status: Status, now: int): StepRow {
    row.(status := status,
         completedAt := if status == Completed then Some(now) else None,
         failedAt := if status == Failed then Some(now) else None)
  }

  /** failCurrentStep */
  function FailStep(w: World, id: string, cause: Error, env: Env): (World, Outcome)
    requires id in w.steps
  {
    if FinishStepRow in env.faults then (w, Failure(StoreError))
    else
      var w1 := w.(steps := w.steps[id := Closing(w.steps[id], Failed, env.now)]);
      if FinishExecution in env.faults then (w1, Failure(StoreError))
      else (w1.(execution := Execution(Failed, Some(id), None, Some(env.now))), Failure(cause))
  }

  /** The last write of a step that went through. */
  function Advance(w: World, next: seq<string>, env: Env): (World, Outcome) {
    if FinishExecution in env.faults then (w, Failure(StoreError))
    else if next == [] then (w.(execution := Execution(Completed, None, Some(env.now), None)), Done)
    else (w.(execution := Execution(Queued, Some(next[0]), None, None)), Done)
  }

  /** completeCurrentAndDispatchNext: close the row first, then enqueue. */
  function CompleteStep(s: Settings, w: World, id: string, next: seq<string>, env: Env): (World, Outcome)
    requires id in w.steps
  {
    if FinishStepRow in env.faults then (w, Failure(StoreError))
    else
      var w1 := w.(steps := w.steps[id := Closing(w.steps[id], Completed, env.now)]);
      if next == [] then Advance(w1, next, env)
      else if !s.hasProducer then (w1, Failure(NoProducer))
      else
        var k := Accepted(env, |next|);
        var w2 := w1.(pending := w1.pending + NewTasks(s, next[..k], 0));
        if k < |next| then (w2, Failure(QueueError)) else Advance(w2, next, env)
  }

  /** handleDelayStep with successors: enqueue first, then close the row. */
  function ScheduleStep(s: Settings, w: World, id: string, next: seq<string>, delay: int, env: Env): (World, Outcome)
    requires id in w.steps && next != []
  {
    var k := Accepted(env, |next|);
    var w1 := w.(pending := w.pending + NewTasks(s, next[..k], delay));
    if k < |next| then FailStep(w1, id, QueueError, env)
    else if FinishStepRow in env.faults then (w1, Failure(StoreError))
    else Advance(w1.(steps := w1.steps[id := Closing(w1.steps[id], Completed, env.now)]), next, env)
  }

  function Carry(s: Settings, w: World, id: string, plan: Plan, env: Env): (World, Outcome)
    requires id in w.steps && (plan.Schedule? ==> plan.later != [])
  {
    match plan
    case Fail(cause) => FailStep(w, id, cause, env)
    case Dispatch(next, notice) =>
      var w1 := if notice.Some? then w.(notices := w.notices + [notice.value]) else w;
      CompleteStep(s, w1, id, next, env)
    case Schedule(next, delay) => ScheduleStep(s, w, id, next, delay, env)
  }

  function Started(steps: map<string, StepRow>, id: string): StepRow {
    StepRow(Running, if id in steps then steps[id].attempts + 1 else 1, None, None)
  }

  /** The node that a job for `stepId` is about, or the error for which the job is given up. */
  function NodeOf(s: Settings, stepId: string, env: Env): Result<Node, Error> {
    var id := TrimSpace(stepId);
    if id == "" then Err(InvalidWorkflowEvent)
    else if GetExecution in env.faults || GetWorkflow in env.faults then Err(StoreError)
    else if s.definition.None? || FindNode(s.definition.value.nodes, id).None? then Err(InvalidWorkflow)
    else Ok(FindNode(s.definition.value.nodes, id).value)
  }

  /** Does the attempt get as far as writing the row of its step? */
  predicate WritesRow(s: Settings, stepId: string, env: Env) {
    NodeOf(s, stepId, env).Ok? && GetStepRow !in env.faults && StartStepRow !in env.faults
  }

  /** ProcessStep */
  function Process(s: Settings, w: World, stepId: string, env: Env): (World, Outcome) {
    var node := NodeOf(s, stepId, env);
    if node.Err? then (w, Failure(node.error))
    else if !WritesRow(s, stepId, env) then (w, Failure(StoreError))
    else
      var id := node.value.id;
      var w1 := w.(steps := w.steps[id := Started(w.steps, id)]);
      if StartExecution in env.faults then (w1, Failure(StoreError))
      else
        var w2 := w1.(execution := Execution(Running, Some(id), None, None));
        Carry(s, w2, id, Decide(s, s.definition.value, node.value, env), env)
  }

  // ----- The service with its tables and its queue -----

  class Service {
    const settings: Settings
    var execution: Execution
    var steps: map<string, StepRow>
    var pending: seq<Task>
    var notices: seq<Notice>

    function State(): World
      reads this
    {
      World(execution, steps, pending, notices)
    }

    constructor (settings: Settings, execution: Execution)
      ensures this.settings == settings && State() == World(execution, map[], [], [])
    {
      this.settings, this.execution := settings, execution;
      steps, pending, notices := map[], [], [];
    }

    method ProcessStep(stepId: string, env: Env) returns (outcome: Outcome)
      modifies this
      ensures (State(), outcome) == Process(settings, old(State()), stepId, env)
    {
      var id := TrimSpace(stepId);
      if id == "" {
        return Failure(InvalidWorkflowEvent);
      }
      if GetExecution in env.faults {
        return Failure(StoreError);
      }
      if GetWorkflow in env.faults {
        return Failure(StoreError);
      }
      if settings.definition.None? {
        return Failure(InvalidWorkflow);
      }
      var definition := settings.definition.value;
      var found := FindNode(definition.nodes, id);
      if found.None? {
        return Failure(InvalidWorkflow);
      }
      var node := found.value;

      if GetStepRow in env.faults {
        return Failure(StoreError);
      }
      if StartStepRow in env.faults {
        return Failure(StoreError);
      }
      if node.id !in steps {
        steps := steps[node.id := StepRow(Running, 1, None, None)];
      } else {
        steps := steps[node.id := StepRow(Running, steps[node.id].attempts + 1, None, None)];
      }
      if StartExecution in env.faults {
        return Failure(StoreError);
      }
      execution := Execution(Running, Some(node.id), None, None);

      match node.kind
      case Trigger =>
        var next := NextNodeIDs(definition, node.id, "");
        outcome := CompleteCurrentAndDispatchNext(node.id, next, env);
      case Delay(config) => outcome := HandleDelayStep(definition, node.id, config, env);
      case Condition(config) => outcome := HandleConditionStep(definition, node.id, config, env);
      case Notification(config) => outcome := HandleNotificationStep(definition, node.id, config, env);
      case Unknown(_) => outcome := FailCurrentStep(node.id, InvalidWorkflow, env);
    }

    method HandleDelayStep(d: Definition, id: string, config: Option<DelayConfig>, env: Env) returns (outcome: Outcome)
      requires id in steps
      modifies this
      ensures (State(), outcome) ==
              Carry(settings, old(State()), id, Decide(settings, d, Node(id, Delay(config)), env), env)
    {
      if config.None? {
        outcome := FailCurrentStep(id, InvalidWorkflow, env);
        return;
      }
      if config.value.duration.None? {
        outcome := FailCurrentStep(id, InvalidWorkflow, env);
        return;
      }
      var nextNodes := NextNodeIDs(d, id, "");
      if |nextNodes| == 0 {
        outcome := CompleteCurrentAndDispatchNext(id, [], env);
        return;
      }
      if !settings.hasProducer {
        outcome := FailCurrentStep(id, NoProducer, env);
        return;
      }
      var sent := EnqueueAll(nextNodes, config.value.duration.value, env);
      if !sent {
        outcome := FailCurrentStep(id, QueueError, env);
        return;
      }
      if FinishStepRow in env.faults {
        return Failure(StoreError);
      }
      steps := steps[id := Closing(steps[id], Completed, env.now)];
      if FinishExecution in env.faults {
        return Failure(StoreError);
      }
      execution := Execution(Queued, Some(nextNodes[0]), None, None);
      return Done;
    }

    method HandleConditionStep(d: Definition, id: string, config: Option<ConditionConfig>, env: Env)
      returns (outcome: Outcome)
      requires id in steps
      modifies this
      ensures (State(), outcome) ==
              Carry(settings, old(State()), id, Decide(settings, d, Node(id, Condition(config)), env), env)
    {
      if config.None? {
        outcome := FailCurrentStep(id, InvalidWorkflow, env);
        return;
      }
      if settings.payload.None? {
        outcome := FailCurrentStep(id, BadPayload, env);
        return;
      }
      var matched := Conditions.Holds(settings.payload.value, config.value);
      if matched.None? {
        outcome := FailCurrentStep(id, InvalidWorkflow, env);
        return;
      }
      var branch := "false";
      if matched.value {
        branch := "true";
      }
      var nextNodes := NextNodeIDs(d, id, branch);
      outcome := CompleteCurrentAndDispatchNext(id, nextNodes, env);
    }

    method HandleNotificationStep(d: Definition, id: string, config: Option<NotificationConfig>, env: Env)
      returns (outcome: Outcome)
      requires id in steps
      modifies this
      ensures (State(), outcome) ==
              Carry(settings, old(State()), id, Decide(settings, d, Node(id, Notification(config)), env), env)
    {
      var notice := NoticeFor(settings, id, config, env);
      if notice.Err? {
        outcome := FailCurrentStep(id, notice.error, env);
        return;
      }
      notices := notices + [notice.value];
      var nextNodes := NextNodeIDs(d, id, "");
      outcome := CompleteCurrentAndDispatchNext(id, nextNodes, env);
    }

    /** The enqueue loops of the two dispatching functions: they stop at the first refusal. */
    method EnqueueAll(next: seq<string>, delay: int, env: Env) returns (sent: bool)
      modifies this`pending
      ensures sent <==> Accepted(env, |next|) == |next|
      ensures pending == old(pending) + NewTasks(settings, next[..Accepted(env, |next|)], delay)
    {
      for i := 0 to |next|
        invariant i <= Accepted(env, |next|)
        invariant pending == old(pending) + NewTasks(settings, next[..i], delay)
      {
        if EnqueueStep(i) in env.faults {
          return false;
        }
        pending := pending + [NewTask(settings, next[i], delay)];
        assert NewTasks(settings, next[..i + 1], delay) ==
               NewTasks(settings, next[..i], delay) + [NewTask(settings, next[i], delay)];
      }
      return true;
    }

    method CompleteCurrentAndDispatchNext(id: string, nextNodes: seq<string>, env: Env) returns (outcome: Outcome)
      requires id in steps
      modifies this
      ensures (State(), outcome) == CompleteStep(settings, old(State()), id, nextNodes, env)
    {
      if FinishStepRow in env.faults {
        return Failure(StoreError);
      }
      steps := steps[id := Closing(steps[id], Completed, env.now)];
      if |nextNodes| == 0 {
        if FinishExecution in env.faults {
          return Failure(StoreError);
        }
        execution := Execution(Completed, None, Some(env.now), None);
        return Done;
      }
      if !settings.hasProducer {
        return Failure(NoProducer);
      }
      var sent := EnqueueAll(nextNodes, 0, env);
      if !sent {
        return Failure(QueueError);
      }
      if FinishExecution in env.faults {
        return Failure(StoreError);
      }
      execution := Execution(Queued, Some(nextNodes[0]), None, None);
      return Done;
    }

    method FailCurrentStep(id: string, cause: Error, env: Env) returns (outcome: Outcome)
      requires id in steps
      modifies this
      ensures (State(), outcome) == FailStep(old(State()), id, cause, env)
    {
      if FinishStepRow in env.faults {
        return Failure(StoreError);
      }
      steps := steps[id := Closing(steps[id], Failed, env.now)];
      if FinishExecution in env.faults {
        return Failure(StoreError);
      }
      execution := Execution(Failed, Some(id), None, Some(env.now));
      return Failure(cause);
    }
  }
}
