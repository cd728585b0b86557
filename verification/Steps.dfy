/** What one attempt at a step of each kind does, in terms of its configuration: when it succeeds, which
    jobs it hands on and how long they wait, which notification it sends and to whom. */
module Steps {
  import opened Wrappers
  import opened Text
  import opened Definitions
  import opened Runtime
  import opened Runs
  import Channels
  import Conditions

  /** The step is this node of the definition. */
  ghost predicate IsAt(s: Settings, stepId: string, node: Node) {
    && s.definition.Some? && TrimSpace(stepId) != ""
    && FindNode(s.definition.value.nodes, TrimSpace(stepId)) == Some(node)
  }

  // ----- Delays -----

  /** Whatever fails, the jobs that a delay step hands on wait for its duration, and those of any other step
      do not wait; each of them is retried as often as configured. */
  lemma JobsWait(s: Settings, w: World, stepId: string, env: Env, node: Node)
    requires IsAt(s, stepId, node)
    ensures var w' := Process(s, w, stepId, env).0;
            && |w'.pending| >= |w.pending|
            && forall t | t in w'.pending[|w.pending|..] ::
                 && t.left == s.maxRetry + 1 && (!node.kind.Delay? ==> t.delay == 0)
                 && (forall duration :: node.kind == Delay(Some(DelayConfig(Some(duration)))) ==> t.delay == duration)
  {
    var k, delay := ProcessShape(s, w, stepId, env);
    JobsBehind(s, w.pending, Route(s, stepId)[..k], delay);
  }

  lemma JobsBehind(s: Settings, pending: seq<Task>, route: seq<string>, delay: int)
    ensures (pending + NewTasks(s, route, delay))[|pending|..] == NewTasks(s, route, delay)
    ensures forall t | t in NewTasks(s, route, delay) :: t.delay == delay && t.left == s.maxRetry + 1
  {
  }

  // ----- Notifications -----

  /** All entries are spellings of the one known channel. */
  ghost predicate OnlyNames(channels: seq<string>, channel: string) {
    channels != [] && channel in Channels.KNOWN && forall c | c in channels :: Fold(c) == channel
  }

  lemma {:induction false} AllTheSame(s: seq<string>, x: string)
    requires s != [] && forall y | y in s :: y == x
    ensures Channels.FirstOccurrences(s) == [x]
  {
    var front := s[..|s| - 1];
    assert s[|s| - 1] in s && forall y | y in front :: y in s;
    if front != [] {
      AllTheSame(front, x);
    }
  }

  lemma OneOccurrence(s: seq<string>, x: string)
    ensures Channels.FirstOccurrences(s) == [x] <==> s != [] && forall y | y in s :: y == x
  {
    if s != [] && forall y | y in s :: y == x {
      AllTheSame(s, x);
    }
    if Channels.FirstOccurrences(s) == [x] {
      assert forall y | y in s :: y in [x];
    }
  }

  lemma OneChannel(s: seq<string>, known: set<string>, x: string)
    ensures Channels.StrictIn(s, known) == Some([x]) <==> s != [] && x in known && forall y | y in s :: y == x
  {
    OneOccurrence(s, x);
    if s != [] {
      assert s[0] in s;
    }
  }

  lemma OnlyNamesIff(channels: seq<string>, channel: string)
    ensures Channels.Strict(channels) == Some([channel]) <==> OnlyNames(channels, channel)
  {
    var folded := Channels.Folded(channels);
    OneChannel(folded, Channels.KNOWN, channel);
    if forall c | c in folded :: c == channel {
      forall c | c in channels
        ensures Fold(c) == channel
      {
        var i :| 0 <= i < |channels| && channels[i] == c;
        assert folded[i] in folded;
      }
    }
  }

  /** The recipient is the subscriber's own contact for the channel. */
  ghost predicate IsContact(recipient: Recipient, channel: string, s: Subscriber) {
    match recipient
    case Email(address) =>
      channel == "email" && s.email.Some? && address == TrimSpace(s.email.value) && address != ""
    case Phone(number) =>
      channel == "sms" && s.phone.Some? && number == TrimSpace(s.phone.value) && number != ""
    case Push(token) =>
      channel == "push" && s.pushToken.Some? && token == TrimSpace(s.pushToken.value) && token != ""
  }

  /** Everything that a notification step needs is there, and this is what it sends. */
  ghost predicate Sends(s: Settings, id: string, config: NotificationConfig, env: Env, n: Notice) {
    && s.hasProducer && s.payload.Some? && OnlyNames(config.channels, n.channel)
    && {GetSubscriber, GetTemplate, BuildVariables, Render, EnqueueNotice} !! env.faults
    && config.template.parsed == Some(n.template)
    && n.template in env.templates && env.templates[n.template] == Template(n.channel, true)
    && s.subscriber.Some? && s.subscriber.value in env.subscribers
    && IsContact(n.recipient, n.channel, env.subscribers[s.subscriber.value])
    && n.stepId == id
  }

  lemma ContactIff(recipient: Recipient, channel: string, s: Subscriber)
    ensures RecipientFor(s, channel) == Some(recipient) <==> IsContact(recipient, channel, s)
  {
  }

  lemma NoticeOnIff(s: Settings, id: string, channels: Option<seq<string>>, template: Option<Uuid>, env: Env, n: Notice)
    requires s.subscriber.Some?
    ensures NoticeOn(s, id, channels, template, env) == Ok(n) <==>
            && s.payload.Some? && channels == Some([n.channel]) && template == Some(n.template)
            && {GetSubscriber, GetTemplate, BuildVariables, Render, EnqueueNotice} !! env.faults
            && n.template in env.templates && env.templates[n.template] == Template(n.channel, true)
            && s.subscriber.value in env.subscribers
            && IsContact(n.recipient, n.channel, env.subscribers[s.subscriber.value])
            && n.stepId == id
  {
    assert channels.Some? && |channels.value| == 1 ==> channels.value == [channels.value[0]];
    if s.subscriber.value in env.subscribers {
      ContactIff(n.recipient, n.channel, env.subscribers[s.subscriber.value]);
    }
  }

  lemma NoticeIff(s: Settings, id: string, config: NotificationConfig, env: Env, n: Notice)
    ensures NoticeFor(s, id, Some(config), env) == Ok(n) <==> Sends(s, id, config, env, n)
  {
    OnlyNamesIff(config.channels, n.channel);
    if s.subscriber.Some? {
      NoticeOnIff(s, id, Channels.Strict(config.channels), config.template.parsed, env, n);
    }
  }

  // ----- Success -----

  /** The checks of a step pass. */
  ghost predicate Ready(s: Settings, node: Node, env: Env)
    requires s.definition.Some?
  {
    match node.kind
    case Trigger => true
    case Delay(config) =>
      && config.Some? && config.value.duration.Some?
      && (s.hasProducer || forall e | e in s.definition.value.edges :: e.source != node.id)
    case Condition(config) =>
      config.Some? && s.payload.Some? && Fold(config.value.operator) in {"equals", "not_equals", "contains", "exists"}
    case Notification(config) => config.Some? && exists n :: Sends(s, node.id, config.value, env, n)
    case Unknown(_) => false
  }

  lemma NoEdgesOut(edges: seq<Edge>, id: string)
    ensures Followed(edges, id, "") == [] <==> forall e | e in edges :: e.source != id
  {
    var r := Followed(edges, id, "");
    if e :| e in edges && e.source == id {
      assert Follows(e, id, "") && e.target in r;
    }
    if r != [] {
      assert r[0] in r;
    }
  }

  lemma ReadyIff(s: Settings, node: Node, env: Env)
    requires s.definition.Some?
    ensures !Decide(s, s.definition.value, node, env).Fail? <==> Ready(s, node, env)
  {
    match node.kind
    case Delay(config) => NoEdgesOut(s.definition.value.edges, node.id);
    case Condition(config) =>
      if config.Some? && s.payload.Some? {
        Conditions.EvaluableIffAllowed(s.payload.value, config.value);
      }
    case Notification(config) => ReadyToSend(s, node.id, config, env);
    case _ =>
  }

  lemma ReadyToSend(s: Settings, id: string, config: Option<NotificationConfig>, env: Env)
    ensures NoticeFor(s, id, config, env).Ok? <==> config.Some? && exists n :: Sends(s, id, config.value, env, n)
  {
    if config.Some? {
      if NoticeFor(s, id, config, env).Ok? {
        NoticeIff(s, id, config.value, env, NoticeFor(s, id, config, env).value);
      }
      if n :| Sends(s, id, config.value, env, n) {
        NoticeIff(s, id, config.value, env, n);
      }
    }
  }

  /** None of the calls fails that an attempt makes besides those of its checks. */
  ghost predicate CallsSucceed(route: seq<string>, env: Env) {
    && {GetExecution, GetWorkflow, GetStepRow, StartStepRow, StartExecution} !! env.faults
    && {FinishStepRow, FinishExecution} !! env.faults
    && forall j: nat | j < |route| :: EnqueueStep(j) !in env.faults
  }

  lemma CarriedIff(s: Settings, w: World, id: string, plan: Plan, env: Env)
    requires id in w.steps && (plan.Schedule? ==> plan.later != [] && s.hasProducer)
    ensures Carry(s, w, id, plan, env).1 == Done <==>
            && !plan.Fail? && {FinishStepRow, FinishExecution} !! env.faults
            && (Handed(plan) == [] || s.hasProducer)
            && forall j: nat | j < |Handed(plan)| :: EnqueueStep(j) !in env.faults
  {
  }

  /** Main result on one attempt: it succeeds exactly if its step is a node of the definition, the checks of
      that node pass, there is a producer if there are jobs to hand on, and none of its calls fails. */
  lemma StepSucceedsIff(s: Settings, w: World, stepId: string, env: Env)
    ensures Process(s, w, stepId, env).1 == Done <==>
            && CallsSucceed(Route(s, stepId), env)
            && (Route(s, stepId) == [] || s.hasProducer)
            && exists node :: IsAt(s, stepId, node) && Ready(s, node, env)
  {
    if WritesRow(s, stepId, env) {
      var id, node := TrimSpace(stepId), NodeOf(s, stepId, env).value;
      assert IsAt(s, stepId, node);
      var plan := Decide(s, s.definition.value, node, env);
      var w1 := w.(steps := w.steps[id := Started(w.steps, id)], execution := Execution(Running, Some(id), None, None));
      ReadyIff(s, node, env);
      CarriedIff(s, w1, id, plan, env);
      if !plan.Fail? {
        DecidedRoute(s, s.definition.value, node, stepId, env);
      }
    }
  }

  /** A successful condition step hands on along the edges of the branch that the payload selects and along
      those without a branch. */
  lemma ConditionBranches(s: Settings, w: World, stepId: string, env: Env, node: Node, matched: bool)
    requires IsAt(s, stepId, node) && node.kind.Condition? && node.kind.condition.Some? && s.payload.Some?
    requires Conditions.Holds(s.payload.value, node.kind.condition.value) == Some(matched)
    requires Process(s, w, stepId, env).1 == Done
    ensures var next := Followed(s.definition.value.edges, node.id, if matched then "true" else "false");
            Process(s, w, stepId, env).0.pending == w.pending + NewTasks(s, next, 0)
  {
    var k, delay := ProcessShape(s, w, stepId, env);
    assert Route(s, stepId)[..k] == Route(s, stepId);
  }

  /** A successful notification step has sent the one job that its configuration and the subscriber call for;
      and where the job could be sent, only a failing write or a refused job makes the step fail. */
  lemma NotificationIsSent(s: Settings, w: World, stepId: string, env: Env, node: Node, n: Notice)
    requires IsAt(s, stepId, node) && node.kind.Notification? && node.kind.notification.Some?
    requires Sends(s, node.id, node.kind.notification.value, env, n)
    requires WritesRow(s, stepId, env) && StartExecution !in env.faults
    ensures Process(s, w, stepId, env).0.notices == w.notices + [n]
  {
    NoticeIff(s, node.id, node.kind.notification.value, env, n);
    PlanIsCarried(s, w, stepId, env, node);
    var id := node.id;
    var w1 := w.(steps := w.steps[id := Started(w.steps, id)], execution := Execution(Running, Some(id), None, None));
    CarryRows(s, w1, id, Decide(s, s.definition.value, node, env), env);
  }

  lemma PlanIsCarried(s: Settings, w: World, stepId: string, env: Env, node: Node)
    requires IsAt(s, stepId, node) && WritesRow(s, stepId, env) && StartExecution !in env.faults
    ensures var id := node.id;
            var w1 := w.(steps := w.steps[id := Started(w.steps, id)],
                         execution := Execution(Running, Some(id), None, None));
            Process(s, w, stepId, env) == Carry(s, w1, id, Decide(s, s.definition.value, node, env), env)
  {
  }

  // ----- What is left of an attempt that fails -----

  /** The configuration of the node cannot be used, so that the job is given up. */
  ghost predicate Malformed(s: Settings, node: Node) {
    match node.kind
    case Trigger => false
    case Delay(config) => config.None? || config.value.duration.None?
    case Condition(config) =>
      config.None? ||
      (s.payload.Some? && Fold(config.value.operator) !in {"equals", "not_equals", "contains", "exists"})
    case Notification(config) => config.None? && s.subscriber.Some? && s.hasProducer
    case Unknown(_) => true
  }

  lemma MalformedIff(s: Settings, d: Definition, node: Node, env: Env)
    ensures var plan := Decide(s, d, node, env);
            && (plan == Fail(InvalidWorkflow) <==> Malformed(s, node))
            && plan != Fail(InvalidWorkflowEvent)
  {
    match node.kind
    case Condition(config) =>
      if config.Some? && s.payload.Some? {
        Conditions.EvaluableIffAllowed(s.payload.value, config.value);
      }
    case Notification(config) => NoticeMalformed(s, node.id, config, env);
    case _ =>
  }

  lemma NoticeMalformed(s: Settings, id: string, config: Option<NotificationConfig>, env: Env)
    ensures var r := NoticeFor(s, id, config, env);
            && (r == Err(InvalidWorkflow) <==> config.None? && s.subscriber.Some? && s.hasProducer)
            && r != Err(InvalidWorkflowEvent)
  {
    if config.Some? && s.subscriber.Some? {
      NoticeOnMalformed(s, id, Channels.Strict(config.value.channels), config.value.template.parsed, env);
    }
  }

  lemma NoticeOnMalformed(s: Settings, id: string, channels: Option<seq<string>>, template: Option<Uuid>, env: Env)
    requires s.subscriber.Some?
    ensures var r := NoticeOn(s, id, channels, template, env);
            r != Err(InvalidWorkflow) && r != Err(InvalidWorkflowEvent)
  {
  }

  /** A step whose checks fail: its row and then the execution are marked as failed, as far as the writes
      go through; the cause is reported only if both do, and nothing is queued or sent. The job is given
      up exactly if the configuration of the node cannot be used. */
  lemma FailedCheckFails(s: Settings, w: World, stepId: string, env: Env, node: Node)
    requires IsAt(s, stepId, node) && !Ready(s, node, env)
    requires WritesRow(s, stepId, env) && StartExecution !in env.faults
    ensures var (w', outcome), id := Process(s, w, stepId, env), node.id;
            && w'.pending == w.pending && w'.notices == w.notices && id in w'.steps && outcome != Done
            && (w'.steps[id].status == Failed <==> FinishStepRow !in env.faults)
            && (w'.execution.status == Failed <==> FinishStepRow !in env.faults && FinishExecution !in env.faults)
            && w'.execution.currentStep == Some(id)
            && (w'.execution.status != Failed ==> outcome == Failure(StoreError))
            && (w'.execution.status == Failed ==>
                (outcome == Failure(InvalidWorkflow) <==> Malformed(s, node)) &&
                outcome != Failure(InvalidWorkflowEvent))
  {
    ReadyIff(s, node, env);
    MalformedIff(s, s.definition.value, node, env);
    PlanIsCarried(s, w, stepId, env, node);
  }

  /** A delay step whose k-th job is the first that is refused fails in the same way, but the jobs before
      that one stay queued, for its duration. */
  lemma RefusedDelayFails(s: Settings, w: World, stepId: string, env: Env, node: Node, duration: int, k: nat)
    requires IsAt(s, stepId, node) && node.kind == Delay(Some(DelayConfig(Some(duration)))) && s.hasProducer
    requires WritesRow(s, stepId, env) && StartExecution !in env.faults
    requires k < |Route(s, stepId)| && EnqueueStep(k) in env.faults
    requires forall j: nat | j < k :: EnqueueStep(j) !in env.faults
    ensures var (w', outcome), id := Process(s, w, stepId, env), node.id;
            && w'.pending == w.pending + NewTasks(s, Route(s, stepId)[..k], duration)
            && w'.notices == w.notices && id in w'.steps
            && (w'.steps[id].status == Failed <==> FinishStepRow !in env.faults)
            && (w'.execution.status == Failed <==> FinishStepRow !in env.faults && FinishExecution !in env.faults)
            && w'.execution.currentStep == Some(id)
            && outcome == Failure(if w'.execution.status == Failed then QueueError else StoreError)
  {
    PlanIsCarried(s, w, stepId, env, node);
    assert Accepted(env, |Route(s, stepId)|) == k;
  }

  /** An attempt whose checks pass and which then stops at a write or at a refused job leaves the execution
      running at its step, and its row completed exactly if that write went through; but a delay step fails
      itself when a job is refused (see RefusedDelayFails). */
  lemma StoppedAttempt(s: Settings, w: World, stepId: string, env: Env, node: Node)
    requires IsAt(s, stepId, node) && Ready(s, node, env) && !node.kind.Delay?
    requires WritesRow(s, stepId, env) && StartExecution !in env.faults
    requires Process(s, w, stepId, env).1 != Done
    ensures var w' := Process(s, w, stepId, env).0;
            && w'.execution == Execution(Running, Some(node.id), None, None) && node.id in w'.steps
            && (w'.steps[node.id].status == if FinishStepRow in env.faults then Running else Completed)
            && (w'.steps[node.id].completedAt == if FinishStepRow in env.faults then None else Some(env.now))
  {
    var w1 := w.(steps := w.steps[node.id := Started(w.steps, node.id)],
                 execution := Execution(Running, Some(node.id), None, None));
    ReadyIff(s, node, env);
    PlanIsCarried(s, w, stepId, env, node);
    DispatchStops(s, w1, node.id, Decide(s, s.definition.value, node, env), env);
  }

  lemma DispatchStops(s: Settings, w: World, id: string, plan: Plan, env: Env)
    requires id in w.steps && plan.Dispatch? && Carry(s, w, id, plan, env).1 != Done
    ensures var w' := Carry(s, w, id, plan, env).0;
            && w'.execution == w.execution && id in w'.steps
            && w'.steps[id] == if FinishStepRow in env.faults then w.steps[id]
                               else Closing(w.steps[id], Completed, env.now)
  {
  }

  /** If the execution cannot be marked as running, only the row of the step has been touched. */
  lemma UnstartedAttempt(s: Settings, w: World, stepId: string, env: Env)
    requires WritesRow(s, stepId, env) && StartExecution in env.faults
    ensures var (w', outcome), id := Process(s, w, stepId, env), TrimSpace(stepId);
            && w' == w.(steps := w'.steps) && outcome == Failure(StoreError)
            && id in w'.steps && w'.steps[id].status == Running
  {
  }

  // ----- What the validator lets through -----

  /** Some attempt at a node of this kind succeeds. */
  ghost predicate CanSucceed(kind: Kind) {
    exists s, w, stepId, env, node ::
      IsAt(s, stepId, node) && node.kind == kind && Process(s, w, stepId, env).1 == Done
  }

  /** A condition that the validator refuses only because it names no field. */
  ghost predicate NamesNoField(kind: Kind) {
    && kind.Condition? && kind.condition.Some? && TrimSpace(kind.condition.value.field) == ""
    && Fold(kind.condition.value.operator) in {"equals", "not_equals", "contains", "exists"}
  }

  /** A notification without a template, which may be chosen later. */
  ghost predicate NamesNoTemplate(kind: Kind) {
    kind.Notification? && kind.notification.Some? && kind.notification.value.template.parsed.None?
  }

  lemma KindSucceeds(kind: Kind, node: Node, s: Settings, env: Env)
    requires node == Node("a", kind) && s.definition == Some(Definition("signup", [node], []))
    requires env.faults == {} && Ready(s, node, env)
    ensures CanSucceed(kind)
  {
    TrimmedIff("a");
    assert FindNode([node], "a") == Some(node) && TrimSpace("a") == "a";
    NoEdges(s);
    var w := World(Execution(Queued, None, None, None), map[], [], []);
    assert IsAt(s, "a", node) && Ready(s, node, env);
    StepSucceedsIff(s, w, "a", env);
  }

  lemma NoEdges(s: Settings)
    requires s.definition.Some? && s.definition.value.edges == []
    ensures Route(s, "a") == []
  {
  }

  lemma RefusedIsNotReady(s: Settings, node: Node, env: Env)
    requires s.definition.Some? && Ready(s, node, env)
    ensures NamesNoField(node.kind) || (ValidNode(node.kind) && !NamesNoTemplate(node.kind))
  {
    if node.kind.Notification? {
      var n :| Sends(s, node.id, node.kind.notification.value, env, n);
      OnlyNamesIff(node.kind.notification.value.channels, n.channel);
    }
  }

  function Somebody(): Subscriber {
    Subscriber(Some("x"), Some("x"), Some("x"))
  }

  lemma SomebodyHasContact(channel: string) returns (recipient: Recipient)
    requires channel in Channels.KNOWN
    ensures IsContact(recipient, channel, Somebody())
  {
    TrimmedIff("x");
    recipient := if channel == "email" then Email("x") else if channel == "sms" then Phone("x") else Push("x");
  }

  lemma ValidNames(config: NotificationConfig) returns (channel: string)
    requires ValidNode(Notification(Some(config)))
    ensures OnlyNames(config.channels, channel)
  {
    channel := Channels.Strict(config.channels).value[0];
    OneOfOne(Channels.Strict(config.channels).value);
    OnlyNamesIff(config.channels, channel);
  }

  lemma OneOfOne(s: seq<string>)
    requires |s| == 1
    ensures s == [s[0]]
  {
  }

  lemma CanBeSent(id: string, config: NotificationConfig, channel: string) returns (s: Settings, env: Env, n: Notice)
    requires OnlyNames(config.channels, channel) && config.template.parsed.Some?
    ensures s.definition == Some(Definition("signup", [Node(id, Notification(Some(config)))], []))
    ensures env.faults == {} && Sends(s, id, config, env, n)
  {
    var template := config.template.parsed.value;
    var recipient := SomebodyHasContact(channel);
    var node := Node(id, Notification(Some(config)));
    s := Settings(Some(Definition("signup", [node], [])), Some(1), Some(map[]), true, 0);
    env := Env(0, {}, map[1 := Somebody()], map[template := Template(channel, true)]);
    n := Notice(id, channel, template, recipient);
  }

  lemma ValidNotificationIsReady(node: Node) returns (s: Settings, env: Env)
    requires node.kind.Notification? && ValidNode(node.kind) && !NamesNoTemplate(node.kind)
    ensures s.definition == Some(Definition("signup", [node], [])) && env.faults == {} && Ready(s, node, env)
  {
    var config := node.kind.notification.value;
    var channel := ValidNames(config);
    var n;
    s, env, n := CanBeSent(node.id, config, channel);
  }

  /** Main result on the validation of nodes: a node that the validator lets through can succeed, and one
      that it refuses never does; with two exceptions. A notification without a template is let through
      and always fails, and a condition without a field is refused although it could be evaluated. */
  lemma ValidNodesCanSucceed(kind: Kind)
    ensures CanSucceed(kind) <==> NamesNoField(kind) || (ValidNode(kind) && !NamesNoTemplate(kind))
  {
    if CanSucceed(kind) {
      var s, w, stepId, env, node :|
        IsAt(s, stepId, node) && node.kind == kind && Process(s, w, stepId, env).1 == Done;
      StepSucceedsIff(s, w, stepId, env);
      RefusedIsNotReady(s, node, env);
    } else if NamesNoField(kind) || (ValidNode(kind) && !NamesNoTemplate(kind)) {
      var node := Node("a", kind);
      var s := Settings(Some(Definition("signup", [node], [])), Some(1), Some(map[]), true, 0);
      var env := Env(0, {}, map[], map[]);
      if kind.Notification? {
        s, env := ValidNotificationIsReady(node);
      }
      KindSucceeds(kind, node, s, env);
    }
  }

  // ----- What conditions see of the event -----

  lemma {:induction false} WholePart(name: string)
    requires '.' !in name
    ensures Conditions.Split(name) == [name]
  {
    if name != "" {
      WholePart(name[1..]);
      assert name == [name[0]] + name[1..];
    }
  }

  lemma {:induction false} PathBehind(name: string, field: string)
    requires '.' !in name
    ensures Conditions.Split(name + "." + field) == [name] + Conditions.Split(field)
  {
    var all := name + "." + field;
    if name == "" {
      assert all[1..] == field;
    } else {
      PathBehind(name[1..], field);
      assert all[1..] == name[1..] + "." + field;
      assert name == [name[0]] + name[1..];
    }
  }

  lemma LookupBehind(fields: map<string, Json>, path: seq<string>)
    requires path != []
    ensures Conditions.Lookup(Object("", fields), path) ==
            if path[0] in fields then Conditions.Lookup(fields[path[0]], path[1..]) else None
  {
  }

  lemma ReachesBehind(fields: map<string, Json>, path: seq<string>, v: Json)
    requires path != []
    ensures Conditions.Reaches(Object("", fields), path, v) <==>
            path[0] in fields && Conditions.Reaches(fields[path[0]], path[1..], v)
  {
    LookupBehind(fields, path);
    Conditions.LookupIff(Object("", fields), path);
    if path[0] in fields {
      Conditions.LookupIff(fields[path[0]], path[1..]);
    }
  }

  lemma ReachesItself(value: Json, v: Json)
    ensures Conditions.Reaches(value, [], v) <==> v == value
  {
    Conditions.LookupIff(value, []);
  }

  /** Main result on triggered runs: they are for the event's subscriber, and the conditions of their steps see
      the event under "event", the subscriber as it came in under "subscriber_id", the fields of its data
      under "data." and their path, and nothing else. */
  lemma ConditionsSeeTheEvent(input: Input, subscriber: Option<Uuid>, stored: Stored, hasProducer: bool, maxRetry: nat,
                              name: string, field: string, v: Json)
    requires '.' !in name
    ensures var s := SettingsFor(input, subscriber, stored, hasProducer, maxRetry);
            && s.subscriber == subscriber && s.hasProducer == hasProducer && s.maxRetry == maxRetry
            && s.definition == (if stored.Defined? then Some(stored.definition) else None) && s.payload.Some?
            && (Conditions.Reaches(Object("", s.payload.value), Conditions.Split(name), v) <==>
                || (name == "event" && v == Scalar(TrimSpace(input.event)))
                || (name == "subscriber_id" && v == Scalar(TrimSpace(input.subscriberId)))
                || (name == "data" && v == input.data))
            && (Conditions.Reaches(Object("", s.payload.value), Conditions.Split(name + "." + field), v) <==>
                name == "data" && Conditions.Reaches(input.data, Conditions.Split(field), v))
  {
    var fields := SettingsFor(input, subscriber, stored, hasProducer, maxRetry).payload.value;
    WholePart(name);
    PathBehind(name, field);
    ReachesBehind(fields, [name], v);
    ReachesBehind(fields, [name] + Conditions.Split(field), v);
    assert [name][1..] == [] && ([name] + Conditions.Split(field))[1..] == Conditions.Split(field);
    if name in fields {
      ReachesItself(fields[name], v);
      if name != "data" {
        ScalarHasNoFields(fields[name], Conditions.Split(field), v);
      }
    }
  }

  lemma ScalarHasNoFields(value: Json, path: seq<string>, v: Json)
    requires value.Scalar? && path != []
    ensures !Conditions.Reaches(value, path, v)
  {
    Conditions.LookupIff(value, path);
  }
}
