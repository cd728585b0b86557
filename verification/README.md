# DispatchKit, modelled and verified

This project models the parts of the DispatchKit notification service that carry invariants, and proves
what they keep. `dafny verify dfyconfig.toml` checks all of it.

## What is modelled

**The workflow graph** (`Graphs`, `Definitions`, `Validator`). The three-colour depth-first search of the
validator is a class with its two maps; it finds a cycle if and only if there is one, whatever order Go's
map iteration takes.

**The step runtime** (`Conditions`, `Runtime`, `Runs`). One attempt at one step is a method on a class that
holds the execution row, the step rows, the bag of pending jobs and the log of notification jobs. Every
store, template and queue call of an attempt can fail. A run is any sequence of deliveries: the queue hands
out any pending job, and a failed one comes back until its retries are used up, unless its error says that
it is invalid.

- `Draining`: the acyclicity that the validator checks bounds every run, with an explicit weight.
- `Steps`: what one attempt at a step of each kind does, when it succeeds, and that the validator lets through
  the nodes that can succeed, with two exceptions.
- `RunSafety`: rows stay consistent, attempts and notification jobs are counted, and only reachable steps
  are ever queued.
- `Confluence`: without failures every delivery order gives the same attempts per step, those of a direct
  recursive reading of the graph.
- `Interpreter`: without fan-out the queue machine is a sequential interpreter.
- `Completion`: for which definitions the status "completed" is final.
- `Locks`: which definitions ever meet the queue's lock on equal jobs.

**Notifications** (`Channels`, `Columns`, `Preparation`, `Sending`). Channels and templates are derived from
a workflow row and its definition, split into deliverable and skipped ones, delivered over the first usable
provider, written to the attempts table and summed up in one status.

**Integrations** (`Integrations`). The rows of providers with their active and primary flags, under the
database's constraints.

**Templates** (`DotNotation`). The leftmost non-overlapping rewriting of dotted paths, with its inverse.

**The rate limiter** (`RateLimit`). INCR and EXPIRE commands of any number of callers, interleaved in time.

**Accounts** (`Tenants`, `Sessions`). Sign-up, sign-in, verification codes, password resets and refresh
tokens, with a fault possible at every store call.

## Where the code differs from what is said about it

Each item names the exact condition and a lemma with a failing input.

- The validator compares trimmed ids (`internal/modules/workflow/validator.go:31`, `:46-47`), while the
  runtime looks a trimmed id up among stored ones (`internal/modules/workflow/runtime.go:32`, `:50`). So a
  validated definition can contain a step that is given up (`RunSafety.GivenUpIffUntrimmed`,
  `RunSafety.UntrimmedIdIsGivenUp`).
- The same goes for the ends of edges: with spaces around them a validated edge can be left out of the search
  for the first step, or never be followed (`RunSafety.FollowsValidatedIff`, `RunSafety.UntrimmedTargetIsMissed`,
  `RunSafety.UntrimmedSourceIsDropped`).
- `docs/definition-builder.md:147` says that conditions follow the edges with the resulting branch and other
  steps those with an empty one. In the code other steps follow all their edges, and conditions also those
  without a branch (`internal/modules/workflow/runtime.go:318-331`), and so it is in the model
  (`Definitions.DocumentedRuleIff`, `RunSafety.LabelledEdgeIsFollowed`, `RunSafety.UnlabelledEdgeIsFollowed`).
- A run can be "completed" while jobs are pending. Where nothing fails that happens exactly for definitions
  in which some step hands on to two others (`Completion.CompletedIsFinalIff`, `Completion.ForkCompletesEarly`).
  Where writes can fail and failed attempts come back, it happens for every definition whose first step hands
  on to anything (`Completion.AlwaysFinalIff`, `Completion.TwoStepsCompleteEarly`).
- Step jobs are queued with a uniqueness lock (`internal/queue/asyncq.go:90-103`), so a second pending job for a
  stored step id is refused, and the attempt that queues it fails. That happens in some run exactly if a stored
  id can be reached in two ways (`Locks.LockNeverMetIff`), and in every attempt at a step with two edges to one
  target (`Locks.ParallelEdgesNeverSucceed`, `Locks.TwinNeverSucceeds`). `Confluence` describes the runs in which
  the queue refuses nothing; where no stored id can be reached in two ways these are all runs without other
  faults.
- The validator folds the channels that a notification node names
  (`internal/modules/workflow/validator.go:84-95`), but they are stored as they are spelled. A channel "Email"
  validates and is delivered by the step runtime, and is never delivered from the stored columns
  (`Columns.StoredAreKnownIff`, `Columns.CapitalsAreStored`, `Preparation.UnknownIsNeverDelivered`,
  `Runs.NoticeIsForKnownChannel`).
- `internal/modules/notification/service_test.go:222` expects a second send of a job to be a no-op. That
  relies on its in-memory store; the SQL upsert rewrites the status to "pending"
  (`internal/db/gen/notifications.sql.go:306-318`), so the guard on a final status never holds
  (`Sending.ResendCallsAgain`, `Sending.SendIsNotIdempotent`).
- `internal/utils/ratelimit/ratelimit.go:11` speaks of a sliding window. It is a fixed window that starts
  with the first call (`RateLimit.SlidesIffAtMostOne`, `RateLimit.BurstAttainsTheBound`).
- One EXPIRE that fails, or one first answer that is lost, locks a service out for ever once its limit is used
  up (`RateLimit.LockedOutIff`, `RateLimit.OneFailureLocksOut`).
- Deleting a primary integration or moving it to another channel can leave a channel without a primary one
  (`Integrations.DeleteKeepsPrimariesIff`, `Integrations.DeletionCanLeaveNoPrimary`,
  `Integrations.MoveKeepsPrimariesIff`, `Integrations.MoveCanLeaveNoPrimary`).
- If the second insert of a new organisation's environments fails, production is never created
  (`Tenants.ProductionIffFirstTime`, `Tenants.ProductionCanBeMissing`).

## Model

| member | source | states |
|---|---|---|
| Validator.HasCycle | internal/modules/workflow/validator.go:126-157 | returns true if and only if the adjacency relation has a directed cycle, whatever order the keys are taken in; otherwise the order in which calls finish ranks every edge downwards |
| Validator.CycleSearch.Visit | internal/modules/workflow/validator.go:130-147 | the recursive closure: a hit means a cycle; otherwise the node and everything below it is finished and ranked, and the chain of open calls is as before |
| Validator.CycleSearch.VisitNext | internal/modules/workflow/validator.go:137-143 | the loop over successors: without a hit every successor is ranked and nothing finished earlier is renumbered |
| Validator.ValidateDefinition | internal/modules/workflow/validator.go:18-77 | accepts exactly the well-formed definitions: an event, distinct trimmed ids, valid nodes, edges between existing nodes, no directed cycle; no separate start-node condition is needed |
| Validator.IndexNodes | internal/modules/workflow/validator.go:31-43 | passes exactly the lists whose nodes are valid with distinct non-blank trimmed ids, and then indexes all of them |
| Validator.IndexEdges | internal/modules/workflow/validator.go:45-59 | passes exactly the edge lists between indexed nodes; adjacency and incoming counts are those of the trimmed edges |
| Validator.AdjacencyEdges | internal/modules/workflow/validator.go:45-58 | two ids are adjacent if and only if some edge joins them once both its ends are trimmed |
| Validator.StartIsImplied | internal/modules/workflow/validator.go:61-74 | every non-empty acyclic definition passes the start-node test, so that test rejects nothing that the cycle test would accept |
| Graphs.AcyclicIffRanked | internal/modules/workflow/validator.go:126-157 | a finite graph has no directed cycle if and only if some numbering of its nodes makes every edge go down |
| Graphs.SourceExists | internal/modules/workflow/validator.go:61-74 | every non-empty set of nodes of an acyclic graph has one that no edge enters from the set |
| Conditions.EvaluableIffAllowed | internal/modules/workflow/validator.go:114-120 | the operators that the validator allows are exactly those that a condition step can evaluate |
| Steps.ValidNodesCanSucceed | internal/modules/workflow/validator.go:79-124 | a node that is let through can succeed in some circumstances, and one that is refused never does, except that a notification without a template is let through and always fails and that a condition without a field is refused although it could be evaluated |
| Runs.FirstStepID | internal/modules/workflow/service.go:507-531 | the counting loops return the first node, in stored order, that no stored edge targets |
| Runs.CountIncoming | internal/modules/workflow/service.go:514-523 | every node has the number of edges whose stored target is its stored id |
| Runs.FirstStepExists | internal/modules/workflow/service.go:507-531 | a validated definition always has a first step |
| Runs.Activate | internal/modules/workflow/service.go:212-242 | one workflow gets its execution, queued at its first step with that one job, without delay and with all its retries; or one without a job if queueing fails, or none; and the error says which call failed |
| Runs.ActivateAll | internal/modules/workflow/service.go:211-242 | runs are started in order up to the first workflow that fails; only that one can be there without its first job |
| Runs.TriggerEvent | internal/modules/workflow/service.go:183-245 | a blank event or an unreadable subscriber is refused; then the runs of the active workflows are started with the payload built from the event; it succeeds exactly if all do, and otherwise reports the first error while the runs started so far stay |
| Steps.ConditionsSeeTheEvent | internal/modules/workflow/service.go:200-224 | a triggered run is for the event's subscriber, and its conditions see the event, the subscriber as it came in, and the fields of the data under "data." and their path, and nothing else |
| Columns.ChannelsFromDefinition | internal/modules/workflow/service.go:384-409 | first occurrences of the non-empty channels of the notification nodes, in order |
| Columns.AddChannels | internal/modules/workflow/service.go:393-405 | one node appends those of its channels that are new |
| Columns.TemplateIDsFromDefinition | internal/modules/workflow/service.go:413-446 | for each channel the first non-empty template id of a notification node |
| Columns.AddTemplates | internal/modules/workflow/service.go:423-435 | one node gives its template id to those of its channels that have none yet |
| Columns.StoredTemplateIff | internal/modules/workflow/service.go:413-446 | the stored template id of a channel is the text of the first notification node that names the channel and has one |
| Columns.StoredChannelIff | internal/modules/workflow/service.go:384-409 | the stored channels are exactly the non-empty ones that some notification node names |
| Columns.BuiltChannelsAreThose | internal/modules/workflow/service.go:263-292 | a row built from a validated definition stores exactly the channels that its nodes name |
| Columns.StoredAreKnownIff | internal/modules/workflow/service.go:384-409 | all stored channels of a validated definition are known ones if and only if its nodes spell each in its normal form |
| Columns.CapitalsAreStored | internal/modules/workflow/service.go:384-409 | a concrete validated definition with a stored channel that is not a known one |
| Channels.NormalizeStrict | internal/modules/workflow/service.go:448-471 | accepts exactly the non-empty lists of known channels and gives their distinct normal forms in first-occurrence order |
| Channels.OccurrencesInOrder | internal/modules/workflow/service.go:461-468 | of two channels the one that occurs first comes first |
| Text.LowerLaws | internal/modules/workflow/service.go:455-455 | lower-casing leaves no capital and changes exactly the texts that have a letter to lower |
| Channels.NormalisersAgree | internal/modules/workflow/service.go:448-471 | where the workflow version accepts a list the notification version gives the same result; it accepts exactly the non-empty lists from which the other drops nothing |
| Channels.NormalisedIsStable | internal/modules/workflow/service.go:461-468 | both give distinct known channels and leave their own results alone |
| Runtime.Service.ProcessStep | internal/modules/workflow/runtime.go:19-106 | one attempt finds the node, counts the attempt, marks the execution running and carries out the node's plan, and stops with the writes made so far at whichever call fails |
| Runtime.Service.HandleNotificationStep | internal/modules/workflow/runtime.go:108-182 | all checks come before the notification job, which is queued before the row is closed |
| Runtime.Service.HandleDelayStep | internal/modules/workflow/runtime.go:184-229 | delayed jobs are queued before the row is closed; a delay without successors completes at once; a refused job fails the step; how long the jobs wait is in Steps.JobsWait |
| Runtime.Service.HandleConditionStep | internal/modules/workflow/runtime.go:231-247 | the branch that the payload selects is followed |
| Runtime.Service.EnqueueAll | internal/modules/workflow/runtime.go:204-214 | jobs are queued for a first part of the list, up to the first refusal, and all of them if there is none |
| Runtime.Service.CompleteCurrentAndDispatchNext | internal/modules/workflow/runtime.go:249-285 | closes the row, queues the successors, then completes the execution or points it at the first successor; each write can be the last one |
| Steps.StepSucceedsIff | internal/modules/workflow/runtime.go:19-106 | an attempt succeeds exactly if its step is a node of the definition, the checks of that node's kind pass, there is a producer if there are jobs to hand on, and none of its calls fails |
| Steps.JobsWait | internal/modules/workflow/runtime.go:184-214 | the jobs that a delay step hands on wait for its duration, and those of any other step do not wait, whatever fails; each has all its retries |
| Steps.ConditionBranches | internal/modules/workflow/runtime.go:231-247 | a successful condition hands on along the edges of branch "true" if it holds and "false" otherwise, and along those without a branch |
| Steps.NoticeIff | internal/modules/workflow/runtime.go:108-182 | what a notification step sends, if anything: its one channel in normal form, its template if that is active and for the channel, and the subscriber's own contact for the channel |
| Steps.NotificationIsSent | internal/modules/workflow/runtime.go:164-181 | where it can be sent, the attempt sends exactly that one job, whatever write fails afterwards |
| Steps.ContactIff | internal/modules/workflow/runtime.go:443-465 | the recipient is the trimmed address, number or token of the subscriber that belongs to the channel, if it is not blank |
| Steps.StoppedAttempt | internal/modules/workflow/runtime.go:249-285 | an attempt that stops at a write or a refused job leaves the execution running at its step, and the row completed exactly if that write went through |
| Steps.UnstartedAttempt | internal/modules/workflow/runtime.go:60-92 | if the execution cannot be marked as running, only the row of the step has been touched |
| Steps.FailedCheckFails | internal/modules/workflow/runtime.go:287-307 | a step whose checks fail marks its row and then the execution as failed, as far as the writes go through, queues and sends nothing, and reports the cause only if both do; the cause is that the workflow is invalid exactly if the configuration cannot be used |
| Steps.RefusedDelayFails | internal/modules/workflow/runtime.go:204-214 | a delay step of which a job is refused fails in the same way, but the jobs before that one stay queued, for its duration |
| Runs.NoticeIsForKnownChannel | internal/modules/workflow/runtime.go:119-127 | every notification job of a step is for a known channel, however the node spells it |
| Definitions.FindNodeIsFirst | internal/modules/workflow/runtime.go:309-316 | the first node with exactly this id |
| Definitions.NextNodeIDs | internal/modules/workflow/runtime.go:318-331 | the targets of the edges out of a node that the branch allows, in edge order |
| Definitions.FollowedInOrder | internal/modules/workflow/runtime.go:318-331 | each allowed edge out of the node gives its target once, in the order of the edges |
| Definitions.DocumentedRuleIff | internal/modules/workflow/runtime.go:318-331 | a step follows exactly its edges with the documented branch if and only if none of its edges is against the rule: none with a branch for a step that is no condition, none without one for a condition |
| RunSafety.LabelledEdgeIsFollowed | internal/modules/workflow/runtime.go:318-331 | a concrete validated definition in which a trigger follows an edge with a branch |
| RunSafety.UnlabelledEdgeIsFollowed | internal/modules/workflow/runtime.go:318-331 | a concrete edge without a branch that a condition follows whatever its result |
| Conditions.LookupField | internal/modules/workflow/runtime.go:359-373 | walks the dotted path through nested objects, or finds nothing |
| Conditions.LookupIff | internal/modules/workflow/runtime.go:359-373 | a value is found exactly if a walk leads to it that opens one object for each name of the path |
| Conditions.HoldsMeans | internal/modules/workflow/runtime.go:333-357 | for each operator, what it asks of the value that the path leads to: that there is one, that its text is or is not the given one, or that its text has the given one as a part, whatever the case of the letters |
| Conditions.SplitJoin | internal/modules/workflow/runtime.go:359-363 | splitting a path loses nothing and leaves no dot in a part |
| Conditions.OperatorLaws | internal/modules/workflow/runtime.go:333-357 | equals and not_equals are opposites, also on a missing field, and an equal field contains its value |
| Runs.ProcessShape | internal/modules/workflow/runtime.go:249-285 | whatever fails, an attempt adds fresh jobs for a first part of its route, which wait as its step says, and nothing else; on success for all of it, with the execution set accordingly |
| Runs.ProcessRows | internal/modules/workflow/runtime.go:56-92 | only the step's own row changes, by one attempt if it is written at all; success leaves it completed |
| Runs.ProcessNotices | internal/modules/workflow/runtime.go:164-181 | at most one notification job for each attempt, only for the step itself and only with a written row; on success exactly if the step is a notification |
| Draining.AttemptShrinks | internal/modules/workflow/runtime.go:19-106 | each attempt, successful or not, strictly lowers the weight (R+1)(1 + weight of all out-edges) summed over pending jobs |
| Draining.RunShrinks | internal/modules/workflow/runtime.go:19-106 | attempts made and weight left never exceed the weight at the start of any run |
| Draining.EveryRunDrains | internal/modules/workflow/runtime.go:184-307 | for every validated definition, order, delay, failure and retry limit, a triggered run makes at most Cost(first step) attempts, and then the queue is empty |
| Draining.RunsCanFinish | internal/modules/workflow/runtime.go:19-106 | a run with jobs left can be carried on until it has none, whatever its deliveries meet |
| Draining.CostIsUnique | internal/modules/workflow/runtime.go:184-307 | that bound is a property of the definition alone: it is the same for every topological numbering |
| RunSafety.AttemptCounts | internal/modules/workflow/runtime.go:56-85 | a step's attempts grow by one exactly when its row is written, and its notification jobs by at most that |
| RunSafety.RecordsStayConsistent | internal/modules/workflow/runtime.go:249-307 | in every reachable state completion and failure times match the statuses, a completed execution has no current step, attempts equal row writes, and notification jobs never exceed attempts |
| RunSafety.TriggeredIsConsistent | internal/modules/workflow/runtime.go:85-92 | the start of every run of a validated definition satisfies the premises of the record invariant |
| RunSafety.JobsStayReachable | internal/modules/workflow/runtime.go:94-105 | every job ever queued names a step reachable from the first step along allowed edges |
| RunSafety.TriggeredIsReachable | internal/modules/workflow/runtime.go:50-53 | the first job of a run is reachable |
| RunSafety.ReachableIsNode | internal/modules/workflow/runtime.go:309-316 | a reachable step is a node of the validated definition, up to spaces around the id |
| RunSafety.GivenUpIffUntrimmed | internal/modules/workflow/runtime.go:32-53 | a job for a node of a validated definition is given up as invalid exactly if its lookups succeed and the stored id has spaces around it |
| RunSafety.NoJobIsGivenUp | internal/modules/workflow/runtime.go:50-105 | with trimmed ids no job of any run of a validated definition is given up |
| RunSafety.UntrimmedIdIsGivenUp | internal/modules/workflow/runtime.go:32-53 | a concrete validated definition whose second job is given up |
| RunSafety.FollowsValidatedIff | internal/modules/workflow/runtime.go:318-331 | out of every node the runtime follows what the validator has checked if and only if no edge has spaces around its ends |
| RunSafety.TrimmedEdgesAreKept | internal/modules/workflow/runtime.go:318-331 | then the first step is entered by no edge of the validated graph, and a step that is no condition hands on to all its successors there |
| RunSafety.UntrimmedSourceIsDropped | internal/modules/workflow/runtime.go:318-331 | a concrete validated definition with trimmed ids in which an edge is never followed |
| Confluence.SmoothConserves | internal/modules/workflow/runtime.go:249-285 | a successful delivery moves one visit from those to come to those made and loses none |
| Confluence.SmoothRunsAgree | internal/modules/workflow/runtime.go:231-285 | whatever the order of deliveries, a failure-free drained run attempts each step as often as the recursive reading of the graph visits it, sends one notification job per notification visit, and ends completed |
| Confluence.NothingIsLost | internal/modules/workflow/runtime.go:19-106 | whatever fails, a drained run in which no job was given up or used up its retries has attempted each step at least as often as the recursive reading visits it, and has sent at least that many notification jobs for a notification step |
| Confluence.FavourableRunsAreSmooth | internal/modules/workflow/runtime.go:19-106 | without faults, refusals by the queue among them, with trimmed ids and deliverable notifications, every attempt of every run of a validated definition succeeds |
| Confluence.FavourableRunsComplete | internal/modules/workflow/runtime.go:231-285 | in such circumstances a triggered run can be carried through to an empty queue and a completed execution |
| Completion.CompletedIsFinalIff | internal/modules/workflow/runtime.go:264-266 | where nothing fails, an execution is never completed with jobs left, over all runs, if and only if no reachable step hands on to two others |
| Completion.FanOutCompletesEarly | internal/modules/workflow/runtime.go:264-266 | from any reachable step with two successors a run to such a state is constructed |
| Completion.ForkCompletesEarly | internal/modules/workflow/runtime.go:264-266 | a concrete validated definition with such a run |
| Completion.FailedWriteCompletesEarly | internal/modules/workflow/runtime.go:268-284 | with retries, from any first step that hands on to anything a run to such a state is constructed: the step's last write fails after it has queued its successors, and these overtake its next attempt |
| Completion.AlwaysFinalIff | internal/modules/workflow/runtime.go:268-284 | over all runs with any failures, an execution is never completed with jobs left if and only if the first step hands on to nothing, where failed attempts come back, and if and only if no reachable step hands on to two others, where they do not |
| Completion.TwoStepsCompleteEarly | internal/modules/workflow/runtime.go:268-284 | a concrete validated definition of two steps with such a run |
| Interpreter.TraceDescends | internal/modules/workflow/runtime.go:318-331 | the sequential interpreter never repeats a step |
| Interpreter.TraceVisits | internal/modules/workflow/runtime.go:318-331 | where no step hands on to two, the recursive reading visits exactly the interpreter's trace, once each |
| Interpreter.RunsTheTrace | internal/modules/workflow/runtime.go:231-285 | where no reachable step hands on to two, a failure-free run has at most one pending job at all times, follows the interpreter's trace, and is completed exactly when the queue is empty |
| Interpreter.EachStepOnce | internal/modules/workflow/runtime.go:231-285 | such a run ends with one attempt for each step of the trace and none for others |
| RunSafety.UntrimmedTargetIsMissed | internal/modules/workflow/service.go:507-531 | a concrete validated definition with trimmed ids whose first step is entered by an edge of the validated graph |
| Locks.NoStepPendingTwice | internal/queue/asyncq.go:90-103 | over every run under the lock, whatever else fails, no two pending jobs are for the same stored id |
| Locks.ParallelEdgesNeverSucceed | internal/queue/asyncq.go:90-103 | an attempt at a step with two followed edges to one stored target never succeeds under the lock |
| Locks.LockNeverMetIff | internal/queue/asyncq.go:90-103 | where nothing else fails, every run under the lock is free of failures if and only if no stored id can be reached from the first step in two ways |
| Locks.LockedRunsComplete | internal/queue/asyncq.go:90-103 | for such definitions a run under the lock can be carried through to an empty queue and a completed execution |
| Locks.TwinNeverSucceeds | internal/queue/asyncq.go:90-103 | a concrete validated definition of two steps with two edges between them, whose first step never succeeds under the lock |
| Channels.NormalizeLenient | internal/modules/notification/service.go:579-596 | distinct known channels in first-occurrence order, unknown ones dropped |
| Columns.Extract | internal/modules/notification/service.go:410-444 | stored columns extended by what the definition adds |
| Columns.ExtractNode | internal/modules/notification/service.go:421-440 | one node adds its new channels, and its template id where there is no non-empty one |
| Columns.StoredColumnsWin | internal/modules/notification/service.go:410-444 | stored channels come first and unchanged, then the first occurrences of the other channels of the definition, and stored non-empty template ids win |
| Columns.ExtractedTemplateIff | internal/modules/notification/service.go:410-444 | the template id that is read back for a channel is the stored one, and where there is none, that of the first node that gives it one |
| Columns.BuiltColumnsAgree | internal/modules/notification/service.go:410-444 | for a row built from a validated definition exactly the stored channels, which are distinct, and the stored template ids come back |
| Preparation.FilterRequestedChannels | internal/modules/notification/service.go:448-463 | the requested channels of the list in the list's order, or the list itself without a request |
| Preparation.AmongConcat | internal/modules/notification/service.go:448-463 | filtering goes channel by channel, so the order is that of the list |
| Preparation.IdsAreExtracted | internal/modules/notification/service.go:297-330 | the delivery works with the extracted template ids; it is an error exactly if the column does not decode and the definition gives no id either |
| Preparation.PrepareWorkflowJob | internal/modules/notification/service.go:297-330 | fails for ids that do not parse, for a missing or failing workflow or subscriber, for a mapping that does not decode, and for the first requested channel that aborts; otherwise the channels are split by their verdicts, the subscriber's statuses are respected channel by channel, and the job's metadata is enriched |
| Preparation.PreparedJobsAreSendable | internal/modules/notification/service.go:297-330 | for a row built from a validated definition, prepared and skipped channels are distinct, disjoint, and together exactly the requested channels of the definition |
| Sending.Service.Send | internal/modules/notification/service.go:480-573 | the row is upserted first; skips, deliveries, status and event follow; the id, the error and the undelivered channels that are returned are stated for each way it can end |
| Sending.SendEnds | internal/modules/notification/service.go:480-573 | which error and which id a send returns, exactly; and which row it leaves: with the first id, environment and test flag, the channels of the job and a final status, or "pending" if that write fails; and which event it sends |
| Sending.UndeliveredAre | internal/modules/notification/service.go:538-550 | the reported channels are those whose delivery fails, one entry for each |
| Sending.SendUsesThePrimary | internal/modules/notification/service.go:538-550 | for every reachable table of integrations, a send calls for each channel the provider of an active row of the environment and channel, of the primary row where there is one, and none for a channel without an active row |
| Sending.NoProviderFails | internal/modules/notification/service.go:538-550 | a channel without an active row is counted and stored as failed |
| Sending.Service.Deliver | internal/modules/notification/service.go:534-573 | the part behind the status guard: skips, deliveries, final status, event |
| Sending.Service.RecordSkips | internal/modules/notification/service.go:534-536 | one skipped row for each skipped channel |
| Sending.Service.DeliverAll | internal/modules/notification/service.go:538-550 | counts successes and failures of all channels, which add up, and leaves their rows and calls |
| Sending.ChannelRow | internal/modules/notification/service.go:534-550 | with distinct channels each channel's row is what its own delivery wrote last, or what was there before |
| Sending.OtherRowsStay | internal/modules/notification/service.go:534-550 | no other row of the attempts table changes |
| Sending.StatusSumsUpTable | internal/modules/notification/service.go:534-568 | after a first or repeated send each channel of the job has its one row, the stored status is the summary of these rows, and the event reports a failure exactly when none says sent |
| Sending.RowsAreTheJobs | internal/modules/notification/service.go:534-568 | over any run from the empty tables, a job always sent with the same channels and skips has rows for these only, so the status sums up all its rows |
| Sending.AgreesIffFaithful | internal/modules/notification/service.go:538-550 | table and counts agree if and only if for each channel the last write that is not lost is the one that is due, or all are lost and the row says so already |
| Sending.ResendCallsAgain | internal/modules/notification/service.go:526-532 | the terminal guard never holds after the upsert, so a repeated send calls the providers again unless it reaches none |
| Sending.SendIsNotIdempotent | internal/modules/notification/service.go:512-532 | a concrete job that is delivered twice when sent twice |
| Sending.IdentityIsStable | internal/modules/notification/service.go:512-529 | over any interleaving of queueing and sending a job id keeps one row with its first id, environment and test flag, and ids are never shared |
| Integrations.PickProvider | internal/modules/notification/delivery.go:32-46 | the first row that is active and whose provider is registered |
| Sending.CalledIff | internal/modules/notification/delivery.go:20-51 | a provider is called exactly if the list can be read, has an active row of a registered provider, and the configuration can be built; it is that of the first such row; otherwise the one write is "failed" |
| Integrations.DeliveryUsesThePrimary | internal/modules/notification/delivery.go:32-46 | in every reachable table, delivery over a channel with a primary row uses that row, and it finds none exactly if none is active |
| Sending.Service.DeliverProjectChannel | internal/modules/notification/delivery.go:20-67 | reports success exactly if a provider was called and returned no error; the call is logged with the row that was chosen; the channel's row holds the last write that is not lost, for any choice of lost writes |
| Sending.FaithfulIff | internal/modules/notification/delivery.go:51-66 | the row ends up as the channel was counted exactly if the last write that is not lost is the one that is due; providers that keep their promise see to that if no write is lost |
| Sending.Service.CreateQueuedNotification | internal/modules/notification/delivery.go:156-192 | the job's row is queued with its first id kept, or nothing changes |
| Sending.StatusMeaning | internal/modules/notification/workflow.go:190-212 | which counts give which status; each of them is terminal |
| Preparation.AppendRecipientChannel | internal/modules/notification/workflow.go:120-139 | sets the target of the channel, or reports that it is lacking and sets nothing |
| Preparation.Consider | internal/modules/notification/workflow.go:33-75 | the checks on one channel in their order, with the recipient changed only for a delivered channel |
| Preparation.PrepareDelivery | internal/modules/notification/workflow.go:17-79 | fails exactly if some channel aborts, with the first such error; otherwise splits the channels by their verdicts with matching content and recipient, and respects the subscriber's status for each of the three channels |
| Preparation.StatusesAreRespected | internal/modules/notification/workflow.go:100-118 | a channel for which the subscriber's own status is "unsubscribed" or "bounced" is not delivered, and is skipped with that reason if it was asked for; these reasons are given in no other case |
| Preparation.OmitIff | internal/modules/notification/workflow.go:33-75 | the exact condition for each reason to skip a channel |
| Preparation.AbortIff | internal/modules/notification/workflow.go:33-75 | the exact condition for each error that a channel can cause |
| Preparation.FirstAbortIs | internal/modules/notification/workflow.go:33-75 | the error is that of the first channel that causes one |
| Preparation.DeliverIff | internal/modules/notification/workflow.go:33-75 | a channel is delivered with a template if and only if the subscriber's status for it allows it, there is a contact for it, and the template with its id is active and for this channel and renders |
| Preparation.UnknownIsNeverDelivered | internal/modules/notification/workflow.go:33-75 | a channel that is not spelled like a known one is never delivered, as templates are for known channels |
| Preparation.Enriched | internal/modules/notification/workflow.go:179-188 | the metadata gets the three ids, whatever stood there, and keeps everything else |
| Preparation.ChannelsArePartitioned | internal/modules/notification/workflow.go:33-75 | deliverable and skipped channels are complementary parts of the list, both in its order |
| Preparation.InterleavedElements | internal/modules/notification/workflow.go:33-75 | complementary parts have exactly the elements and the length of the whole |
| Preparation.DeliverableIsDeliverable | internal/modules/notification/workflow.go:33-75 | every deliverable channel is email, sms or push, not unsubscribed or bounced by its own status, with content from an active template for it; and exactly for deliverable channels the target is set, to the subscriber's own contact |
| Sending.Service.Upsert | internal/db/gen/notifications.sql.go:306-318 | on a known job id the id, environment and test flag stay; a new row gets the given ones |
| Sending.WithStatusIs | internal/db/gen/notifications.sql.go:289-294 | with distinct ids that is one row |
| Integrations.ClearedIs | internal/db/gen/integrations.sql.go:14-18 | where a channel has a primary row, clearing it takes the flag from that row alone |
| Integrations.SetStateAt | internal/db/gen/integrations.sql.go:283-290 | with unique ids exactly one row gets the flags |
| Integrations.Remove | internal/db/gen/integrations.sql.go:74-77 | exactly the row with the id is gone |
| Integrations.PrimaryComesFirst | internal/db/gen/integrations.sql.go:199-204 | a primary row is the first of its channel's list |
| Integrations.FilterFirstActive | internal/db/gen/integrations.sql.go:199-204 | among the other rows the list is oldest first: the oldest active one is the first active one |
| Integrations.Service.CreateIntegration | internal/modules/integration/service.go:46-88 | adds the row in normal form, active and primary exactly if its channel has no active row; succeeds exactly for a provider of the catalogue that serves the channel, with an id and a name that are not taken, if the normaliser takes it and no query fails; otherwise nothing changes |
| Integrations.CreateAcceptedIff | internal/modules/integration/service.go:63-87 | an insertion is refused exactly if the id or the name is taken; its flags never break a constraint |
| Integrations.Service.UpdateIntegration | internal/modules/integration/service.go:98-123 | renames or moves the one row with its flags kept; refused exactly for an unknown row, a provider that does not serve the channel, a name that is taken, a second primary row, by the normaliser or for a failing query, and then nothing changes |
| Integrations.UpdateAcceptedIff | internal/modules/integration/service.go:98-123 | refused exactly if the name is taken or a primary row would meet another primary row |
| Integrations.UpdateInPlaceKeeps | internal/modules/integration/service.go:98-123 | an update within the channel keeps every channel's primary |
| Integrations.MoveKeepsPrimariesIff | internal/modules/integration/service.go:98-123 | an accepted update to another channel keeps every channel's primary exactly if a primary row leaves nothing behind and another row joins some row |
| Integrations.MoveCanLeaveNoPrimary | internal/modules/integration/service.go:98-123 | four concrete calls from the empty table after which a channel in use has no primary row, its former one having been moved |
| Integrations.Service.DeleteIntegration | internal/modules/integration/service.go:125-127 | the one row is cut out of the table, primary or not, and nothing else changes |
| Integrations.DeleteKeepsPrimariesIff | internal/modules/integration/service.go:125-127 | a deletion keeps every channel's primary exactly if the row was not the primary of a channel with other rows |
| Integrations.DeletionCanLeaveNoPrimary | internal/modules/integration/service.go:125-127 | four concrete calls after which an active row is left without a primary one, the primary row having been deleted |
| Integrations.Service.UpdateState | internal/modules/integration/service.go:198-218 | enabling makes the one row active; disabling makes it inactive and hands the primary flag on to the oldest other active row, or is refused where there is none; making it primary makes it active and takes the flag from the rest of its channel; an unknown row or action is an error; a failed action changes nothing |
| Integrations.Service.WithinTransaction | internal/modules/integration/service.go:198-218 | no statement of the transaction meets a constraint |
| Integrations.Service.EnableRow | internal/modules/integration/service.go:220-227 | the row becomes active and keeps its primary flag; never refused |
| Integrations.Service.SetPrimaryRow | internal/modules/integration/service.go:246-258 | the row becomes the active primary row of its channel; never refused |
| Integrations.Service.PromotePrimary | internal/modules/integration/service.go:261-282 | promotes the first other active row in primary-first, oldest-first order, or changes nothing |
| Integrations.Service.DisableRow | internal/modules/integration/service.go:229-244 | succeeds exactly if the row is not primary or a fallback exists, and then hands the flag over first |
| Integrations.DisableRefusedIff | internal/modules/integration/service.go:229-244 | disabling a primary row is refused exactly if its channel has no other active row |
| Integrations.DisablePromotesOldest | internal/modules/integration/service.go:261-282 | otherwise the oldest other active row becomes primary and nothing else changes |
| Integrations.PromotedIs | internal/modules/integration/service.go:246-258 | clearing the channel first makes both statements acceptable |
| Integrations.ManagedOpKeeps | internal/modules/integration/service.go:198-282 | create, enable, disable and set_primary keep the constraints and every channel's primary |
| Integrations.RunsKeepPrimaries | internal/modules/integration/service.go:46-282 | over any calls no channel has two primaries, a primary is active and a row has its provider's channel; with create, enable, disable and set_primary only, every channel in use has a primary |
| DotNotation.ParseIff | internal/modules/templates/renderer.go:19-19 | the parser finds a token at the start of a text if and only if the text starts with a match of the pattern |
| DotNotation.PathIff | internal/modules/templates/renderer.go:19-19 | a path is, character by character, letters, digits, underscores and at least one dot, with a letter or an underscore at the start and after each dot |
| DotNotation.PassFlipsTokens | internal/modules/templates/renderer.go:23-25 | the pass cuts the text from the left into matches and characters where no match starts, changes the matches by their dot and keeps everything else as it is and where it is |
| DotNotation.RewriteLeavesNone | internal/modules/templates/renderer.go:23-25 | after the pass no match is left anywhere |
| DotNotation.LengthOfRewrite | internal/modules/templates/renderer.go:23-25 | the length changes by exactly the number of replaced matches |
| DotNotation.PreprocessIsIdempotent | internal/modules/templates/renderer.go:23-25 | applying the pass twice equals applying it once, for every string |
| DotNotation.DottedAfterwards | internal/modules/templates/renderer.go:23-25 | the dotted paths afterwards are those from before and the rewritten ones |
| DotNotation.StripUndoes | internal/modules/templates/renderer.go:23-25 | without dotted paths of its own, a template is recovered by removing the inserted dots |
| DotNotation.StripInvertsIff | internal/modules/templates/renderer.go:23-25 | removing dots recovers the template if and only if it had no dotted path of its own |
| RateLimit.RateLimiter.Allow | internal/utils/ratelimit/ratelimit.go:23-35 | INCR and, on an answer of 1, EXPIRE change the service's counter and no other; an error exactly if a command sent fails; allowed exactly if the count is within the limit |
| RateLimit.RateIsBounded | internal/utils/ratelimit/ratelimit.go:23-35 | over any interleaving of commands, faults and times, a span of m minutes lets through at most (m+1) * limit - 1 calls |
| RateLimit.CounterIsBounded | internal/utils/ratelimit/ratelimit.go:29-34 | from the start of a counter to the start of the next at most limit calls are let through |
| RateLimit.BurstAttainsTheBound | internal/utils/ratelimit/ratelimit.go:23-35 | the bound for one minute, 2 * limit - 1, is attained without any fault |
| RateLimit.SlidesIffAtMostOne | internal/utils/ratelimit/ratelimit.go:11-35 | every minute stays within the limit, as a sliding window promises, if and only if the limit is at most one |
| RateLimit.StuckForGood | internal/utils/ratelimit/ratelimit.go:29-33 | a counter without expiry that nobody is about to give one lets through only what is left of the limit, ever |
| RateLimit.NoCallBeyondTheLimit | internal/utils/ratelimit/ratelimit.go:29-33 | from any run that leaves such a counter, it lets through at most limit calls in all, ever |
| RateLimit.LockedOutIff | internal/utils/ratelimit/ratelimit.go:29-34 | a service that has used up its limit is let in again at some later time if and only if its counter has an expiry or some caller has yet to set one |
| RateLimit.OneFailureLocksOut | internal/utils/ratelimit/ratelimit.go:29-33 | a concrete run: one refused EXPIRE, the limit used up, and no later call is let through |
| Tenants.EnsuredKeeps | internal/modules/auth/tenant.go:14-68 | whatever fails, the tables stay sound and everyone keeps the first membership and default environment; a returned tenant is the one found afterwards |
| Tenants.TenantIff | internal/modules/auth/tenant.go:14-96 | a tenant is returned exactly if none of the queries and inserts fails that finding, completing or creating it takes and the ids are new; then exactly these rows have been added, with the user as owner and development as default |
| Tenants.EnsuringIsIdempotent | internal/modules/auth/tenant.go:14-28 | after a success every later call changes nothing and returns the same tenant, unless its own queries fail |
| Tenants.RetryRecovers | internal/modules/auth/tenant.go:14-68 | after any failure a call without faults and with new ids finds or creates a tenant |
| Tenants.ProductionIffFirstTime | internal/modules/auth/tenant.go:70-96 | for a user who gets a tenant, the production environment exists, then and after any later call, if and only if the second insert met no fault and drew a new id |
| Tenants.ProductionCanBeMissing | internal/modules/auth/tenant.go:70-96 | a concrete first tenant for which it is missing, although every later call succeeds |
| Tenants.DefaultOf | internal/modules/auth/tenant.go:15-19 | a default environment of the organisation if and only if there is one |
| Sessions.Service.EnsurePrimaryTenant | internal/modules/auth/tenant.go:14-68 | finds or creates organisation, membership and environments step by step; each insert that went through stays |
| Tenants.SeededAdds | internal/modules/auth/tenant.go:70-96 | development, then production, and nothing else; a failing call has added a first part of the two |
| Sessions.HousedOpens | internal/modules/auth/session.go:115-153 | a session for a user with a tenant fails only by a fault or a token drawn twice, changes nothing then, and otherwise adds the one token |
| Sessions.OpenedIff | internal/modules/auth/session.go:115-153 | a session is opened exactly if the tenant is there or can be created, the tokens are generated and the new one can be stored; it names that tenant and has its lifetime |
| Sessions.RefreshRotates | internal/modules/auth/session.go:65-104 | in every reachable state a refresh succeeds exactly for a known unexpired token where nothing fails, and then replaces that token by one for the same user; a failure after the deletion loses the session |
| Sessions.RefreshErrors | internal/modules/auth/session.go:65-104 | which error a blank, an unknown and an expired token give |
| Sessions.LogoutEndsSession | internal/modules/auth/session.go:106-113 | fails exactly for a blank token or a failing deletion and then changes nothing; otherwise the token cannot be refreshed any more, and no other token is touched |
| Sessions.TokensAreSound | internal/modules/auth/session.go:65-136 | after any requests with any faults each refresh token is for a verified user with a membership whose organisation has a default environment |
| Sessions.TokensAreSingleUse | internal/modules/auth/session.go:65-104 | over any run a token is refreshed at most as often as it was handed out |
| Sessions.OpKeepsInvariant | internal/modules/auth/session.go:65-153 | each operation keeps the invariant behind that, whichever of its calls fail |
| Sessions.SignupRegisters | internal/modules/auth/auth.go:15-68 | a taken address changes nothing; on success there is a new unverified user with that password, a tenant and the code; sessions are never touched |
| Sessions.SignupSucceedsIff | internal/modules/auth/auth.go:15-68 | succeeds exactly for a free address and a password that is not blank where none of its calls fails; which error the address and the password give; and what a failing sign-up leaves |
| Sessions.FreeAddressIsRegistered | internal/modules/auth/auth.go:15-68 | where nothing fails and the ids are new, every free address is registered with every password that is not blank |
| Sessions.HalfSignupTakesAddress | internal/modules/auth/auth.go:15-68 | after a sign-up that failed half-way the address cannot be signed up again, but a new code can be had for it |
| Sessions.SignupThenVerify | internal/modules/auth/auth.go:15-68 | the new user has no session by password before, and gets one with the code that was sent, before it expires and where nothing fails |
| Sessions.Service.SignInWithSocial | internal/modules/auth/auth.go:70-169 | known identity, else known address, else new user; the address becomes verified, then link, tenant and session, with what was written before a failing call kept |
| Sessions.SocialNeedsIdentity | internal/modules/auth/auth.go:85-169 | a social session is for the user linked to the provider's account: the one from before, else the one with the address, linked from then on |
| Sessions.SocialSucceedsIff | internal/modules/auth/auth.go:70-169 | succeeds exactly for Google or GitHub with an account and an address where none of the calls fails that it takes and no other account of the provider is linked to the user; then the address is verified and no other user and no code has changed; which error is given for an incomplete request |
| Sessions.SigninRefusals | internal/modules/auth/auth.go:171-196 | an unknown address, an unverified one and a wrong or blank password are refused, exactly these, and then nothing changes |
| Sessions.SigninSucceedsIff | internal/modules/auth/auth.go:171-196 | succeeds exactly for a verified address with its password where a session can be opened; at most tenants and tokens change |
| Sessions.SigninNeedsPassword | internal/modules/auth/auth.go:171-196 | a session takes the stored password of a user whose address is verified |
| Sessions.RepliesToCodeRequests | internal/modules/auth/auth.go:200-212 | where nothing fails, the reply to a forgotten password is the same for every address, and a code is accepted afterwards for exactly the known ones; the reply to a repeated verification is an error for exactly the verified ones |
| Sessions.CodeRequestSucceedsIff | internal/modules/auth/auth.go:200-212 | with whatever faults: an unknown address is no error, a verified one is refused another verification code, and otherwise a code is sent exactly if no call fails |
| Sessions.ResetSetsPassword | internal/modules/auth/auth.go:215-268 | succeeds exactly with a password and an accepted code where no write fails; then that user has that password and the code is gone; a failing deletion leaves the new password; nothing else is ever touched |
| Sessions.ResetThenSignin | internal/modules/auth/auth.go:215-268 | afterwards a verified user gets past the checks with the new password and with no other |
| Sessions.CodesAreSingleUse | internal/modules/auth/auth.go:215-268 | over any run, for each user, successful verifications and resets together are at most the codes issued |
| Sessions.OnlyTheLatestCodeFits | internal/modules/auth/email.go:19-49 | after a new code exactly that one is accepted, until it expires; nothing but that user's code has changed |
| Sessions.UsedCodeIsGone | internal/modules/auth/email.go:93-112 | once a code has been used no code is accepted for the address |
| Sessions.VerifyNeedsCode | internal/modules/auth/email.go:76-103 | a session by verification takes the stored code before it expires |
| Sessions.CodeAcceptedIff | internal/modules/auth/email.go:126-155 | a code is accepted exactly if it is the stored one, has not expired, and no query fails |
| Sessions.CodeErrors | internal/modules/auth/email.go:126-155 | which error an expired code, a wrong one and a failing query give |
| Sessions.VerifySucceedsIff | internal/modules/auth/email.go:76-103 | succeeds exactly for a code that fits where none of its calls fails; the address is verified from the first write on, and the code goes unless its deletion fails |

## Left out

- HTTP handlers, middleware, configuration, logging, start-up and the web dashboard: plumbing without invariants.
- Providers: a provider is any list of destination results with or without an error. Its stored
  configuration and credentials, and their encryption, are reduced to whether they can be built.
- The queue itself: a bag whose jobs come back at most `maxRetry` times
  (`internal/queue/asyncq.go:90-119`). Delays are recorded on jobs but not waited for, so every order that
  timing could produce is covered, and more. A job that the lock refuses is one of the possible enqueue
  failures; `Locks` takes the lock to last as long as the other job is pending, not its time to live.
- Crashes between two writes of an attempt other than as a failing next write followed by a redelivery.
- Concurrent calls: step attempts, sends, integration changes and account operations are atomic steps in any
  order; interleavings inside them (two refreshes with one token, two first integrations) are not modelled.
  The methods of `Sessions` carry out what its functions say; the rows cite the lemmas about these functions.
  Only the rate limiter's commands interleave.
- The definition is fixed during a run, though each attempt reloads it.
- JSON texts: definitions, payloads and columns are decoded values, or marked as not decodable. The input,
  output and error columns of rows are left out.
- Uuids, durations and hashes: parsing is part of the data, hashes are injective, and job ids that do not
  parse as uuids are left out.
- Integer widths: attempts are unbounded, as a run is far too short to wrap a 32-bit count.
- Text: lower-casing covers ASCII and the two other letters that map into it. No other letter maps into a
  channel, branch or operator name, so those comparisons are exact; `contains` on other letters and the
  folding of other letters in addresses are approximate.
- Clock: one attempt or one request reads the time once.
- Templates: rendering is success or failure. The variables given to it and titles are left out.
- The query for the active workflows of an event: its result is a parameter.
- The paths of PrepareJob for direct sends, subscriber creation and system users; and of the workflow
  service for channel lists given without a definition.
- Order by creation time is the order of the table.
- Other services that change default environments or members; onboarding; names of users.
- Members of modules that only serve proofs have no row above.
- Preparation.PrepareWorkflowJob: titles and texts are left out.
- Integrations.Service.DeleteIntegration: failing queries and statements are left out, here and in the calls
  that change the flags; creating and updating can fail in this way.
- Sessions.Service.SignUp: an address that is blank is accepted, as the original checks it elsewhere.
