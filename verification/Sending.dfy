/** Sending a notification: delivery over each channel, the table of delivery attempts, and the status
    that sums them up. */
module Sending {
  import opened Wrappers
  import opened Text
  import Channels
  import Integrations

  type Uuid = nat

  // ----- Rows, jobs, and what a send meets -----

  datatype AttemptStatus = Sent | Failed | Skipped

  datatype Notification = Notification(id: Uuid, environment: Uuid, isTest: bool, status: string, channels: seq<string>)

  /** A send of the provider of this row. */
  datatype ProviderCall = ProviderCall(jobId: string, channel: string, row: Integrations.Row)

  /** `calls` logs the sends of providers and `events` the webhook events, oldest first. */
  datatype Store = Store(notifications: map<string, Notification>, attempts: map<(Uuid, string), AttemptStatus>,
                         calls: seq<ProviderCall>, events: seq<string>)

  datatype Project = Blank | Malformed | Known(id: Uuid)

  datatype Job = Job(jobId: string, project: Project, channels: seq<string>, skipped: seq<string>, isTest: bool)

  /** What the delivery over one channel meets: the provider rows (None if the query fails), whether the
      provider's configuration can be built, the results that the provider reports for its destinations,
      whether it reports an error, and which of the writes to the attempts table get lost, by their order. */
  datatype Channel = Channel(providers: Option<Integrations.Table>, configOk: bool,
                             results: seq<bool>, error: bool, lost: set<nat>)

  datatype Env = Env(freshId: Uuid, upsertFails: bool, channels: seq<Channel>, skipsLost: set<nat>,
                     statusFails: bool, hasDispatcher: bool)

  datatype Error = InvalidRequest | InvalidProject | StoreError

  const TERMINAL: set<string> := {"sent", "failed", "partial_failed", "partial_skipped", "skipped"}

  /** finalNotificationStatus */
  function FinalStatus(sent: nat, failed: nat, skipped: nat): string {
    if sent == 0 && failed == 0 && skipped > 0 then "skipped"
    else if sent > 0 && failed == 0 && skipped > 0 then "partial_skipped"
    else if sent > 0 && failed == 0 then "sent"
    else if sent > 0 then "partial_failed"
    else "failed"
  }

  /** What each status says about the three counts. */
  lemma StatusMeaning(sent: nat, failed: nat, skipped: nat)
    ensures var status := FinalStatus(sent, failed, skipped);
            && status in TERMINAL
            && (status == "sent" <==> sent > 0 && failed == 0 && skipped == 0)
            && (status == "partial_skipped" <==> sent > 0 && failed == 0 && skipped > 0)
            && (status == "partial_failed" <==> sent > 0 && failed > 0)
            && (status == "skipped" <==> sent == 0 && failed == 0 && skipped > 0)
            && (status == "failed" <==> sent == 0 && (failed > 0 || skipped == 0))
  {
  }

  // ----- Delivery over one channel -----

  function Provider(c: Channel): Option<Integrations.Row> {
    if c.providers.None? then None else Integrations.FirstUsable(c.providers.value, Integrations.REGISTRY)
  }

  predicate Called(c: Channel) {
    Provider(c).Some? && c.configOk
  }

  /** A row over which the delivery can go: active, and of a registered provider. */
  ghost predicate Usable(row: Integrations.Row) {
    row.isActive && row.name in Integrations.REGISTRY
  }

  /** A provider is called exactly if the channel has a usable row and its configuration can be built; then it
      is that of the first usable row. */
  lemma CalledIff(c: Channel)
    ensures Called(c) <==> c.providers.Some? && c.configOk && exists row :: row in c.providers.value && Usable(row)
    ensures Called(c) ==> exists i ::
      && 0 <= i < |c.providers.value| && Provider(c) == Some(c.providers.value[i]) && Usable(c.providers.value[i])
      && forall j | 0 <= j < i :: !Usable(c.providers.value[j])
    ensures Succeeds(c) <==> Called(c) && !c.error
    ensures !Called(c) ==> Writes(c) == [Failed]
  {
    if c.providers.Some? && Integrations.FirstUsable(c.providers.value, Integrations.REGISTRY).Some? {
      var i := Integrations.FirstUsableIs(c.providers.value, Integrations.REGISTRY);
      assert c.providers.value[i] in c.providers.value;
    }
  }

  /** Does deliverProjectChannel report success? */
  predicate Succeeds(c: Channel) {
    Called(c) && !c.error
  }

  function Outcomes(results: seq<bool>): (r: seq<AttemptStatus>)
    ensures |r| == |results| && forall i | 0 <= i < |r| :: r[i] == if results[i] then Sent else Failed
  {
    seq(|results|, i requires 0 <= i < |results| => if results[i] then Sent else Failed)
  }

  /** What is written to the channel's row, one write after the other. */
  function Writes(c: Channel): seq<AttemptStatus> {
    if !Called(c) then [Failed] else Outcomes(c.results) + if c.error then [Failed] else []
  }

  /** The last write that is not lost. */
  function LastKept(writes: seq<AttemptStatus>, lost: set<nat>): Option<AttemptStatus> {
    if writes == [] then None
    else
      var n := |writes| - 1;
      if n in lost then LastKept(writes[..n], lost) else Some(writes[n])
  }

  lemma OneWrite(status: AttemptStatus, lost: set<nat>)
    ensures LastKept([status], lost) == if 0 in lost then None else Some(status)
  {
    assert [status][..0] == [];
  }

  lemma NextResult(results: seq<bool>, i: nat, lost: set<nat>)
    requires i < |results|
    ensures LastKept(Outcomes(results[..i + 1]), lost) ==
            if i in lost then LastKept(Outcomes(results[..i]), lost) else Some(if results[i] then Sent else Failed)
  {
    assert Outcomes(results[..i + 1])[..i] == Outcomes(results[..i]);
  }

  /** The status that the channel's row has afterwards; None if no write to it goes through. */
  function Written(c: Channel): Option<AttemptStatus> {
    LastKept(Writes(c), c.lost)
  }

  function Put(attempts: map<(Uuid, string), AttemptStatus>, id: Uuid, channel: string, status: Option<AttemptStatus>)
    : map<(Uuid, string), AttemptStatus>
  {
    if status.Some? then attempts[(id, channel) := status.value] else attempts
  }

  /** What a provider promises: no error only with a non-empty list of results that all succeeded. */
  predicate Honours(c: Channel) {
    Succeeds(c) ==> c.results != [] && forall r | r in c.results :: r
  }

  // ----- The whole send, as a function on the store -----

  function Upserted(s: Store, job: Job, environment: Uuid, status: string, freshId: Uuid): Notification {
    var id := TrimSpace(job.jobId);
    if id in s.notifications then s.notifications[id].(status := status, channels := job.channels)
    else Notification(freshId, environment, job.isTest, status, job.channels)
  }

  function PutSkips(attempts: map<(Uuid, string), AttemptStatus>, id: Uuid, skipped: seq<string>, lost: set<nat>)
    : map<(Uuid, string), AttemptStatus>
  {
    if skipped == [] then attempts
    else Put(PutSkips(attempts, id, skipped[..|skipped| - 1], lost), id, skipped[|skipped| - 1],
             if |skipped| - 1 in lost then None else Some(Skipped))
  }

  function PutAll(attempts: map<(Uuid, string), AttemptStatus>, id: Uuid, channels: seq<string>, met: seq<Channel>)
    : map<(Uuid, string), AttemptStatus>
    requires |met| == |channels|
  {
    if channels == [] then attempts
    else Put(PutAll(attempts, id, channels[..|channels| - 1], met[..|met| - 1]), id, channels[|channels| - 1],
             Written(met[|met| - 1]))
  }

  function CountSuccess(met: seq<Channel>): (n: nat)
    ensures n <= |met|
  {
    if met == [] then 0 else CountSuccess(met[..|met| - 1]) + if Succeeds(met[|met| - 1]) then 1 else 0
  }

  /** The channels whose delivery fails. */
  function Undelivered(channels: seq<string>, met: seq<Channel>): seq<string>
    requires |met| == |channels|
  {
    if channels == [] then []
    else Undelivered(channels[..|channels| - 1], met[..|met| - 1]) +
         if Succeeds(met[|met| - 1]) then [] else [channels[|channels| - 1]]
  }

  /** The one call of the delivery over a channel, if it gets as far as that. */
  function CallOf(jobId: string, channel: string, c: Channel): seq<ProviderCall> {
    if Called(c) then [ProviderCall(jobId, channel, Provider(c).value)] else []
  }

  function CallsOf(jobId: string, channels: seq<string>, met: seq<Channel>): seq<ProviderCall>
    requires |met| == |channels|
  {
    if channels == [] then []
    else CallsOf(jobId, channels[..|channels| - 1], met[..|met| - 1]) +
         CallOf(jobId, channels[|channels| - 1], met[|met| - 1])
  }

  predicate Fits(job: Job, env: Env) {
    |env.channels| == |job.channels|
  }

  /** Does the send get as far as a stored row? The primary key refuses a fresh id that is in use. */
  predicate Proceeds(s: Store, job: Job, env: Env) {
    && TrimSpace(job.jobId) != "" && job.project.Known? && !env.upsertFails
    && (TrimSpace(job.jobId) in s.notifications ||
        forall j | j in s.notifications :: s.notifications[j].id != env.freshId)
  }

  /** The id of the job's row: that of the row it has, or else the one that is drawn. */
  function IdOf(s: Store, job: Job, env: Env): Uuid {
    if TrimSpace(job.jobId) in s.notifications then s.notifications[TrimSpace(job.jobId)].id else env.freshId
  }

  /** The error of a send, apart from the report on undelivered channels. */
  function SendError(s: Store, job: Job, env: Env): Option<Error> {
    if TrimSpace(job.jobId) == "" then Some(InvalidRequest)
    else if job.project.Blank? then None
    else if job.project.Malformed? then Some(InvalidProject)
    else if !Proceeds(s, job, env) || env.statusFails then Some(StoreError)
    else None
  }

  /** How a send ends, and what it leaves in the row of its job. */
  ghost predicate EndsAs(s: Store, job: Job, env: Env, id: Option<Uuid>, error: Option<Error>, after: Store)
    requires Fits(job, env)
  {
    var jobId := TrimSpace(job.jobId);
    var known := jobId in s.notifications;
    var stored := && jobId != "" && job.project.Known? && !env.upsertFails
                  && (known || forall j | j in s.notifications :: s.notifications[j].id != env.freshId);
    && (error == Some(InvalidRequest) <==> jobId == "")
    && (error == Some(InvalidProject) <==> jobId != "" && job.project.Malformed?)
    && (error == Some(StoreError) <==> jobId != "" && job.project.Known? && (!stored || env.statusFails))
    && (id.Some? <==> stored)
    && (!stored ==> after == s)
    && (stored ==>
          var row := if jobId in after.notifications then Some(after.notifications[jobId]) else None;
          && row.Some? && after.notifications == s.notifications[jobId := row.value] && id == Some(row.value.id)
          && row.value.channels == job.channels
          && row.value.id == (if known then s.notifications[jobId].id else env.freshId)
          && row.value.environment == (if known then s.notifications[jobId].environment else job.project.id)
          && row.value.isTest == (if known then s.notifications[jobId].isTest else job.isTest)
          && (if env.statusFails then row.value.status == "pending" else row.value.status in TERMINAL)
          && after.events == s.events +
             if env.statusFails || !env.hasDispatcher then []
             else if row.value.status in {"failed", "skipped"} then ["notification.failed"]
             else ["notification.sent"])
  }

  lemma SendEnds(s: Store, job: Job, env: Env)
    requires Fits(job, env)
    ensures EndsAs(s, job, env, if Proceeds(s, job, env) then Some(IdOf(s, job, env)) else None,
                   SendError(s, job, env), AfterSend(s, job, env))
  {
    FinalIsTerminal(job, env);
  }

  lemma FinalIsTerminal(job: Job, env: Env)
    requires Fits(job, env)
    ensures StatusOf(job, env) in TERMINAL
  {
    StatusMeaning(CountSuccess(env.channels), |job.channels| - CountSuccess(env.channels), |job.skipped|);
  }

  ghost predicate Fails(channels: seq<string>, met: seq<Channel>, c: string)
    requires |met| == |channels|
  {
    exists i :: 0 <= i < |channels| && channels[i] == c && !Succeeds(met[i])
  }

  lemma FailsNext(channels: seq<string>, met: seq<Channel>, c: string)
    requires |met| == |channels| > 0
    ensures var n := |channels| - 1;
            Fails(channels, met, c) <==>
            Fails(channels[..n], met[..n], c) || (channels[n] == c && !Succeeds(met[n]))
  {
    var n := |channels| - 1;
    if i :| 0 <= i < n && channels[i] == c && !Succeeds(met[i]) {
      assert channels[..n][i] == c && !Succeeds(met[..n][i]);
    }
    if i :| 0 <= i < n && channels[..n][i] == c && !Succeeds(met[..n][i]) {
      assert channels[i] == c && !Succeeds(met[i]);
    }
  }

  /** The channels that are reported are those whose delivery fails, one entry for each. */
  lemma {:induction false} UndeliveredAre(channels: seq<string>, met: seq<Channel>, c: string)
    requires |met| == |channels|
    ensures c in Undelivered(channels, met) <==> Fails(channels, met, c)
    ensures |Undelivered(channels, met)| == |channels| - CountSuccess(met)
  {
    if channels != [] {
      UndeliveredAre(channels[..|channels| - 1], met[..|met| - 1], c);
      FailsNext(channels, met, c);
    }
  }

  lemma NextDelivery(attempts: map<(Uuid, string), AttemptStatus>, jobId: string, id: Uuid,
                     channels: seq<string>, met: seq<Channel>, i: nat)
    requires |met| == |channels| && i < |channels|
    ensures PutAll(attempts, id, channels[..i + 1], met[..i + 1]) ==
            Put(PutAll(attempts, id, channels[..i], met[..i]), id, channels[i], Written(met[i]))
    ensures CallsOf(jobId, channels[..i + 1], met[..i + 1]) ==
            CallsOf(jobId, channels[..i], met[..i]) + CallOf(jobId, channels[i], met[i])
    ensures CountSuccess(met[..i + 1]) == CountSuccess(met[..i]) + if Succeeds(met[i]) then 1 else 0
    ensures Undelivered(channels[..i + 1], met[..i + 1]) ==
            Undelivered(channels[..i], met[..i]) + if Succeeds(met[i]) then [] else [channels[i]]
  {
    assert channels[..i + 1][..i] == channels[..i] && met[..i + 1][..i] == met[..i];
  }

  function StatusOf(job: Job, env: Env): string
    requires Fits(job, env)
  {
    FinalStatus(CountSuccess(env.channels), |job.channels| - CountSuccess(env.channels), |job.skipped|)
  }

  function EventOf(status: string): string {
    if status == "failed" || status == "skipped" then "notification.failed" else "notification.sent"
  }

  /** What follows the upsert of the row: skips, deliveries, the final status and the webhook event. */
  function Delivered(s: Store, jobId: string, row: Notification, job: Job, env: Env): Store
    requires Fits(job, env)
  {
    var status := StatusOf(job, env);
    var attempts := PutAll(PutSkips(s.attempts, row.id, job.skipped, env.skipsLost),
                           row.id, job.channels, env.channels);
    var calls := s.calls + CallsOf(jobId, job.channels, env.channels);
    if env.statusFails then Store(s.notifications, attempts, calls, s.events)
    else Store(s.notifications[jobId := row.(status := status)], attempts, calls,
               if env.hasDispatcher then s.events + [EventOf(status)] else s.events)
  }

  function AfterSend(s: Store, job: Job, env: Env): Store
    requires Fits(job, env)
  {
    if !Proceeds(s, job, env) then s
    else
      var jobId := TrimSpace(job.jobId);
      var row := Upserted(s, job, job.project.id, "pending", env.freshId);
      Delivered(s.(notifications := s.notifications[jobId := row]), jobId, row, job, env)
  }

  /** CreateQueuedNotification */
  function AfterQueued(s: Store, job: Job, id: Uuid, fails: bool): Store {
    if !job.project.Known? || fails ||
       (job.jobId !in s.notifications && exists j :: j in s.notifications && s.notifications[j].id == id)
    then s
    else
      s.(notifications := s.notifications[job.jobId :=
          if job.jobId in s.notifications then s.notifications[job.jobId].(status := "queued", channels := job.channels)
          else Notification(id, job.project.id, job.isTest, "queued", job.channels)])
  }

  // ----- The service with its tables -----

  ghost predicate IdsDistinct(notifications: map<string, Notification>) {
    forall j, k | j in notifications && k in notifications && notifications[j].id == notifications[k].id :: j == k
  }

  function WithStatus(notifications: map<string, Notification>, id: Uuid, status: string): map<string, Notification> {
    map j | j in notifications ::
      if notifications[j].id == id then notifications[j].(status := status) else notifications[j]
  }

  /** Where ids are distinct, an update by id changes one row. */
  lemma WithStatusIs(notifications: map<string, Notification>, jobId: string, status: string)
    requires IdsDistinct(notifications) && jobId in notifications
    ensures WithStatus(notifications, notifications[jobId].id, status) ==
            notifications[jobId := notifications[jobId].(status := status)]
    ensures IdsDistinct(WithStatus(notifications, notifications[jobId].id, status))
  {
  }

  lemma InsertKeepsDistinct(notifications: map<string, Notification>, jobId: string, row: Notification)
    requires IdsDistinct(notifications)
    requires if jobId in notifications then notifications[jobId].id == row.id
             else forall j | j in notifications :: notifications[j].id != row.id
    ensures IdsDistinct(notifications[jobId := row])
  {
  }

  class Service {
    var notifications: map<string, Notification>
    var attempts: map<(Uuid, string), AttemptStatus>
    var calls: seq<ProviderCall>
    var events: seq<string>

    function State(): Store
      reads this
    {
      Store(notifications, attempts, calls, events)
    }

    constructor ()
      ensures State() == Store(map[], map[], [], [])
    {
      notifications, attempts, calls, events := map[], map[], [], [];
    }

    /** UpsertByProjectJob: on a known job id the id, environment and test flag of the row stay. */
    method Upsert(jobId: string, environment: Uuid, channels: seq<string>, isTest: bool, status: string, freshId: Uuid)
      returns (row: Option<Notification>)
      modifies this`notifications
      ensures row.None? <==>
              jobId !in old(notifications) && exists j :: j in old(notifications) && old(notifications)[j].id == freshId
      ensures row.None? ==> notifications == old(notifications)
      ensures row.Some? ==> notifications == old(notifications)[jobId := row.value]
      ensures row.Some? ==> row.value == if jobId in old(notifications)
                                         then old(notifications)[jobId].(status := status, channels := channels)
                                         else Notification(freshId, environment, isTest, status, channels)
    {
      if jobId in notifications {
        row := Some(notifications[jobId].(status := status, channels := channels));
      } else if exists j :: j in notifications && notifications[j].id == freshId {
        return None;
      } else {
        row := Some(Notification(freshId, environment, isTest, status, channels));
      }
      notifications := notifications[jobId := row.value];
    }

    /** UpdateNotificationStatus: every row with this id. */
    method UpdateStatus(id: Uuid, status: string)
      modifies this`notifications
      ensures notifications == WithStatus(old(notifications), id, status)
    {
      notifications := WithStatus(notifications, id, status);
    }

    /** InsertDeliveryAttempt: the upsert on (notification, channel), unless it is lost. */
    method Record(id: Uuid, channel: string, status: AttemptStatus, lost: bool)
      modifies this`attempts
      ensures attempts == Put(old(attempts), id, channel, if lost then None else Some(status))
    {
      if !lost {
        attempts := attempts[(id, channel) := status];
      }
    }

    /** The loop of deliverProjectChannel over the destinations. */
    method RecordResults(id: Uuid, channel: string, results: seq<bool>, lost: set<nat>)
      modifies this`attempts
      ensures attempts == Put(old(attempts), id, channel, LastKept(Outcomes(results), lost))
    {
      for i := 0 to |results|
        invariant attempts == Put(old(attempts), id, channel, LastKept(Outcomes(results[..i]), lost))
      {
        NextResult(results, i, lost);
        if !results[i] {
          Record(id, channel, Failed, i in lost);
          continue;
        }
        Record(id, channel, Sent, i in lost);
      }
      assert results[..|results|] == results;
    }

    /** deliverProjectChannel */
    method DeliverProjectChannel(jobId: string, id: Uuid, channel: string, c: Channel) returns (ok: bool)
      modifies this`attempts, this`calls
      ensures ok <==> Succeeds(c)
      ensures attempts == Put(old(attempts), id, channel, Written(c))
      ensures calls == old(calls) + CallOf(jobId, channel, c)
    {
      if c.providers.None? {
        OneWrite(Failed, c.lost);
        Record(id, channel, Failed, 0 in c.lost);
        return false;
      }
      var provider := Integrations.PickProvider(c.providers.value, Integrations.REGISTRY);
      if provider.None? {
        OneWrite(Failed, c.lost);
        Record(id, channel, Failed, 0 in c.lost);
        return false;
      }
      if !c.configOk {
        OneWrite(Failed, c.lost);
        Record(id, channel, Failed, 0 in c.lost);
        return false;
      }
      calls := calls + [ProviderCall(jobId, channel, provider.value)];
      RecordResults(id, channel, c.results, c.lost);
      if c.error {
        assert Writes(c)[..|c.results|] == Outcomes(c.results);
        Record(id, channel, Failed, |c.results| in c.lost);
        return false;
      }
      assert Writes(c) == Outcomes(c.results);
      return true;
    }

    /** send; `notificationId` is None where Go returns the nil id. */
    method Send(job: Job, env: Env, reportErrors: bool)
      returns (notificationId: Option<Uuid>, error: Option<Error>, undelivered: seq<string>)
      requires Fits(job, env) && IdsDistinct(notifications)
      modifies this
      ensures State() == AfterSend(old(State()), job, env)
      ensures IdsDistinct(notifications)
      ensures notificationId == if Proceeds(old(State()), job, env) then Some(IdOf(old(State()), job, env)) else None
      ensures error == SendError(old(State()), job, env)
      ensures undelivered == if reportErrors && Proceeds(old(State()), job, env) && !env.statusFails
                             then Undelivered(job.channels, env.channels) else []
    {
      undelivered := [];
      var jobId := TrimSpace(job.jobId);
      if jobId == "" {
        return None, Some(InvalidRequest), [];
      }
      if job.project.Blank? {
        return None, None, [];
      }
      if job.project.Malformed? {
        return None, Some(InvalidProject), [];
      }
      if env.upsertFails {
        return None, Some(StoreError), [];
      }
      var row := Upsert(jobId, job.project.id, job.channels, job.isTest, "pending", env.freshId);
      if row.None? {
        return None, Some(StoreError), [];
      }
      InsertKeepsDistinct(old(notifications), jobId, row.value);
      notificationId, error := Some(row.value.id), None;
      if row.value.status in TERMINAL {
        return;
      }
      error, undelivered := Deliver(jobId, row.value, job, env, reportErrors);
    }

    /** The part of send behind the guard on the stored status. */
    method Deliver(jobId: string, row: Notification, job: Job, env: Env, reportErrors: bool)
      returns (error: Option<Error>, undelivered: seq<string>)
      requires Fits(job, env) && IdsDistinct(notifications)
      requires jobId in notifications && notifications[jobId] == row
      modifies this
      ensures State() == Delivered(old(State()), jobId, row, job, env)
      ensures IdsDistinct(notifications)
      ensures error == if env.statusFails then Some(StoreError) else None
      ensures undelivered == if reportErrors && !env.statusFails then Undelivered(job.channels, env.channels) else []
    {
      RecordSkips(row.id, job.skipped, env.skipsLost);
      var successCount, failureCount;
      successCount, failureCount, undelivered := DeliverAll(jobId, row.id, job.channels, env.channels, reportErrors);
      var status := FinalStatus(successCount, failureCount, |job.skipped|);
      if env.statusFails {
        return Some(StoreError), [];
      }
      WithStatusIs(notifications, jobId, status);
      UpdateStatus(row.id, status);
      if env.hasDispatcher {
        var event := "notification.sent";
        if status == "failed" || status == "skipped" {
          event := "notification.failed";
        }
        events := events + [event];
      }
      return None, undelivered;
    }

    method RecordSkips(id: Uuid, skipped: seq<string>, lost: set<nat>)
      modifies this`attempts
      ensures attempts == PutSkips(old(attempts), id, skipped, lost)
    {
      for i := 0 to |skipped|
        invariant attempts == PutSkips(old(attempts), id, skipped[..i], lost)
      {
        assert skipped[..i + 1][..i] == skipped[..i];
        Record(id, skipped[i], Skipped, i in lost);
      }
      assert skipped[..|skipped|] == skipped;
    }

    method DeliverAll(jobId: string, id: Uuid, channels: seq<string>, met: seq<Channel>, reportErrors: bool)
      returns (successCount: nat, failureCount: nat, undelivered: seq<string>)
      requires |met| == |channels|
      modifies this`attempts, this`calls
      ensures attempts == PutAll(old(attempts), id, channels, met)
      ensures calls == old(calls) + CallsOf(jobId, channels, met)
      ensures successCount == CountSuccess(met) && failureCount == |channels| - successCount
      ensures undelivered == if reportErrors then Undelivered(channels, met) else []
    {
      successCount, failureCount, undelivered := 0, 0, [];
      for i := 0 to |channels|
        invariant attempts == PutAll(old(attempts), id, channels[..i], met[..i])
        invariant calls == old(calls) + CallsOf(jobId, channels[..i], met[..i])
        invariant successCount == CountSuccess(met[..i]) && failureCount == i - successCount
        invariant undelivered == if reportErrors then Undelivered(channels[..i], met[..i]) else []
      {
        NextDelivery(old(attempts), jobId, id, channels, met, i);
        var ok := DeliverProjectChannel(jobId, id, channels[i], met[i]);
        if !ok {
          failureCount := failureCount + 1;
          if reportErrors {
            undelivered := undelivered + [channels[i]];
          }
        } else {
          successCount := successCount + 1;
        }
      }
      assert channels[..|channels|] == channels && met[..|met|] == met;
    }

    method CreateQueuedNotification(job: Job, id: Uuid, fails: bool) returns (ok: bool)
      modifies this
      ensures State() == AfterQueued(old(State()), job, id, fails)
      ensures attempts == old(attempts) && calls == old(calls) && events == old(events)
      ensures !ok ==> notifications == old(notifications)
      ensures ok ==> job.project.Known? && notifications == old(notifications)[job.jobId :=
                if job.jobId in old(notifications)
                then old(notifications)[job.jobId].(status := "queued", channels := job.channels)
                else Notification(id, job.project.id, job.isTest, "queued", job.channels)]
      ensures ok <==> job.project.Known? && !fails &&
                      (job.jobId in old(notifications) ||
                       forall j | j in old(notifications) :: old(notifications)[j].id != id)
    {
      if !job.project.Known? {
        return false;
      }
      if fails {
        return false;
      }
      var row := Upsert(job.jobId, job.project.id, job.channels, job.isTest, "queued", id);
      return row.Some?;
    }
  }

  // ----- The table after a send -----

  predicate Disjoint(a: seq<string>, b: seq<string>) {
    forall c | c in a :: c !in b
  }

  /** Is there a write of a skipped row for this channel that is not lost? */
  predicate SkipKept(skipped: seq<string>, lost: set<nat>, c: string) {
    exists i :: 0 <= i < |skipped| && skipped[i] == c && i !in lost
  }

  lemma SkipKeptNext(skipped: seq<string>, lost: set<nat>, c: string)
    requires skipped != []
    ensures var n := |skipped| - 1;
            SkipKept(skipped, lost, c) <==> SkipKept(skipped[..n], lost, c) || (skipped[n] == c && n !in lost)
  {
    var n := |skipped| - 1;
    if SkipKept(skipped, lost, c) {
      var i :| 0 <= i < |skipped| && skipped[i] == c && i !in lost;
      assert i < n ==> skipped[..n][i] == c;
    }
    if SkipKept(skipped[..n], lost, c) {
      var i :| 0 <= i < n && skipped[..n][i] == c && i !in lost;
      assert skipped[i] == c;
    }
  }

  lemma {:induction false} PutSkipsMeans(attempts: map<(Uuid, string), AttemptStatus>, id: Uuid,
                                         skipped: seq<string>, lost: set<nat>, key: (Uuid, string))
    ensures var after := PutSkips(attempts, id, skipped, lost);
            if key.0 == id && SkipKept(skipped, lost, key.1) then key in after && after[key] == Skipped
            else (key in after <==> key in attempts) && (key in attempts ==> after[key] == attempts[key])
  {
    if skipped != [] {
      PutSkipsMeans(attempts, id, skipped[..|skipped| - 1], lost, key);
      SkipKeptNext(skipped, lost, key.1);
    }
  }

  lemma {:induction false} PutAllMisses(attempts: map<(Uuid, string), AttemptStatus>, id: Uuid,
                                        channels: seq<string>, met: seq<Channel>, key: (Uuid, string))
    requires |met| == |channels|
    requires key.0 != id || key.1 !in channels
    ensures var after := PutAll(attempts, id, channels, met);
            (key in after <==> key in attempts) && (key in attempts ==> after[key] == attempts[key])
  {
    if channels != [] {
      PutAllMisses(attempts, id, channels[..|channels| - 1], met[..|met| - 1], key);
      assert channels[|channels| - 1] in channels;
    }
  }

  /** With distinct channels, each one's row is what its own delivery wrote, or what was there before. */
  lemma {:induction false} PutAllHits(attempts: map<(Uuid, string), AttemptStatus>, id: Uuid,
                                      channels: seq<string>, met: seq<Channel>, i: nat)
    requires |met| == |channels| && i < |channels| && Channels.Distinct(channels)
    ensures var after, key := PutAll(attempts, id, channels, met), (id, channels[i]);
            if Written(met[i]).Some? then key in after && after[key] == Written(met[i]).value
            else (key in after <==> key in attempts) && (key in attempts ==> after[key] == attempts[key])
  {
    var n := |channels| - 1;
    Channels.DistinctFront(channels);
    var before := PutAll(attempts, id, channels[..n], met[..n]);
    if i == n {
      PutAllMisses(attempts, id, channels[..n], met[..n], (id, channels[n]));
      PutMeans(before, id, channels[n], Written(met[n]), (id, channels[n]));
    } else {
      PutAllHits(attempts, id, channels[..n], met[..n], i);
      PutMeans(before, id, channels[n], Written(met[n]), (id, channels[i]));
    }
  }

  lemma PutMeans(attempts: map<(Uuid, string), AttemptStatus>, id: Uuid, channel: string,
                 written: Option<AttemptStatus>, key: (Uuid, string))
    ensures var after := Put(attempts, id, channel, written);
            if key == (id, channel) && written.Some? then key in after && after[key] == written.value
            else (key in after <==> key in attempts) && (key in attempts ==> after[key] == attempts[key])
  {
  }

  ghost function TableAfter(s: Store, job: Job, env: Env): map<(Uuid, string), AttemptStatus>
    requires Fits(job, env)
  {
    AfterSend(s, job, env).attempts
  }

  function RowOf(attempts: map<(Uuid, string), AttemptStatus>, key: (Uuid, string)): Option<AttemptStatus> {
    if key in attempts then Some(attempts[key]) else None
  }

  lemma ChannelRow(s: Store, job: Job, env: Env, i: nat)
    requires Fits(job, env) && Proceeds(s, job, env)
    requires Channels.Distinct(job.channels) && Disjoint(job.channels, job.skipped) && i < |job.channels|
    ensures var key := (IdOf(s, job, env), job.channels[i]);
            RowOf(TableAfter(s, job, env), key) ==
            if Written(env.channels[i]).Some? then Written(env.channels[i]) else RowOf(s.attempts, key)
  {
    var id := IdOf(s, job, env);
    assert job.channels[i] in job.channels;
    PutSkipsMeans(s.attempts, id, job.skipped, env.skipsLost, (id, job.channels[i]));
    assert !SkipKept(job.skipped, env.skipsLost, job.channels[i]);
    PutAllHits(PutSkips(s.attempts, id, job.skipped, env.skipsLost), id, job.channels, env.channels, i);
  }

  lemma SkippedRow(s: Store, job: Job, env: Env, c: string)
    requires Fits(job, env) && Proceeds(s, job, env)
    requires Disjoint(job.channels, job.skipped) && c in job.skipped
    ensures var key := (IdOf(s, job, env), c);
            RowOf(TableAfter(s, job, env), key) ==
            if SkipKept(job.skipped, env.skipsLost, c) then Some(Skipped) else RowOf(s.attempts, key)
  {
    var id := IdOf(s, job, env);
    PutSkipsMeans(s.attempts, id, job.skipped, env.skipsLost, (id, c));
    PutAllMisses(PutSkips(s.attempts, id, job.skipped, env.skipsLost), id, job.channels, env.channels, (id, c));
  }

  /** No row appears for any other channel or any other notification, and none changes. */
  lemma OtherRowsStay(s: Store, job: Job, env: Env, key: (Uuid, string))
    requires Fits(job, env)
    requires key.0 != IdOf(s, job, env) || (key.1 !in job.channels && key.1 !in job.skipped)
    ensures RowOf(TableAfter(s, job, env), key) == RowOf(s.attempts, key)
  {
    if Proceeds(s, job, env) {
      var id := IdOf(s, job, env);
      PutSkipsMeans(s.attempts, id, job.skipped, env.skipsLost, key);
      PutAllMisses(PutSkips(s.attempts, id, job.skipped, env.skipsLost), id, job.channels, env.channels, key);
    }
  }

  // ----- The table agrees with the counts -----

  /** What the channel's row should say. */
  function Due(c: Channel): AttemptStatus {
    if Succeeds(c) then Sent else Failed
  }

  /** The table agrees with what was counted: one row for each delivered channel, "sent" if it was
      counted as a success and "failed" otherwise, and a "skipped" row for each skipped channel. */
  ghost predicate Agrees(attempts: map<(Uuid, string), AttemptStatus>, id: Uuid, job: Job, met: seq<Channel>)
    requires |met| == |job.channels|
  {
    && (forall i | 0 <= i < |job.channels| :: RowOf(attempts, (id, job.channels[i])) == Some(Due(met[i])))
    && (forall c | c in job.skipped :: RowOf(attempts, (id, c)) == Some(Skipped))
  }

  /** The last write that is not lost is at `i`. */
  ghost predicate LastAt(writes: seq<AttemptStatus>, lost: set<nat>, i: int) {
    0 <= i < |writes| && i !in lost && forall j | i < j < |writes| :: j in lost
  }

  ghost predicate AllLost(writes: seq<AttemptStatus>, lost: set<nat>) {
    forall i | 0 <= i < |writes| :: i in lost
  }

  lemma {:induction false} LastKeptIs(writes: seq<AttemptStatus>, lost: set<nat>) returns (i: int)
    ensures if AllLost(writes, lost) then LastKept(writes, lost).None?
            else LastAt(writes, lost, i) && LastKept(writes, lost) == Some(writes[i])
  {
    i := |writes| - 1;
    if writes != [] && |writes| - 1 in lost {
      var front := writes[..|writes| - 1];
      i := LastKeptIs(front, lost);
      if !AllLost(front, lost) {
        assert front[i] == writes[i];
      }
    }
  }

  /** Of the writes that are not lost, the last one is the one that is due. */
  ghost predicate Faithful(c: Channel) {
    exists i :: LastAt(Writes(c), c.lost, i) && Writes(c)[i] == Due(c)
  }

  /** A row ends up as it was counted, whatever it was before, exactly for these deliveries; and providers
      that keep their promise give them if no write is lost. */
  lemma FaithfulIff(c: Channel)
    ensures Faithful(c) <==> Written(c) == Some(Due(c))
    ensures Honours(c) && c.lost == {} ==> Faithful(c)
  {
    var i := LastKeptIs(Writes(c), c.lost);
    if Honours(c) && c.lost == {} {
      var n := |Writes(c)| - 1;
      assert Succeeds(c) ==> c.results[n] in c.results;
      assert Writes(c)[n] == Due(c) && LastAt(Writes(c), c.lost, n);
    }
  }

  /** The table agrees with the counts exactly when for every channel the last write that is not lost is
      the one that is due, or all are lost and the row says so from before; and likewise for the skips.
      So for a notification without rows: exactly when every delivery is faithful and every skipped
      channel has a write that is kept. */
  lemma AgreesIffFaithful(s: Store, job: Job, env: Env)
    requires Fits(job, env) && Proceeds(s, job, env)
    requires Channels.Distinct(job.channels) && Disjoint(job.channels, job.skipped)
    ensures Agrees(TableAfter(s, job, env), IdOf(s, job, env), job, env.channels) <==>
            && (forall i | 0 <= i < |job.channels| ::
                  || Faithful(env.channels[i])
                  || (AllLost(Writes(env.channels[i]), env.channels[i].lost) &&
                      RowOf(s.attempts, (IdOf(s, job, env), job.channels[i])) == Some(Due(env.channels[i]))))
            && (forall c | c in job.skipped ::
                  SkipKept(job.skipped, env.skipsLost, c) || RowOf(s.attempts, (IdOf(s, job, env), c)) == Some(Skipped))
  {
    var id := IdOf(s, job, env);
    forall i | 0 <= i < |job.channels|
      ensures RowOf(TableAfter(s, job, env), (id, job.channels[i])) ==
              if Written(env.channels[i]).Some? then Written(env.channels[i])
              else RowOf(s.attempts, (id, job.channels[i]))
      ensures Faithful(env.channels[i]) <==> Written(env.channels[i]) == Some(Due(env.channels[i]))
      ensures Written(env.channels[i]).None? <==> AllLost(Writes(env.channels[i]), env.channels[i].lost)
    {
      ChannelRow(s, job, env, i);
      FaithfulIff(env.channels[i]);
      var n := LastKeptIs(Writes(env.channels[i]), env.channels[i].lost);
    }
    forall c | c in job.skipped
      ensures RowOf(TableAfter(s, job, env), (id, c)) ==
              if SkipKept(job.skipped, env.skipsLost, c) then Some(Skipped) else RowOf(s.attempts, (id, c))
    {
      SkippedRow(s, job, env, c);
    }
  }

  // ----- The status sums up the table -----

  /** The channels of the job whose row for the notification has this status. */
  ghost function RowsFor(attempts: map<(Uuid, string), AttemptStatus>, id: Uuid, job: Job, status: AttemptStatus)
    : set<string>
  {
    set c | c in job.channels + job.skipped && RowOf(attempts, (id, c)) == Some(status)
  }

  /** All channels whose row for the notification has this status. */
  ghost function RowsWith(attempts: map<(Uuid, string), AttemptStatus>, id: Uuid, status: AttemptStatus): set<string> {
    set key | key in attempts && key.0 == id && attempts[key] == status :: key.1
  }

  function Verdicts(met: seq<Channel>): (r: seq<bool>)
    ensures |r| == |met| && forall i | 0 <= i < |met| :: r[i] == Succeeds(met[i])
  {
    seq(|met|, i requires 0 <= i < |met| => Succeeds(met[i]))
  }

  function Tally(verdicts: seq<bool>): nat {
    if verdicts == [] then 0 else Tally(verdicts[..|verdicts| - 1]) + if verdicts[|verdicts| - 1] then 1 else 0
  }

  lemma {:induction false} CountIsTally(met: seq<Channel>)
    ensures CountSuccess(met) == Tally(Verdicts(met))
  {
    if met != [] {
      CountIsTally(met[..|met| - 1]);
      assert Verdicts(met)[..|met| - 1] == Verdicts(met[..|met| - 1]);
    }
  }

  /** The channels with this verdict. */
  function Picked(channels: seq<string>, verdicts: seq<bool>, verdict: bool): (r: set<string>)
    requires |verdicts| == |channels|
    ensures forall c | c in r :: c in channels
  {
    if channels == [] then {}
    else
      var n := |channels| - 1;
      Picked(channels[..n], verdicts[..n], verdict) + if verdicts[n] == verdict then {channels[n]} else {}
  }

  lemma {:induction false} PickedSize(channels: seq<string>, verdicts: seq<bool>, verdict: bool)
    requires |verdicts| == |channels| && Channels.Distinct(channels)
    ensures |Picked(channels, verdicts, verdict)| == if verdict then Tally(verdicts) else |channels| - Tally(verdicts)
  {
    if channels != [] {
      var n := |channels| - 1;
      var front := Picked(channels[..n], verdicts[..n], verdict);
      Channels.DistinctFront(channels);
      PickedSize(channels[..n], verdicts[..n], verdict);
      assert channels[n] !in front;
      SizeWith(front, channels[n]);
    }
  }

  lemma SizeWith(s: set<string>, x: string)
    requires x !in s
    ensures |s + {x}| == |s| + 1 && s + {} == s
  {
  }

  lemma {:induction false} PickedHas(channels: seq<string>, verdicts: seq<bool>, i: nat, verdict: bool)
    requires |verdicts| == |channels| && i < |channels| && Channels.Distinct(channels)
    ensures channels[i] in Picked(channels, verdicts, verdict) <==> verdicts[i] == verdict
  {
    var n := |channels| - 1;
    if i < n {
      PickedHas(channels[..n], verdicts[..n], i, verdict);
    } else {
      assert channels[n] !in channels[..n];
    }
  }

  lemma {:induction false} SizeOfDistinct(s: seq<string>)
    requires Channels.Distinct(s)
    ensures |set c | c in s| == |s|
  {
    if s != [] {
      var front, last := s[..|s| - 1], s[|s| - 1];
      SizeOfDistinct(front);
      assert (set c | c in s) == (set c | c in front) + {last};
    }
  }

  lemma CountsFromAgreement(attempts: map<(Uuid, string), AttemptStatus>, id: Uuid, job: Job, met: seq<Channel>)
    requires |met| == |job.channels| && Agrees(attempts, id, job, met)
    requires Channels.Distinct(job.channels) && Channels.Distinct(job.skipped) && Disjoint(job.channels, job.skipped)
    ensures |RowsFor(attempts, id, job, Sent)| == CountSuccess(met)
    ensures |RowsFor(attempts, id, job, Failed)| == |job.channels| - CountSuccess(met)
    ensures |RowsFor(attempts, id, job, Skipped)| == |job.skipped|
  {
    CountIsTally(met);
    PickedSize(job.channels, Verdicts(met), true);
    PickedSize(job.channels, Verdicts(met), false);
    SizeOfDistinct(job.skipped);
    SentRows(attempts, id, job, met);
    SkippedRows(attempts, id, job, met);
  }

  lemma SentRows(attempts: map<(Uuid, string), AttemptStatus>, id: Uuid, job: Job, met: seq<Channel>)
    requires |met| == |job.channels| && Agrees(attempts, id, job, met) && Channels.Distinct(job.channels)
    ensures RowsFor(attempts, id, job, Sent) == Picked(job.channels, Verdicts(met), true)
    ensures RowsFor(attempts, id, job, Failed) == Picked(job.channels, Verdicts(met), false)
  {
    forall c
      ensures c in RowsFor(attempts, id, job, Sent) <==> c in Picked(job.channels, Verdicts(met), true)
      ensures c in RowsFor(attempts, id, job, Failed) <==> c in Picked(job.channels, Verdicts(met), false)
    {
      if c in job.channels {
        var i :| 0 <= i < |job.channels| && job.channels[i] == c;
        PickedHas(job.channels, Verdicts(met), i, true);
        PickedHas(job.channels, Verdicts(met), i, false);
        assert RowOf(attempts, (id, job.channels[i])) == Some(Due(met[i]));
      }
    }
  }

  lemma SkippedRows(attempts: map<(Uuid, string), AttemptStatus>, id: Uuid, job: Job, met: seq<Channel>)
    requires |met| == |job.channels| && Agrees(attempts, id, job, met)
    ensures RowsFor(attempts, id, job, Skipped) == set c | c in job.skipped
  {
    forall c
      ensures c in RowsFor(attempts, id, job, Skipped) <==> c in job.skipped
    {
      if c in job.channels {
        var i :| 0 <= i < |job.channels| && job.channels[i] == c;
        assert RowOf(attempts, (id, job.channels[i])) == Some(Due(met[i]));
      }
    }
  }

  /** Main result on the status: after a first send or a later one, with providers that keep their
      promise and writes that go through, the notification has exactly one row for each channel of the
      job, the stored status is the summary of those rows, and the webhook event reports a failure
      exactly when none of them says "sent". */
  lemma StatusSumsUpTable(s: Store, job: Job, env: Env)
    requires Fits(job, env) && Proceeds(s, job, env) && !env.statusFails && env.skipsLost == {}
    requires Channels.Distinct(job.channels) && Channels.Distinct(job.skipped) && Disjoint(job.channels, job.skipped)
    requires forall c | c in env.channels :: Honours(c) && c.lost == {}
    ensures var after, id := AfterSend(s, job, env), IdOf(s, job, env);
            && Agrees(after.attempts, id, job, env.channels)
            && after.notifications[TrimSpace(job.jobId)].status ==
               FinalStatus(|RowsFor(after.attempts, id, job, Sent)|, |RowsFor(after.attempts, id, job, Failed)|,
                           |RowsFor(after.attempts, id, job, Skipped)|)
            && (env.hasDispatcher ==>
                after.events == s.events + [if RowsFor(after.attempts, id, job, Sent) == {} then "notification.failed"
                                            else "notification.sent"])
  {
    var after, id := AfterSend(s, job, env), IdOf(s, job, env);
    FaithfulSendAgrees(s, job, env);
    CountsFromAgreement(after.attempts, id, job, env.channels);
    StatusMeaning(CountSuccess(env.channels), |job.channels| - CountSuccess(env.channels), |job.skipped|);
  }

  lemma FaithfulSendAgrees(s: Store, job: Job, env: Env)
    requires Fits(job, env) && Proceeds(s, job, env) && env.skipsLost == {}
    requires Channels.Distinct(job.channels) && Disjoint(job.channels, job.skipped)
    requires forall c | c in env.channels :: Honours(c) && c.lost == {}
    ensures Agrees(TableAfter(s, job, env), IdOf(s, job, env), job, env.channels)
  {
    AgreesIffFaithful(s, job, env);
    forall i | 0 <= i < |job.channels|
      ensures Faithful(env.channels[i])
    {
      assert env.channels[i] in env.channels;
      FaithfulIff(env.channels[i]);
    }
    forall c | c in job.skipped
      ensures SkipKept(job.skipped, env.skipsLost, c)
    {
      var i :| 0 <= i < |job.skipped| && job.skipped[i] == c;
    }
  }

  // ----- Rows over runs -----

  /** The notification has rows for channels of the job only. */
  ghost predicate RowsWithin(attempts: map<(Uuid, string), AttemptStatus>, id: Uuid, job: Job) {
    forall key | key in attempts && key.0 == id :: key.1 in job.channels || key.1 in job.skipped
  }

  /** Then the rows of the job's channels are all its rows. */
  lemma AllRowsAreTheJobs(attempts: map<(Uuid, string), AttemptStatus>, id: Uuid, job: Job, status: AttemptStatus)
    requires RowsWithin(attempts, id, job)
    ensures RowsFor(attempts, id, job, status) == RowsWith(attempts, id, status)
  {
    forall c
      ensures c in RowsFor(attempts, id, job, status) <==> c in RowsWith(attempts, id, status)
    {
      if c in RowsFor(attempts, id, job, status) {
        assert (id, c) in attempts;
      }
    }
  }

  /** Every row belongs to a stored notification. */
  ghost predicate RowsOwned(s: Store) {
    forall key | key in s.attempts :: exists j :: j in s.notifications && s.notifications[j].id == key.0
  }

  // ----- Which rows a send uses -----

  /** Each delivery of the job lists the rows of its channel in the job's environment. */
  ghost predicate ReadsFrom(rows: Integrations.Table, job: Job, env: Env) {
    && Fits(job, env) && job.project.Known?
    && forall i | 0 <= i < |job.channels| ::
         env.channels[i].providers == Some(Integrations.ListByChannel(rows, job.project.id, job.channels[i]))
  }

  ghost predicate HasActive(rows: Integrations.Table, environment: Uuid, channel: string) {
    exists row :: row in rows && row.isActive && Integrations.Belongs(row, environment, channel)
  }

  /** The row is active and one of the channel, and the primary one if the channel has one. */
  ghost predicate IsChosen(row: Integrations.Row, rows: Integrations.Table, environment: Uuid, channel: string) {
    && row in rows && row.isActive && Integrations.Belongs(row, environment, channel)
    && forall other | other in rows && other.isPrimary && Integrations.Belongs(other, environment, channel) ::
         other == row
  }

  lemma {:induction false} CallsAre(jobId: string, channels: seq<string>, met: seq<Channel>)
    requires |met| == |channels|
    ensures forall call | call in CallsOf(jobId, channels, met) ::
              exists i :: 0 <= i < |channels| && CallOf(jobId, channels[i], met[i]) == [call]
    ensures forall i | 0 <= i < |channels| && Called(met[i]) ::
              ProviderCall(jobId, channels[i], Provider(met[i]).value) in CallsOf(jobId, channels, met)
  {
    if channels != [] {
      var n := |channels| - 1;
      CallsAre(jobId, channels[..n], met[..n]);
      forall call | call in CallsOf(jobId, channels, met)
        ensures exists i :: 0 <= i < |channels| && CallOf(jobId, channels[i], met[i]) == [call]
      {
        if call in CallsOf(jobId, channels[..n], met[..n]) {
          var i :| 0 <= i < n && CallOf(jobId, channels[..n][i], met[..n][i]) == [call];
          assert CallOf(jobId, channels[i], met[i]) == [call];
        } else {
          assert CallOf(jobId, channels[n], met[n]) == [call];
        }
      }
      forall i | 0 <= i < |channels| && Called(met[i])
        ensures ProviderCall(jobId, channels[i], Provider(met[i]).value) in CallsOf(jobId, channels, met)
      {
        if i < n {
          assert channels[..n][i] == channels[i] && met[..n][i] == met[i];
        }
      }
    }
  }

  lemma ChannelUses(ops: seq<Integrations.Op>, environment: Uuid, channel: string, c: Channel)
    requires c.providers == Some(Integrations.ListByChannel(Integrations.After([], ops), environment, channel))
    ensures Called(c) <==> c.configOk && HasActive(Integrations.After([], ops), environment, channel)
    ensures Called(c) ==> IsChosen(Provider(c).value, Integrations.After([], ops), environment, channel)
  {
    var rows := Integrations.After([], ops);
    Integrations.DeliveryUsesThePrimary(ops, environment, channel);
    forall row | row in rows && row.isPrimary && Integrations.Belongs(row, environment, channel)
      ensures Provider(c) == Some(row)
    {
      var i :| 0 <= i < |rows| && rows[i] == row;
    }
  }

  /** Main result on providers: in every state of the integrations that their service can bring about, a send
      calls the provider of an active row of each channel, and of the primary one where there is one; a channel
      without an active row calls none. */
  lemma SendUsesThePrimary(ops: seq<Integrations.Op>, s: Store, job: Job, env: Env)
    requires Fits(job, env) && Proceeds(s, job, env) && ReadsFrom(Integrations.After([], ops), job, env)
    ensures var rows, after := Integrations.After([], ops), AfterSend(s, job, env);
            && s.calls <= after.calls
            && (forall call | call in after.calls[|s.calls|..] ::
                  && call.jobId == TrimSpace(job.jobId) && call.channel in job.channels
                  && IsChosen(call.row, rows, job.project.id, call.channel))
            && (forall i | 0 <= i < |job.channels| &&
                           env.channels[i].configOk && HasActive(rows, job.project.id, job.channels[i]) ::
                  exists call :: call in after.calls[|s.calls|..] && call.channel == job.channels[i])
  {
    var jobId, after := TrimSpace(job.jobId), AfterSend(s, job, env);
    var added := CallsOf(jobId, job.channels, env.channels);
    assert after.calls == s.calls + added && after.calls[|s.calls|..] == added;
    CallsAre(jobId, job.channels, env.channels);
    forall i | 0 <= i < |job.channels|
      ensures Called(env.channels[i]) <==>
              env.channels[i].configOk && HasActive(Integrations.After([], ops), job.project.id, job.channels[i])
      ensures Called(env.channels[i]) ==>
                IsChosen(Provider(env.channels[i]).value, Integrations.After([], ops), job.project.id, job.channels[i])
    {
      ChannelUses(ops, job.project.id, job.channels[i], env.channels[i]);
    }
    forall call | call in added
      ensures call.jobId == jobId && call.channel in job.channels
      ensures IsChosen(call.row, Integrations.After([], ops), job.project.id, call.channel)
    {
      var i :| 0 <= i < |job.channels| && CallOf(jobId, job.channels[i], env.channels[i]) == [call];
      assert call == ProviderCall(jobId, job.channels[i], Provider(env.channels[i]).value);
    }
  }

  /** A channel without an active row ends up as failed. */
  lemma NoProviderFails(ops: seq<Integrations.Op>, s: Store, job: Job, env: Env, i: nat)
    requires Fits(job, env) && Proceeds(s, job, env) && ReadsFrom(Integrations.After([], ops), job, env)
    requires Channels.Distinct(job.channels) && Disjoint(job.channels, job.skipped)
    requires i < |job.channels| && 0 !in env.channels[i].lost
    requires !HasActive(Integrations.After([], ops), job.project.id, job.channels[i])
    ensures RowOf(TableAfter(s, job, env), (IdOf(s, job, env), job.channels[i])) == Some(Failed)
    ensures !Succeeds(env.channels[i])
  {
    ChannelUses(ops, job.project.id, job.channels[i], env.channels[i]);
    CalledIff(env.channels[i]);
    OneWrite(Failed, env.channels[i].lost);
    ChannelRow(s, job, env, i);
  }

  // ----- Sending again -----

  /** The guard on a terminal status never holds: the upsert has just written "pending". So a repeated
      send calls the providers again, and it leaves them alone exactly when the job reaches none. */
  lemma ResendCallsAgain(s: Store, job: Job, env: Env)
    requires Fits(job, env) && Proceeds(s, job, env)
    ensures Upserted(s, job, job.project.id, "pending", env.freshId).status !in TERMINAL
    ensures AfterSend(s, job, env).calls == s.calls <==> forall c | c in env.channels :: !Called(c)
  {
    CallsEmptyIff(TrimSpace(job.jobId), job.channels, env.channels);
  }

  lemma {:induction false} CallsEmptyIff(jobId: string, channels: seq<string>, met: seq<Channel>)
    requires |met| == |channels|
    ensures CallsOf(jobId, channels, met) == [] <==> forall c | c in met :: !Called(c)
  {
    if channels != [] {
      var n := |channels| - 1;
      CallsEmptyIff(jobId, channels[..n], met[..n]);
      assert met == met[..n] + [met[n]];
      assert met[n] in met;
    }
  }

  function SmtpRow(): Integrations.Row {
    Integrations.Row(1, 1, "email", "smtp", true, true)
  }

  /** Hence sending the same job twice is not idempotent: the one provider is called both times. */
  lemma SendIsNotIdempotent(env: Env)
    requires !env.upsertFails && !env.statusFails
    requires env.channels ==
             [Channel(Some([SmtpRow()]), true, [true], false, {})]
    ensures var job := Job("job-123", Known(1), ["email"], [], false);
            var once := AfterSend(Store(map[], map[], [], []), job, env);
            && once.notifications["job-123"].status == "sent"
            && once.calls == [ProviderCall("job-123", "email", SmtpRow())]
            && AfterSend(once, job, env).calls == once.calls + once.calls
  {
    var c := env.channels[0];
    assert TrimSpace("job-123") == "job-123";
    assert Integrations.FirstUsable(c.providers.value, Integrations.REGISTRY).Some?;
    assert Called(c) && Succeeds(c);
    assert CountSuccess([c][..0]) == 0;
    assert CountSuccess([c]) == 1;
    assert CallsOf("job-123", ["email"], [c]) == [ProviderCall("job-123", "email", SmtpRow())];
  }

  // ----- Identity over runs -----

  datatype Op = Queue(job: Job, id: Uuid, fails: bool) | Send(sent: Job, env: Env)

  predicate OpFits(op: Op) {
    op.Send? ==> Fits(op.sent, op.env)
  }

  function AfterOp(s: Store, op: Op): Store
    requires OpFits(op)
  {
    match op
    case Queue(job, id, fails) => AfterQueued(s, job, id, fails)
    case Send(job, env) => AfterSend(s, job, env)
  }

  function After(s: Store, ops: seq<Op>): Store
    requires forall op | op in ops :: OpFits(op)
    decreases |ops|
  {
    if ops == [] then s else After(AfterOp(s, ops[0]), ops[1..])
  }

  /** Jobs keep their rows, and a row keeps its id, its environment and its test flag. */
  ghost predicate KeepsIdentity(before: map<string, Notification>, after: map<string, Notification>) {
    forall j | j in before ::
      && j in after && after[j].id == before[j].id
      && after[j].environment == before[j].environment && after[j].isTest == before[j].isTest
  }

  lemma OpKeepsIdentity(s: Store, op: Op)
    requires OpFits(op) && IdsDistinct(s.notifications)
    ensures KeepsIdentity(s.notifications, AfterOp(s, op).notifications)
    ensures IdsDistinct(AfterOp(s, op).notifications)
  {
    match op
    case Queue(job, id, fails) =>
    case Send(job, env) => SendKeepsIdentity(s, job, env);
  }

  lemma SendKeepsIdentity(s: Store, job: Job, env: Env)
    requires Fits(job, env) && IdsDistinct(s.notifications)
    ensures KeepsIdentity(s.notifications, AfterSend(s, job, env).notifications)
    ensures IdsDistinct(AfterSend(s, job, env).notifications)
  {
    if Proceeds(s, job, env) {
      var jobId := TrimSpace(job.jobId);
      var row := Upserted(s, job, job.project.id, "pending", env.freshId);
      InsertKeepsDistinct(s.notifications, jobId, row);
      InsertKeepsDistinct(s.notifications[jobId := row], jobId, row.(status := StatusOf(job, env)));
    }
  }

  /** Main result on identity: over any interleaving of queueing and sending, also with jobs of other
      environments, each job id has at most one row and that row keeps its first id, environment and
      test flag; and no two jobs ever share an id. */
  lemma {:induction false} IdentityIsStable(s: Store, ops: seq<Op>)
    requires IdsDistinct(s.notifications)
    requires forall op | op in ops :: OpFits(op)
    ensures KeepsIdentity(s.notifications, After(s, ops).notifications)
    ensures IdsDistinct(After(s, ops).notifications)
    decreases |ops|
  {
    if ops != [] {
      assert ops[0] in ops && forall op | op in ops[1..] :: op in ops;
      OpKeepsIdentity(s, ops[0]);
      IdentityIsStable(AfterOp(s, ops[0]), ops[1..]);
    }
  }

  // ----- One job over a run -----

  /** The rows of this job id are all for channels of this job. */
  ghost predicate KeepsTo(s: Store, jobId: string, job: Job) {
    jobId in s.notifications ==> RowsWithin(s.attempts, s.notifications[jobId].id, job)
  }

  /** Sends with this job id are always for the channels and skips of this job. */
  predicate SameJob(op: Op, jobId: string, job: Job) {
    op.Send? && TrimSpace(op.sent.jobId) == jobId ==> op.sent.channels == job.channels && op.sent.skipped == job.skipped
  }

  lemma StoredKeepsTo(s: Store, after: Store, own: string, sent: Job, jobId: string, job: Job)
    requires RowsOwned(s) && KeepsTo(s, jobId, job) && IdsDistinct(after.notifications)
    requires own in after.notifications && after.notifications == s.notifications[own := after.notifications[own]]
    requires own in s.notifications ==> after.notifications[own].id == s.notifications[own].id
    requires forall key | key in after.attempts && key !in s.attempts ::
               key.0 == after.notifications[own].id && (key.1 in sent.channels || key.1 in sent.skipped)
    requires own == jobId ==> sent.channels == job.channels && sent.skipped == job.skipped
    ensures KeepsTo(after, jobId, job) && RowsOwned(after)
  {
    forall key | key in after.attempts
      ensures exists j :: j in after.notifications && after.notifications[j].id == key.0
      ensures jobId in after.notifications && after.notifications[jobId].id == key.0 ==>
                key.1 in job.channels || key.1 in job.skipped
    {
      if key in s.attempts {
        var j :| j in s.notifications && s.notifications[j].id == key.0;
        assert after.notifications[j].id == key.0;
      } else {
        assert after.notifications[own].id == key.0;
      }
    }
  }

  lemma SentTables(s: Store, sent: Job, env: Env)
    requires Fits(sent, env) && Proceeds(s, sent, env)
    ensures var after, own := AfterSend(s, sent, env), TrimSpace(sent.jobId);
            && own in after.notifications && after.notifications == s.notifications[own := after.notifications[own]]
            && after.notifications[own].id == IdOf(s, sent, env)
            && forall key | key in after.attempts && key !in s.attempts ::
                 key.0 == IdOf(s, sent, env) && (key.1 in sent.channels || key.1 in sent.skipped)
  {
    var after := AfterSend(s, sent, env);
    forall key | key in after.attempts && key !in s.attempts
      ensures key.0 == IdOf(s, sent, env) && (key.1 in sent.channels || key.1 in sent.skipped)
    {
      if !(key.0 == IdOf(s, sent, env) && (key.1 in sent.channels || key.1 in sent.skipped)) {
        OtherRowsStay(s, sent, env, key);
      }
    }
  }

  lemma SentKeepsTo(s: Store, sent: Job, env: Env, jobId: string, job: Job)
    requires Fits(sent, env) && Proceeds(s, sent, env)
    requires IdsDistinct(s.notifications) && RowsOwned(s) && KeepsTo(s, jobId, job)
    requires TrimSpace(sent.jobId) == jobId ==> sent.channels == job.channels && sent.skipped == job.skipped
    ensures KeepsTo(AfterSend(s, sent, env), jobId, job) && RowsOwned(AfterSend(s, sent, env))
  {
    SentTables(s, sent, env);
    OpKeepsIdentity(s, Send(sent, env));
    StoredKeepsTo(s, AfterSend(s, sent, env), TrimSpace(sent.jobId), sent, jobId, job);
  }

  lemma OpKeepsTo(s: Store, op: Op, jobId: string, job: Job)
    requires IdsDistinct(s.notifications) && RowsOwned(s) && KeepsTo(s, jobId, job)
    requires OpFits(op) && SameJob(op, jobId, job)
    ensures KeepsTo(AfterOp(s, op), jobId, job) && RowsOwned(AfterOp(s, op))
  {
    match op
    case Queue(queued, id, fails) =>
      var after := AfterQueued(s, queued, id, fails);
      forall key | key in after.attempts
        ensures exists j :: j in after.notifications && after.notifications[j].id == key.0
      {
        var j :| j in s.notifications && s.notifications[j].id == key.0;
        assert after.notifications[j].id == key.0;
      }
    case Send(sent, env) =>
      if Proceeds(s, sent, env) {
        SentKeepsTo(s, sent, env, jobId, job);
      }
  }

  lemma {:induction false} RunKeepsTo(s: Store, ops: seq<Op>, jobId: string, job: Job)
    requires IdsDistinct(s.notifications) && RowsOwned(s) && KeepsTo(s, jobId, job)
    requires forall op | op in ops :: OpFits(op) && SameJob(op, jobId, job)
    ensures KeepsTo(After(s, ops), jobId, job) && RowsOwned(After(s, ops))
    decreases |ops|
  {
    if ops != [] {
      assert ops[0] in ops && forall op | op in ops[1..] :: op in ops;
      OpKeepsIdentity(s, ops[0]);
      OpKeepsTo(s, ops[0], jobId, job);
      RunKeepsTo(AfterOp(s, ops[0]), ops[1..], jobId, job);
    }
  }

  /** Main result on the whole table: from the empty store on, over any interleaving with other jobs, a job
      that is always sent with the same channels and skips only ever has rows for these; so the rows that
      its status sums up are all the rows of its notification. */
  lemma RowsAreTheJobs(ops: seq<Op>, jobId: string, job: Job, status: AttemptStatus)
    requires forall op | op in ops :: OpFits(op) && SameJob(op, jobId, job)
    ensures var s := After(Store(map[], map[], [], []), ops);
            jobId in s.notifications ==>
              && RowsWithin(s.attempts, s.notifications[jobId].id, job)
              && RowsFor(s.attempts, s.notifications[jobId].id, job, status) ==
                 RowsWith(s.attempts, s.notifications[jobId].id, status)
  {
    var s := After(Store(map[], map[], [], []), ops);
    RunKeepsTo(Store(map[], map[], [], []), ops, jobId, job);
    if jobId in s.notifications {
      AllRowsAreTheJobs(s.attempts, s.notifications[jobId].id, job, status);
    }
  }
}
