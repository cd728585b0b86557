/** Preparing a notification for a workflow and a subscriber: which of the workflow's channels can be
    delivered, with which content and to which target, and why the others are skipped. */
module Preparation {
  import opened Wrappers
  import opened Text
  import Definitions
  import Channels
  import Columns
  import Sending
  import Validator

  type Uuid = nat

  datatype Subscriber = Subscriber(email: Option<string>, phone: Option<string>, pushToken: Option<string>,
                                   emailStatus: string, smsStatus: string, pushStatus: string)

  datatype Template = Template(channel: string, isActive: bool)

  /** The targets that a recipient has been given. */
  datatype Recipient = Recipient(email: Option<string>, phone: Option<string>, push: Option<string>)

  datatype Reason =
    | Unsubscribed | Bounced | NoTemplate | TemplateMissing | TemplateInactive | ChannelMismatch | NoTarget

  datatype Skip = Skip(channel: string, reason: Reason)

  datatype Error = InvalidRequest | NotFound | InvalidMapping | InvalidTemplateId | StoreError | RenderError

  /** What a preparation meets: the stored templates, those whose lookup fails for another reason than
      that there is no row, and the channels whose template does not render. `parse` is uuid.Parse. */
  datatype Env = Env(parse: string -> Option<Uuid>, templates: map<Uuid, Template>,
                     failing: set<Uuid>, unrenderable: set<string>)

  /** `content` gives for each deliverable channel the template that was rendered for it. */
  datatype Delivery = Delivery(channels: seq<string>, content: map<string, Uuid>, skipped: seq<Skip>,
                               recipient: Recipient)

  /** skipReasonForSubscriberChannel */
  function SkipReason(channel: string, s: Subscriber): Option<Reason> {
    var value := if channel == "email" then TrimSpace(s.emailStatus)
                 else if channel == "sms" then TrimSpace(s.smsStatus)
                 else if channel == "push" then TrimSpace(s.pushStatus)
                 else "";
    if value == "unsubscribed" then Some(Unsubscribed)
    else if value == "bounced" then Some(Bounced)
    else None
  }

  function Target(contact: Option<string>): Option<string> {
    if contact.Some? && TrimSpace(contact.value) != "" then Some(TrimSpace(contact.value)) else None
  }

  predicate LacksTarget(channel: string, s: Subscriber) {
    || (channel == "email" && Target(s.email).None?)
    || (channel == "sms" && Target(s.phone).None?)
    || (channel == "push" && Target(s.pushToken).None?)
  }

  function Addressed(r: Recipient, channel: string, s: Subscriber): Recipient {
    if channel == "email" then r.(email := Target(s.email))
    else if channel == "sms" then r.(phone := Target(s.phone))
    else if channel == "push" then r.(push := Target(s.pushToken))
    else r
  }

  datatype Verdict = Deliver(template: Uuid) | Omit(reason: Reason) | Abort(error: Error)

  /** The checks on one channel, in the order of the loop body; they do not depend on the others. */
  function Judge(channel: string, ids: map<string, string>, s: Subscriber, env: Env): Verdict {
    if SkipReason(channel, s).Some? then Omit(SkipReason(channel, s).value)
    else if channel !in ids || TrimSpace(ids[channel]) == "" then Omit(NoTemplate)
    else
      var id := env.parse(TrimSpace(ids[channel]));
      if id.None? then Abort(InvalidTemplateId)
      else if id.value in env.failing then Abort(StoreError)
      else if id.value !in env.templates then Omit(TemplateMissing)
      else if !env.templates[id.value].isActive then Omit(TemplateInactive)
      else if env.templates[id.value].channel != channel then Omit(ChannelMismatch)
      else if LacksTarget(channel, s) then Omit(NoTarget)
      else if channel in env.unrenderable then Abort(RenderError)
      else Deliver(id.value)
  }

  type Verdicts = map<string, Verdict>

  function Judged(channels: seq<string>, ids: map<string, string>, s: Subscriber, env: Env): Verdicts {
    map c | c in channels :: Judge(c, ids, s, env)
  }

  predicate Covers(v: Verdicts, channels: seq<string>) {
    forall c | c in channels :: c in v
  }

  /** The channels with a delivering verdict, in order. */
  function Deliverable(channels: seq<string>, v: Verdicts): seq<string>
    requires Covers(v, channels)
  {
    if channels == [] then []
    else
      var front, last := channels[..|channels| - 1], channels[|channels| - 1];
      Deliverable(front, v) + if v[last].Deliver? then [last] else []
  }

  /** The channels with an omitting verdict, in order, with the reasons. */
  function Skips(channels: seq<string>, v: Verdicts): seq<Skip>
    requires Covers(v, channels)
  {
    if channels == [] then []
    else
      var front, last := channels[..|channels| - 1], channels[|channels| - 1];
      Skips(front, v) + if v[last].Omit? then [Skip(last, v[last].reason)] else []
  }

  function Names(skips: seq<Skip>): (r: seq<string>)
    ensures |r| == |skips| && forall i | 0 <= i < |r| :: r[i] == skips[i].channel
  {
    seq(|skips|, i requires 0 <= i < |skips| => skips[i].channel)
  }

  predicate Clear(channels: seq<string>, v: Verdicts)
    requires Covers(v, channels)
  {
    forall c | c in channels :: !v[c].Abort?
  }

  function FirstAbort(channels: seq<string>, v: Verdicts): Option<Error>
    requires Covers(v, channels)
  {
    if channels == [] then None
    else if v[channels[0]].Abort? then Some(v[channels[0]].error)
    else FirstAbort(channels[1..], v)
  }

  /** The error is that of the first channel that aborts. */
  lemma {:induction false} FirstAbortIs(channels: seq<string>, v: Verdicts) returns (i: nat)
    requires Covers(v, channels) && !Clear(channels, v)
    ensures i < |channels| && v[channels[i]].Abort? && FirstAbort(channels, v) == Some(v[channels[i]].error)
    ensures forall j | 0 <= j < i :: !v[channels[j]].Abort?
  {
    i := 0;
    if !v[channels[0]].Abort? {
      assert channels == [channels[0]] + channels[1..];
      i := FirstAbortIs(channels[1..], v);
      i := i + 1;
    }
  }

  /** The part of the result that is a function of the set of deliverable channels. */
  ghost predicate Matches(d: Delivery, s: Subscriber, v: Verdicts) {
    && d.content.Keys == (set c | c in d.channels)
    && (forall c | c in d.channels :: c in v && v[c] == Deliver(d.content[c]))
    && d.recipient.email == (if "email" in d.channels then Target(s.email) else None)
    && d.recipient.phone == (if "sms" in d.channels then Target(s.phone) else None)
    && d.recipient.push == (if "push" in d.channels then Target(s.pushToken) else None)
  }

  // ----- The subscriber's wishes and contacts, field by field -----

  /** The subscriber has this status for the channel. */
  ghost predicate StatusIs(channel: string, s: Subscriber, status: string) {
    || (channel == "email" && TrimSpace(s.emailStatus) == status)
    || (channel == "sms" && TrimSpace(s.smsStatus) == status)
    || (channel == "push" && TrimSpace(s.pushStatus) == status)
  }

  /** Neither unsubscribed from the channel nor bounced there. */
  ghost predicate Willing(channel: string, s: Subscriber) {
    !StatusIs(channel, s, "unsubscribed") && !StatusIs(channel, s, "bounced")
  }

  ghost predicate Given(contact: Option<string>) {
    contact.Some? && TrimSpace(contact.value) != ""
  }

  /** The subscriber can be reached over the channel. */
  ghost predicate HasContact(channel: string, s: Subscriber) {
    && (channel == "email" ==> Given(s.email))
    && (channel == "sms" ==> Given(s.phone))
    && (channel == "push" ==> Given(s.pushToken))
  }

  /** The delivery leaves out a channel with one of the two statuses, with that reason if it was asked for,
      and gives these reasons in no other case. */
  ghost predicate Respects(d: Delivery, channels: seq<string>, channel: string, status: string) {
    && (TrimSpace(status) == "unsubscribed" ==>
          channel !in d.channels && (channel in channels ==> Skip(channel, Unsubscribed) in d.skipped))
    && (TrimSpace(status) == "bounced" ==>
          channel !in d.channels && (channel in channels ==> Skip(channel, Bounced) in d.skipped))
    && (Skip(channel, Unsubscribed) in d.skipped ==> TrimSpace(status) == "unsubscribed" && channel in channels)
    && (Skip(channel, Bounced) in d.skipped ==> TrimSpace(status) == "bounced" && channel in channels)
  }

  ghost predicate RespectsAll(d: Delivery, channels: seq<string>, s: Subscriber) {
    && Respects(d, channels, "email", s.emailStatus)
    && Respects(d, channels, "sms", s.smsStatus)
    && Respects(d, channels, "push", s.pushStatus)
    && forall skip | skip in d.skipped && skip.channel !in Channels.KNOWN ::
         skip.reason != Unsubscribed && skip.reason != Bounced
  }

  lemma {:induction false} DeliverableElements(channels: seq<string>, v: Verdicts)
    requires Covers(v, channels)
    ensures forall c :: c in Deliverable(channels, v) <==> c in channels && v[c].Deliver?
    ensures forall c, reason :: Skip(c, reason) in Skips(channels, v) <==> c in channels && v[c] == Omit(reason)
  {
    if channels != [] {
      var front, last := channels[..|channels| - 1], channels[|channels| - 1];
      assert channels == front + [last];
      DeliverableElements(front, v);
    }
  }

  lemma StatusIsReason(channel: string, ids: map<string, string>, s: Subscriber, env: Env)
    ensures Judge(channel, ids, s, env) == Omit(Unsubscribed) <==> StatusIs(channel, s, "unsubscribed")
    ensures Judge(channel, ids, s, env) == Omit(Bounced) <==> StatusIs(channel, s, "bounced")
  {
  }

  /** The statuses are respected, whatever else is wrong or right with the channels. */
  lemma StatusesAreRespected(d: Delivery, channels: seq<string>, ids: map<string, string>, s: Subscriber, env: Env)
    requires var v := Judged(channels, ids, s, env);
             d.channels == Deliverable(channels, v) && d.skipped == Skips(channels, v)
    ensures RespectsAll(d, channels, s)
  {
    var v := Judged(channels, ids, s, env);
    DeliverableElements(channels, v);
    forall c | c in channels
      ensures v[c] == Omit(Unsubscribed) <==> StatusIs(c, s, "unsubscribed")
      ensures v[c] == Omit(Bounced) <==> StatusIs(c, s, "bounced")
    {
      StatusIsReason(c, ids, s, env);
    }
    forall skip | skip in d.skipped
      ensures skip.channel in channels && v[skip.channel] == Omit(skip.reason)
    {
      assert skip == Skip(skip.channel, skip.reason);
    }
  }

  lemma MatchesStep(d: Delivery, s: Subscriber, v: Verdicts, channel: string, template: Uuid)
    requires Matches(d, s, v) && channel in v && v[channel] == Deliver(template)
    ensures Matches(Delivery(d.channels + [channel], d.content[channel := template], d.skipped,
                             Addressed(d.recipient, channel, s)), s, v)
  {
  }

  lemma StepsOfPrefix(channels: seq<string>, i: nat, v: Verdicts)
    requires i < |channels| && Covers(v, channels)
    ensures Covers(v, channels[..i]) && Covers(v, channels[..i + 1])
    ensures Covers(v, channels[i..]) && Covers(v, channels[i + 1..])
    ensures Deliverable(channels[..i + 1], v) ==
            Deliverable(channels[..i], v) + if v[channels[i]].Deliver? then [channels[i]] else []
    ensures Skips(channels[..i + 1], v) ==
            Skips(channels[..i], v) + if v[channels[i]].Omit? then [Skip(channels[i], v[channels[i]].reason)] else []
    ensures Clear(channels[..i + 1], v) <==> Clear(channels[..i], v) && !v[channels[i]].Abort?
    ensures FirstAbort(channels[i..], v) ==
            if v[channels[i]].Abort? then Some(v[channels[i]].error) else FirstAbort(channels[i + 1..], v)
  {
    assert forall c | c in channels[..i + 1] :: c in channels;
    assert channels[..i + 1] == channels[..i] + [channels[i]] && channels[..i + 1][..i] == channels[..i];
    assert channels[i..][1..] == channels[i + 1..];
  }

  /** appendRecipientChannel */
  method AppendRecipientChannel(recipient: Recipient, s: Subscriber, channel: string)
    returns (r: Recipient, lacking: bool)
    ensures lacking == LacksTarget(channel, s)
    ensures r == if lacking then recipient else Addressed(recipient, channel, s)
  {
    r, lacking := recipient, false;
    if channel == "email" {
      if s.email.None? || TrimSpace(s.email.value) == "" {
        return r, true;
      }
      r := r.(email := Some(TrimSpace(s.email.value)));
    } else if channel == "sms" {
      if s.phone.None? || TrimSpace(s.phone.value) == "" {
        return r, true;
      }
      r := r.(phone := Some(TrimSpace(s.phone.value)));
    } else if channel == "push" {
      if s.pushToken.None? || TrimSpace(s.pushToken.value) == "" {
        return r, true;
      }
      r := r.(push := Some(TrimSpace(s.pushToken.value)));
    }
  }

  /** The body of the loop: the checks on one channel, one after the other. */
  method Consider(channel: string, ids: map<string, string>, s: Subscriber, env: Env, recipient: Recipient)
    returns (verdict: Verdict, r: Recipient)
    ensures verdict == Judge(channel, ids, s, env)
    ensures !verdict.Abort? ==> r == if verdict.Deliver? then Addressed(recipient, channel, s) else recipient
  {
    r := recipient;
    var reason := SkipReason(channel, s);
    if reason.Some? {
      return Omit(reason.value), r;
    }
    if channel !in ids || TrimSpace(ids[channel]) == "" {
      return Omit(NoTemplate), r;
    }
    var id := env.parse(TrimSpace(ids[channel]));
    if id.None? {
      return Abort(InvalidTemplateId), r;
    }
    if id.value in env.failing {
      return Abort(StoreError), r;
    }
    if id.value !in env.templates {
      return Omit(TemplateMissing), r;
    }
    var template := env.templates[id.value];
    if !template.isActive {
      return Omit(TemplateInactive), r;
    }
    if template.channel != channel {
      return Omit(ChannelMismatch), r;
    }
    var lacking;
    r, lacking := AppendRecipientChannel(recipient, s, channel);
    if lacking {
      return Omit(NoTarget), r;
    }
    if channel in env.unrenderable {
      return Abort(RenderError), r;
    }
    return Deliver(id.value), r;
  }

  /** prepareWorkflowDelivery. It fails exactly when some channel's verdict is to abort, and then with
      the error of the first such channel; otherwise channels are split by their verdicts. */
  method PrepareDelivery(channels: seq<string>, ids: map<string, string>, s: Subscriber, env: Env)
    returns (r: Result<Delivery, Error>)
    ensures var v := Judged(channels, ids, s, env);
            && (r.Ok? <==> Clear(channels, v))
            && (r.Err? ==> FirstAbort(channels, v) == Some(r.error))
            && (r.Ok? ==>
                  && r.value.channels == Deliverable(channels, v) && r.value.skipped == Skips(channels, v)
                  && Matches(r.value, s, v) && RespectsAll(r.value, channels, s))
  {
    var deliverable: seq<string> := [];
    var content: map<string, Uuid> := map[];
    var skipped: seq<Skip> := [];
    var recipient := Recipient(None, None, None);
    ghost var v := Judged(channels, ids, s, env);
    for i := 0 to |channels|
      invariant Clear(channels[..i], v)
      invariant FirstAbort(channels, v) == FirstAbort(channels[i..], v)
      invariant deliverable == Deliverable(channels[..i], v)
      invariant skipped == Skips(channels[..i], v)
      invariant Matches(Delivery(deliverable, content, skipped, recipient), s, v)
    {
      var channel := channels[i];
      StepsOfPrefix(channels, i, v);
      var verdict, addressed := Consider(channel, ids, s, env, recipient);
      assert v[channel] == verdict;
      match verdict
      case Omit(reason) =>
        skipped := skipped + [Skip(channel, reason)];
      case Abort(error) =>
        return Err(error);
      case Deliver(template) =>
        MatchesStep(Delivery(deliverable, content, skipped, recipient), s, v, channel, template);
        recipient := addressed;
        deliverable := deliverable + [channel];
        content := content[channel := template];
    }
    assert channels[..|channels|] == channels;
    var delivery := Delivery(deliverable, content, skipped, recipient);
    StatusesAreRespected(delivery, channels, ids, s, env);
    return Ok(delivery);
  }

  // ----- The partition -----

  /** `a` and `b` are interleaved to give `whole`: together they have its elements, each in order. */
  ghost predicate Interleaved(whole: seq<string>, a: seq<string>, b: seq<string>)
    decreases |whole|
  {
    if whole == [] then a == [] && b == []
    else
      var n, last := |whole| - 1, whole[|whole| - 1];
      || (a != [] && a[|a| - 1] == last && Interleaved(whole[..n], a[..|a| - 1], b))
      || (b != [] && b[|b| - 1] == last && Interleaved(whole[..n], a, b[..|b| - 1]))
  }

  /** Where nothing aborts, the deliverable and the skipped channels are complementary parts of the
      list, both in its order. */
  lemma {:induction false} ChannelsArePartitioned(channels: seq<string>, v: Verdicts)
    requires Covers(v, channels) && Clear(channels, v)
    ensures Interleaved(channels, Deliverable(channels, v), Names(Skips(channels, v)))
  {
    if channels != [] {
      var n, last := |channels| - 1, channels[|channels| - 1];
      var front := channels[..n];
      StepsOfPrefix(channels, n, v);
      assert channels[..n + 1] == channels;
      ChannelsArePartitioned(front, v);
      var delivered, skipped := Deliverable(front, v), Skips(front, v);
      InterleavedNext(front, delivered, Names(skipped), last);
      assert channels == front + [last];
      if v[last].Deliver? {
        assert Deliverable(channels, v) == delivered + [last] && Skips(channels, v) == skipped;
      } else {
        assert Deliverable(channels, v) == delivered;
        assert Names(Skips(channels, v)) == Names(skipped) + [last];
      }
    }
  }

  lemma InterleavedNext(whole: seq<string>, a: seq<string>, b: seq<string>, last: string)
    requires Interleaved(whole, a, b)
    ensures Interleaved(whole + [last], a + [last], b) && Interleaved(whole + [last], a, b + [last])
  {
    assert (whole + [last])[..|whole|] == whole && (a + [last])[..|a|] == a && (b + [last])[..|b|] == b;
  }

  lemma {:induction false} InterleavedElements(whole: seq<string>, a: seq<string>, b: seq<string>)
    requires Interleaved(whole, a, b)
    ensures forall c :: c in whole <==> c in a || c in b
    ensures |whole| == |a| + |b|
    decreases |whole|
  {
    if whole != [] {
      var n, last := |whole| - 1, whole[|whole| - 1];
      assert whole == whole[..n] + [last];
      if a != [] && a[|a| - 1] == last && Interleaved(whole[..n], a[..|a| - 1], b) {
        InterleavedElements(whole[..n], a[..|a| - 1], b);
        assert a == a[..|a| - 1] + [last];
      } else {
        InterleavedElements(whole[..n], a, b[..|b| - 1]);
        assert b == b[..|b| - 1] + [last];
      }
    }
  }

  lemma {:induction false} InterleavedDistinct(whole: seq<string>, a: seq<string>, b: seq<string>)
    requires Interleaved(whole, a, b) && Channels.Distinct(whole)
    ensures Channels.Distinct(a) && Channels.Distinct(b) && Sending.Disjoint(a, b)
    decreases |whole|
  {
    if whole != [] {
      var n, last := |whole| - 1, whole[|whole| - 1];
      Channels.DistinctFront(whole);
      if a != [] && a[|a| - 1] == last && Interleaved(whole[..n], a[..|a| - 1], b) {
        InterleavedElements(whole[..n], a[..|a| - 1], b);
        InterleavedDistinct(whole[..n], a[..|a| - 1], b);
        assert a == a[..|a| - 1] + [last];
      } else {
        InterleavedElements(whole[..n], a, b[..|b| - 1]);
        InterleavedDistinct(whole[..n], a, b[..|b| - 1]);
        assert b == b[..|b| - 1] + [last];
      }
    }
  }

  /** Main result on delivery, given that stored templates are for known channels only: every
      deliverable channel is email, sms or push, is neither unsubscribed nor bounced, and has content from
      an active template for it; and the recipient has a target for a channel exactly when that channel
      is deliverable, namely the subscriber's own. */
  lemma DeliverableIsDeliverable(d: Delivery, channels: seq<string>, ids: map<string, string>, s: Subscriber, env: Env)
    requires Matches(d, s, Judged(channels, ids, s, env))
    requires forall t | t in env.templates :: env.templates[t].channel in Channels.KNOWN
    ensures forall c | c in d.channels ::
              && c in Channels.KNOWN && Willing(c, s) && HasContact(c, s)
              && c in d.content && d.content[c] in env.templates && env.templates[d.content[c]] == Template(c, true)
    ensures d.recipient.email.Some? <==> "email" in d.channels
    ensures d.recipient.phone.Some? <==> "sms" in d.channels
    ensures d.recipient.push.Some? <==> "push" in d.channels
    ensures "email" in d.channels ==> d.recipient.email == Some(TrimSpace(s.email.value))
    ensures "sms" in d.channels ==> d.recipient.phone == Some(TrimSpace(s.phone.value))
    ensures "push" in d.channels ==> d.recipient.push == Some(TrimSpace(s.pushToken.value))
  {
    forall c | c in d.channels
      ensures c in d.content && Willing(c, s) && HasContact(c, s)
      ensures d.content[c] in env.templates && env.templates[d.content[c]] == Template(c, true)
    {
      assert Judged(channels, ids, s, env)[c] == Deliver(d.content[c]);
      DeliverIff(c, ids, s, env, d.content[c]);
    }
  }

  /** A channel is delivered exactly when it passes all the checks. */
  lemma DeliverIff(c: string, ids: map<string, string>, s: Subscriber, env: Env, template: Uuid)
    ensures Judge(c, ids, s, env) == Deliver(template) <==>
            && Willing(c, s) && HasContact(c, s) && c !in env.unrenderable
            && c in ids && TrimSpace(ids[c]) != "" && env.parse(TrimSpace(ids[c])) == Some(template)
            && template !in env.failing && template in env.templates && env.templates[template] == Template(c, true)
  {
  }

  /** A channel is left out for the first of the checks that it does not pass, as far as nothing aborts the
      preparation before. */
  lemma OmitIff(c: string, ids: map<string, string>, s: Subscriber, env: Env, reason: Reason)
    ensures Judge(c, ids, s, env) == Omit(reason) <==>
            match reason
            case Unsubscribed => StatusIs(c, s, "unsubscribed")
            case Bounced => StatusIs(c, s, "bounced")
            case NoTemplate => Willing(c, s) && !HasTemplateId(c, ids)
            case TemplateMissing => Willing(c, s) && exists t :: Looks(c, ids, env, t) && t !in env.templates
            case TemplateInactive =>
              Willing(c, s) && exists t :: Looks(c, ids, env, t) && t in env.templates && !env.templates[t].isActive
            case ChannelMismatch =>
              Willing(c, s) && exists t :: Looks(c, ids, env, t) && t in env.templates && env.templates[t].isActive &&
                                           env.templates[t].channel != c
            case NoTarget =>
              Willing(c, s) && !HasContact(c, s) &&
              exists t :: Looks(c, ids, env, t) && t in env.templates && env.templates[t] == Template(c, true)
  {
    if HasTemplateId(c, ids) && env.parse(TrimSpace(ids[c])).Some? {
      var t := env.parse(TrimSpace(ids[c])).value;
      assert t in env.failing || Looks(c, ids, env, t);
    }
  }

  ghost predicate HasTemplateId(c: string, ids: map<string, string>) {
    c in ids && TrimSpace(ids[c]) != ""
  }

  /** The channel has a template id, and the template with that id can be looked up. */
  ghost predicate Looks(c: string, ids: map<string, string>, env: Env, t: Uuid) {
    HasTemplateId(c, ids) && env.parse(TrimSpace(ids[c])) == Some(t) && t !in env.failing
  }

  /** The preparation is given up for a channel whose template id is malformed, whose lookup fails, or whose
      template does not render, if the channel gets as far as that. */
  lemma AbortIff(c: string, ids: map<string, string>, s: Subscriber, env: Env, error: Error)
    ensures Judge(c, ids, s, env) == Abort(error) <==>
            && Willing(c, s) && HasTemplateId(c, ids)
            && match error
               case InvalidTemplateId => env.parse(TrimSpace(ids[c])).None?
               case StoreError => exists t :: env.parse(TrimSpace(ids[c])) == Some(t) && t in env.failing
               case RenderError =>
                 && HasContact(c, s) && c in env.unrenderable
                 && exists t :: Looks(c, ids, env, t) && t in env.templates && env.templates[t] == Template(c, true)
               case _ => false
  {
    if HasTemplateId(c, ids) && env.parse(TrimSpace(ids[c])).Some? {
      var t := env.parse(TrimSpace(ids[c])).value;
      assert t in env.failing || Looks(c, ids, env, t);
    }
  }

  /** A channel that is not spelled like a known one is never delivered, whatever the subscriber and the
      templates, as long as stored templates are for known channels only. */
  lemma UnknownIsNeverDelivered(c: string, ids: map<string, string>, s: Subscriber, env: Env)
    requires c !in Channels.KNOWN && forall t | t in env.templates :: env.templates[t].channel in Channels.KNOWN
    ensures !Judge(c, ids, s, env).Deliver?
  {
    if Judge(c, ids, s, env).Deliver? {
      DeliverIff(c, ids, s, env, Judge(c, ids, s, env).template);
    }
  }

  // ----- The whole preparation -----

  /** filterRequestedChannels */
  function Requested(channels: seq<string>, requested: Option<seq<string>>): seq<string> {
    if requested.None? then channels else Among(channels, requested.value)
  }

  function Among(channels: seq<string>, requested: seq<string>): (r: seq<string>)
    ensures forall c :: c in r <==> c in channels && c in requested
  {
    if channels == [] then []
    else
      var r := Among(channels[..|channels| - 1], requested);
      var last := channels[|channels| - 1];
      assert channels == channels[..|channels| - 1] + [last];
      if last in requested then r + [last] else r
  }

  /** The requested channels keep the order of the list. */
  lemma {:induction false} AmongConcat(a: seq<string>, b: seq<string>, requested: seq<string>)
    ensures Among(a + b, requested) == Among(a, requested) + Among(b, requested)
    ensures |a| == 1 ==> Among(a, requested) == if a[0] in requested then a else []
  {
    assert |a| == 1 ==> a[..0] == [];
    if b == [] {
      assert a + b == a;
    } else {
      AmongConcat(a, b[..|b| - 1], requested);
      assert (a + b)[..|a + b| - 1] == a + b[..|b| - 1];
    }
  }

  lemma {:induction false} AmongDistinct(channels: seq<string>, requested: seq<string>)
    requires Channels.Distinct(channels)
    ensures Channels.Distinct(Among(channels, requested))
  {
    if channels != [] {
      Channels.DistinctFront(channels);
      AmongDistinct(channels[..|channels| - 1], requested);
    }
  }

  method FilterRequestedChannels(channels: seq<string>, requested: Option<seq<string>>) returns (filtered: seq<string>)
    ensures filtered == Requested(channels, requested)
  {
    if requested.None? {
      return channels;
    }
    filtered := [];
    for i := 0 to |channels|
      invariant filtered == Among(channels[..i], requested.value)
    {
      assert channels[..i + 1][..i] == channels[..i];
      if channels[i] in requested.value {
        filtered := filtered + [channels[i]];
      }
    }
    assert channels[..|channels|] == channels;
  }

  /** The template ids that the delivery works with: what was extracted, or the stored column itself if
      that is empty; None if that column does not decode. */
  function IdsFor(row: Columns.Row): Option<map<string, string>> {
    var ids := Columns.Extracted(row).1;
    if |ids| > 0 then Some(ids) else row.templates
  }

  /** These are always the extracted ids; it is an error exactly if the column does not decode and the
      definition gives no id either. */
  lemma IdsAreExtracted(row: Columns.Row)
    ensures IdsFor(row).Some? ==> IdsFor(row).value == Columns.Extracted(row).1
    ensures IdsFor(row).None? <==> row.templates.None? && Columns.Extracted(row).1 == map[]
  {
    if row.templates.Some? && row.nodes.Some? {
      Columns.MergeGrows(row.templates.value, Columns.BindingsOf(row.nodes.value));
    }
  }

  /** What a query by id gives. */
  datatype Found<+T> = Missing | Failing | Present(value: T)

  /** The workflow's id and key and the subscriber's id, which are added to a job's metadata. */
  datatype Origin = Origin(workflowId: string, workflowKey: string, subscriberId: string)

  /** enrichMetadata */
  function Enriched(given: map<string, string>, origin: Origin): (r: map<string, string>)
    ensures r.Keys == given.Keys + {"workflow_id", "workflow_key", "subscriber_id"}
    ensures forall k | k in given && k !in {"workflow_id", "workflow_key", "subscriber_id"} :: r[k] == given[k]
    ensures r["workflow_id"] == origin.workflowId && r["workflow_key"] == origin.workflowKey
    ensures r["subscriber_id"] == origin.subscriberId
  {
    given["workflow_id" := origin.workflowId]["workflow_key" := origin.workflowKey]
         ["subscriber_id" := origin.subscriberId]
  }

  /** prepareWorkflowJob. `idsParse` says whether the job names a project, and whether its three ids parse;
      `subscriber` is the subscriber or, for a system user, the one made up from the user. */
  method PrepareWorkflowJob(idsParse: bool, workflow: Found<Columns.Row>, subscriber: Found<Subscriber>,
                            requested: Option<seq<string>>, given: map<string, string>, origin: Origin, env: Env)
    returns (r: Result<Delivery, Error>, metadata: map<string, string>)
    ensures metadata == if r.Ok? then Enriched(given, origin) else given
    ensures !idsParse ==> r == Err(InvalidRequest)
    ensures idsParse && (workflow.Missing? || (workflow.Present? && subscriber.Missing?)) ==> r == Err(NotFound)
    ensures idsParse && (workflow.Failing? || (workflow.Present? && subscriber.Failing?)) ==> r == Err(StoreError)
    ensures idsParse && workflow.Present? && subscriber.Present? ==>
      var row, s := workflow.value, subscriber.value;
      && (r == Err(InvalidMapping) <==> IdsFor(row).None?)
      && (IdsFor(row).Some? ==>
            var channels := Requested(Columns.Extracted(row).0, requested);
            var v := Judged(channels, IdsFor(row).value, s, env);
            && (r.Ok? <==> Clear(channels, v))
            && (r.Err? ==> FirstAbort(channels, v) == Some(r.error))
            && (r.Ok? ==>
                  && r.value.channels == Deliverable(channels, v) && r.value.skipped == Skips(channels, v)
                  && Matches(r.value, s, v) && RespectsAll(r.value, channels, s)))
  {
    metadata := given;
    if !idsParse {
      r := Err(InvalidRequest);
      return;
    }
    if workflow.Missing? {
      r := Err(NotFound);
      return;
    }
    if workflow.Failing? {
      r := Err(StoreError);
      return;
    }
    if subscriber.Missing? {
      r := Err(NotFound);
      return;
    }
    if subscriber.Failing? {
      r := Err(StoreError);
      return;
    }
    r := PrepareRow(workflow.value, requested, subscriber.value, env);
    if r.Ok? {
      metadata := Enriched(given, origin);
    }
  }

  /** The part of prepareWorkflowJob that works on the workflow row. */
  method PrepareRow(row: Columns.Row, requested: Option<seq<string>>, s: Subscriber, env: Env)
    returns (r: Result<Delivery, Error>)
    ensures r == Err(InvalidMapping) <==> IdsFor(row).None?
    ensures IdsFor(row).Some? ==>
      var channels := Requested(Columns.Extracted(row).0, requested);
      var v := Judged(channels, IdsFor(row).value, s, env);
      && (r.Ok? <==> Clear(channels, v))
      && (r.Err? ==> FirstAbort(channels, v) == Some(r.error))
      && (r.Ok? ==>
            && r.value.channels == Deliverable(channels, v) && r.value.skipped == Skips(channels, v)
            && Matches(r.value, s, v) && RespectsAll(r.value, channels, s))
  {
    var channels, ids := Columns.Extract(row);
    channels := FilterRequestedChannels(channels, requested);
    if |ids| == 0 {
      if row.templates.None? {
        return Err(InvalidMapping);
      }
      ids := row.templates.value;
    }
    NoMappingError(channels, channels, ids, s, env);
    r := PrepareDelivery(channels, ids, s, env);
  }

  lemma {:induction false} NoMappingError(rest: seq<string>, channels: seq<string>, ids: map<string, string>,
                                          s: Subscriber, env: Env)
    requires Covers(Judged(channels, ids, s, env), rest)
    ensures FirstAbort(rest, Judged(channels, ids, s, env)) != Some(InvalidMapping)
  {
    if rest != [] {
      assert Judged(channels, ids, s, env)[rest[0]] == Judge(rest[0], ids, s, env);
      NoMappingError(rest[1..], channels, ids, s, env);
    }
  }

  /** Main result across the modules: for a workflow whose columns were built from a validated
      definition, the prepared channels and the skipped ones are together the requested channels of the
      definition, and they are distinct and disjoint, which is what the status of a send relies on. */
  lemma PreparedJobsAreSendable(d: Definitions.Definition, requested: Option<seq<string>>, s: Subscriber, env: Env)
    requires Validator.WellFormed(d)
    requires var channels := Requested(Columns.StoredChannels(d), requested);
             Clear(channels, Judged(channels, Columns.StoredTemplates(d), s, env))
    ensures var row := Columns.Row(Columns.StoredChannels(d), Some(Columns.StoredTemplates(d)), Some(d.nodes));
            var channels := Requested(Columns.Extracted(row).0, requested);
            var v := Judged(channels, Columns.StoredTemplates(d), s, env);
            var delivered, skipped := Deliverable(channels, v), Names(Skips(channels, v));
            && IdsFor(row) == Some(Columns.StoredTemplates(d))
            && Channels.Distinct(delivered) && Channels.Distinct(skipped) && Sending.Disjoint(delivered, skipped)
            && (forall c :: c in delivered || c in skipped <==>
                  c in Columns.ChannelsOf(d.nodes) && (requested.Some? ==> c in requested.value))
  {
    var row := Columns.Row(Columns.StoredChannels(d), Some(Columns.StoredTemplates(d)), Some(d.nodes));
    Columns.BuiltColumnsAgree(d);
    Columns.BuiltChannelsAreThose(d);
    var channels := Requested(Columns.StoredChannels(d), requested);
    if requested.Some? {
      AmongDistinct(Columns.StoredChannels(d), requested.value);
    }
    PartsAreSendable(channels, Judged(channels, Columns.StoredTemplates(d), s, env));
  }

  lemma PartsAreSendable(channels: seq<string>, v: Verdicts)
    requires Channels.Distinct(channels) && Covers(v, channels) && Clear(channels, v)
    ensures var delivered, skipped := Deliverable(channels, v), Names(Skips(channels, v));
            && Channels.Distinct(delivered) && Channels.Distinct(skipped) && Sending.Disjoint(delivered, skipped)
            && forall c :: c in delivered || c in skipped <==> c in channels
  {
    var delivered, skipped := Deliverable(channels, v), Names(Skips(channels, v));
    ChannelsArePartitioned(channels, v);
    InterleavedElements(channels, delivered, skipped);
    InterleavedDistinct(channels, delivered, skipped);
  }
}
