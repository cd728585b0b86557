/** The channel and template columns of a workflow row: how the workflow service derives them from a
    definition, and how the notification service reads them back together with the definition. */
module Columns {
  import opened Wrappers
  import opened Text
  import opened Definitions
  import opened Channels
  import Graphs
  import Validator

  type Binding = (string, string)

  /** The channels of the notification nodes, in order and with repetitions. */
  function ChannelsOf(nodes: seq<Node>): seq<string> {
    if nodes == [] then [] else ChannelsOf(nodes[..|nodes| - 1]) + ChannelsOfNode(nodes[|nodes| - 1])
  }

  function ChannelsOfNode(node: Node): seq<string> {
    if node.kind.Notification? && node.kind.notification.Some? then node.kind.notification.value.channels else []
  }

  /** Each channel of a notification node with the node's template id. */
  function BindingsOf(nodes: seq<Node>): seq<Binding> {
    if nodes == [] then [] else BindingsOf(nodes[..|nodes| - 1]) + BindingsOfNode(nodes[|nodes| - 1])
  }

  function BindingsOfNode(node: Node): seq<Binding> {
    if node.kind.Notification? && node.kind.notification.Some? then
      Pair(node.kind.notification.value.channels, node.kind.notification.value.template.text)
    else []
  }

  function Pair(channels: seq<string>, text: string): (r: seq<Binding>)
    ensures |r| == |channels| && forall i | 0 <= i < |r| :: r[i] == (channels[i], text)
  {
    seq(|channels|, i requires 0 <= i < |channels| => (channels[i], text))
  }

  /** `base`, followed by the first occurrences in `more` of channels that it does not have. */
  function Extend(base: seq<string>, more: seq<string>): (r: seq<string>)
    ensures base <= r
    ensures forall c :: c in r <==> c in base || c in more
  {
    if more == [] then base
    else
      var r := Extend(base, more[..|more| - 1]);
      var last := more[|more| - 1];
      assert more == more[..|more| - 1] + [last];
      if last in r then r else r + [last]
  }

  /** `base`, filled up with the first non-empty template id for each channel that has none. */
  function Merge(base: map<string, string>, bindings: seq<Binding>): map<string, string> {
    if bindings == [] then base
    else MergeOne(Merge(base, bindings[..|bindings| - 1]), bindings[|bindings| - 1])
  }

  function MergeOne(m: map<string, string>, b: Binding): map<string, string> {
    if b.1 != "" && (b.0 !in m || m[b.0] == "") then m[b.0 := b.1] else m
  }

  function NonEmpty(channels: seq<string>): (r: seq<string>)
    ensures forall c :: c in r <==> c in channels && c != ""
  {
    if channels == [] then []
    else
      var r := NonEmpty(channels[..|channels| - 1]);
      var last := channels[|channels| - 1];
      assert channels == channels[..|channels| - 1] + [last];
      if last != "" then r + [last] else r
  }

  function Named(bindings: seq<Binding>): seq<Binding> {
    if bindings == [] then []
    else
      var r := Named(bindings[..|bindings| - 1]);
      if bindings[|bindings| - 1].0 != "" then r + [bindings[|bindings| - 1]] else r
  }

  // ----- The two derivations of the workflow service -----

  function StoredChannels(d: Definition): seq<string> {
    FirstOccurrences(NonEmpty(ChannelsOf(d.nodes)))
  }

  function StoredTemplates(d: Definition): map<string, string> {
    Merge(map[], Named(BindingsOf(d.nodes)))
  }

  lemma {:induction false} NonEmptyAppend(a: seq<string>, b: seq<string>)
    ensures NonEmpty(a + b) == NonEmpty(a) + NonEmpty(b)
  {
    if b == [] {
      assert a + b == a;
    } else {
      NonEmptyAppend(a, b[..|b| - 1]);
      assert (a + b)[..|a + b| - 1] == a + b[..|b| - 1];
    }
  }

  lemma {:induction false} NamedAppend(a: seq<Binding>, b: seq<Binding>)
    ensures Named(a + b) == Named(a) + Named(b)
  {
    if b == [] {
      assert a + b == a;
    } else {
      NamedAppend(a, b[..|b| - 1]);
      assert (a + b)[..|a + b| - 1] == a + b[..|b| - 1];
    }
  }

  lemma ChannelsOfNext(nodes: seq<Node>, i: nat)
    requires i < |nodes|
    ensures ChannelsOf(nodes[..i + 1]) == ChannelsOf(nodes[..i]) + ChannelsOfNode(nodes[i])
    ensures BindingsOf(nodes[..i + 1]) == BindingsOf(nodes[..i]) + BindingsOfNode(nodes[i])
  {
    assert nodes[..i + 1][..i] == nodes[..i];
  }

  lemma NextChannel(done: seq<string>, ch: string)
    ensures var r := FirstOccurrences(NonEmpty(done));
            FirstOccurrences(NonEmpty(done + [ch])) == if ch == "" || ch in r then r else r + [ch]
  {
    var kept := NonEmpty(done);
    assert (done + [ch])[..|done|] == done;
    assert (kept + [ch])[..|kept|] == kept;
  }

  lemma NextChannelAt(before: seq<string>, channels: seq<string>, i: nat)
    requires i < |channels|
    ensures var r := FirstOccurrences(NonEmpty(before + channels[..i]));
            FirstOccurrences(NonEmpty(before + channels[..i + 1])) ==
            if channels[i] == "" || channels[i] in r then r else r + [channels[i]]
  {
    assert before + channels[..i + 1] == (before + channels[..i]) + [channels[i]];
    NextChannel(before + channels[..i], channels[i]);
  }

  /** channelsFromDefinition */
  method ChannelsFromDefinition(d: Definition) returns (result: seq<string>)
    ensures result == StoredChannels(d)
  {
    result := [];
    for i := 0 to |d.nodes|
      invariant result == FirstOccurrences(NonEmpty(ChannelsOf(d.nodes[..i])))
    {
      ChannelsOfNext(d.nodes, i);
      result := AddChannels(ChannelsOf(d.nodes[..i]), result, d.nodes[i]);
    }
    assert d.nodes[..|d.nodes|] == d.nodes;
  }

  /** The inner loop of channelsFromDefinition. */
  method AddChannels(ghost before: seq<string>, start: seq<string>, node: Node) returns (result: seq<string>)
    requires start == FirstOccurrences(NonEmpty(before))
    ensures result == FirstOccurrences(NonEmpty(before + ChannelsOfNode(node)))
  {
    result := start;
    if !node.kind.Notification? {
      assert before + [] == before;
      return;
    }
    if node.kind.notification.None? {
      assert before + [] == before;
      return;
    }
    var channels := node.kind.notification.value.channels;
    assert before + channels[..0] == before;
    for i := 0 to |channels|
      invariant result == FirstOccurrences(NonEmpty(before + channels[..i]))
    {
      var ch := channels[i];
      NextChannelAt(before, channels, i);
      if ch == "" {
        continue;
      }
      if ch !in result {
        result := result + [ch];
      }
    }
    assert channels[..|channels|] == channels;
  }

  /** templateIDsFromDefinition */
  method TemplateIDsFromDefinition(d: Definition) returns (result: map<string, string>)
    ensures result == StoredTemplates(d)
  {
    result := map[];
    for i := 0 to |d.nodes|
      invariant result == Merge(map[], Named(BindingsOf(d.nodes[..i])))
    {
      ChannelsOfNext(d.nodes, i);
      result := AddTemplates(BindingsOf(d.nodes[..i]), result, d.nodes[i]);
    }
    assert d.nodes[..|d.nodes|] == d.nodes;
  }

  lemma {:induction false} NoEmptyIds(bindings: seq<Binding>)
    ensures forall c | c in Merge(map[], bindings) :: Merge(map[], bindings)[c] != ""
  {
    if bindings != [] {
      NoEmptyIds(bindings[..|bindings| - 1]);
    }
  }

  lemma {:induction false} EmptyIdsMergeNothing(base: map<string, string>, before: seq<Binding>, channels: seq<string>)
    ensures Merge(base, before + Pair(channels, "")) == Merge(base, before)
  {
    if channels == [] {
      assert before + Pair(channels, "") == before;
    } else {
      var n := |channels| - 1;
      EmptyIdsMergeNothing(base, before, channels[..n]);
      var all := before + Pair(channels, "");
      assert all[..|all| - 1] == before + Pair(channels[..n], "");
    }
  }

  lemma {:induction false} NamedPairs(channels: seq<string>, text: string)
    ensures Named(Pair(channels, text)) == Pair(NonEmpty(channels), text)
  {
    if channels != [] {
      var n := |channels| - 1;
      NamedPairs(channels[..n], text);
      assert Pair(channels, text)[..n] == Pair(channels[..n], text);
    }
  }

  lemma NextTemplate(done: seq<Binding>, ch: string, text: string)
    requires text != ""
    ensures var m := Merge(map[], Named(done));
            Merge(map[], Named(done + [(ch, text)])) == if ch == "" || ch in m then m else m[ch := text]
  {
    assert (done + [(ch, text)])[..|done|] == done;
    assert (Named(done) + [(ch, text)])[..|Named(done)|] == Named(done);
    NoEmptyIds(Named(done));
  }

  lemma NextTemplateAt(before: seq<Binding>, channels: seq<string>, text: string, i: nat)
    requires i < |channels| && text != ""
    ensures var m := Merge(map[], Named(before + Pair(channels[..i], text)));
            Merge(map[], Named(before + Pair(channels[..i + 1], text))) ==
            if channels[i] == "" || channels[i] in m then m else m[channels[i] := text]
  {
    var done := before + Pair(channels[..i], text);
    assert before + Pair(channels[..i + 1], text) == done + [(channels[i], text)];
    NextTemplate(done, channels[i], text);
  }

  lemma EmptyIdsAddNothing(before: seq<Binding>, channels: seq<string>)
    ensures Merge(map[], Named(before + Pair(channels, ""))) == Merge(map[], Named(before))
  {
    NamedAppend(before, Pair(channels, ""));
    NamedPairs(channels, "");
    EmptyIdsMergeNothing(map[], Named(before), NonEmpty(channels));
  }

  /** The inner loop of templateIDsFromDefinition. */
  method AddTemplates(ghost before: seq<Binding>, start: map<string, string>, node: Node)
    returns (result: map<string, string>)
    requires start == Merge(map[], Named(before))
    ensures result == Merge(map[], Named(before + BindingsOfNode(node)))
  {
    result := start;
    if !node.kind.Notification? {
      assert before + [] == before;
      return;
    }
    if node.kind.notification.None? {
      assert before + [] == before;
      return;
    }
    var channels, text := node.kind.notification.value.channels, node.kind.notification.value.template.text;
    if text == "" {
      EmptyIdsAddNothing(before, channels);
      return;
    }
    assert before + Pair(channels[..0], text) == before;
    for i := 0 to |channels|
      invariant result == Merge(map[], Named(before + Pair(channels[..i], text)))
    {
      var ch := channels[i];
      NextTemplateAt(before, channels, text, i);
      if ch == "" {
        continue;
      }
      if ch !in result {
        result := result[ch := text];
      }
    }
    assert channels[..|channels|] == channels;
  }

  // ----- Reading the columns back -----

  /** A workflow row; `templates` is None where the stored JSON does not decode, `nodes` likewise. */
  datatype Row = Row(channels: seq<string>, templates: Option<map<string, string>>, nodes: Option<seq<Node>>)

  function Extracted(row: Row): (seq<string>, map<string, string>) {
    var templates := if row.templates.Some? then row.templates.value else map[];
    if row.nodes.None? then (row.channels, templates)
    else (Extend(row.channels, ChannelsOf(row.nodes.value)), Merge(templates, BindingsOf(row.nodes.value)))
  }

  lemma {:induction false} ExtendAppend(base: seq<string>, a: seq<string>, b: seq<string>)
    ensures Extend(base, a + b) == Extend(Extend(base, a), b)
  {
    if b == [] {
      assert a + b == a;
    } else {
      ExtendAppend(base, a, b[..|b| - 1]);
      assert (a + b)[..|a + b| - 1] == a + b[..|b| - 1];
    }
  }

  lemma {:induction false} MergeAppend(base: map<string, string>, a: seq<Binding>, b: seq<Binding>)
    ensures Merge(base, a + b) == Merge(Merge(base, a), b)
  {
    if b == [] {
      assert a + b == a;
    } else {
      MergeAppend(base, a, b[..|b| - 1]);
      assert (a + b)[..|a + b| - 1] == a + b[..|b| - 1];
    }
  }

  lemma ExtendNext(base: seq<string>, channels: seq<string>, i: nat)
    requires i < |channels|
    ensures var r := Extend(base, channels[..i]);
            Extend(base, channels[..i + 1]) == if channels[i] in r then r else r + [channels[i]]
  {
    assert channels[..i + 1][..i] == channels[..i];
  }

  lemma MergeNext(base: map<string, string>, channels: seq<string>, text: string, i: nat)
    requires i < |channels|
    ensures Merge(base, Pair(channels[..i + 1], text)) ==
            MergeOne(Merge(base, Pair(channels[..i], text)), (channels[i], text))
  {
    assert Pair(channels[..i + 1], text)[..i] == Pair(channels[..i], text);
  }

  /** extractChannelsAndTemplatesFromWorkflow */
  method Extract(row: Row) returns (channels: seq<string>, templates: map<string, string>)
    ensures (channels, templates) == Extracted(row)
  {
    channels := row.channels;
    templates := if row.templates.Some? then row.templates.value else map[];
    if row.nodes.None? {
      return;
    }
    ghost var base := templates;
    var nodes := row.nodes.value;
    for i := 0 to |nodes|
      invariant channels == Extend(row.channels, ChannelsOf(nodes[..i]))
      invariant templates == Merge(base, BindingsOf(nodes[..i]))
    {
      ChannelsOfNext(nodes, i);
      ExtendAppend(row.channels, ChannelsOf(nodes[..i]), ChannelsOfNode(nodes[i]));
      MergeAppend(base, BindingsOf(nodes[..i]), BindingsOfNode(nodes[i]));
      channels, templates := ExtractNode(channels, templates, nodes[i]);
    }
    assert nodes[..|nodes|] == nodes;
  }

  /** The inner loop of extractChannelsAndTemplatesFromWorkflow. */
  method ExtractNode(startChannels: seq<string>, startTemplates: map<string, string>, node: Node)
    returns (channels: seq<string>, templates: map<string, string>)
    ensures channels == Extend(startChannels, ChannelsOfNode(node))
    ensures templates == Merge(startTemplates, BindingsOfNode(node))
  {
    channels, templates := startChannels, startTemplates;
    if node.kind.Notification? && node.kind.notification.Some? {
      var cfg := node.kind.notification.value;
      for i := 0 to |cfg.channels|
        invariant channels == Extend(startChannels, cfg.channels[..i])
        invariant templates == Merge(startTemplates, Pair(cfg.channels[..i], cfg.template.text))
      {
        var ch := cfg.channels[i];
        ExtendNext(startChannels, cfg.channels, i);
        MergeNext(startTemplates, cfg.channels, cfg.template.text, i);
        if ch !in channels {
          channels := channels + [ch];
        }
        if cfg.template.text != "" && (ch !in templates || templates[ch] == "") {
          templates := templates[ch := cfg.template.text];
        }
      }
      assert cfg.channels[..|cfg.channels|] == cfg.channels;
    }
  }

  // ----- The columns and the definition agree -----

  /** The channels of `more` that `base` does not have. */
  function Besides(base: seq<string>, more: seq<string>): (r: seq<string>)
    ensures forall c :: c in r <==> c in more && c !in base
  {
    if more == [] then []
    else
      var r := Besides(base, more[..|more| - 1]);
      var last := more[|more| - 1];
      assert more == more[..|more| - 1] + [last];
      if last in base then r else r + [last]
  }

  lemma {:induction false} ExtendAddsInOrder(base: seq<string>, more: seq<string>)
    ensures Extend(base, more) == base + FirstOccurrences(Besides(base, more))
  {
    if more == [] {
      assert Extend(base, more) == base + [];
    } else {
      var front, last := more[..|more| - 1], more[|more| - 1];
      ExtendAddsInOrder(base, front);
      if last !in base {
        NextOccurrence(Besides(base, front), last);
        Behind(base, FirstOccurrences(Besides(base, front)), last);
      }
    }
  }

  lemma Behind(base: seq<string>, r: seq<string>, x: string)
    ensures base + (r + [x]) == (base + r) + [x]
  {
  }

  /** In general: the stored channels come first and unchanged, then the other channels of the definition
      in the order in which they first occur; and a stored template id that is not empty is the one that
      is used. */
  lemma StoredColumnsWin(row: Row)
    ensures var (channels, templates) := Extracted(row);
            && channels == row.channels +
                 (if row.nodes.None? then [] else FirstOccurrences(Besides(row.channels, ChannelsOf(row.nodes.value))))
            && (Distinct(row.channels) ==> Distinct(channels))
            && (forall c :: c in channels <==>
                  c in row.channels || (row.nodes.Some? && c in ChannelsOf(row.nodes.value)))
            && (row.templates.Some? ==>
                forall c | c in row.templates.value && row.templates.value[c] != "" ::
                  c in templates && templates[c] == row.templates.value[c])
  {
    if row.nodes.None? {
      assert row.channels + [] == row.channels;
    } else {
      ExtendAddsInOrder(row.channels, ChannelsOf(row.nodes.value));
      if Distinct(row.channels) {
        ExtendKeepsDistinct(row.channels, ChannelsOf(row.nodes.value));
      }
      if row.templates.Some? {
        MergeKeeps(row.templates.value, BindingsOf(row.nodes.value));
      }
    }
  }

  lemma {:induction false} ExtendKeepsDistinct(base: seq<string>, more: seq<string>)
    requires Distinct(base)
    ensures Distinct(Extend(base, more))
  {
    if more != [] {
      ExtendKeepsDistinct(base, more[..|more| - 1]);
    }
  }

  lemma {:induction false} MergeKeeps(base: map<string, string>, bindings: seq<Binding>)
    ensures forall c | c in base && base[c] != "" :: c in Merge(base, bindings) && Merge(base, bindings)[c] == base[c]
  {
    if bindings != [] {
      MergeKeeps(base, bindings[..|bindings| - 1]);
    }
  }

  lemma {:induction false} MergeGrows(base: map<string, string>, bindings: seq<Binding>)
    ensures base.Keys <= Merge(base, bindings).Keys
  {
    if bindings != [] {
      MergeGrows(base, bindings[..|bindings| - 1]);
    }
  }

  lemma {:induction false} ExtendByKnown(base: seq<string>, more: seq<string>)
    requires forall c | c in more :: c in base
    ensures Extend(base, more) == base
  {
    if more != [] {
      assert more == more[..|more| - 1] + [more[|more| - 1]];
      assert forall c | c in more[..|more| - 1] :: c in more;
      assert more[|more| - 1] in more;
      ExtendByKnown(base, more[..|more| - 1]);
    }
  }

  ghost predicate Covers(m: map<string, string>, bindings: seq<Binding>) {
    forall b | b in bindings && b.1 != "" :: b.0 in m && m[b.0] != ""
  }

  lemma {:induction false} MergeCovers(base: map<string, string>, bindings: seq<Binding>)
    ensures Covers(Merge(base, bindings), bindings)
  {
    if bindings != [] {
      var front, last := bindings[..|bindings| - 1], bindings[|bindings| - 1];
      MergeCovers(base, front);
      assert bindings == front + [last];
    }
  }

  lemma {:induction false} MergeOfCovered(m: map<string, string>, bindings: seq<Binding>)
    requires Covers(m, bindings)
    ensures Merge(m, bindings) == m
  {
    if bindings != [] {
      var front := bindings[..|bindings| - 1];
      assert forall b | b in front :: b in bindings;
      assert bindings[|bindings| - 1] in bindings;
      MergeOfCovered(m, front);
    }
  }

  /** A node that validates names no empty channel. */
  lemma ValidNodeNamesChannels(node: Node)
    requires ValidNode(node.kind)
    ensures "" !in ChannelsOfNode(node)
  {
    if node.kind.Notification? && node.kind.notification.Some? {
      StrictMeans(node.kind.notification.value.channels);
    }
    assert TrimSpace("") == "" && Fold("") == "";
  }

  lemma NoEmptyChannel(nodes: seq<Node>)
    requires forall n | n in nodes :: ValidNode(n.kind)
    ensures "" !in ChannelsOf(nodes)
    ensures NonEmpty(ChannelsOf(nodes)) == ChannelsOf(nodes)
    ensures Named(BindingsOf(nodes)) == BindingsOf(nodes)
  {
    forall n | n in nodes
      ensures NamesAll(n)
    {
      ValidNodeNamesChannels(n);
    }
    AllNamed(nodes);
  }

  ghost predicate NamesAll(node: Node) {
    "" !in ChannelsOfNode(node)
  }

  lemma {:induction false} AllNamed(nodes: seq<Node>)
    requires forall n | n in nodes :: NamesAll(n)
    ensures "" !in ChannelsOf(nodes)
    ensures NonEmpty(ChannelsOf(nodes)) == ChannelsOf(nodes)
    ensures Named(BindingsOf(nodes)) == BindingsOf(nodes)
  {
    if nodes != [] {
      var front, last := nodes[..|nodes| - 1], nodes[|nodes| - 1];
      assert last in nodes && forall n | n in front :: n in nodes;
      AllNamed(front);
      NodeNamed(last);
      NonEmptyAppend(ChannelsOf(front), ChannelsOfNode(last));
      NamedAppend(BindingsOf(front), BindingsOfNode(last));
    }
  }

  lemma NodeNamed(node: Node)
    requires NamesAll(node)
    ensures NonEmpty(ChannelsOfNode(node)) == ChannelsOfNode(node)
    ensures Named(BindingsOfNode(node)) == BindingsOfNode(node)
  {
    NonEmptyIsAll(ChannelsOfNode(node));
    if node.kind.Notification? && node.kind.notification.Some? {
      NamedPairs(ChannelsOfNode(node), node.kind.notification.value.template.text);
    }
  }

  lemma {:induction false} NonEmptyIsAll(channels: seq<string>)
    requires "" !in channels
    ensures NonEmpty(channels) == channels
  {
    if channels != [] {
      var n := |channels| - 1;
      assert channels == channels[..n] + [channels[n]] && channels[n] in channels;
      NonEmptyIsAll(channels[..n]);
    }
  }

  /** Main result: for a row built from a validated definition, the notification service reads back
      exactly the stored channels, which are distinct, and exactly the stored template ids. */
  lemma BuiltColumnsAgree(d: Definition)
    requires Validator.WellFormed(d)
    ensures Extracted(Row(StoredChannels(d), Some(StoredTemplates(d)), Some(d.nodes))) ==
            (StoredChannels(d), StoredTemplates(d))
    ensures Distinct(StoredChannels(d))
  {
    forall n | n in d.nodes
      ensures ValidNode(n.kind)
    {
      var i :| 0 <= i < |d.nodes| && d.nodes[i] == n;
    }
    NoEmptyChannel(d.nodes);
    NothingIsAdded(ChannelsOf(d.nodes), BindingsOf(d.nodes));
  }

  /** What a list has given once it does not give again. */
  lemma NothingIsAdded(channels: seq<string>, bindings: seq<Binding>)
    ensures var stored := FirstOccurrences(channels); Extend(stored, channels) == stored && Distinct(stored)
    ensures var merged := Merge(map[], bindings); Merge(merged, bindings) == merged
  {
    ExtendByKnown(FirstOccurrences(channels), channels);
    MergeCovers(map[], bindings);
    MergeOfCovered(Merge(map[], bindings), bindings);
  }

  /** The stored channels are the channels of the definition. */
  lemma BuiltChannelsAreThose(d: Definition)
    requires Validator.WellFormed(d)
    ensures forall c :: c in StoredChannels(d) <==> c in ChannelsOf(d.nodes)
  {
    forall n | n in d.nodes
      ensures ValidNode(n.kind)
    {
      var i :| 0 <= i < |d.nodes| && d.nodes[i] == n;
    }
    NoEmptyChannel(d.nodes);
  }

  // ----- The stored columns, in terms of the nodes -----

  ghost predicate NodeNames(node: Node, channel: string) {
    && node.kind.Notification? && node.kind.notification.Some?
    && channel in node.kind.notification.value.channels
  }

  /** The node gives this template id to the channel. */
  ghost predicate NodeGives(node: Node, channel: string, text: string) {
    NodeNames(node, channel) && text == node.kind.notification.value.template.text && text != ""
  }

  lemma {:induction false} ChannelsAreNamed(nodes: seq<Node>, channel: string)
    ensures channel in ChannelsOf(nodes) <==> exists n :: n in nodes && NodeNames(n, channel)
  {
    if nodes != [] {
      var front, last := nodes[..|nodes| - 1], nodes[|nodes| - 1];
      assert nodes == front + [last];
      ChannelsAreNamed(front, channel);
      assert channel in ChannelsOfNode(last) <==> NodeNames(last, channel);
    }
  }

  /** The stored channels are the non-empty ones that some notification node names. */
  lemma StoredChannelIff(d: Definition, channel: string)
    ensures channel in StoredChannels(d) <==> channel != "" && exists n :: n in d.nodes && NodeNames(n, channel)
  {
    ChannelsAreNamed(d.nodes, channel);
  }

  ghost predicate Has(m: map<string, string>, channel: string, text: string) {
    channel in m && m[channel] == text
  }

  ghost predicate Full(m: map<string, string>, channel: string) {
    channel in m && m[channel] != ""
  }

  lemma {:induction false} MergePairs(m: map<string, string>, channels: seq<string>, text: string, c: string, t: string)
    requires t != ""
    ensures Has(Merge(m, Pair(channels, text)), c, t) <==>
            Has(m, c, t) || (!Full(m, c) && c in channels && t == text)
    ensures Full(Merge(m, Pair(channels, text)), c) <==> Full(m, c) || (c in channels && text != "")
  {
    if channels != [] {
      var n := |channels| - 1;
      MergePairs(m, channels[..n], text, c, t);
      assert Pair(channels, text)[..n] == Pair(channels[..n], text);
      assert channels == channels[..n] + [channels[n]];
    }
  }

  /** The first node that gives an id to the channel gives this one. */
  ghost predicate FirstGives(nodes: seq<Node>, i: int, channel: string, text: string) {
    && 0 <= i < |nodes| && NodeGives(nodes[i], channel, text)
    && forall j, t | 0 <= j < i :: !NodeGives(nodes[j], channel, t)
  }

  ghost predicate SomeGives(nodes: seq<Node>, channel: string) {
    exists j, t :: 0 <= j < |nodes| && NodeGives(nodes[j], channel, t)
  }

  lemma NextGives(front: seq<Node>, last: Node, channel: string, text: string)
    ensures var nodes := front + [last];
            && ((exists i :: FirstGives(nodes, i, channel, text)) <==>
                || (exists i :: FirstGives(front, i, channel, text))
                || (NodeGives(last, channel, text) && !SomeGives(front, channel)))
            && (SomeGives(nodes, channel) <==> SomeGives(front, channel) || exists t :: NodeGives(last, channel, t))
  {
    var nodes := front + [last];
    assert nodes[|front|] == last && forall j | 0 <= j < |front| :: nodes[j] == front[j];
    if i :| FirstGives(front, i, channel, text) {
      assert FirstGives(nodes, i, channel, text);
    }
    if NodeGives(last, channel, text) && !SomeGives(front, channel) {
      assert FirstGives(nodes, |front|, channel, text);
    }
    if i :| FirstGives(nodes, i, channel, text) {
      assert i < |front| ==> FirstGives(front, i, channel, text);
    }
    if j, t :| 0 <= j < |front| && NodeGives(front[j], channel, t) {
      assert NodeGives(nodes[j], channel, t);
    }
    if t :| NodeGives(last, channel, t) {
      assert NodeGives(nodes[|front|], channel, t);
    }
  }

  lemma NodeMerged(m: map<string, string>, node: Node, channel: string, text: string)
    requires text != ""
    ensures var after := Merge(m, BindingsOfNode(node));
            && (Has(after, channel, text) <==>
                Has(m, channel, text) || (!Full(m, channel) && NodeGives(node, channel, text)))
            && (Full(after, channel) <==> Full(m, channel) || exists t :: NodeGives(node, channel, t))
  {
    if node.kind.Notification? && node.kind.notification.Some? {
      var config := node.kind.notification.value;
      MergePairs(m, config.channels, config.template.text, channel, text);
      assert channel in config.channels && config.template.text != "" ==>
          NodeGives(node, channel, config.template.text);
    }
  }

  lemma {:induction false} NodesMerged(m: map<string, string>, nodes: seq<Node>, channel: string, text: string)
    requires text != ""
    ensures var after := Merge(m, BindingsOf(nodes));
            && (Has(after, channel, text) <==>
                Has(m, channel, text) || (!Full(m, channel) && exists i :: FirstGives(nodes, i, channel, text)))
            && (Full(after, channel) <==> Full(m, channel) || SomeGives(nodes, channel))
  {
    if nodes != [] {
      var front, last := nodes[..|nodes| - 1], nodes[|nodes| - 1];
      assert nodes == front + [last];
      NodesMerged(m, front, channel, text);
      NextGives(front, last, channel, text);
      MergeAppend(m, BindingsOf(front), BindingsOfNode(last));
      NodeMerged(Merge(m, BindingsOf(front)), last, channel, text);
    }
  }

  lemma {:induction false} NamedGiveTheSame(bindings: seq<Binding>, channel: string)
    requires channel != ""
    ensures var m, named := Merge(map[], bindings), Merge(map[], Named(bindings));
            (channel in m <==> channel in named) && (channel in m ==> m[channel] == named[channel])
  {
    if bindings != [] {
      var front, last := bindings[..|bindings| - 1], bindings[|bindings| - 1];
      NamedGiveTheSame(front, channel);
      OneMoreBinding(map[], Named(front), last);
      OneGivesTheSame(Merge(map[], front), Merge(map[], Named(front)), last, channel);
    }
  }

  lemma OneMoreBinding(base: map<string, string>, bindings: seq<Binding>, b: Binding)
    ensures Merge(base, bindings + [b]) == MergeOne(Merge(base, bindings), b)
  {
    assert (bindings + [b])[..|bindings|] == bindings;
  }

  lemma OneGivesTheSame(m: map<string, string>, named: map<string, string>, b: Binding, channel: string)
    requires (channel in m <==> channel in named) && (channel in m ==> m[channel] == named[channel])
    ensures var after, other := MergeOne(m, b), if b.0 != "" then MergeOne(named, b) else named;
            channel != "" ==>
              (channel in after <==> channel in other) && (channel in after ==> after[channel] == other[channel])
  {
  }

  /** The stored template id of a channel is that of the first node that gives it one. */
  lemma StoredTemplateIff(d: Definition, channel: string, text: string)
    requires channel != ""
    ensures Has(StoredTemplates(d), channel, text) <==> exists i :: FirstGives(d.nodes, i, channel, text)
  {
    NoEmptyIds(Named(BindingsOf(d.nodes)));
    NamedGiveTheSame(BindingsOf(d.nodes), channel);
    if text != "" {
      NodesMerged(map[], d.nodes, channel, text);
    }
  }

  /** The template id that is read back for a channel is the stored one, and where there is none that of the
      first node that gives it one. */
  lemma ExtractedTemplateIff(row: Row, channel: string, text: string)
    requires text != ""
    ensures var stored := if row.templates.Some? then row.templates.value else map[];
            var nodes := if row.nodes.Some? then row.nodes.value else [];
            Has(Extracted(row).1, channel, text) <==>
            Has(stored, channel, text) || (!Full(stored, channel) && exists i :: FirstGives(nodes, i, channel, text))
  {
    var stored := if row.templates.Some? then row.templates.value else map[];
    if row.nodes.Some? {
      NodesMerged(stored, row.nodes.value, channel, text);
    }
  }

  // ----- Spelling of channels -----

  lemma {:induction false} NamedChannelsAreIn(nodes: seq<Node>, ok: iset<string>)
    requires forall n | n in nodes :: ChannelsAreIn(n, ok)
    ensures forall c | c in ChannelsOf(nodes) :: c in ok
  {
    if nodes != [] {
      var front, last := nodes[..|nodes| - 1], nodes[|nodes| - 1];
      assert last in nodes && forall n | n in front :: n in nodes;
      NamedChannelsAreIn(front, ok);
    }
  }

  ghost predicate ChannelsAreIn(node: Node, ok: iset<string>) {
    forall c | c in ChannelsOfNode(node) :: c in ok
  }

  lemma NodeChannelsFold(node: Node)
    requires ValidNode(node.kind)
    ensures forall c | c in ChannelsOfNode(node) :: Fold(c) in KNOWN
  {
    if node.kind.Notification? && node.kind.notification.Some? {
      StrictMeans(node.kind.notification.value.channels);
    }
  }

  /** The validator folds the channels that a node names, but they are stored as they are spelled. So all
      stored channels of a validated definition are known ones if and only if each is spelled in its
      normal form. */
  lemma StoredAreKnownIff(d: Definition)
    requires Validator.WellFormed(d)
    ensures (forall c | c in StoredChannels(d) :: c in KNOWN) <==> forall c | c in ChannelsOf(d.nodes) :: Fold(c) == c
  {
    forall n | n in d.nodes
      ensures ValidNode(n.kind)
    {
      var i :| 0 <= i < |d.nodes| && d.nodes[i] == n;
    }
    BuiltChannelsAreThose(d);
    var ok := iset c | Fold(c) in KNOWN;
    forall n | n in d.nodes
      ensures ChannelsAreIn(n, ok)
    {
      NodeChannelsFold(n);
    }
    NamedChannelsAreIn(d.nodes, ok);
    forall c | c in ChannelsOf(d.nodes)
      ensures c in KNOWN <==> Fold(c) == c
    {
      if c in KNOWN {
        FoldOfKnown(c);
      }
    }
  }

  function Capitals(): Definition {
    Definition("signup", [Node("a", Notification(Some(NotificationConfig(TemplateId("", None), ["Email"]))))], [])
  }

  lemma CapitalsFold()
    ensures Fold("Email") == "email" && TrimSpace("signup") == "signup" && TrimSpace("a") == "a" && TrimSpace("") == ""
  {
    TrimmedIff("Email");
    TrimmedIff("signup");
    TrimmedIff("a");
    assert ToLower("Email") == "email";
  }

  lemma CapitalsAreStrict()
    ensures Strict(["Email"]) == Some(["email"])
  {
    CapitalsFold();
    assert Folded(["Email"]) == ["email"];
    assert ["email"][..0] == [] && FirstOccurrences(["email"][..0]) == [];
    assert FirstOccurrences(["email"]) == ["email"];
  }

  lemma NothingIsAcyclic()
    ensures !Graphs.Cyclic(Validator.Adjacency([]))
  {
    Graphs.RankedIsAcyclic(map[], map[]);
  }

  /** A validated definition with a stored channel that is not a known one. */
  lemma CapitalsAreStored()
    ensures Validator.WellFormed(Capitals()) && "Email" in StoredChannels(Capitals()) && "Email" !in KNOWN
  {
    CapitalsValidate();
    OnlyNode(Capitals(), Capitals().nodes[0], "Email");
    CapitalsAreUnknown();
  }

  lemma CapitalsAreUnknown()
    ensures "Email" !in KNOWN
  {
    assert "Email"[0] == 'E';
  }

  lemma OnlyNode(d: Definition, node: Node, channel: string)
    requires Validator.WellFormed(d) && d.nodes == [node] && channel in ChannelsOfNode(node)
    ensures channel in StoredChannels(d)
  {
    assert ChannelsOf([node][..0]) == [] && [] + ChannelsOfNode(node) == ChannelsOfNode(node);
    BuiltChannelsAreThose(d);
  }

  lemma CapitalsValidate()
    ensures Validator.WellFormed(Capitals())
  {
    CapitalsFold();
    CapitalsAreStrict();
    NothingIsAcyclic();
  }
}
