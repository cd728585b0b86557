/** The two channel normalisers, one in the workflow service and one in the notification service. */
module Channels {
  import opened Wrappers
  import opened Text

  const KNOWN: set<string> := {"email", "sms", "push"}

  ghost predicate Distinct<T>(s: seq<T>) {
    forall i, j | 0 <= i < j < |s| :: s[i] != s[j]
  }

  lemma DistinctFront<T>(s: seq<T>)
    requires Distinct(s) && s != []
    ensures Distinct(s[..|s| - 1]) && s[|s| - 1] !in s[..|s| - 1]
  {
  }

  /** The elements of `s` without repetitions, in the order in which they first occur. */
  function FirstOccurrences<T(==, !new)>(s: seq<T>): (r: seq<T>)
    ensures forall x :: x in r <==> x in s
    ensures Distinct(r)
  {
    if s == [] then []
    else
      var last := s[|s| - 1];
      var r := FirstOccurrences(s[..|s| - 1]);
      assert s == s[..|s| - 1] + [last];
      if last in r then r else r + [last]
  }

  lemma {:induction false} FirstOccurrencesOfDistinct<T(!new)>(s: seq<T>)
    requires Distinct(s)
    ensures FirstOccurrences(s) == s
  {
    if s != [] {
      FirstOccurrencesOfDistinct(s[..|s| - 1]);
    }
  }

  /** Of two elements the one that occurs first comes first. */
  lemma {:induction false} OccurrencesInOrder<T(!new)>(s: seq<T>, i: nat, j: nat) returns (p: nat)
    requires i < j < |FirstOccurrences(s)|
    ensures p < |s| && s[p] == FirstOccurrences(s)[i] && FirstOccurrences(s)[j] !in s[..p]
  {
    var n := |s| - 1;
    var r, front := FirstOccurrences(s), FirstOccurrences(s[..n]);
    if j < |front| {
      p := OccurrencesInOrder(s[..n], i, j);
      assert s[..n][..p] == s[..p];
    } else {
      assert r[i] == front[i] && front[i] in front;
      p :| 0 <= p < n && s[..n][p] == r[i];
      assert forall x | x in s[..p] :: x in s[..n];
    }
  }

  lemma NextOccurrence<T(!new)>(s: seq<T>, x: T)
    ensures FirstOccurrences(s + [x]) ==
            if x in FirstOccurrences(s) then FirstOccurrences(s) else FirstOccurrences(s) + [x]
  {
    assert (s + [x])[..|s|] == s;
  }

  function Folded(channels: seq<string>): (r: seq<string>)
    ensures |r| == |channels| && forall i | 0 <= i < |r| :: r[i] == Fold(channels[i])
  {
    seq(|channels|, i requires 0 <= i < |channels| => Fold(channels[i]))
  }

  /** The elements that are in `known`. */
  function Keep<T(==, !new)>(s: seq<T>, known: set<T>): (r: seq<T>)
    ensures forall x :: x in r <==> x in s && x in known
  {
    if s == [] then []
    else
      var last := s[|s| - 1];
      var r := Keep(s[..|s| - 1], known);
      assert s == s[..|s| - 1] + [last];
      if last in known then r + [last] else r
  }

  lemma NextKept<T(!new)>(s: seq<T>, x: T, known: set<T>)
    ensures Keep(s + [x], known) == if x in known then Keep(s, known) + [x] else Keep(s, known)
  {
    assert (s + [x])[..|s|] == s;
  }

  lemma {:induction false} KeepAll<T(!new)>(s: seq<T>, known: set<T>)
    ensures Keep(s, known) == s <==> forall x | x in s :: x in known
    ensures |Keep(s, known)| <= |s|
  {
    if s != [] {
      var front, last := s[..|s| - 1], s[|s| - 1];
      KeepAll(front, known);
      assert s == front + [last] && last in s;
      NextKept(front, last, known);
    }
  }

  /** A non-empty list of known elements, and nothing else, without repetitions. */
  function StrictIn<T(==, !new)>(s: seq<T>, known: set<T>): Option<seq<T>> {
    if s != [] && forall x | x in s :: x in known then Some(FirstOccurrences(s)) else None
  }

  /** What the workflow module accepts: a non-empty list of known channels, and nothing else. */
  function Strict(channels: seq<string>): Option<seq<string>> {
    StrictIn(Folded(channels), KNOWN)
  }

  /** What the notification module makes of a list: unknown entries are dropped. */
  function Lenient(channels: seq<string>): seq<string> {
    FirstOccurrences(Keep(Folded(channels), KNOWN))
  }

  // ----- The loops -----

  /** One more channel for either version. */
  lemma NextFolded(folded: seq<string>, i: nat, known: set<string>)
    requires i < |folded|
    ensures FirstOccurrences(folded[..i + 1]) ==
            var r := FirstOccurrences(folded[..i]); if folded[i] in r then r else r + [folded[i]]
    ensures FirstOccurrences(Keep(folded[..i + 1], known)) ==
            var r := FirstOccurrences(Keep(folded[..i], known));
            if folded[i] in known && folded[i] !in r then r + [folded[i]] else r
  {
    assert folded[..i + 1] == folded[..i] + [folded[i]];
    NextOccurrence(folded[..i], folded[i]);
    NextKept(folded[..i], folded[i], known);
    NextOccurrence(Keep(folded[..i], known), folded[i]);
  }

  /** The end of both loop bodies: a channel is added unless it has been seen. */
  method Collect(result: seq<string>, seen: set<string>, channel: string) returns (r: seq<string>, s: set<string>)
    requires seen == set c | c in result
    ensures r == if channel in result then result else result + [channel]
    ensures s == set c | c in r
  {
    r, s := result, seen;
    if channel !in seen {
      r, s := result + [channel], seen + {channel};
    }
  }

  lemma RefusedIn(s: seq<string>, i: nat, known: set<string>)
    requires i < |s| && s[i] !in known
    ensures StrictIn(s, known) == None
  {
    assert s[i] in s;
  }

  ghost predicate Accepts(s: seq<string>, i: nat, known: set<string>) {
    i <= |s| && forall j | 0 <= j < i :: s[j] in known
  }

  lemma AcceptedIn(s: seq<string>, known: set<string>)
    requires Accepts(s, |s|, known)
    ensures StrictIn(s, known) == if FirstOccurrences(s) == [] then None else Some(FirstOccurrences(s))
  {
    if s != [] {
      assert s[0] in s && s[0] in FirstOccurrences(s);
    }
  }

  method CollectStrict(channels: seq<string>, known: set<string>) returns (r: Option<seq<string>>)
    ensures r == StrictIn(Folded(channels), known)
  {
    var seen: set<string> := {};
    var result: seq<string> := [];
    ghost var folded := Folded(channels);
    for i := 0 to |channels|
      invariant Accepts(folded, i, known)
      invariant result == FirstOccurrences(folded[..i])
      invariant seen == set c | c in result
    {
      var normalized := Fold(channels[i]);
      assert normalized == folded[i];
      if normalized !in known {
        RefusedIn(folded, i, known);
        return None;
      }
      NextFolded(folded, i, known);
      result, seen := Collect(result, seen, normalized);
    }
    assert folded[..|channels|] == folded;
    AcceptedIn(folded, known);
    if |result| == 0 {
      return None;
    }
    return Some(result);
  }

  /** normalizeChannels of the workflow service. */
  method NormalizeStrict(channels: seq<string>) returns (r: Option<seq<string>>)
    ensures r == Strict(channels)
  {
    if |channels| == 0 {
      assert Folded(channels) == [];
      return None;
    }
    r := CollectStrict(channels, KNOWN);
  }

  method CollectLenient(channels: seq<string>, known: set<string>) returns (result: seq<string>)
    ensures result == FirstOccurrences(Keep(Folded(channels), known))
  {
    var seen: set<string> := {};
    result := [];
    ghost var folded := Folded(channels);
    for i := 0 to |channels|
      invariant result == FirstOccurrences(Keep(folded[..i], known))
      invariant seen == set c | c in result
    {
      var normalized := Fold(channels[i]);
      assert normalized == folded[i];
      NextFolded(folded, i, known);
      if normalized !in known {
        continue;
      }
      result, seen := Collect(result, seen, normalized);
    }
    assert folded[..|channels|] == folded;
  }

  /** normalizeChannels of the notification service. */
  method NormalizeLenient(channels: seq<string>) returns (result: seq<string>)
    ensures result == Lenient(channels)
  {
    result := CollectLenient(channels, KNOWN);
  }

  // ----- The two versions agree -----

  lemma FoldOfKnown(c: string)
    requires c in KNOWN
    ensures Fold(c) == c
  {
    TrimmedIff(c);
    assert ToLower(c) == c;
  }

  lemma FoldedOfKnown(s: seq<string>)
    requires forall c | c in s :: c in KNOWN
    ensures Folded(s) == s
  {
    forall i | 0 <= i < |s|
      ensures Folded(s)[i] == s[i]
    {
      FoldOfKnown(s[i]);
    }
  }

  lemma StrictMeans(channels: seq<string>)
    ensures Strict(channels).Some? <==> channels != [] && forall c | c in channels :: Fold(c) in KNOWN
  {
    var folded, known := Folded(channels), KNOWN;
    forall c | c in channels
      ensures Fold(c) in folded
    {
      var i :| 0 <= i < |channels| && channels[i] == c;
      assert folded[i] == Fold(c);
    }
    if forall c | c in channels :: Fold(c) in known {
      forall f | f in folded
        ensures f in known
      {
        var i :| 0 <= i < |folded| && folded[i] == f;
        assert channels[i] in channels;
      }
    }
  }

  lemma AgreeIn(s: seq<string>, known: set<string>)
    ensures StrictIn(s, known).Some? ==> StrictIn(s, known).value == FirstOccurrences(Keep(s, known))
    ensures StrictIn(s, known).Some? <==> s != [] && Keep(s, known) == s
  {
    KeepAll(s, known);
  }

  /** The strict version accepts a list exactly when the lenient one drops nothing from it,
      and then the two agree. */
  lemma NormalisersAgree(channels: seq<string>)
    ensures Strict(channels).Some? ==> Strict(channels).value == Lenient(channels)
    ensures Strict(channels).Some? <==> channels != [] && Keep(Folded(channels), KNOWN) == Folded(channels)
  {
    AgreeIn(Folded(channels), KNOWN);
  }

  lemma StableIn(s: seq<string>, known: set<string>)
    ensures var r := FirstOccurrences(Keep(s, known));
            && (forall c | c in r :: c in known)
            && FirstOccurrences(Keep(r, known)) == r
            && (r != [] ==> StrictIn(r, known) == Some(r))
    ensures StrictIn(s, known).Some? ==> FirstOccurrences(Keep(s, known)) != []
  {
    var r := FirstOccurrences(Keep(s, known));
    KeepAll(r, known);
    FirstOccurrencesOfDistinct(r);
    if StrictIn(s, known).Some? {
      assert s[0] in s && s[0] in r;
    }
  }

  /** Both give distinct lower-case known channels, and neither changes its own result. */
  lemma NormalisedIsStable(channels: seq<string>)
    ensures Distinct(Lenient(channels)) && forall c | c in Lenient(channels) :: c in KNOWN
    ensures Lenient(Lenient(channels)) == Lenient(channels)
    ensures Strict(channels).Some? ==> Strict(Strict(channels).value) == Strict(channels)
  {
    StableIn(Folded(channels), KNOWN);
    FoldedOfKnown(Lenient(channels));
    NormalisersAgree(channels);
  }
}
