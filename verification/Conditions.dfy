/** Condition steps: lookupField and evaluateCondition. */
module Conditions {
  import opened Wrappers
  import opened Text
  import opened Definitions

  /** strings.Split(s, "."): always at least one part. */
  function Split(s: string): (parts: seq<string>)
    ensures parts != []
  {
    if s == "" then [""]
    else
      var parts := Split(s[1..]);
      if s[0] == '.' then [""] + parts else [[s[0]] + parts[0]] + parts[1..]
  }

  function Join(parts: seq<string>): string
    requires parts != []
  {
    if |parts| == 1 then parts[0] else parts[0] + "." + Join(parts[1..])
  }

  /** Splitting loses nothing, and no part has a dot left in it. */
  lemma {:induction false} SplitJoin(s: string)
    ensures Join(Split(s)) == s
    ensures forall part | part in Split(s) :: '.' !in part
  {
    if s != "" {
      SplitJoin(s[1..]);
      if s[0] == '.' {
        JoinOpened(Split(s[1..]));
      } else {
        JoinGrown(s[0], Split(s[1..]));
      }
      assert s == [s[0]] + s[1..];
    }
  }

  lemma JoinOpened(parts: seq<string>)
    requires parts != []
    ensures Join([""] + parts) == "." + Join(parts)
  {
    assert ([""] + parts)[1..] == parts;
    assert "" + "." == ".";
  }

  lemma JoinGrown(c: char, parts: seq<string>)
    requires parts != []
    ensures Join([[c] + parts[0]] + parts[1..]) == [c] + Join(parts)
  {
    assert ([[c] + parts[0]] + parts[1..])[1..] == parts[1..];
    if |parts| > 1 {
      assert ([c] + parts[0]) + "." + Join(parts[1..]) == [c] + (parts[0] + "." + Join(parts[1..]));
    }
  }

  /** The value at the end of a path of field names. */
  function Lookup(value: Json, path: seq<string>): Option<Json> {
    if path == [] then Some(value)
    else if value.Object? && path[0] in value.fields then Lookup(value.fields[path[0]], path[1..])
    else None
  }

  ghost predicate Opens(value: Json, name: string, field: Json) {
    value.Object? && name in value.fields && value.fields[name] == field
  }

  /** A walk from `value` to `found` that opens one object for each name of the path. */
  ghost predicate Leads(chain: seq<Json>, value: Json, path: seq<string>, found: Json) {
    && |chain| == |path| + 1 && chain[0] == value && chain[|path|] == found
    && forall i, j | 0 <= i < |path| && j == i + 1 :: Opens(chain[i], path[i], chain[j])
  }

  ghost predicate Reaches(value: Json, path: seq<string>, found: Json) {
    exists chain :: Leads(chain, value, path, found)
  }

  lemma {:induction false} WalkOf(value: Json, path: seq<string>) returns (chain: seq<Json>)
    requires Lookup(value, path).Some?
    ensures Leads(chain, value, path, Lookup(value, path).value)
  {
    chain := [value];
    if path != [] {
      var rest := WalkOf(value.fields[path[0]], path[1..]);
      chain := [value] + rest;
      forall i, j | 0 <= i < |path| && j == i + 1
        ensures Opens(chain[i], path[i], chain[j])
      {
        if i > 0 {
          assert Opens(rest[i - 1], path[1..][i - 1], rest[j - 1]);
        }
      }
    }
  }

  lemma {:induction false} WalkIsLookup(chain: seq<Json>, value: Json, path: seq<string>, found: Json)
    requires Leads(chain, value, path, found)
    ensures Lookup(value, path) == Some(found)
  {
    if path != [] {
      assert Opens(chain[0], path[0], chain[1]);
      forall i, j | 0 <= i < |path[1..]| && j == i + 1
        ensures Opens(chain[1..][i], path[1..][i], chain[1..][j])
      {
        assert Opens(chain[j], path[j], chain[j + 1]);
      }
      WalkIsLookup(chain[1..], chain[1], path[1..], found);
    }
  }

  lemma LookupIff(value: Json, path: seq<string>)
    ensures Lookup(value, path).Some? ==> Reaches(value, path, Lookup(value, path).value)
    ensures forall found :: Reaches(value, path, found) ==> Lookup(value, path) == Some(found)
  {
    if Lookup(value, path).Some? {
      var chain := WalkOf(value, path);
    }
    forall found | Reaches(value, path, found)
      ensures Lookup(value, path) == Some(found)
    {
      var chain :| Leads(chain, value, path, found);
      WalkIsLookup(chain, value, path, found);
    }
  }

  /** lookupField */
  method LookupField(payload: map<string, Json>, field: string) returns (r: Option<Json>)
    ensures r == Lookup(Object("", payload), Split(TrimSpace(field)))
  {
    var current := Object("", payload);
    var parts := Split(TrimSpace(field));
    for i := 0 to |parts|
      invariant Lookup(Object("", payload), parts) == Lookup(current, parts[i..])
    {
      assert parts[i..][0] == parts[i] && parts[i..][1..] == parts[i + 1..];
      if !current.Object? {
        return None;
      }
      if parts[i] !in current.fields {
        return None;
      }
      current := current.fields[parts[i]];
    }
    return Some(current);
  }

  /** strings.Contains */
  predicate Contains(s: string, part: string) {
    part <= s || (s != "" && Contains(s[1..], part))
  }

  /** evaluateCondition on a decoded payload; None for an operator it does not know. */
  function Holds(payload: map<string, Json>, config: ConditionConfig): Option<bool> {
    var found := Lookup(Object("", payload), Split(TrimSpace(config.field)));
    var operator := Fold(config.operator);
    if operator == "exists" then Some(found.Some?)
    else if operator == "equals" then Some(found.Some? && found.value.text == config.value)
    else if operator == "not_equals" then Some(found.None? || found.value.text != config.value)
    else if operator == "contains" then
      Some(found.Some? && Contains(ToLower(found.value.text), ToLower(config.value)))
    else None
  }

  ghost predicate HasPart(s: string, part: string) {
    exists i, j :: 0 <= i <= j <= |s| && s[i..j] == part
  }

  lemma {:induction false} ContainsIff(s: string, part: string)
    ensures Contains(s, part) <==> HasPart(s, part)
  {
    if part <= s {
      assert s[0..|part|] == part;
    } else if s != "" {
      ContainsIff(s[1..], part);
      if HasPart(s[1..], part) {
        var i, j :| 0 <= i <= j <= |s[1..]| && s[1..][i..j] == part;
        assert s[i + 1..j + 1] == part;
      }
      if HasPart(s, part) {
        var i, j :| 0 <= i <= j <= |s| && s[i..j] == part;
        assert i > 0;
        assert s[1..][i - 1..j - 1] == part;
      }
    }
  }

  /** What each operator asks of the value that the dotted path leads to, if it leads to any. */
  lemma HoldsMeans(payload: map<string, Json>, config: ConditionConfig)
    ensures var root, path, operator := Object("", payload), Split(TrimSpace(config.field)), Fold(config.operator);
            && (operator == "exists" ==> (Holds(payload, config) == Some(exists v :: Reaches(root, path, v))))
            && (operator == "equals" ==>
                  (Holds(payload, config) == Some(exists v :: Reaches(root, path, v) && v.text == config.value)))
            && (operator == "not_equals" ==>
                  (Holds(payload, config) == Some(forall v | Reaches(root, path, v) :: v.text != config.value)))
            && (operator == "contains" ==>
                  (Holds(payload, config) ==
                   Some(exists v :: Reaches(root, path, v) && HasPart(ToLower(v.text), ToLower(config.value)))))
  {
    var root, path := Object("", payload), Split(TrimSpace(config.field));
    LookupIff(root, path);
    if Lookup(root, path).Some? {
      ContainsIff(ToLower(Lookup(root, path).value.text), ToLower(config.value));
    }
  }

  /** The operators that the validator lets through are exactly those that can be evaluated. */
  lemma EvaluableIffAllowed(payload: map<string, Json>, config: ConditionConfig)
    ensures Holds(payload, config).Some? <==> Fold(config.operator) in OPERATORS
  {
  }

  /** "equals" and "not_equals" are each other's negation, also for a missing field, and a field
      that equals a value contains it. */
  lemma OperatorLaws(payload: map<string, Json>, equal: ConditionConfig)
    requires Fold(equal.operator) == "equals"
    ensures Fold("not_equals") == "not_equals" && Fold("contains") == "contains"
    ensures Holds(payload, equal.(operator := "not_equals")) == Some(!Holds(payload, equal).value)
    ensures Holds(payload, equal).value ==> Holds(payload, equal.(operator := "contains")) == Some(true)
  {
    TrimmedIff("not_equals");
    TrimmedIff("contains");
    assert ToLower("not_equals") == "not_equals";
    assert ToLower("contains") == "contains";
    if Holds(payload, equal).value {
      assert ToLower(equal.value) <= ToLower(equal.value);
    }
  }
}
