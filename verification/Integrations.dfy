/** The provider rows of an environment and channel: which one is active, which one is primary. */
module Integrations {
  import opened Wrappers
  import opened Text

  type Uuid = nat

  datatype Row = Row(id: Uuid, environment: Uuid, channel: string, name: string, isActive: bool, isPrimary: bool)

  /** The integrations table, oldest row first. */
  type Table = seq<Row>

  predicate Belongs(row: Row, environment: Uuid, channel: string) {
    row.environment == environment && row.channel == channel
  }

  // ----- The statements -----

  function Filter(rows: Table, environment: Uuid, channel: string, primary: bool): (r: Table)
    ensures forall row :: row in r <==> row in rows && Belongs(row, environment, channel) && row.isPrimary == primary
  {
    if rows == [] then []
    else
      var tail := Filter(rows[1..], environment, channel, primary);
      assert rows == [rows[0]] + rows[1..];
      if Belongs(rows[0], environment, channel) && rows[0].isPrimary == primary then [rows[0]] + tail else tail
  }

  /** ListIntegrationsByChannel: primary rows first, and oldest first among equals. */
  function ListByChannel(rows: Table, environment: Uuid, channel: string): Table {
    Filter(rows, environment, channel, true) + Filter(rows, environment, channel, false)
  }

  /** UpdateIntegrationState: the row with this id, if any. */
  function SetState(rows: Table, id: Uuid, environment: Uuid, isActive: bool, isPrimary: bool): (r: Table)
    ensures |r| == |rows|
    ensures forall i | 0 <= i < |rows| ::
              r[i] == if rows[i].id == id && rows[i].environment == environment
                      then rows[i].(isActive := isActive, isPrimary := isPrimary) else rows[i]
  {
    seq(|rows|, i requires 0 <= i < |rows| =>
      if rows[i].id == id && rows[i].environment == environment
      then rows[i].(isActive := isActive, isPrimary := isPrimary) else rows[i])
  }

  /** ClearIntegrationPrimaryByChannel */
  function ClearPrimary(rows: Table, environment: Uuid, channel: string): (r: Table)
    ensures |r| == |rows|
    ensures forall i | 0 <= i < |rows| ::
              r[i] == if Belongs(rows[i], environment, channel) then rows[i].(isPrimary := false) else rows[i]
  {
    seq(|rows|, i requires 0 <= i < |rows| =>
      if Belongs(rows[i], environment, channel) then rows[i].(isPrimary := false) else rows[i])
  }

  /** UpdateIntegration: name and channel; the flags stay. */
  function SetChannel(rows: Table, id: Uuid, environment: Uuid, name: string, channel: string): (r: Table)
    ensures |r| == |rows|
    ensures forall i | 0 <= i < |rows| ::
              r[i] == if rows[i].id == id && rows[i].environment == environment
                      then rows[i].(name := name, channel := channel) else rows[i]
  {
    seq(|rows|, i requires 0 <= i < |rows| =>
      if rows[i].id == id && rows[i].environment == environment
      then rows[i].(name := name, channel := channel) else rows[i])
  }

  /** DeleteIntegration */
  function Remove(rows: Table, id: Uuid, environment: Uuid): (r: Table)
    ensures forall row :: row in r <==> row in rows && !(row.id == id && row.environment == environment)
  {
    if rows == [] then []
    else
      var tail := Remove(rows[1..], id, environment);
      assert rows == [rows[0]] + rows[1..];
      if rows[0].id == id && rows[0].environment == environment then tail else [rows[0]] + tail
  }

  function Find(rows: Table, id: Uuid, environment: Uuid): (r: Option<Row>)
    ensures r.Some? ==> r.value in rows && r.value.id == id && r.value.environment == environment
    ensures r.None? ==> forall row | row in rows :: !(row.id == id && row.environment == environment)
  {
    if rows == [] then None
    else if rows[0].id == id && rows[0].environment == environment then Some(rows[0])
    else Find(rows[1..], id, environment)
  }

  // ----- The constraints of the table -----

  /** The primary key and UNIQUE (environment_id, name) */
  predicate KeysOk(rows: Table) {
    forall i, j | 0 <= i < j < |rows| ::
      rows[i].id != rows[j].id && !(rows[i].environment == rows[j].environment && rows[i].name == rows[j].name)
  }

  predicate PrimariesDistinct(rows: Table) {
    forall i, j | 0 <= i < j < |rows| ::
      !(rows[i].isPrimary && rows[j].isPrimary && Belongs(rows[j], rows[i].environment, rows[i].channel))
  }

  /** integrations_primary_requires_active and idx_integrations_primary_per_channel */
  predicate PrimaryOk(rows: Table) {
    && (forall i | 0 <= i < |rows| :: rows[i].isPrimary ==> rows[i].isActive)
    && PrimariesDistinct(rows)
  }

  /** What the database accepts as the table after a statement. */
  predicate Accepted(rows: Table) {
    KeysOk(rows) && PrimaryOk(rows)
  }

  // ----- The service calls, as functions on the table -----

  /** The built-in providers and their channels (providers.NewCatalog). */
  const CATALOG: map<string, string> := map[
    "sendgrid" := "email", "brevo" := "email", "brevo-sms" := "sms", "smtp" := "email", "termii" := "sms",
    "twilio" := "sms", "fcm" := "push", "webpush" := "push", "demo-email" := "email", "demo-sms" := "sms"]

  /** The names of the runtime providers (registry.NewDefault). */
  const REGISTRY: set<string> := {"smtp", "sendgrid", "brevo", "brevo-sms", "termii", "twilio", "fcm", "webpush",
                                  "demo-email", "demo-sms"}

  /** prepareProviderInput, as far as names go. */
  predicate Supported(name: string, channel: string) {
    Fold(name) in CATALOG && CATALOG[Fold(name)] == Fold(channel)
  }

  datatype Op =
    | Create(id: Uuid, environment: Uuid, name: string, channel: string)
    | Enable(id: Uuid, environment: Uuid)
    | Disable(id: Uuid, environment: Uuid)
    | SetPrimary(id: Uuid, environment: Uuid)
    | Delete(id: Uuid, environment: Uuid)
    | Update(id: Uuid, environment: Uuid, name: string, channel: string)

  /** The first active row of a list other than `id`. */
  function FirstActive(list: Table, id: Uuid): (r: Option<Row>)
    ensures r.Some? ==> r.value in list && r.value.isActive && r.value.id != id
    ensures r.None? ==> forall row | row in list :: row.id == id || !row.isActive
  {
    if list == [] then None
    else if list[0].id != id && list[0].isActive then Some(list[0])
    else FirstActive(list[1..], id)
  }

  predicate HasActive(list: Table) {
    exists row :: row in list && row.isActive
  }

  function Promoted(rows: Table, p: Row): Table {
    SetState(ClearPrimary(rows, p.environment, p.channel), p.id, p.environment, true, true)
  }

  function Created(rows: Table, id: Uuid, environment: Uuid, name: string, channel: string): Table {
    var first := !HasActive(ListByChannel(rows, environment, channel));
    rows + [Row(id, environment, channel, name, first, first)]
  }

  /** The table after a call; None if the call is refused, and then the table is as before. The
      constraints are consulted for Create and Update only: the other calls never meet them. */
  function Apply(rows: Table, op: Op): Option<Table> {
    match op
    case Create(id, environment, name, channel) =>
      var next := Created(rows, id, environment, Fold(name), Fold(channel));
      if Supported(name, channel) && Accepted(next) then Some(next) else None
    case Enable(id, environment) =>
      var p := Find(rows, id, environment);
      if p.None? then None else Some(SetState(rows, id, environment, true, p.value.isPrimary))
    case Disable(id, environment) =>
      var p := Find(rows, id, environment);
      if p.None? then None
      else if !p.value.isPrimary then Some(SetState(rows, id, environment, false, false))
      else
        var fallback := FirstActive(ListByChannel(rows, environment, p.value.channel), id);
        if fallback.None? then None
        else Some(SetState(Promoted(rows, fallback.value), id, environment, false, false))
    case SetPrimary(id, environment) =>
      var p := Find(rows, id, environment);
      if p.None? then None else Some(Promoted(rows, p.value))
    case Delete(id, environment) => Some(Remove(rows, id, environment))
    case Update(id, environment, name, channel) =>
      var next := SetChannel(rows, id, environment, Fold(name), Fold(channel));
      if Find(rows, id, environment).Some? && Supported(name, channel) && Accepted(next) then Some(next) else None
  }

  function AfterOp(rows: Table, op: Op): Table {
    if Apply(rows, op).Some? then Apply(rows, op).value else rows
  }

  // ----- What the statements keep -----

  /** Every environment and channel with an integration has a primary one. */
  ghost predicate HasPrimaries(rows: Table) {
    forall i | 0 <= i < |rows| :: HasPrimary(rows, rows[i].environment, rows[i].channel)
  }

  ghost predicate HasPrimary(rows: Table, environment: Uuid, channel: string) {
    exists k :: 0 <= k < |rows| && rows[k].isPrimary && Belongs(rows[k], environment, channel)
  }

  /** Every row has the channel of its provider. */
  ghost predicate CatalogOk(rows: Table) {
    forall i | 0 <= i < |rows| :: rows[i].name in CATALOG && CATALOG[rows[i].name] == rows[i].channel
  }

  lemma FoundAt(rows: Table, id: Uuid, environment: Uuid) returns (i: nat)
    requires KeysOk(rows) && Find(rows, id, environment).Some?
    ensures i < |rows| && rows[i] == Find(rows, id, environment).value
    ensures forall j | 0 <= j < |rows| && rows[j].id == id :: j == i
  {
    var p := Find(rows, id, environment).value;
    i :| 0 <= i < |rows| && rows[i] == p;
  }

  /** With unique ids, a state update changes one row. */
  lemma SetStateAt(rows: Table, i: nat, active: bool, primary: bool)
    requires KeysOk(rows) && i < |rows|
    ensures SetState(rows, rows[i].id, rows[i].environment, active, primary) ==
            rows[i := rows[i].(isActive := active, isPrimary := primary)]
  {
  }

  /** New flags for one row are accepted if the row becomes primary only where no other row is. */
  lemma FlagsAccepted(rows: Table, i: nat, active: bool, primary: bool)
    requires Accepted(rows) && i < |rows|
    requires primary ==> active
    requires primary ==> forall j | 0 <= j < |rows| && j != i ::
               !(rows[j].isPrimary && Belongs(rows[j], rows[i].environment, rows[i].channel))
    ensures Accepted(rows[i := rows[i].(isActive := active, isPrimary := primary)])
  {
    var next := rows[i := rows[i].(isActive := active, isPrimary := primary)];
    assert forall j | 0 <= j < |rows| ::
        next[j].id == rows[j].id && next[j].environment == rows[j].environment && next[j].name == rows[j].name;
    assert KeysOk(next);
    assert PrimariesDistinct(next);
  }

  /** If primaries stay primary and rows stay where they are, no channel loses its primary. */
  lemma SamePrimaries(rows: Table, next: Table)
    requires HasPrimaries(rows) && |next| == |rows|
    requires forall i | 0 <= i < |rows| :: Belongs(next[i], rows[i].environment, rows[i].channel)
    requires forall i | 0 <= i < |rows| :: rows[i].isPrimary ==> next[i].isPrimary
    ensures HasPrimaries(next)
  {
    forall i | 0 <= i < |next|
      ensures HasPrimary(next, next[i].environment, next[i].channel)
    {
      assert HasPrimary(rows, rows[i].environment, rows[i].channel);
      var k :| 0 <= k < |rows| && rows[k].isPrimary && Belongs(rows[k], rows[i].environment, rows[i].channel);
      assert next[k].isPrimary && Belongs(next[k], next[i].environment, next[i].channel);
    }
  }

  lemma ClearKeeps(rows: Table, environment: Uuid, channel: string)
    requires Accepted(rows)
    ensures Accepted(ClearPrimary(rows, environment, channel))
  {
  }

  /** Making a row the primary of its channel, after clearing the channel: both statements are
      accepted, the row is then primary and active, and the others of the channel are not primary. */
  lemma PromotedIs(rows: Table, i: nat)
    requires Accepted(rows) && i < |rows|
    ensures var cleared := ClearPrimary(rows, rows[i].environment, rows[i].channel);
            && Accepted(cleared)
            && Promoted(rows, rows[i]) == cleared[i := rows[i].(isActive := true, isPrimary := true)]
            && Accepted(Promoted(rows, rows[i]))
  {
    var cleared := ClearPrimary(rows, rows[i].environment, rows[i].channel);
    ClearKeeps(rows, rows[i].environment, rows[i].channel);
    SetStateAt(cleared, i, true, true);
    FlagsAccepted(cleared, i, true, true);
  }

  lemma PromotedHasPrimaries(rows: Table, i: nat)
    requires Accepted(rows) && i < |rows| && HasPrimaries(rows)
    ensures HasPrimaries(Promoted(rows, rows[i]))
  {
    PromotedIs(rows, i);
    var next := Promoted(rows, rows[i]);
    forall j | 0 <= j < |next|
      ensures HasPrimary(next, next[j].environment, next[j].channel)
    {
      if Belongs(rows[j], rows[i].environment, rows[i].channel) {
        assert next[i].isPrimary && Belongs(next[i], next[j].environment, next[j].channel);
      } else {
        assert HasPrimary(rows, rows[j].environment, rows[j].channel);
        var k :| 0 <= k < |rows| && rows[k].isPrimary && Belongs(rows[k], rows[j].environment, rows[j].channel);
        assert next[k].isPrimary && Belongs(next[k], next[j].environment, next[j].channel);
      }
    }
  }

  // ----- What the calls keep -----

  lemma EnableKeeps(rows: Table, i: nat)
    requires Accepted(rows) && i < |rows|
    ensures var next := SetState(rows, rows[i].id, rows[i].environment, true, rows[i].isPrimary);
            Accepted(next) && (HasPrimaries(rows) ==> HasPrimaries(next))
  {
    SetStateAt(rows, i, true, rows[i].isPrimary);
    FlagsAccepted(rows, i, true, rows[i].isPrimary);
    if HasPrimaries(rows) {
      SamePrimaries(rows, SetState(rows, rows[i].id, rows[i].environment, true, rows[i].isPrimary));
    }
  }

  lemma DeactivateKeeps(rows: Table, i: nat)
    requires Accepted(rows) && i < |rows| && !rows[i].isPrimary
    ensures var next := SetState(rows, rows[i].id, rows[i].environment, false, false);
            Accepted(next) && (HasPrimaries(rows) ==> HasPrimaries(next))
  {
    SetStateAt(rows, i, false, false);
    FlagsAccepted(rows, i, false, false);
    if HasPrimaries(rows) {
      SamePrimaries(rows, SetState(rows, rows[i].id, rows[i].environment, false, false));
    }
  }

  /** Handing the primary flag from one row to another of its channel, then switching the first off. */
  lemma HandOverKeeps(rows: Table, i: nat, k: nat)
    requires Accepted(rows) && i < |rows| && k < |rows| && i != k
    requires Belongs(rows[k], rows[i].environment, rows[i].channel)
    ensures Accepted(Promoted(rows, rows[k]))
    ensures var next := SetState(Promoted(rows, rows[k]), rows[i].id, rows[i].environment, false, false);
            && Accepted(next) && (HasPrimaries(rows) ==> HasPrimaries(next))
            && next == ClearPrimary(rows, rows[i].environment, rows[i].channel)
                         [k := rows[k].(isActive := true, isPrimary := true)]
                         [i := rows[i].(isActive := false, isPrimary := false)]
  {
    PromotedIs(rows, k);
    var middle := Promoted(rows, rows[k]);
    DeactivateKeeps(middle, i);
    SetStateAt(middle, i, false, false);
    if HasPrimaries(rows) {
      PromotedHasPrimaries(rows, k);
    }
  }

  lemma FallbackAt(rows: Table, i: nat) returns (k: nat)
    requires KeysOk(rows) && i < |rows|
    requires FirstActive(ListByChannel(rows, rows[i].environment, rows[i].channel), rows[i].id).Some?
    ensures k < |rows| && k != i && rows[k].isActive && Belongs(rows[k], rows[i].environment, rows[i].channel)
    ensures rows[k] == FirstActive(ListByChannel(rows, rows[i].environment, rows[i].channel), rows[i].id).value
  {
    var row := FirstActive(ListByChannel(rows, rows[i].environment, rows[i].channel), rows[i].id).value;
    k :| 0 <= k < |rows| && rows[k] == row;
  }

  lemma FallbackIsAccepted(rows: Table, i: nat)
    requires Accepted(rows) && i < |rows|
    requires FirstActive(ListByChannel(rows, rows[i].environment, rows[i].channel), rows[i].id).Some?
    ensures var p := FirstActive(ListByChannel(rows, rows[i].environment, rows[i].channel), rows[i].id).value;
            && Belongs(p, rows[i].environment, rows[i].channel)
            && Accepted(ClearPrimary(rows, p.environment, p.channel)) && Accepted(Promoted(rows, p))
  {
    var k := FallbackAt(rows, i);
    PromotedIs(rows, k);
  }

  lemma CreateKeeps(rows: Table, id: Uuid, environment: Uuid, name: string, channel: string)
    requires HasPrimaries(rows) && PrimaryOk(rows)
    ensures HasPrimaries(Created(rows, id, environment, name, channel))
  {
    var next := Created(rows, id, environment, name, channel);
    var list := ListByChannel(rows, environment, channel);
    forall i | 0 <= i < |next|
      ensures HasPrimary(next, next[i].environment, next[i].channel)
    {
      if i < |rows| {
        assert HasPrimary(rows, rows[i].environment, rows[i].channel);
        var k :| 0 <= k < |rows| && rows[k].isPrimary && Belongs(rows[k], rows[i].environment, rows[i].channel);
        assert next[k] == rows[k];
      } else if HasActive(list) {
        var row :| row in list && row.isActive;
        var j :| 0 <= j < |rows| && rows[j] == row;
        assert HasPrimary(rows, rows[j].environment, rows[j].channel);
        var k :| 0 <= k < |rows| && rows[k].isPrimary && Belongs(rows[k], rows[j].environment, rows[j].channel);
        assert next[k] == rows[k];
      } else {
        assert next[i].isPrimary;
      }
    }
  }

  predicate Managed(op: Op) {
    op.Create? || op.Enable? || op.Disable? || op.SetPrimary?
  }

  /** The calls that the dashboard offers besides deletion and renaming keep every channel's primary. */
  lemma ManagedOpKeeps(rows: Table, op: Op)
    requires Accepted(rows) && Managed(op)
    ensures Accepted(AfterOp(rows, op))
    ensures HasPrimaries(rows) ==> HasPrimaries(AfterOp(rows, op))
  {
    if Apply(rows, op).Some? {
      match op
      case Create(id, environment, name, channel) =>
        if HasPrimaries(rows) {
          CreateKeeps(rows, id, environment, Fold(name), Fold(channel));
        }
      case Enable(id, environment) =>
        var i := FoundAt(rows, id, environment);
        EnableKeeps(rows, i);
      case Disable(id, environment) =>
        var i := FoundAt(rows, id, environment);
        if rows[i].isPrimary {
          var k := FallbackAt(rows, i);
          HandOverKeeps(rows, i, k);
        } else {
          DeactivateKeeps(rows, i);
        }
      case SetPrimary(id, environment) =>
        var i := FoundAt(rows, id, environment);
        PromotedIs(rows, i);
        if HasPrimaries(rows) {
          PromotedHasPrimaries(rows, i);
        }
    }
  }

  lemma {:induction false} RemoveKeeps(rows: Table, id: Uuid, environment: Uuid)
    requires Accepted(rows)
    ensures Accepted(Remove(rows, id, environment))
  {
    if rows != [] {
      var tail := rows[1..];
      assert forall i | 0 <= i < |tail| :: tail[i] == rows[i + 1];
      RemoveKeeps(tail, id, environment);
      var rest := Remove(tail, id, environment);
      var next := Remove(rows, id, environment);
      forall row | row in rest
        ensures Fits(rows[0], row)
      {
        assert row in tail;
        var k :| 0 <= k < |tail| && tail[k] == row;
        assert rows[k + 1] == row;
      }
      if next != rest {
        FrontFits(rows[0], rest);
      }
    }
  }

  /** The constraints on two rows. */
  ghost predicate Fits(a: Row, b: Row) {
    && a.id != b.id && !(a.environment == b.environment && a.name == b.name)
    && !(a.isPrimary && b.isPrimary && Belongs(b, a.environment, a.channel))
  }

  lemma FrontFits(row: Row, rest: Table)
    requires Accepted(rest) && (row.isPrimary ==> row.isActive) && forall r | r in rest :: Fits(row, r)
    ensures Accepted([row] + rest)
  {
    var rows := [row] + rest;
    forall i, j | 0 <= i < j < |rows|
      ensures Fits(rows[i], rows[j])
    {
      assert rows[j] == rest[j - 1] && rest[j - 1] in rest;
      if i > 0 {
        assert rows[i] == rest[i - 1];
      }
    }
  }

  lemma {:induction false} RemoveCatalog(rows: Table, id: Uuid, environment: Uuid)
    requires CatalogOk(rows)
    ensures CatalogOk(Remove(rows, id, environment))
  {
    var next := Remove(rows, id, environment);
    forall i | 0 <= i < |next|
      ensures next[i].name in CATALOG && CATALOG[next[i].name] == next[i].channel
    {
      assert next[i] in rows;
    }
  }

  ghost predicate Good(rows: Table) {
    Accepted(rows) && CatalogOk(rows)
  }

  lemma StatesKeepCatalog(rows: Table, id: Uuid, environment: Uuid, active: bool, primary: bool)
    requires CatalogOk(rows)
    ensures CatalogOk(SetState(rows, id, environment, active, primary))
  {
  }

  lemma PromotedKeepsCatalog(rows: Table, p: Row)
    requires CatalogOk(rows)
    ensures CatalogOk(Promoted(rows, p))
  {
    var cleared := ClearPrimary(rows, p.environment, p.channel);
    assert CatalogOk(cleared);
    StatesKeepCatalog(cleared, p.id, p.environment, true, true);
  }

  lemma OpKeepsCatalog(rows: Table, op: Op)
    requires CatalogOk(rows) && Apply(rows, op).Some?
    ensures CatalogOk(AfterOp(rows, op))
  {
    match op
    case Create(id, environment, name, channel) =>
    case Enable(id, environment) =>
      StatesKeepCatalog(rows, id, environment, true, Find(rows, id, environment).value.isPrimary);
    case Disable(id, environment) =>
      var p := Find(rows, id, environment).value;
      if p.isPrimary {
        var fallback := FirstActive(ListByChannel(rows, environment, p.channel), id).value;
        PromotedKeepsCatalog(rows, fallback);
        StatesKeepCatalog(Promoted(rows, fallback), id, environment, false, false);
      } else {
        StatesKeepCatalog(rows, id, environment, false, false);
      }
    case SetPrimary(id, environment) =>
      PromotedKeepsCatalog(rows, Find(rows, id, environment).value);
    case Delete(id, environment) =>
      RemoveCatalog(rows, id, environment);
    case Update(id, environment, name, channel) =>
  }

  lemma OpKeepsGood(rows: Table, op: Op)
    requires Good(rows)
    ensures Good(AfterOp(rows, op))
  {
    if Apply(rows, op).Some? {
      OpKeepsCatalog(rows, op);
      if op.Delete? {
        RemoveKeeps(rows, op.id, op.environment);
      } else if !op.Update? {
        ManagedOpKeeps(rows, op);
      }
    }
  }

  function After(rows: Table, ops: seq<Op>): Table
    decreases |ops|
  {
    if ops == [] then rows else After(AfterOp(rows, ops[0]), ops[1..])
  }

  /** Main result: from an empty table on, whatever calls are made, no channel ever has two primary
      rows, a primary row is active, and a row has the channel of its provider; and as long as rows
      are only created, enabled, disabled and made primary, every channel with an integration has a
      primary one. */
  lemma {:induction false} RunsKeepPrimaries(rows: Table, ops: seq<Op>)
    requires Good(rows) && HasPrimaries(rows)
    ensures Good(After(rows, ops))
    ensures (forall op | op in ops :: Managed(op)) ==> HasPrimaries(After(rows, ops))
    decreases |ops|
  {
    if ops != [] {
      OpKeepsGood(rows, ops[0]);
      if forall op | op in ops :: Managed(op) {
        assert ops[0] in ops && forall op | op in ops[1..] :: op in ops;
        ManagedOpKeeps(rows, ops[0]);
        RunsKeepPrimaries(AfterOp(rows, ops[0]), ops[1..]);
      } else {
        RunsKeepGood(AfterOp(rows, ops[0]), ops[1..]);
      }
    }
  }

  lemma {:induction false} RunsKeepGood(rows: Table, ops: seq<Op>)
    requires Good(rows)
    ensures Good(After(rows, ops))
    decreases |ops|
  {
    if ops != [] {
      OpKeepsGood(rows, ops[0]);
      RunsKeepGood(AfterOp(rows, ops[0]), ops[1..]);
    }
  }

  /** Another row of the same channel. */
  ghost predicate Sibling(rows: Table, i: nat, j: nat)
    requires i < |rows|
  {
    j < |rows| && j != i && Belongs(rows[j], rows[i].environment, rows[i].channel)
  }

  lemma {:induction false} RemoveAt(rows: Table, i: nat)
    requires KeysOk(rows) && i < |rows|
    ensures Remove(rows, rows[i].id, rows[i].environment) == rows[..i] + rows[i + 1..]
  {
    var tail := rows[1..];
    assert forall j | 0 <= j < |tail| :: tail[j] == rows[j + 1];
    if i == 0 {
      RemoveAbsent(tail, rows[0].id, rows[0].environment);
    } else {
      RemoveAt(tail, i - 1);
      CutBehindHead(rows, i);
    }
  }

  lemma CutBehindHead(rows: Table, i: nat)
    requires 0 < i < |rows|
    ensures [rows[0]] + (rows[1..][..i - 1] + rows[1..][i..]) == rows[..i] + rows[i + 1..]
  {
  }

  lemma {:induction false} RemoveAbsent(rows: Table, id: Uuid, environment: Uuid)
    requires forall j | 0 <= j < |rows| :: rows[j].id != id
    ensures Remove(rows, id, environment) == rows
  {
    if rows != [] {
      RemoveAbsent(rows[1..], id, environment);
    }
  }

  lemma DeletedPrimaryIsMissed(rows: Table, i: nat, j: nat)
    requires PrimariesDistinct(rows) && i < |rows| && rows[i].isPrimary && Sibling(rows, i, j)
    ensures !HasPrimaries(rows[..i] + rows[i + 1..])
  {
    var next := rows[..i] + rows[i + 1..];
    var n := if j < i then j else j - 1;
    assert next[n] == rows[j];
    assert forall m | 0 <= m < |next| :: next[m] == rows[if m < i then m else m + 1];
    assert !HasPrimary(next, next[n].environment, next[n].channel);
  }

  lemma OtherDeletionsAreNot(rows: Table, i: nat)
    requires HasPrimaries(rows) && i < |rows|
    requires rows[i].isPrimary ==> forall j: nat :: !Sibling(rows, i, j)
    ensures HasPrimaries(rows[..i] + rows[i + 1..])
  {
    var next := rows[..i] + rows[i + 1..];
    forall n | 0 <= n < |next|
      ensures HasPrimary(next, next[n].environment, next[n].channel)
    {
      var j := if n < i then n else n + 1;
      assert next[n] == rows[j];
      assert HasPrimary(rows, rows[j].environment, rows[j].channel);
      var k :| 0 <= k < |rows| && rows[k].isPrimary && Belongs(rows[k], rows[j].environment, rows[j].channel);
      assert k == i ==> Sibling(rows, i, j);
      assert next[if k < i then k else k - 1] == rows[k];
    }
  }

  /** Deleting a row leaves every channel its primary exactly when the row was not the primary of a
      channel that has other rows: nothing is promoted in its place. */
  lemma DeleteKeepsPrimariesIff(rows: Table, i: nat)
    requires Good(rows) && HasPrimaries(rows) && i < |rows|
    ensures HasPrimaries(Remove(rows, rows[i].id, rows[i].environment)) <==>
            !(rows[i].isPrimary && exists j: nat :: Sibling(rows, i, j))
  {
    RemoveAt(rows, i);
    if rows[i].isPrimary && exists j: nat :: Sibling(rows, i, j) {
      var j: nat :| Sibling(rows, i, j);
      DeletedPrimaryIsMissed(rows, i, j);
    } else {
      OtherDeletionsAreNot(rows, i);
    }
  }

  /** An update that leaves the channel as it is leaves every channel its primary. */
  lemma UpdateInPlaceKeeps(rows: Table, i: nat, name: string, channel: string)
    requires Good(rows) && HasPrimaries(rows) && i < |rows|
    requires Fold(channel) == rows[i].channel
    ensures HasPrimaries(AfterOp(rows, Update(rows[i].id, rows[i].environment, name, channel)))
  {
    var next := SetChannel(rows, rows[i].id, rows[i].environment, Fold(name), Fold(channel));
    assert forall j | 0 <= j < |rows| && j != i :: next[j] == rows[j];
    SamePrimaries(rows, next);
  }

  /** An update that moves a row to another channel, and is accepted, leaves every channel its primary
      exactly if a primary row leaves no other row behind, and any other row joins some row there: the
      flag moves along with the row and is neither handed on nor given. */
  lemma MoveKeepsPrimariesIff(rows: Table, i: nat, name: string, channel: string)
    requires Good(rows) && HasPrimaries(rows) && i < |rows| && Fold(channel) != rows[i].channel
    requires Apply(rows, Update(rows[i].id, rows[i].environment, name, channel)).Some?
    ensures HasPrimaries(AfterOp(rows, Update(rows[i].id, rows[i].environment, name, channel))) <==>
            if rows[i].isPrimary then forall j: nat :: !Sibling(rows, i, j)
            else exists j: nat :: j < |rows| && Belongs(rows[j], rows[i].environment, Fold(channel))
  {
    var id, environment := rows[i].id, rows[i].environment;
    UpdatedIs(rows, id, environment, name, channel);
    MovedIff(rows, i, Fold(name), Fold(channel));
  }

  lemma UpdatedIs(rows: Table, id: Uuid, environment: Uuid, name: string, channel: string)
    requires Apply(rows, Update(id, environment, name, channel)).Some?
    ensures AfterOp(rows, Update(id, environment, name, channel)) ==
            SetChannel(rows, id, environment, Fold(name), Fold(channel))
  {
  }

  lemma MovedIff(rows: Table, i: nat, name: string, channel: string)
    requires Good(rows) && HasPrimaries(rows) && i < |rows| && channel != rows[i].channel
    ensures HasPrimaries(SetChannel(rows, rows[i].id, rows[i].environment, name, channel)) <==>
            if rows[i].isPrimary then forall j: nat :: !Sibling(rows, i, j)
            else exists j: nat :: j < |rows| && Belongs(rows[j], rows[i].environment, channel)
  {
    var next := rows[i := rows[i].(name := name, channel := channel)];
    assert SetChannel(rows, rows[i].id, rows[i].environment, name, channel) == next;
    if rows[i].isPrimary {
      if j: nat :| Sibling(rows, i, j) {
        assert next[j] == rows[j];
        assert !HasPrimary(next, next[j].environment, next[j].channel);
      } else {
        MoveKeeps(rows, i, next);
      }
    } else if j: nat :| j < |rows| && Belongs(rows[j], rows[i].environment, channel) {
      assert HasPrimary(rows, rows[j].environment, rows[j].channel);
      MoveKeeps(rows, i, next);
    } else {
      assert !HasPrimary(next, next[i].environment, next[i].channel);
    }
  }

  lemma MoveKeeps(rows: Table, i: nat, next: Table)
    requires HasPrimaries(rows) && i < |rows| && |next| == |rows|
    requires forall n | 0 <= n < |rows| && n != i :: next[n] == rows[n]
    requires next[i].environment == rows[i].environment && next[i].channel != rows[i].channel
    requires next[i].isPrimary == rows[i].isPrimary
    requires if rows[i].isPrimary then forall j: nat :: !Sibling(rows, i, j)
             else HasPrimary(rows, rows[i].environment, next[i].channel)
    ensures HasPrimaries(next)
  {
    forall n: nat | n < |next|
      ensures HasPrimary(next, next[n].environment, next[n].channel)
    {
      if n == i && rows[i].isPrimary {
        assert Belongs(next[i], next[n].environment, next[n].channel);
      } else {
        assert HasPrimary(rows, next[n].environment, next[n].channel);
        var k :| 0 <= k < |rows| && rows[k].isPrimary && Belongs(rows[k], next[n].environment, next[n].channel);
        assert k == i ==> Sibling(rows, i, n);
        assert next[k] == rows[k];
      }
    }
  }

  // ----- Calls that leave a channel without a primary -----

  lemma FoldedLiterals()
    ensures Fold("smtp") == "smtp" && Fold("sendgrid") == "sendgrid" && Fold("twilio") == "twilio"
    ensures Fold("email") == "email" && Fold("sms") == "sms"
  {
    TrimmedIff("smtp");
    TrimmedIff("sendgrid");
    TrimmedIff("twilio");
    TrimmedIff("email");
    TrimmedIff("sms");
    assert ToLower("smtp") == "smtp" && ToLower("sendgrid") == "sendgrid" && ToLower("twilio") == "twilio";
    assert ToLower("email") == "email" && ToLower("sms") == "sms";
  }

  lemma Takes(rows: Table, op: Op, next: Table)
    requires op.Create? || op.Update?
    requires Fold(op.name) == op.name && Fold(op.channel) == op.channel
    requires op.name in CATALOG && CATALOG[op.name] == op.channel && Accepted(next)
    requires op.Create? ==> next == Created(rows, op.id, op.environment, op.name, op.channel)
    requires op.Update? ==>
      && Find(rows, op.id, op.environment).Some?
      && next == SetChannel(rows, op.id, op.environment, op.name, op.channel)
    ensures AfterOp(rows, op) == next
  {
  }

  lemma PairAccepted(a: Row, b: Row)
    requires a.id != b.id && a.name != b.name && a.isActive && !b.isPrimary
    ensures Accepted([a, b]) && Accepted([a])
  {
  }

  function Smtp(environment: Uuid): Row {
    Row(1, environment, "email", "smtp", true, true)
  }

  function Sendgrid(environment: Uuid): Row {
    Row(2, environment, "email", "sendgrid", true, false)
  }

  function TwoEmailRows(environment: Uuid): seq<Op> {
    [Create(1, environment, "smtp", "email"), Create(2, environment, "sendgrid", "email"), Enable(2, environment)]
  }

  lemma {:induction false} AfterMore(rows: Table, ops: seq<Op>, op: Op)
    ensures After(rows, ops + [op]) == AfterOp(After(rows, ops), op)
    decreases |ops|
  {
    if ops == [] {
      assert ops + [op] == [op] && [op][1..] == [];
    } else {
      assert (ops + [op])[1..] == ops[1..] + [op];
      AfterMore(AfterOp(rows, ops[0]), ops[1..], op);
    }
  }

  lemma EnablesSecond(a: Row, b: Row)
    requires a.id != b.id
    ensures AfterOp([a, b], Enable(b.id, b.environment)) == [a, b.(isActive := true)]
  {
    assert [a, b][1..] == [b];
  }

  function Fresh(environment: Uuid): Row {
    Sendgrid(environment).(isActive := false)
  }

  lemma FirstEmailRow(environment: Uuid)
    ensures AfterOp([], Create(1, environment, "smtp", "email")) == [Smtp(environment)]
  {
    FoldedLiterals();
    PairAccepted(Smtp(environment), Fresh(environment));
    Takes([], Create(1, environment, "smtp", "email"), [Smtp(environment)]);
  }

  lemma SecondEmailRow(environment: Uuid)
    ensures AfterOp([Smtp(environment)], Create(2, environment, "sendgrid", "email")) ==
            [Smtp(environment), Fresh(environment)]
  {
    FoldedLiterals();
    PairAccepted(Smtp(environment), Fresh(environment));
    assert Smtp(environment) in ListByChannel([Smtp(environment)], environment, "email");
    Takes([Smtp(environment)], Create(2, environment, "sendgrid", "email"), [Smtp(environment), Fresh(environment)]);
  }

  lemma ThreeOps(a: Op, b: Op, c: Op)
    ensures After([], [a, b, c]) == AfterOp(AfterOp(AfterOp([], a), b), c)
  {
    AfterMore([], [], a);
    AfterMore([], [a], b);
    AfterMore([], [a, b], c);
    assert [] + [a] == [a] && [a] + [b] == [a, b] && [a, b] + [c] == [a, b, c];
  }

  lemma TwoEmailRowsAre(environment: Uuid)
    ensures After([], TwoEmailRows(environment)) == [Smtp(environment), Sendgrid(environment)]
  {
    FirstEmailRow(environment);
    SecondEmailRow(environment);
    EnablesSecond(Smtp(environment), Fresh(environment));
    var ops := TwoEmailRows(environment);
    ThreeOps(ops[0], ops[1], ops[2]);
  }

  /** A reachable table with an active row but no primary one: the primary row is deleted. */
  lemma DeletionCanLeaveNoPrimary(environment: Uuid)
    ensures var rows := After([], TwoEmailRows(environment) + [Delete(1, environment)]);
            rows == [Sendgrid(environment)] && !HasPrimaries(rows)
  {
    var rows := [Smtp(environment), Sendgrid(environment)];
    TwoEmailRowsAre(environment);
    AfterMore([], TwoEmailRows(environment), Delete(1, environment));
    assert rows[1..] == [Sendgrid(environment)] && rows[1..][1..] == [];
    assert Remove(rows[1..], 1, environment) == [Sendgrid(environment)];
    assert !HasPrimary([Sendgrid(environment)], environment, "email");
    assert [Sendgrid(environment)][0] == Sendgrid(environment);
  }

  lemma MovesToSms(environment: Uuid)
    ensures AfterOp([Smtp(environment), Sendgrid(environment)], Update(1, environment, "twilio", "sms")) ==
            [Row(1, environment, "sms", "twilio", true, true), Sendgrid(environment)]
  {
    var before, moved := [Smtp(environment), Sendgrid(environment)], Row(1, environment, "sms", "twilio", true, true);
    FoldedLiterals();
    assert SetChannel(before, 1, environment, "twilio", "sms") == [moved, Sendgrid(environment)];
    PairAccepted(moved, Sendgrid(environment));
    Takes(before, Update(1, environment, "twilio", "sms"), [moved, Sendgrid(environment)]);
  }

  lemma SecondHasNoPrimary(a: Row, b: Row)
    requires a.channel != b.channel && !b.isPrimary
    ensures !HasPrimaries([a, b])
  {
    assert [a, b][1] == b && !HasPrimary([a, b], b.environment, b.channel);
  }

  /** Another one: the primary row is moved to another channel. */
  lemma MoveCanLeaveNoPrimary(environment: Uuid)
    ensures var rows := After([], TwoEmailRows(environment) + [Update(1, environment, "twilio", "sms")]);
            && rows == [Row(1, environment, "sms", "twilio", true, true), Sendgrid(environment)]
            && !HasPrimaries(rows)
  {
    TwoEmailRowsAre(environment);
    AfterMore([], TwoEmailRows(environment), Update(1, environment, "twilio", "sms"));
    MovesToSms(environment);
    SecondHasNoPrimary(Row(1, environment, "sms", "twilio", true, true), Sendgrid(environment));
  }

  /** In a good table an insertion is refused exactly when its id or, in its environment, its name is
      taken: the flags that Create chooses never break a constraint. */
  lemma CreateAcceptedIff(rows: Table, id: Uuid, environment: Uuid, name: string, channel: string)
    requires Good(rows)
    ensures Accepted(Created(rows, id, environment, name, channel)) <==>
            forall i | 0 <= i < |rows| ::
              rows[i].id != id && !(rows[i].environment == environment && rows[i].name == name)
  {
    var list := ListByChannel(rows, environment, channel);
    var row := Row(id, environment, channel, name, !HasActive(list), !HasActive(list));
    forall i | 0 <= i < |rows| && row.isPrimary && Belongs(rows[i], environment, channel)
      ensures !rows[i].isPrimary
    {
      assert rows[i] in list;
    }
    AppendAccepted(rows, row);
  }

  lemma AppendAccepted(rows: Table, row: Row)
    requires Accepted(rows) && (row.isPrimary ==> row.isActive)
    requires forall i | 0 <= i < |rows| && row.isPrimary && Belongs(rows[i], row.environment, row.channel) ::
               !rows[i].isPrimary
    ensures Accepted(rows + [row]) <==>
            forall i | 0 <= i < |rows| ::
              rows[i].id != row.id && !(rows[i].environment == row.environment && rows[i].name == row.name)
  {
    var next := rows + [row];
    assert next[|rows|] == row && forall i | 0 <= i < |rows| :: next[i] == rows[i];
  }

  /** An update is refused exactly when another row of the environment has the new name, or when the
      row is a primary one and moves to a channel that has one already. */
  lemma UpdateAcceptedIff(rows: Table, i: nat, name: string, channel: string)
    requires Good(rows) && i < |rows|
    ensures Accepted(SetChannel(rows, rows[i].id, rows[i].environment, name, channel)) <==>
            forall j | 0 <= j < |rows| && j != i && rows[j].environment == rows[i].environment ::
              rows[j].name != name && !(rows[i].isPrimary && rows[j].isPrimary && rows[j].channel == channel)
  {
    var next := SetChannel(rows, rows[i].id, rows[i].environment, name, channel);
    assert next == rows[i := rows[i].(name := name, channel := channel)];
    forall j | 0 <= j < |rows| && j != i && rows[j].environment == rows[i].environment &&
               (rows[j].name == name || (rows[i].isPrimary && rows[j].isPrimary && rows[j].channel == channel))
      ensures !Accepted(next)
    {
      assert next[j] == rows[j];
      var a, b := if i < j then i else j, if i < j then j else i;
      assert !Accepted(next) by {
        assert next[a].environment == next[b].environment;
      }
    }
  }

  // ----- Which row delivery uses -----

  lemma {:induction false} FilterHead(rows: Table, i: nat, primary: bool)
    requires i < |rows| && rows[i].isPrimary == primary
    requires forall j | 0 <= j < i ::
               !(Belongs(rows[j], rows[i].environment, rows[i].channel) && rows[j].isPrimary == primary)
    ensures Filter(rows, rows[i].environment, rows[i].channel, primary) ==
            [rows[i]] + Filter(rows[i + 1..], rows[i].environment, rows[i].channel, primary)
  {
    if i > 0 {
      assert rows[1..][i - 1] == rows[i] && rows[1..][i..] == rows[i + 1..];
      assert forall j | 0 <= j < i - 1 :: rows[1..][j] == rows[j + 1];
      FilterHead(rows[1..], i - 1, primary);
    }
  }

  /** The list of a channel starts with its primary row. */
  lemma PrimaryComesFirst(rows: Table, i: nat)
    requires PrimaryOk(rows) && i < |rows| && rows[i].isPrimary
    ensures var list := ListByChannel(rows, rows[i].environment, rows[i].channel);
            list != [] && list[0] == rows[i]
  {
    FilterHead(rows, i, true);
  }

  /** The first row of a list that is active and whose provider is registered. */
  function FirstUsable(list: Table, registered: set<string>): (r: Option<Row>)
    ensures r.Some? ==> r.value in list && r.value.isActive && r.value.name in registered
    ensures r.None? ==> forall row | row in list :: !(row.isActive && row.name in registered)
  {
    if list == [] then None
    else if list[0].isActive && list[0].name in registered then Some(list[0])
    else FirstUsable(list[1..], registered)
  }

  lemma {:induction false} FirstUsableIs(list: Table, registered: set<string>) returns (i: nat)
    requires FirstUsable(list, registered).Some?
    ensures i < |list| && FirstUsable(list, registered) == Some(list[i])
    ensures list[i].isActive && list[i].name in registered
    ensures forall j | 0 <= j < i :: !(list[j].isActive && list[j].name in registered)
  {
    i := 0;
    if !(list[0].isActive && list[0].name in registered) {
      i := FirstUsableIs(list[1..], registered);
      i := i + 1;
    }
  }

  /** The selection loop of deliverProjectChannel. */
  method PickProvider(list: Table, registered: set<string>) returns (provider: Option<Row>)
    ensures provider == FirstUsable(list, registered)
    ensures provider.None? <==> forall i | 0 <= i < |list| :: !(list[i].isActive && list[i].name in registered)
    ensures provider.Some? ==> exists i ::
      && 0 <= i < |list| && provider.value == list[i] && list[i].isActive && list[i].name in registered
      && forall j | 0 <= j < i :: !(list[j].isActive && list[j].name in registered)
  {
    for i := 0 to |list|
      invariant FirstUsable(list, registered) == FirstUsable(list[i..], registered)
      invariant forall j | 0 <= j < i :: !(list[j].isActive && list[j].name in registered)
    {
      assert list[i..][0] == list[i] && list[i..][1..] == list[i + 1..];
      if !list[i].isActive {
        continue;
      }
      if list[i].name in registered {
        return Some(list[i]);
      }
    }
    return None;
  }

  /** Main result: in every state that the service can bring about, delivery over a channel that has a
      primary row uses exactly that row, and over a channel without active rows none. */
  lemma DeliveryUsesThePrimary(ops: seq<Op>, environment: Uuid, channel: string)
    ensures var rows := After([], ops);
            var picked := FirstUsable(ListByChannel(rows, environment, channel), REGISTRY);
            && (forall i | 0 <= i < |rows| && rows[i].isPrimary && Belongs(rows[i], environment, channel) ::
                  picked == Some(rows[i]))
            && (picked.None? <==> forall row | row in rows && Belongs(row, environment, channel) :: !row.isActive)
  {
    RunsKeepGood([], ops);
    var rows := After([], ops);
    var list := ListByChannel(rows, environment, channel);
    assert CATALOG.Keys == REGISTRY;
    forall row | row in rows
      ensures row.name in REGISTRY
    {
      var i :| 0 <= i < |rows| && rows[i] == row;
    }
    forall i | 0 <= i < |rows| && rows[i].isPrimary && Belongs(rows[i], environment, channel)
      ensures FirstUsable(list, REGISTRY) == Some(rows[i])
    {
      PrimaryComesFirst(rows, i);
      assert rows[i] in rows;
    }
    assert forall row | row in rows && Belongs(row, environment, channel) :: row in list;
  }

  /** Disabling a primary row is refused exactly when its channel has no other active row. */
  lemma DisableRefusedIff(rows: Table, i: nat)
    requires Good(rows) && i < |rows| && rows[i].isPrimary
    ensures Apply(rows, Disable(rows[i].id, rows[i].environment)).None? <==>
            forall j: nat | Sibling(rows, i, j) :: !rows[j].isActive
  {
    var id, environment, channel := rows[i].id, rows[i].environment, rows[i].channel;
    var list := ListByChannel(rows, environment, channel);
    var found := FoundAt(rows, id, environment);
    var fallback := FirstActive(list, id);
    forall j: nat | Sibling(rows, i, j) && rows[j].isActive
      ensures fallback.Some?
    {
      assert rows[j] in list;
    }
    if fallback.Some? {
      var k := FallbackAt(rows, i);
      assert Sibling(rows, i, k);
    }
  }

  /** Otherwise the oldest other active row becomes the primary one, and nothing else changes. */
  lemma DisablePromotesOldest(rows: Table, i: nat, o: nat)
    requires Good(rows) && i < |rows| && rows[i].isPrimary
    requires Sibling(rows, i, o) && rows[o].isActive
    requires forall j: nat | j < o && Sibling(rows, i, j) :: !rows[j].isActive
    ensures Apply(rows, Disable(rows[i].id, rows[i].environment)) ==
            Some(rows[i := rows[i].(isActive := false, isPrimary := false)][o := rows[o].(isPrimary := true)])
  {
    var id, environment := rows[i].id, rows[i].environment;
    var found := FoundAt(rows, id, environment);
    OldestActive(rows, o, i, id);
    HandOverIs(rows, i, o);
  }

  lemma HandOverIs(rows: Table, i: nat, o: nat)
    requires Accepted(rows) && i < |rows| && rows[i].isPrimary && Sibling(rows, i, o) && rows[o].isActive
    ensures SetState(Promoted(rows, rows[o]), rows[i].id, rows[i].environment, false, false) ==
            rows[i := rows[i].(isActive := false, isPrimary := false)][o := rows[o].(isPrimary := true)]
  {
    HandOverKeeps(rows, i, o);
    ClearedIs(rows, i);
    assert rows[o].(isActive := true, isPrimary := true) == rows[o].(isPrimary := true);
  }

  lemma ClearedIs(rows: Table, i: nat)
    requires PrimariesDistinct(rows) && i < |rows| && rows[i].isPrimary
    ensures ClearPrimary(rows, rows[i].environment, rows[i].channel) == rows[i := rows[i].(isPrimary := false)]
  {
  }

  /** Among the rows that are not primary the list keeps the order of the table. */
  lemma {:induction false} FilterFirstActive(rows: Table, o: nat, id: Uuid)
    requires o < |rows| && rows[o].id != id && rows[o].isActive && !rows[o].isPrimary
    requires forall j | 0 <= j < o && rows[j].id != id && rows[j].isActive ::
               !Belongs(rows[j], rows[o].environment, rows[o].channel)
    ensures FirstActive(Filter(rows, rows[o].environment, rows[o].channel, false), id) == Some(rows[o])
  {
    if o > 0 {
      assert rows[1..][o - 1] == rows[o];
      assert forall j | 0 <= j < o - 1 :: rows[1..][j] == rows[j + 1];
      FilterFirstActive(rows[1..], o - 1, id);
      var list := Filter(rows, rows[o].environment, rows[o].channel, false);
      var tail := Filter(rows[1..], rows[o].environment, rows[o].channel, false);
      assert list == tail || (list == [rows[0]] + tail && list[1..] == tail);
    }
  }

  lemma {:induction false} FilterOnlyOne(rows: Table, i: nat)
    requires PrimaryOk(rows) && i < |rows| && rows[i].isPrimary
    ensures Filter(rows, rows[i].environment, rows[i].channel, true) == [rows[i]]
  {
    FilterHead(rows, i, true);
    FilterNone(rows[i + 1..], rows[i].environment, rows[i].channel, true);
  }

  lemma {:induction false} FilterNone(rows: Table, environment: Uuid, channel: string, primary: bool)
    requires forall k | 0 <= k < |rows| :: !(Belongs(rows[k], environment, channel) && rows[k].isPrimary == primary)
    ensures Filter(rows, environment, channel, primary) == []
  {
    if rows != [] {
      FilterNone(rows[1..], environment, channel, primary);
    }
  }

  lemma OldestActive(rows: Table, o: nat, i: nat, id: Uuid)
    requires Good(rows) && i < |rows| && rows[i].isPrimary && rows[i].id == id
    requires o < |rows| && o != i && rows[o].isActive && Belongs(rows[o], rows[i].environment, rows[i].channel)
    requires forall j: nat | j < o && Sibling(rows, i, j) :: !rows[j].isActive
    ensures FirstActive(ListByChannel(rows, rows[i].environment, rows[i].channel), id) == Some(rows[o])
  {
    FilterOnlyOne(rows, i);
    forall j | 0 <= j < o && rows[j].id != id && rows[j].isActive
      ensures !Belongs(rows[j], rows[o].environment, rows[o].channel)
    {
      assert !Sibling(rows, i, j);
    }
    FilterFirstActive(rows, o, id);
    var others := Filter(rows, rows[i].environment, rows[i].channel, false);
    assert ([rows[i]] + others)[1..] == others;
  }

  // ----- What the calls do to the rows, one by one -----

  ghost predicate IsRow(rows: Table, i: nat, id: Uuid, environment: Uuid) {
    i < |rows| && rows[i].id == id && rows[i].environment == environment
  }

  /** The oldest other active row of the channel. */
  ghost predicate IsHeir(rows: Table, i: nat, o: nat)
    requires i < |rows|
  {
    Sibling(rows, i, o) && rows[o].isActive && forall j: nat | j < o && Sibling(rows, i, j) :: !rows[j].isActive
  }

  /** Enabling makes the row active; disabling makes it inactive, and hands the primary flag on to the oldest
      other active row, or is refused where there is none; making it primary takes the flag from the rest of
      its channel. No other action is known. */
  ghost predicate Acted(before: Table, i: nat, action: string, r: Option<Error>, after: Table)
    requires i < |before|
  {
    if action == "enable" then r.None? && after == before[i := before[i].(isActive := true)]
    else if action == "disable" then
      if !before[i].isPrimary then r.None? && after == before[i := before[i].(isActive := false)]
      else if forall j: nat | Sibling(before, i, j) :: !before[j].isActive then r == Some(NoFallback) && after == before
      else
        r.None? && exists o: nat ::
          && IsHeir(before, i, o)
          && after == before[i := before[i].(isActive := false, isPrimary := false)][o := before[o].(isPrimary := true)]
    else if action == "set_primary" then
      && r.None? && |after| == |before| && after[i] == before[i].(isActive := true, isPrimary := true)
      && forall j | 0 <= j < |before| && j != i ::
           after[j] == if Belongs(before[j], before[i].environment, before[i].channel)
                       then before[j].(isPrimary := false) else before[j]
    else r == Some(UnknownAction) && after == before
  }

  lemma Heir(rows: Table, i: nat, k: nat) returns (o: nat)
    requires i < |rows| && Sibling(rows, i, k) && rows[k].isActive
    ensures IsHeir(rows, i, o)
    decreases k
  {
    o := k;
    if j: nat :| j < k && Sibling(rows, i, j) && rows[j].isActive {
      o := Heir(rows, i, j);
    }
  }

  lemma EnableIs(rows: Table, i: nat)
    requires Good(rows) && i < |rows|
    ensures Apply(rows, Enable(rows[i].id, rows[i].environment)) == Some(rows[i := rows[i].(isActive := true)])
  {
    var found := FoundAt(rows, rows[i].id, rows[i].environment);
    SetStateAt(rows, i, true, rows[i].isPrimary);
  }

  lemma HeirTakesOver(rows: Table, i: nat, o: nat)
    requires i < |rows| && rows[i].isPrimary && IsHeir(rows, i, o)
    ensures Acted(rows, i, "disable", None,
                  rows[i := rows[i].(isActive := false, isPrimary := false)][o := rows[o].(isPrimary := true)])
  {
  }

  lemma DisablePrimaryIs(rows: Table, i: nat)
    requires Good(rows) && i < |rows| && rows[i].isPrimary
    ensures var next := Apply(rows, Disable(rows[i].id, rows[i].environment));
            Acted(rows, i, "disable", if next.Some? then None else Some(NoFallback),
                  if next.Some? then next.value else rows)
  {
    DisableRefusedIff(rows, i);
    if k: nat :| Sibling(rows, i, k) && rows[k].isActive {
      var o := Heir(rows, i, k);
      DisablePromotesOldest(rows, i, o);
      HeirTakesOver(rows, i, o);
    }
  }

  lemma DisableIs(rows: Table, i: nat)
    requires Good(rows) && i < |rows| && !rows[i].isPrimary
    ensures Apply(rows, Disable(rows[i].id, rows[i].environment)) == Some(rows[i := rows[i].(isActive := false)])
  {
    var found := FoundAt(rows, rows[i].id, rows[i].environment);
    SetStateAt(rows, i, false, false);
  }

  lemma SetPrimaryIs(rows: Table, i: nat)
    requires Good(rows) && i < |rows|
    ensures var next := Apply(rows, SetPrimary(rows[i].id, rows[i].environment));
            next.Some? && Acted(rows, i, "set_primary", None, next.value)
  {
    var found := FoundAt(rows, rows[i].id, rows[i].environment);
    PromotedIs(rows, i);
  }

  /** A provider of the catalogue that serves the channel, with an id and, in its environment, a name that are
      not taken. */
  ghost predicate Creatable(rows: Table, id: Uuid, environment: Uuid, name: string, channel: string) {
    && name in CATALOG && CATALOG[name] == channel
    && forall row | row in rows :: row.id != id && !(row.environment == environment && row.name == name)
  }

  lemma CreateIs(rows: Table, id: Uuid, environment: Uuid, name: string, channel: string)
    requires Good(rows)
    ensures var next, n, c := Apply(rows, Create(id, environment, name, channel)), Fold(name), Fold(channel);
            && (next.Some? <==> Creatable(rows, id, environment, n, c))
            && (next.Some? ==>
                  var first := forall row | row in rows && Belongs(row, environment, c) :: !row.isActive;
                  next.value == rows + [Row(id, environment, c, n, first, first)])
  {
    CreateAcceptedIff(rows, id, environment, Fold(name), Fold(channel));
    FirstOfChannel(rows, environment, Fold(channel));
    assert forall i | 0 <= i < |rows| :: rows[i] in rows;
  }

  lemma FirstOfChannel(rows: Table, environment: Uuid, channel: string)
    ensures HasActive(ListByChannel(rows, environment, channel)) <==>
            exists row :: row in rows && Belongs(row, environment, channel) && row.isActive
  {
    if row :| row in rows && Belongs(row, environment, channel) && row.isActive {
      assert row in ListByChannel(rows, environment, channel);
    }
  }

  /** The row gets the name and the channel, unless the provider does not serve the channel, another row of the
      environment has the name, or a primary row would come to a channel that has one. */
  ghost predicate Updated(before: Table, i: nat, name: string, channel: string, prepared: bool, ok: bool, after: Table)
    requires i < |before|
  {
    && (ok <==>
        && prepared && name in CATALOG && CATALOG[name] == channel
        && forall j | 0 <= j < |before| && j != i && before[j].environment == before[i].environment ::
             before[j].name != name && !(before[i].isPrimary && before[j].isPrimary && before[j].channel == channel))
    && after == if ok then before[i := before[i].(name := name, channel := channel)] else before
  }

  lemma UpdateIs(rows: Table, id: Uuid, environment: Uuid, name: string, channel: string)
    requires Good(rows)
    ensures var next := Apply(rows, Update(id, environment, name, channel));
            && (forall i: nat | IsRow(rows, i, id, environment) ::
                  Updated(rows, i, Fold(name), Fold(channel), true, next.Some?,
                          if next.Some? then next.value else rows))
            && ((forall i: nat :: !IsRow(rows, i, id, environment)) ==> next.None?)
  {
    if Find(rows, id, environment).Some? {
      var i := FoundAt(rows, id, environment);
      assert IsRow(rows, i, id, environment);
      UpdateAcceptedIff(rows, i, Fold(name), Fold(channel));
      SetChannelAt(rows, i, Fold(name), Fold(channel));
    } else {
      assert forall i | 0 <= i < |rows| :: rows[i] in rows;
    }
  }

  lemma SetChannelAt(rows: Table, i: nat, name: string, channel: string)
    requires KeysOk(rows) && i < |rows|
    ensures SetChannel(rows, rows[i].id, rows[i].environment, name, channel) ==
            rows[i := rows[i].(name := name, channel := channel)]
  {
  }

  lemma DeleteIs(rows: Table, id: Uuid, environment: Uuid)
    requires Good(rows)
    ensures forall i: nat | IsRow(rows, i, id, environment) ::
              Remove(rows, id, environment) == rows[..i] + rows[i + 1..]
    ensures (forall i: nat :: !IsRow(rows, i, id, environment)) ==> Remove(rows, id, environment) == rows
  {
    forall i: nat | IsRow(rows, i, id, environment)
      ensures Remove(rows, id, environment) == rows[..i] + rows[i + 1..]
    {
      RemoveAt(rows, i);
    }
    if forall i: nat :: !IsRow(rows, i, id, environment) {
      RemoveNone(rows, id, environment);
    }
  }

  lemma {:induction false} RemoveNone(rows: Table, id: Uuid, environment: Uuid)
    requires forall i: nat :: !IsRow(rows, i, id, environment)
    ensures Remove(rows, id, environment) == rows
  {
    if rows != [] {
      assert !IsRow(rows, 0, id, environment);
      forall i: nat
        ensures !IsRow(rows[1..], i, id, environment)
      {
        assert !IsRow(rows, i + 1, id, environment);
      }
      RemoveNone(rows[1..], id, environment);
    }
  }

  lemma ActionIs(rows: Table, i: nat, action: string)
    requires Good(rows) && i < |rows|
    ensures var op := Service.OpFor(rows[i].id, rows[i].environment, action);
            if op.None? then Acted(rows, i, action, Some(UnknownAction), rows)
            else
              var next := Apply(rows, op.value);
              Acted(rows, i, action, if next.Some? then None else Some(NoFallback),
                    if next.Some? then next.value else rows)
  {
    if action == "enable" {
      EnableIs(rows, i);
    } else if action == "disable" {
      if rows[i].isPrimary {
        DisablePrimaryIs(rows, i);
      } else {
        DisableIs(rows, i);
      }
    } else if action == "set_primary" {
      SetPrimaryIs(rows, i);
    }
  }

  // ----- The service with its table -----

  datatype Error = NotFound | Unsupported | Unprepared | Unreachable | Rejected | NoFallback | UnknownAction

  class Service {
    var rows: Table

    constructor ()
      ensures rows == []
    {
      rows := [];
    }

    /** A statement that changes the table; the database refuses it if a constraint would break. */
    method Execute(next: Table) returns (ok: bool)
      modifies this
      ensures ok <==> Accepted(next)
      ensures rows == if ok then next else old(rows)
    {
      if !Accepted(next) {
        return false;
      }
      rows := next;
      return true;
    }

    /** The loop of Create. */
    method AnyActive(list: Table) returns (hasActive: bool)
      ensures hasActive <==> exists row :: row in list && row.isActive
    {
      for i := 0 to |list|
        invariant forall j | 0 <= j < i :: !list[j].isActive
      {
        if list[i].isActive {
          return true;
        }
      }
      return false;
    }

    /** Create; `prepared` says whether the provider's own normaliser takes the credentials and the
        configuration, and whether they can be encrypted; `reached` whether the database answers. */
    method CreateIntegration(id: Uuid, environment: Uuid, name: string, channel: string, prepared: bool, reached: bool)
      returns (r: Option<Error>)
      requires Good(rows)
      modifies this
      ensures rows == if prepared && reached then AfterOp(old(rows), Create(id, environment, name, channel))
                      else old(rows)
      ensures r.None? <==> prepared && reached && Apply(old(rows), Create(id, environment, name, channel)).Some?
      ensures r.None? <==> prepared && reached && Creatable(old(rows), id, environment, Fold(name), Fold(channel))
      ensures r.None? ==>
        var first := forall row | row in old(rows) && Belongs(row, environment, Fold(channel)) :: !row.isActive;
        rows == old(rows) + [Row(id, environment, Fold(channel), Fold(name), first, first)]
      ensures r.Some? ==> rows == old(rows)
    {
      CreateIs(rows, id, environment, name, channel);
      if !Supported(name, channel) {
        return Some(Unsupported);
      }
      if !prepared {
        return Some(Unprepared);
      }
      if !reached {
        return Some(Unreachable);
      }
      var hasActive := AnyActive(ListByChannel(rows, environment, Fold(channel)));
      var ok := Execute(rows + [Row(id, environment, Fold(channel), Fold(name), !hasActive, !hasActive)]);
      if !ok {
        return Some(Rejected);
      }
      return None;
    }

    /** Update */
    method UpdateIntegration(id: Uuid, environment: Uuid, name: string, channel: string, prepared: bool, reached: bool)
      returns (r: Option<Error>)
      requires Good(rows)
      modifies this
      ensures rows == if prepared && reached then AfterOp(old(rows), Update(id, environment, name, channel))
                      else old(rows)
      ensures r.None? <==> prepared && reached && Apply(old(rows), Update(id, environment, name, channel)).Some?
      ensures forall i: nat | IsRow(old(rows), i, id, environment) ::
                Updated(old(rows), i, Fold(name), Fold(channel), prepared && reached, r.None?, rows)
      ensures (forall i: nat :: !IsRow(old(rows), i, id, environment)) ==> r.Some? && rows == old(rows)
    {
      UpdateIs(rows, id, environment, name, channel);
      if !reached {
        return Some(Unreachable);
      }
      var current := Find(rows, id, environment);
      if current.None? {
        return Some(NotFound);
      }
      if !Supported(name, channel) {
        return Some(Unsupported);
      }
      if !prepared {
        return Some(Unprepared);
      }
      var ok := Execute(SetChannel(rows, id, environment, Fold(name), Fold(channel)));
      if !ok {
        return Some(Rejected);
      }
      return None;
    }

    /** Delete */
    method DeleteIntegration(id: Uuid, environment: Uuid)
      requires Good(rows)
      modifies this
      ensures rows == AfterOp(old(rows), Delete(id, environment))
      ensures forall i: nat | IsRow(old(rows), i, id, environment) :: rows == old(rows)[..i] + old(rows)[i + 1..]
      ensures (forall i: nat :: !IsRow(old(rows), i, id, environment)) ==> rows == old(rows)
    {
      DeleteIs(rows, id, environment);
      RemoveKeeps(rows, id, environment);
      var ok := Execute(Remove(rows, id, environment));
    }

    /** The call that UpdateState makes for an action. */
    static function OpFor(id: Uuid, environment: Uuid, action: string): Option<Op> {
      if action == "enable" then Some(Enable(id, environment))
      else if action == "disable" then Some(Disable(id, environment))
      else if action == "set_primary" then Some(SetPrimary(id, environment))
      else None
    }

    /** UpdateState: the action changes the row with this id, and the others as far as it must; if there is
        no such row, or the action fails, the table is as it was before. */
    method UpdateState(id: Uuid, environment: Uuid, action: string) returns (r: Option<Error>)
      requires Good(rows)
      modifies this
      ensures forall i: nat | IsRow(old(rows), i, id, environment) :: Acted(old(rows), i, action, r, rows)
      ensures (forall i: nat :: !IsRow(old(rows), i, id, environment)) ==> r == Some(NotFound) && rows == old(rows)
      ensures rows == if OpFor(id, environment, action).Some?
                      then AfterOp(old(rows), OpFor(id, environment, action).value)
                      else old(rows)
    {
      ghost var before := rows;
      if Find(rows, id, environment).Some? {
        ghost var found := FoundAt(rows, id, environment);
        assert IsRow(rows, found, id, environment);
      }
      r := WithinTransaction(id, environment, action);
      forall i: nat | IsRow(before, i, id, environment)
        ensures Acted(before, i, action, r, rows)
      {
        assert before[i] in before;
        ActionIs(before, i, action);
      }
    }

    /** The transaction. No statement of it is ever refused by the constraints. */
    method WithinTransaction(id: Uuid, environment: Uuid, action: string) returns (r: Option<Error>)
      requires Good(rows)
      modifies this
      ensures rows == if OpFor(id, environment, action).Some?
                      then AfterOp(old(rows), OpFor(id, environment, action).value)
                      else old(rows)
      ensures r.None? <==> OpFor(id, environment, action).Some? &&
                           Apply(old(rows), OpFor(id, environment, action).value).Some?
      ensures r.Some? ==> r == Some(if Find(old(rows), id, environment).None? then NotFound
                                    else if OpFor(id, environment, action).None? then UnknownAction
                                    else NoFallback)
    {
      var before := rows;
      var p := Find(rows, id, environment);
      if p.None? {
        return Some(NotFound);
      }
      if action == "enable" {
        r := EnableRow(p.value);
      } else if action == "disable" {
        r := DisableRow(p.value);
      } else if action == "set_primary" {
        r := SetPrimaryRow(p.value);
      } else {
        return Some(UnknownAction);
      }
      if r.Some? {
        rows := before;
      }
    }

    /** enable */
    method EnableRow(p: Row) returns (r: Option<Error>)
      requires Good(rows) && Find(rows, p.id, p.environment) == Some(p)
      modifies this
      ensures r == None && rows == SetState(old(rows), p.id, p.environment, true, p.isPrimary)
    {
      ghost var i := FoundAt(rows, p.id, p.environment);
      EnableKeeps(rows, i);
      var ok := Execute(SetState(rows, p.id, p.environment, true, p.isPrimary));
      if !ok {
        return Some(Rejected);
      }
      return None;
    }

    /** setPrimary */
    method SetPrimaryRow(p: Row) returns (r: Option<Error>)
      requires Good(rows) && Find(rows, p.id, p.environment) == Some(p)
      modifies this
      ensures r == None && rows == Promoted(old(rows), p)
    {
      ghost var i := FoundAt(rows, p.id, p.environment);
      PromotedIs(rows, i);
      r := MakePrimary(p);
    }

    /** The two statements that make a row the primary of its channel. */
    method MakePrimary(p: Row) returns (r: Option<Error>)
      requires Accepted(ClearPrimary(rows, p.environment, p.channel)) && Accepted(Promoted(rows, p))
      modifies this
      ensures r == None && rows == Promoted(old(rows), p)
    {
      var ok := Execute(ClearPrimary(rows, p.environment, p.channel));
      if !ok {
        return Some(Rejected);
      }
      ok := Execute(SetState(rows, p.id, p.environment, true, true));
      if !ok {
        return Some(Rejected);
      }
      return None;
    }

    /** promotePrimary */
    method PromotePrimary(exclude: Row) returns (r: Option<Error>)
      requires Good(rows) && Find(rows, exclude.id, exclude.environment) == Some(exclude)
      modifies this
      ensures var fallback := FirstActive(ListByChannel(old(rows), exclude.environment, exclude.channel), exclude.id);
              && (r == if fallback.Some? then None else Some(NoFallback))
              && rows == if fallback.Some? then Promoted(old(rows), fallback.value) else old(rows)
    {
      ghost var i := FoundAt(rows, exclude.id, exclude.environment);
      var providers := ListByChannel(rows, exclude.environment, exclude.channel);
      ghost var fallback := FirstActive(providers, exclude.id);
      if fallback.Some? {
        FallbackIsAccepted(rows, i);
      }
      for n := 0 to |providers|
        invariant rows == old(rows)
        invariant fallback == FirstActive(providers[n..], exclude.id)
      {
        var candidate := providers[n];
        assert providers[n..][0] == candidate && providers[n..][1..] == providers[n + 1..];
        if candidate.id == exclude.id || !candidate.isActive {
          continue;
        }
        r := MakePrimary(candidate);
        return;
      }
      return Some(NoFallback);
    }

    /** disable */
    method DisableRow(p: Row) returns (r: Option<Error>)
      requires Good(rows) && Find(rows, p.id, p.environment) == Some(p)
      modifies this
      ensures r.None? || r == Some(NoFallback)
      ensures r.None? <==> Apply(old(rows), Disable(p.id, p.environment)).Some?
      ensures r.None? ==> rows == Apply(old(rows), Disable(p.id, p.environment)).value
    {
      ghost var i := FoundAt(rows, p.id, p.environment);
      if p.isPrimary {
        r := PromotePrimary(p);
        if r.Some? {
          return Some(NoFallback);
        }
        ghost var k := FallbackAt(old(rows), i);
        HandOverKeeps(old(rows), i, k);
      } else {
        DeactivateKeeps(rows, i);
      }
      var ok := Execute(SetState(rows, p.id, p.environment, false, false));
      if !ok {
        return Some(Rejected);
      }
      return None;
    }
  }
}
