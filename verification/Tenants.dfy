/** Organisations, their members and their environments: how the authentication service finds the tenant
    of a user, and creates what is missing. */
module Tenants {
  import opened Wrappers

  type Uuid = nat

  datatype Member = Member(org: Uuid, user: Uuid, role: string)

  datatype Environment = Environment(id: Uuid, org: Uuid, name: string, isDefault: bool)

  /** The three tables; rows are in the order of their creation. */
  datatype Directory = Directory(orgs: set<Uuid>, members: seq<Member>, environments: seq<Environment>)

  /** A membership with its organisation's default environment. */
  datatype Tenancy = Tenancy(member: Member, environment: Environment)

  datatype Call = GetMembership | GetDefault | CreateOrganization | CreateMember | CreateDevelopment | CreateProduction

  /** What one call of ensurePrimaryTenant meets: the calls that fail, and the ids that it draws. */
  datatype Env = Env(faults: set<Call>, org: Uuid, development: Uuid, production: Uuid)

  const NO_FAULTS: set<Call> := {}

  // ----- Queries and constraints -----

  /** GetFirstOrganizationMembershipByUser */
  function FirstMembership(members: seq<Member>, user: Uuid): (r: Option<Member>)
    ensures r.Some? ==> r.value in members && r.value.user == user
  {
    if members == [] then None
    else
      var front, last := members[..|members| - 1], members[|members| - 1];
      var first := FirstMembership(front, user);
      if first.Some? then first else if last.user == user then Some(last) else None
  }

  /** GetDefaultEnvironmentByOrganization */
  function DefaultOf(environments: seq<Environment>, org: Uuid): (r: Option<Environment>)
    ensures r.Some? ==> r.value in environments && r.value.org == org && r.value.isDefault
    ensures r.None? ==> forall e | e in environments :: e.org == org ==> !e.isDefault
  {
    if environments == [] then None
    else
      var front, last := environments[..|environments| - 1], environments[|environments| - 1];
      assert environments == front + [last];
      var first := DefaultOf(front, org);
      if first.Some? then first else if last.org == org && last.isDefault then Some(last) else None
  }

  /** The constraints on a new environment: its organisation exists, its id is new, and within the
      organisation its name is new and there is at most one default. */
  predicate Admits(d: Directory, e: Environment) {
    && e.org in d.orgs
    && forall x | x in d.environments ::
         x.id != e.id && !(x.org == e.org && (x.name == e.name || (x.isDefault && e.isDefault)))
  }

  // ----- Creating what is missing -----

  function Development(org: Uuid, env: Env): Environment {
    Environment(env.development, org, "development", true)
  }

  function Production(org: Uuid, env: Env): Environment {
    Environment(env.production, org, "production", false)
  }

  function Seeded(d: Directory, org: Uuid, env: Env): (Directory, Option<Environment>) {
    var development, production := Development(org, env), Production(org, env);
    var half := d.(environments := d.environments + [development]);
    if CreateDevelopment in env.faults || !Admits(d, development) then (d, None)
    else if CreateProduction in env.faults || !Admits(half, production) then (half, None)
    else (half.(environments := half.environments + [production]), Some(development))
  }

  function Found(member: Member, r: (Directory, Option<Environment>)): (Directory, Option<Tenancy>) {
    (r.0, if r.1.Some? then Some(Tenancy(member, r.1.value)) else None)
  }

  function EnsuredForMember(d: Directory, member: Member, env: Env): (Directory, Option<Tenancy>) {
    if GetDefault in env.faults then (d, None)
    else
      var default := DefaultOf(d.environments, member.org);
      if default.Some? then (d, Some(Tenancy(member, default.value)))
      else Found(member, Seeded(d, member.org, env))
  }

  function EnsuredForNewcomer(d: Directory, user: Uuid, env: Env): (Directory, Option<Tenancy>) {
    if CreateOrganization in env.faults || env.org in d.orgs then (d, None)
    else
      var owner, withOrg := Member(env.org, user, "owner"), d.(orgs := d.orgs + {env.org});
      if CreateMember in env.faults then (withOrg, None)
      else Found(owner, Seeded(withOrg.(members := d.members + [owner]), env.org, env))
  }

  function Ensured(d: Directory, user: Uuid, env: Env): (Directory, Option<Tenancy>) {
    var member := FirstMembership(d.members, user);
    if GetMembership in env.faults then (d, None)
    else if member.Some? then EnsuredForMember(d, member.value, env)
    else EnsuredForNewcomer(d, user, env)
  }

  // ----- What every call keeps -----

  predicate HasTenant(d: Directory, user: Uuid) {
    var member := FirstMembership(d.members, user);
    member.Some? && DefaultOf(d.environments, member.value.org).Some?
  }

  /** Members and environments belong to organisations that exist, and an organisation with any
      environment has a default one. */
  ghost predicate Sound(d: Directory) {
    && (forall m | m in d.members :: m.org in d.orgs)
    && (forall e | e in d.environments :: e.org in d.orgs && DefaultOf(d.environments, e.org).Some?)
  }

  /** Nothing is lost, and what was the first membership or the default environment stays so. */
  ghost predicate Extends(d: Directory, after: Directory) {
    && d.orgs <= after.orgs && d.members <= after.members && d.environments <= after.environments
    && (forall user :: FirstMembership(d.members, user).Some? ==>
          FirstMembership(after.members, user) == FirstMembership(d.members, user))
    && (forall org :: DefaultOf(d.environments, org).Some? ==>
          DefaultOf(after.environments, org) == DefaultOf(d.environments, org))
  }

  lemma NewMember(members: seq<Member>, m: Member)
    ensures forall user :: FirstMembership(members + [m], user) ==
              if FirstMembership(members, user).None? && m.user == user then Some(m) else FirstMembership(members, user)
  {
    assert (members + [m])[..|members|] == members;
  }

  lemma NewEnvironment(environments: seq<Environment>, e: Environment)
    ensures forall org :: DefaultOf(environments + [e], org) ==
              if DefaultOf(environments, org).None? && e.org == org && e.isDefault then Some(e)
              else DefaultOf(environments, org)
  {
    assert (environments + [e])[..|environments|] == environments;
  }

  /** A new environment keeps the tables sound if its organisation exists and has a default one then. */
  lemma EnvironmentKeeps(d: Directory, e: Environment)
    requires Sound(d) && e.org in d.orgs && (e.isDefault || DefaultOf(d.environments, e.org).Some?)
    ensures var after := d.(environments := d.environments + [e]);
            && Sound(after) && Extends(d, after)
            && (DefaultOf(d.environments, e.org).None? ==> DefaultOf(after.environments, e.org) == Some(e))
  {
    NewEnvironment(d.environments, e);
  }

  lemma SeededKeeps(d: Directory, org: Uuid, env: Env)
    requires Sound(d) && DefaultOf(d.environments, org).None?
    ensures Sound(Seeded(d, org, env).0) && Extends(d, Seeded(d, org, env).0)
    ensures Seeded(d, org, env).0.members == d.members
    ensures Seeded(d, org, env).1.Some? ==> DefaultOf(Seeded(d, org, env).0.environments, org) == Seeded(d, org, env).1
  {
    var development, production := Development(org, env), Production(org, env);
    if org in d.orgs {
      var half := d.(environments := d.environments + [development]);
      EnvironmentKeeps(d, development);
      EnvironmentKeeps(half, production);
      ExtendsTransitive(d, half, half.(environments := half.environments + [production]));
    }
  }

  lemma OwnerKeeps(d: Directory, org: Uuid, user: Uuid)
    requires Sound(d) && org !in d.orgs && FirstMembership(d.members, user).None?
    ensures var owner := Member(org, user, "owner");
            var after := Directory(d.orgs + {org}, d.members + [owner], d.environments);
            && Sound(after) && Extends(d, after)
            && FirstMembership(after.members, user) == Some(owner) && DefaultOf(after.environments, org).None?
  {
    NewMember(d.members, Member(org, user, "owner"));
  }

  lemma OrgKeeps(d: Directory, org: Uuid)
    requires Sound(d)
    ensures Sound(d.(orgs := d.orgs + {org})) && Extends(d, d.(orgs := d.orgs + {org}))
  {
  }

  lemma ExtendsTransitive(a: Directory, b: Directory, c: Directory)
    requires Extends(a, b) && Extends(b, c)
    ensures Extends(a, c)
  {
  }

  ghost predicate Finds(d: Directory, r: Option<Tenancy>, user: Uuid) {
    r.Some? ==>
      && FirstMembership(d.members, user) == Some(r.value.member)
      && DefaultOf(d.environments, r.value.member.org) == Some(r.value.environment)
  }

  lemma SeededFinds(d: Directory, member: Member, user: Uuid, env: Env)
    requires Sound(d) && FirstMembership(d.members, user) == Some(member) && DefaultOf(d.environments, member.org).None?
    ensures var (after, r) := Found(member, Seeded(d, member.org, env));
            Sound(after) && Extends(d, after) && Finds(after, r, user)
  {
    SeededKeeps(d, member.org, env);
  }

  lemma MemberKeeps(d: Directory, member: Member, user: Uuid, env: Env)
    requires Sound(d) && FirstMembership(d.members, user) == Some(member)
    ensures var (after, r) := EnsuredForMember(d, member, env);
            Sound(after) && Extends(d, after) && Finds(after, r, user)
  {
    if DefaultOf(d.environments, member.org).None? {
      SeededFinds(d, member, user, env);
    }
  }

  lemma NewcomerKeeps(d: Directory, user: Uuid, env: Env)
    requires Sound(d) && FirstMembership(d.members, user).None?
    ensures var (after, r) := EnsuredForNewcomer(d, user, env);
            Sound(after) && Extends(d, after) && Finds(after, r, user)
  {
    if env.org !in d.orgs {
      OrgKeeps(d, env.org);
      OwnerSeeded(d, user, env);
    }
  }

  lemma OwnerSeeded(d: Directory, user: Uuid, env: Env)
    requires Sound(d) && FirstMembership(d.members, user).None? && env.org !in d.orgs
    ensures var owner := Member(env.org, user, "owner");
            var withOwner := Directory(d.orgs + {env.org}, d.members + [owner], d.environments);
            var (after, r) := Found(owner, Seeded(withOwner, env.org, env));
            Sound(after) && Extends(d, after) && Finds(after, r, user)
  {
    var owner := Member(env.org, user, "owner");
    var withOwner := Directory(d.orgs + {env.org}, d.members + [owner], d.environments);
    OwnerKeeps(d, env.org, user);
    SeededFinds(withOwner, owner, user, env);
    ExtendsTransitive(d, withOwner, Seeded(withOwner, env.org, env).0);
  }

  /** Main result on tenants: every call keeps the tables sound and everyone's tenant, whatever fails
      on the way; and the tenant that it returns is the one that is found afterwards. */
  lemma EnsuredKeeps(d: Directory, user: Uuid, env: Env)
    requires Sound(d)
    ensures var (after, r) := Ensured(d, user, env);
            Sound(after) && Extends(d, after) && Finds(after, r, user)
  {
    var member := FirstMembership(d.members, user);
    if GetMembership !in env.faults {
      if member.Some? {
        MemberKeeps(d, member.value, user, env);
      } else {
        NewcomerKeeps(d, user, env);
      }
    }
  }

  /** Idempotence: once a call has returned a tenant, later calls change nothing and return the same
      one, whatever ids they draw, unless their own queries fail. */
  lemma EnsuringIsIdempotent(d: Directory, user: Uuid, env: Env, later: Env)
    requires Sound(d) && Ensured(d, user, env).1.Some?
    ensures var (after, r) := Ensured(d, user, env);
            Ensured(after, user, later) ==
            (after, if GetMembership in later.faults || GetDefault in later.faults then None else r)
  {
    EnsuredKeeps(d, user, env);
  }

  // ----- After a failure -----

  /** A later call that meets no fault, with ids that are new, always finds or creates a tenant: no
      failed call, wherever it stopped, leaves a user stuck without one. */
  lemma RetryRecovers(d: Directory, user: Uuid, env: Env, retry: Env)
    requires Sound(d)
    requires var after := Ensured(d, user, env).0;
             && retry.faults == NO_FAULTS && retry.org !in after.orgs && retry.development != retry.production
             && forall e | e in after.environments :: e.id != retry.development && e.id != retry.production
    ensures Ensured(Ensured(d, user, env).0, user, retry).1.Some?
  {
    EnsuredKeeps(d, user, env);
    var after := Ensured(d, user, env).0;
    var member := FirstMembership(after.members, user);
    if member.Some? {
      SeedingSucceeds(after, member.value.org, retry);
    } else {
      var owner := Member(retry.org, user, "owner");
      SeedingSucceeds(Directory(after.orgs + {retry.org}, after.members + [owner], after.environments),
                      retry.org, retry);
    }
  }

  lemma SeedingSucceeds(d: Directory, org: Uuid, env: Env)
    requires org in d.orgs && env.faults == NO_FAULTS && env.development != env.production
    requires forall e | e in d.environments :: e.id != env.development && e.id != env.production
    requires forall e | e in d.environments :: DefaultOf(d.environments, e.org).Some?
    ensures DefaultOf(d.environments, org).None? ==> Seeded(d, org, env).1.Some?
  {
  }

  // ----- When a call succeeds -----

  /** Both inserts of createSeedEnvironments go through. */
  predicate SeedsGo(d: Directory, env: Env) {
    && CreateDevelopment !in env.faults && CreateProduction !in env.faults && env.development != env.production
    && forall e | e in d.environments :: e.id != env.development && e.id != env.production
  }

  lemma SeedingIff(d: Directory, org: Uuid, env: Env)
    requires org in d.orgs && forall e | e in d.environments :: e.org != org
    ensures var (after, r) := Seeded(d, org, env);
            && (r.Some? <==> SeedsGo(d, env))
            && (r.Some? ==> after == d.(environments := d.environments + SeedsOf(org, env)))
  {
    var development, production := Development(org, env), Production(org, env);
    assert d.environments + [development] + [production] == d.environments + [development, production];
    assert development in d.environments + [development];
  }

  function SeedsOf(org: Uuid, env: Env): seq<Environment> {
    [Environment(env.development, org, "development", true), Environment(env.production, org, "production", false)]
  }

  lemma NoDefaultIsEmpty(d: Directory, org: Uuid)
    requires Sound(d) && DefaultOf(d.environments, org).None?
    ensures forall e | e in d.environments :: e.org != org
  {
  }

  /** Main result on success: the tenant of a user is found, or completed, or created with the user as its owner,
      exactly if none of the queries and inserts fails that this takes and the ids for them are new. */
  lemma TenantIff(d: Directory, user: Uuid, env: Env)
    requires Sound(d)
    ensures var (after, r), member := Ensured(d, user, env), FirstMembership(d.members, user);
            && (r.Some? <==>
                && GetMembership !in env.faults
                && if member.None? then
                     {CreateOrganization, CreateMember} !! env.faults && env.org !in d.orgs && SeedsGo(d, env)
                   else
                     GetDefault !in env.faults &&
                     (DefaultOf(d.environments, member.value.org).Some? || SeedsGo(d, env)))
            && (r.Some? ==>
                  after == if HasTenant(d, user) then d
                           else if member.Some? then
                             d.(environments := d.environments + SeedsOf(member.value.org, env))
                           else Directory(d.orgs + {env.org}, d.members + [Member(env.org, user, "owner")],
                                          d.environments + SeedsOf(env.org, env)))
  {
    var member := FirstMembership(d.members, user);
    if member.Some? && DefaultOf(d.environments, member.value.org).None? {
      NoDefaultIsEmpty(d, member.value.org);
      SeedingIff(d, member.value.org, env);
    } else if member.None? && env.org !in d.orgs {
      var withOwner := Directory(d.orgs + {env.org}, d.members + [Member(env.org, user, "owner")], d.environments);
      SeedingIff(withOwner, env.org, env);
    }
  }

  predicate HasProduction(d: Directory, org: Uuid) {
    exists e :: e in d.environments && e.org == org && e.name == "production"
  }

  /** Does the second insert of createSeedEnvironments go through, once the first one has? */
  predicate SecondInsertGoes(d: Directory, env: Env) {
    && CreateProduction !in env.faults && env.production != env.development
    && forall e | e in d.environments :: e.id != env.production
  }

  lemma SeededProduction(d: Directory, org: Uuid, env: Env)
    requires Sound(d) && DefaultOf(d.environments, org).None?
    ensures var (after, r) := Seeded(d, org, env);
            DefaultOf(after.environments, org).Some? ==>
              && (HasProduction(after, org) <==> SecondInsertGoes(d, env))
              && (r.Some? <==> SecondInsertGoes(d, env))
  {
    var (after, r) := Seeded(d, org, env);
    NewEnvironment(d.environments, Development(org, env));
    if r.Some? {
      assert Production(org, env) in after.environments;
    }
  }

  /** The production environment is created only together with the default one: if that second insert
      fails, no later call adds it, with or without faults. So for a user without a tenant who gets one,
      production is there, then and after every later call, exactly if the second insert met no fault and
      drew a new id; and that is when the creating call reports success. */
  lemma ProductionIffFirstTime(d: Directory, user: Uuid, env: Env, later: Env)
    requires Sound(d) && !HasTenant(d, user) && HasTenant(Ensured(d, user, env).0, user)
    ensures var (after, r) := Ensured(d, user, env);
            && (HasProduction(Ensured(after, user, later).0, FirstMembership(after.members, user).value.org)
                <==> SecondInsertGoes(d, env))
            && (r.Some? <==> SecondInsertGoes(d, env))
  {
    var after := Ensured(d, user, env).0;
    HousedStays(after, user, later);
    if FirstMembership(d.members, user).None? {
      NewcomerProduction(d, user, env);
    } else {
      MemberProduction(d, user, env);
    }
  }

  lemma HousedStays(d: Directory, user: Uuid, env: Env)
    requires HasTenant(d, user)
    ensures Ensured(d, user, env).0 == d
  {
  }

  lemma MemberProduction(d: Directory, user: Uuid, env: Env)
    requires Sound(d) && FirstMembership(d.members, user).Some? && !HasTenant(d, user)
    requires HasTenant(Ensured(d, user, env).0, user)
    ensures var (after, r) := Ensured(d, user, env);
            && (HasProduction(after, FirstMembership(after.members, user).value.org) <==> SecondInsertGoes(d, env))
            && (r.Some? <==> SecondInsertGoes(d, env))
  {
    var member := FirstMembership(d.members, user).value;
    SeededKeeps(d, member.org, env);
    SeededProduction(d, member.org, env);
  }

  lemma NewcomerProduction(d: Directory, user: Uuid, env: Env)
    requires Sound(d) && FirstMembership(d.members, user).None?
    requires HasTenant(Ensured(d, user, env).0, user)
    ensures var (after, r) := Ensured(d, user, env);
            && (HasProduction(after, FirstMembership(after.members, user).value.org) <==> SecondInsertGoes(d, env))
            && (r.Some? <==> SecondInsertGoes(d, env))
  {
    var owner := Member(env.org, user, "owner");
    var withOwner := Directory(d.orgs + {env.org}, d.members + [owner], d.environments);
    if env.org !in d.orgs {
      OwnerKeeps(d, env.org, user);
      SeededKeeps(withOwner, env.org, env);
      SeededProduction(withOwner, env.org, env);
    }
  }

  /** An input for which production is missing for good: the first tenant of an empty directory, with a
      failure of the second insert only. Every later call succeeds where nothing fails, and adds nothing. */
  lemma ProductionCanBeMissing(later: Env)
    requires later.faults == NO_FAULTS
    ensures var after := Ensured(Directory({}, [], []), 7, Env({CreateProduction}, 1, 2, 3)).0;
            && HasTenant(after, 7)
            && Ensured(after, 7, later).0 == after && Ensured(after, 7, later).1.Some?
            && !HasProduction(after, 1) && FirstMembership(after.members, 7).value.org == 1
  {
    var empty, env := Directory({}, [], []), Env({CreateProduction}, 1, 2, 3);
    var owner, development := Member(1, 7, "owner"), Development(1, env);
    NewMember([], owner);
    NewEnvironment([], development);
    assert [] + [owner] == [owner] && [] + [development] == [development];
    assert Ensured(empty, 7, env).0 == Directory({1}, [owner], [development]);
  }

  /** createSeedEnvironments adds development, then production, and nothing else; where it fails it has
      added a first part of the two. */
  lemma SeededAdds(d: Directory, org: Uuid, env: Env)
    ensures var (after, r) := Seeded(d, org, env);
            var both := [Environment(env.development, org, "development", true),
                         Environment(env.production, org, "production", false)];
            && after.orgs == d.orgs && after.members == d.members && d.environments <= after.environments
            && after.environments[|d.environments|..] <= both
            && (r.Some? <==> after.environments == d.environments + both)
            && (r.Some? ==> r == Some(both[0]))
  {
    var development, production := Development(org, env), Production(org, env);
    assert d.environments + [development] + [production] == d.environments + [development, production];
  }
}
