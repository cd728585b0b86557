/** Signing up, signing in, verification codes and refresh tokens. */
module Sessions {
  import opened Wrappers
  import opened Text
  import Tenants

  type Uuid = nat

  // ----- Tables, requests and what an operation meets -----

  /** `password` is what the stored hash is the hash of; None for an account without a password. */
  datatype User = User(email: string, password: Option<string>, verified: bool)

  datatype Code = Code(text: string, expires: int)

  datatype Token = Token(user: Uuid, expires: int)

  type Identity = (string, string)

  /** `emails` is the unique index on users' addresses. Codes have one row per user. Refresh tokens are
      stored under their hash, which stands here for the token itself. */
  datatype Store = Store(users: map<Uuid, User>, emails: map<string, Uuid>, identities: map<Identity, Uuid>,
                         codes: map<Uuid, Code>, tokens: map<string, Token>, tenants: Tenants.Directory)

  const EMPTY := Store(map[], map[], map[], map[], map[], Tenants.Directory({}, [], []))

  datatype Settings = Settings(refreshTTL: int, verificationTTL: int)

  datatype Call =
    | GetUser | GetIdentity | GetCode | GetToken
    | CreateUser | VerifyUser | SetPassword | CreateIdentity | PutCode | DeleteCode | CreateToken | DeleteToken
    | HashPassword | GenerateCode | GenerateTokens

  /** `user`, `code` and `token` are what the operation draws; `tenants` is for ensurePrimaryTenant. */
  datatype Env = Env(now: int, faults: set<Call>, user: Uuid, code: string, token: string, tenants: Tenants.Env)

  datatype Error =
    | EmailExists | InvalidCredentials | EmailNotVerified | AlreadyVerified | InvalidCode | CodeExpired
    | UnsupportedProvider | EmailRequired | MissingInput | StoreError

  datatype Reply =
    | Session(user: Uuid, tenancy: Tenants.Tenancy, token: string)
    | Registered(newUser: Uuid, home: Tenants.Tenancy, codeExpires: int)
    | CodeSent(expires: int)
    | Done

  datatype Op =
    | Signup(email: string, password: string)
    | Signin(email: string, password: string)
    | Social(provider: string, providerUser: string, email: string)
    | Resend(email: string)
    | Forgot(email: string)
    | Verify(email: string, code: string)
    | Reset(email: string, code: string, newPassword: string)
    | Refresh(token: string)
    | Logout(token: string)

  type Outcome = (Store, Result<Reply, Error>)

  // ----- The shared tails -----

  /** newAuthResult with issueSession */
  function Issued(s: Store, user: Uuid, tenancy: Tenants.Tenancy, c: Settings, env: Env): Outcome {
    if GenerateTokens in env.faults || CreateToken in env.faults then (s, Err(StoreError))
    else if env.token in s.tokens || user !in s.users then (s, Err(StoreError))
    else (s.(tokens := s.tokens[env.token := Token(user, env.now + c.refreshTTL)]),
          Ok(Session(user, tenancy, env.token)))
  }

  /** ensurePrimaryTenant, then a new session. */
  function Opened(s: Store, user: Uuid, c: Settings, env: Env): Outcome {
    var (tenants, tenancy) := Tenants.Ensured(s.tenants, user, env.tenants);
    var housed := s.(tenants := tenants);
    if tenancy.None? then (housed, Err(StoreError)) else Issued(housed, user, tenancy.value, c, env)
  }

  /** createAndSendVerification */
  function CodeStored(s: Store, user: Uuid, c: Settings, env: Env): Outcome {
    if GenerateCode in env.faults || PutCode in env.faults || user !in s.users then (s, Err(StoreError))
    else
      var expires := env.now + c.verificationTTL;
      (s.(codes := s.codes[user := Code(env.code, expires)]), Ok(CodeSent(expires)))
  }

  function WithUser(s: Store, id: Uuid, u: User): Store {
    s.(users := s.users[id := u], emails := s.emails[u.email := id])
  }

  function MarkedVerified(s: Store, user: Uuid): Store
    requires user in s.users
  {
    s.(users := s.users[user := s.users[user].(verified := true)])
  }

  /** The checks on a code that VerifyEmail and ResetPassword share. */
  function CodeProblem(s: Store, email: string, code: string, env: Env): Option<Error> {
    if GetUser in env.faults then Some(StoreError)
    else if email !in s.emails || s.emails[email] !in s.users then Some(InvalidCode)
    else if GetCode in env.faults then Some(StoreError)
    else if s.emails[email] !in s.codes then Some(InvalidCode)
    else
      var stored := s.codes[s.emails[email]];
      if stored.expires < env.now then Some(CodeExpired)
      else if code == "" || code != stored.text then Some(InvalidCode)
      else None
  }

  // ----- The operations -----

  function AfterSignup(s: Store, email: string, password: string, c: Settings, env: Env): Outcome {
    var e, p := Fold(email), TrimSpace(password);
    var created := WithUser(s, env.user, User(e, Some(p), false));
    if GetUser in env.faults then (s, Err(StoreError))
    else if e in s.emails then (s, Err(EmailExists))
    else if p == "" then (s, Err(MissingInput))
    else if HashPassword in env.faults || CreateUser in env.faults || env.user in s.users then (s, Err(StoreError))
    else
      var (tenants, tenancy) := Tenants.Ensured(created.tenants, env.user, env.tenants);
      var housed := created.(tenants := tenants);
      if tenancy.None? then (housed, Err(StoreError))
      else
        var (after, r) := CodeStored(housed, env.user, c, env);
        (after, if r.Ok? then Ok(Registered(env.user, tenancy.value, r.value.expires)) else r)
  }

  function AfterSignin(s: Store, email: string, password: string, c: Settings, env: Env): Outcome {
    var e, p := Fold(email), TrimSpace(password);
    if GetUser in env.faults then (s, Err(StoreError))
    else if e !in s.emails || s.emails[e] !in s.users then (s, Err(InvalidCredentials))
    else if !s.users[s.emails[e]].verified then (s, Err(EmailNotVerified))
    else if p == "" || s.users[s.emails[e]].password != Some(p) then (s, Err(InvalidCredentials))
    else Opened(s, s.emails[e], c, env)
  }

  /** A user who may be unverified, once verified; None if that write fails. */
  function Confirmed(s: Store, user: Uuid, env: Env): Option<Store>
    requires user in s.users
  {
    if s.users[user].verified then Some(s)
    else if VerifyUser in env.faults then None
    else Some(MarkedVerified(s, user))
  }

  /** Two social identities of one user are of different providers. */
  predicate IdentityTaken(s: Store, user: Uuid, provider: string) {
    exists k | k in s.identities :: k.0 == provider && s.identities[k] == user
  }

  function Linked(s: Store, user: Uuid, id: Identity, c: Settings, env: Env): Outcome {
    if CreateIdentity in env.faults || id in s.identities || IdentityTaken(s, user, id.0) then (s, Err(StoreError))
    else Opened(s.(identities := s.identities[id := user]), user, c, env)
  }

  function AfterSocial(s: Store, provider: string, providerUser: string, email: string,
                       c: Settings, env: Env): Outcome
  {
    var id, e := (Fold(provider), TrimSpace(providerUser)), Fold(email);
    if id.0 != "google" && id.0 != "github" then (s, Err(UnsupportedProvider))
    else if id.1 == "" then (s, Err(MissingInput))
    else if e == "" then (s, Err(EmailRequired))
    else if GetIdentity in env.faults || GetUser in env.faults then (s, Err(StoreError))
    else if id in s.identities then
      if s.identities[id] !in s.users then (s, Err(StoreError))
      else
        var confirmed := Confirmed(s, s.identities[id], env);
        if confirmed.None? then (s, Err(StoreError)) else Opened(confirmed.value, s.identities[id], c, env)
    else if e in s.emails && s.emails[e] in s.users then
      var confirmed := Confirmed(s, s.emails[e], env);
      if confirmed.None? then (s, Err(StoreError)) else Linked(confirmed.value, s.emails[e], id, c, env)
    else if CreateUser in env.faults || env.user in s.users || e in s.emails then (s, Err(StoreError))
    else Linked(WithUser(s, env.user, User(e, None, true)), env.user, id, c, env)
  }

  function AfterResend(s: Store, email: string, c: Settings, env: Env): Outcome {
    var e := Fold(email);
    if GetUser in env.faults then (s, Err(StoreError))
    else if e !in s.emails || s.emails[e] !in s.users then (s, Ok(Done))
    else if s.users[s.emails[e]].verified then (s, Err(AlreadyVerified))
    else CodeStored(s, s.emails[e], c, env)
  }

  function AfterForgot(s: Store, email: string, c: Settings, env: Env): Outcome {
    var e := Fold(email);
    if GetUser in env.faults then (s, Err(StoreError))
    else if e !in s.emails || s.emails[e] !in s.users then (s, Ok(Done))
    else CodeStored(s, s.emails[e], c, env)
  }

  function AfterVerify(s: Store, email: string, code: string, c: Settings, env: Env): Outcome {
    var e := Fold(email);
    var problem := CodeProblem(s, e, TrimSpace(code), env);
    if problem.Some? then (s, Err(problem.value))
    else
      var user := s.emails[e];
      var marked := MarkedVerified(s, user);
      if VerifyUser in env.faults then (s, Err(StoreError))
      else if DeleteCode in env.faults then (marked, Err(StoreError))
      else Opened(marked.(codes := marked.codes - {user}), user, c, env)
  }

  function AfterReset(s: Store, email: string, code: string, newPassword: string, env: Env): Outcome {
    var e, p := Fold(email), TrimSpace(newPassword);
    if p == "" then (s, Err(MissingInput))
    else
      var problem := CodeProblem(s, e, TrimSpace(code), env);
      if problem.Some? then (s, Err(problem.value))
      else if HashPassword in env.faults || SetPassword in env.faults then (s, Err(StoreError))
      else
        var user := s.emails[e];
        var changed := s.(users := s.users[user := s.users[user].(password := Some(p))]);
        if DeleteCode in env.faults then (changed, Err(StoreError))
        else (changed.(codes := changed.codes - {user}), Ok(Done))
  }

  function AfterRefresh(s: Store, token: string, c: Settings, env: Env): Outcome {
    var raw := TrimSpace(token);
    if raw == "" then (s, Err(MissingInput))
    else if GetToken in env.faults then (s, Err(StoreError))
    else if raw !in s.tokens || s.tokens[raw].expires < env.now then (s, Err(InvalidCredentials))
    else
      var user := s.tokens[raw].user;
      if GetUser in env.faults then (s, Err(StoreError))
      else if user !in s.users || !s.users[user].verified then (s, Err(InvalidCredentials))
      else if DeleteToken in env.faults then (s, Err(StoreError))
      else Opened(s.(tokens := s.tokens - {raw}), user, c, env)
  }

  function AfterLogout(s: Store, token: string, env: Env): Outcome {
    var raw := TrimSpace(token);
    if raw == "" then (s, Err(MissingInput))
    else if DeleteToken in env.faults then (s, Err(StoreError))
    else (s.(tokens := s.tokens - {raw}), Ok(Done))
  }

  function After(s: Store, op: Op, c: Settings, env: Env): Outcome {
    match op
    case Signup(email, password) => AfterSignup(s, email, password, c, env)
    case Signin(email, password) => AfterSignin(s, email, password, c, env)
    case Social(provider, providerUser, email) => AfterSocial(s, provider, providerUser, email, c, env)
    case Resend(email) => AfterResend(s, email, c, env)
    case Forgot(email) => AfterForgot(s, email, c, env)
    case Verify(email, code) => AfterVerify(s, email, code, c, env)
    case Reset(email, code, newPassword) => AfterReset(s, email, code, newPassword, env)
    case Refresh(token) => AfterRefresh(s, token, c, env)
    case Logout(token) => AfterLogout(s, token, env)
  }

  class Service {
    const settings: Settings
    var store: Store

    constructor (settings: Settings)
      ensures this.settings == settings && store == EMPTY
    {
      this.settings := settings;
      store := EMPTY;
    }

    /** createSeedEnvironments */
    method CreateSeedEnvironments(org: Uuid, env: Tenants.Env) returns (development: Option<Tenants.Environment>)
      modifies `store
      ensures store == old(store).(tenants := Tenants.Seeded(old(store).tenants, org, env).0)
      ensures development == Tenants.Seeded(old(store).tenants, org, env).1
    {
      var first := Tenants.Environment(env.development, org, "development", true);
      if Tenants.CreateDevelopment in env.faults || !Tenants.Admits(store.tenants, first) {
        return None;
      }
      store := store.(tenants := store.tenants.(environments := store.tenants.environments + [first]));
      var second := Tenants.Environment(env.production, org, "production", false);
      if Tenants.CreateProduction in env.faults || !Tenants.Admits(store.tenants, second) {
        return None;
      }
      store := store.(tenants := store.tenants.(environments := store.tenants.environments + [second]));
      return Some(first);
    }

    /** ensurePrimaryTenant */
    method EnsurePrimaryTenant(user: Uuid, env: Tenants.Env) returns (r: Option<Tenants.Tenancy>)
      modifies `store
      ensures store == old(store).(tenants := Tenants.Ensured(old(store).tenants, user, env).0)
      ensures r == Tenants.Ensured(old(store).tenants, user, env).1
    {
      if Tenants.GetMembership in env.faults {
        return None;
      }
      var member := Tenants.FirstMembership(store.tenants.members, user);
      if member.Some? {
        if Tenants.GetDefault in env.faults {
          return None;
        }
        var default := Tenants.DefaultOf(store.tenants.environments, member.value.org);
        if default.Some? {
          return Some(Tenants.Tenancy(member.value, default.value));
        }
        var created := CreateSeedEnvironments(member.value.org, env);
        return if created.Some? then Some(Tenants.Tenancy(member.value, created.value)) else None;
      }
      if Tenants.CreateOrganization in env.faults || env.org in store.tenants.orgs {
        return None;
      }
      store := store.(tenants := store.tenants.(orgs := store.tenants.orgs + {env.org}));
      if Tenants.CreateMember in env.faults {
        return None;
      }
      var owner := Tenants.Member(env.org, user, "owner");
      store := store.(tenants := store.tenants.(members := store.tenants.members + [owner]));
      var development := CreateSeedEnvironments(env.org, env);
      return if development.Some? then Some(Tenants.Tenancy(owner, development.value)) else None;
    }

    /** newAuthResult */
    method NewAuthResult(user: Uuid, tenancy: Tenants.Tenancy, env: Env) returns (r: Result<Reply, Error>)
      modifies `store
      ensures (store, r) == Issued(old(store), user, tenancy, settings, env)
      ensures store == if r.Ok? then old(store).(tokens := store.tokens) else old(store)
    {
      if GenerateTokens in env.faults || CreateToken in env.faults {
        return Err(StoreError);
      }
      if env.token in store.tokens || user !in store.users {
        return Err(StoreError);
      }
      store := store.(tokens := store.tokens[env.token := Token(user, env.now + settings.refreshTTL)]);
      return Ok(Session(user, tenancy, env.token));
    }

    /** createAndSendVerification */
    method CreateAndSendVerification(user: Uuid, env: Env) returns (r: Result<Reply, Error>)
      modifies `store
      ensures (store, r) == CodeStored(old(store), user, settings, env)
      ensures store == if r.Ok? then old(store).(codes := store.codes) else old(store)
    {
      if GenerateCode in env.faults || PutCode in env.faults || user !in store.users {
        return Err(StoreError);
      }
      store := store.(codes := store.codes[user := Code(env.code, env.now + settings.verificationTTL)]);
      return Ok(CodeSent(env.now + settings.verificationTTL));
    }

    method SignUp(email: string, password: string, env: Env) returns (r: Result<Reply, Error>)
      modifies `store
      ensures (store, r) == AfterSignup(old(store), email, password, settings, env)
      ensures store.tokens == old(store).tokens && store.identities == old(store).identities
      ensures Fold(email) in old(store).emails ==> r.Err? && store == old(store)
      ensures r.Ok? ==>
        && env.user !in old(store).users
        && store.users == old(store).users[env.user := User(Fold(email), Some(TrimSpace(password)), false)]
        && store.codes == old(store).codes[env.user := Code(env.code, env.now + settings.verificationTTL)]
    {
      SignupTables(store, email, password, settings, env);
      var e, p := Fold(email), TrimSpace(password);
      if GetUser in env.faults {
        return Err(StoreError);
      }
      if e in store.emails {
        return Err(EmailExists);
      }
      if p == "" {
        return Err(MissingInput);
      }
      if HashPassword in env.faults || CreateUser in env.faults || env.user in store.users {
        return Err(StoreError);
      }
      store := WithUser(store, env.user, User(e, Some(p), false));
      var tenancy := EnsurePrimaryTenant(env.user, env.tenants);
      if tenancy.None? {
        return Err(StoreError);
      }
      r := CreateAndSendVerification(env.user, env);
      if r.Ok? {
        r := Ok(Registered(env.user, tenancy.value, r.value.expires));
      }
    }

    method SignIn(email: string, password: string, env: Env) returns (r: Result<Reply, Error>)
      modifies `store
      ensures (store, r) == AfterSignin(old(store), email, password, settings, env)
      ensures store.codes == old(store).codes
      ensures store.tokens.Keys == old(store).tokens.Keys + if r.Ok? then {env.token} else {}
    {
      SigninTables(store, email, password, settings, env);
      var e, p := Fold(email), TrimSpace(password);
      if GetUser in env.faults {
        return Err(StoreError);
      }
      if e !in store.emails || store.emails[e] !in store.users {
        return Err(InvalidCredentials);
      }
      var user := store.emails[e];
      if !store.users[user].verified {
        return Err(EmailNotVerified);
      }
      if p == "" || store.users[user].password != Some(p) {
        return Err(InvalidCredentials);
      }
      var tenancy := EnsurePrimaryTenant(user, env.tenants);
      if tenancy.None? {
        return Err(StoreError);
      }
      r := NewAuthResult(user, tenancy.value, env);
    }

    method SignInWithSocial(provider: string, providerUser: string, email: string, env: Env)
      returns (r: Result<Reply, Error>)
      modifies `store
      ensures (store, r) == AfterSocial(old(store), provider, providerUser, email, settings, env)
    {
      var id, e := (Fold(provider), TrimSpace(providerUser)), Fold(email);
      if id.0 != "google" && id.0 != "github" {
        return Err(UnsupportedProvider);
      }
      if id.1 == "" {
        return Err(MissingInput);
      }
      if e == "" {
        return Err(EmailRequired);
      }
      if GetIdentity in env.faults || GetUser in env.faults {
        return Err(StoreError);
      }
      var known := id in store.identities;
      if known && store.identities[id] !in store.users {
        return Err(StoreError);
      }
      var user := env.user;
      if known {
        user := store.identities[id];
      } else if e in store.emails && store.emails[e] in store.users {
        user := store.emails[e];
      } else if CreateUser in env.faults || env.user in store.users || e in store.emails {
        return Err(StoreError);
      } else {
        store := WithUser(store, user, User(e, None, true));
      }
      if !store.users[user].verified {
        if VerifyUser in env.faults {
          return Err(StoreError);
        }
        store := MarkedVerified(store, user);
      }
      if !known {
        if CreateIdentity in env.faults || IdentityTaken(store, user, id.0) {
          return Err(StoreError);
        }
        store := store.(identities := store.identities[id := user]);
      }
      var tenancy := EnsurePrimaryTenant(user, env.tenants);
      if tenancy.None? {
        return Err(StoreError);
      }
      r := NewAuthResult(user, tenancy.value, env);
    }

    method ResendVerification(email: string, env: Env) returns (r: Result<Reply, Error>)
      modifies `store
      ensures (store, r) == AfterResend(old(store), email, settings, env)
      ensures store == old(store).(codes := store.codes)
    {
      var e := Fold(email);
      if GetUser in env.faults {
        return Err(StoreError);
      }
      if e !in store.emails || store.emails[e] !in store.users {
        return Ok(Done);
      }
      if store.users[store.emails[e]].verified {
        return Err(AlreadyVerified);
      }
      r := CreateAndSendVerification(store.emails[e], env);
    }

    method ForgotPassword(email: string, env: Env) returns (r: Result<Reply, Error>)
      modifies `store
      ensures (store, r) == AfterForgot(old(store), email, settings, env)
      ensures store == old(store).(codes := store.codes)
    {
      var e := Fold(email);
      if GetUser in env.faults {
        return Err(StoreError);
      }
      if e !in store.emails || store.emails[e] !in store.users {
        return Ok(Done);
      }
      r := CreateAndSendVerification(store.emails[e], env);
    }

    /** VerifyResetCode: the same checks, without consuming the code. */
    method VerifyResetCode(email: string, code: string, env: Env) returns (problem: Option<Error>)
      ensures problem == CodeProblem(store, Fold(email), TrimSpace(code), env)
      ensures problem.None? <==>
              GetUser !in env.faults && GetCode !in env.faults && CodeFits(store, Fold(email), TrimSpace(code), env.now)
    {
      var e, given := Fold(email), TrimSpace(code);
      if GetUser in env.faults {
        return Some(StoreError);
      }
      if e !in store.emails || store.emails[e] !in store.users {
        return Some(InvalidCode);
      }
      if GetCode in env.faults {
        return Some(StoreError);
      }
      if store.emails[e] !in store.codes {
        return Some(InvalidCode);
      }
      var stored := store.codes[store.emails[e]];
      if stored.expires < env.now {
        return Some(CodeExpired);
      }
      return if given == "" || given != stored.text then Some(InvalidCode) else None;
    }

    method VerifyEmail(email: string, code: string, env: Env) returns (r: Result<Reply, Error>)
      modifies `store
      ensures (store, r) == AfterVerify(old(store), email, code, settings, env)
      ensures store.emails == old(store).emails && store.codes.Keys <= old(store).codes.Keys
      ensures r.Ok? ==>
        && CodeFits(old(store), Fold(email), TrimSpace(code), env.now)
        && store.codes == old(store).codes - {old(store).emails[Fold(email)]}
      ensures store.tokens.Keys == old(store).tokens.Keys + if r.Ok? then {env.token} else {}
    {
      VerifyTables(store, email, code, settings, env);
      VerifyKeepsEmails(store, email, code, settings, env);
      var problem := VerifyResetCode(email, code, env);
      if problem.Some? {
        return Err(problem.value);
      }
      var user := store.emails[Fold(email)];
      if VerifyUser in env.faults {
        return Err(StoreError);
      }
      store := MarkedVerified(store, user);
      if DeleteCode in env.faults {
        return Err(StoreError);
      }
      store := store.(codes := store.codes - {user});
      var tenancy := EnsurePrimaryTenant(user, env.tenants);
      if tenancy.None? {
        return Err(StoreError);
      }
      r := NewAuthResult(user, tenancy.value, env);
    }

    method ResetPassword(email: string, code: string, newPassword: string, env: Env) returns (r: Result<Reply, Error>)
      modifies `store
      ensures (store, r) == AfterReset(old(store), email, code, newPassword, env)
      ensures store == old(store).(users := store.users, codes := store.codes)
      ensures r.Ok? ==>
        && CodeFits(old(store), Fold(email), TrimSpace(code), env.now)
        && old(store).emails[Fold(email)] in store.users && old(store).emails[Fold(email)] !in store.codes
        && store.users[old(store).emails[Fold(email)]].password == Some(TrimSpace(newPassword))
    {
      ResetSetsPassword(store, email, code, newPassword, env);
      var p := TrimSpace(newPassword);
      if p == "" {
        return Err(MissingInput);
      }
      var problem := VerifyResetCode(email, code, env);
      if problem.Some? {
        return Err(problem.value);
      }
      if HashPassword in env.faults || SetPassword in env.faults {
        return Err(StoreError);
      }
      var user := store.emails[Fold(email)];
      store := store.(users := store.users[user := store.users[user].(password := Some(p))]);
      if DeleteCode in env.faults {
        return Err(StoreError);
      }
      store := store.(codes := store.codes - {user});
      return Ok(Done);
    }

    method RefreshSession(token: string, env: Env) returns (r: Result<Reply, Error>)
      modifies `store
      ensures (store, r) == AfterRefresh(old(store), token, settings, env)
      ensures store.codes == old(store).codes
      ensures r.Ok? ==>
        && TrimSpace(token) in old(store).tokens
        && store.tokens.Keys == old(store).tokens.Keys - {TrimSpace(token)} + {env.token}
      ensures r.Err? ==> store.tokens.Keys <= old(store).tokens.Keys
    {
      RefreshTables(store, token, settings, env);
      var raw := TrimSpace(token);
      if raw == "" {
        return Err(MissingInput);
      }
      if GetToken in env.faults {
        return Err(StoreError);
      }
      if raw !in store.tokens || store.tokens[raw].expires < env.now {
        return Err(InvalidCredentials);
      }
      var user := store.tokens[raw].user;
      if GetUser in env.faults {
        return Err(StoreError);
      }
      if user !in store.users || !store.users[user].verified {
        return Err(InvalidCredentials);
      }
      if DeleteToken in env.faults {
        return Err(StoreError);
      }
      store := store.(tokens := store.tokens - {raw});
      var tenancy := EnsurePrimaryTenant(user, env.tenants);
      if tenancy.None? {
        return Err(StoreError);
      }
      r := NewAuthResult(user, tenancy.value, env);
    }

    method LogOut(token: string, env: Env) returns (r: Result<Reply, Error>)
      modifies `store
      ensures (store, r) == AfterLogout(old(store), token, env)
      ensures store.tokens == if r.Ok? then old(store).tokens - {TrimSpace(token)} else old(store).tokens
    {
      var raw := TrimSpace(token);
      if raw == "" {
        return Err(MissingInput);
      }
      if DeleteToken in env.faults {
        return Err(StoreError);
      }
      store := store.(tokens := store.tokens - {raw});
      return Ok(Done);
    }
  }

  // ----- What holds in every reachable state -----

  /** A refresh token is for a verified user who has a membership whose organisation has a default
      environment. */
  predicate TokenSound(s: Store, t: Token) {
    t.user in s.users && s.users[t.user].verified && Tenants.HasTenant(s.tenants, t.user)
  }

  /** The index on addresses is exact. */
  ghost predicate Indexed(users: map<Uuid, User>, emails: map<string, Uuid>) {
    && (forall e | e in emails :: emails[e] in users && users[emails[e]].email == e)
    && (forall u | u in users :: users[u].email in emails && emails[users[u].email] == u)
  }

  ghost predicate Invariant(s: Store) {
    && Indexed(s.users, s.emails) && Tenants.Sound(s.tenants)
    && (forall t | t in s.tokens :: TokenSound(s, s.tokens[t]))
    && (forall u | u in s.codes :: u in s.users)
    && (forall k | k in s.identities :: s.identities[k] in s.users)
  }

  /** Whoever could hold a token before can hold one afterwards. */
  ghost predicate Grows(s: Store, after: Store) {
    && (forall u | u in s.users :: u in after.users && (s.users[u].verified ==> after.users[u].verified))
    && Tenants.Extends(s.tenants, after.tenants)
  }

  lemma GrownTokens(s: Store, after: Store)
    requires Grows(s, after) && forall t | t in s.tokens :: TokenSound(s, s.tokens[t])
    requires forall t | t in after.tokens :: t in s.tokens && after.tokens[t] == s.tokens[t]
    ensures forall t | t in after.tokens :: TokenSound(after, after.tokens[t])
  {
    forall t | t in after.tokens
      ensures TokenSound(after, after.tokens[t])
    {
      assert TokenSound(s, s.tokens[t]);
    }
  }

  lemma OpenedKeeps(s: Store, user: Uuid, c: Settings, env: Env)
    requires Invariant(s) && user in s.users && s.users[user].verified
    ensures Invariant(Opened(s, user, c, env).0)
  {
    HousedKeeps(s, user, env.tenants);
  }

  lemma HousedKeeps(s: Store, user: Uuid, env: Tenants.Env)
    requires Invariant(s)
    ensures var (tenants, tenancy) := Tenants.Ensured(s.tenants, user, env);
            && Invariant(s.(tenants := tenants))
            && (tenancy.Some? ==> Tenants.HasTenant(tenants, user))
  {
    Tenants.EnsuredKeeps(s.tenants, user, env);
    GrownTokens(s, s.(tenants := Tenants.Ensured(s.tenants, user, env).0));
  }

  lemma NewUserKeeps(s: Store, id: Uuid, u: User)
    requires Invariant(s) && id !in s.users && u.email !in s.emails
    ensures Invariant(WithUser(s, id, u))
  {
    GrownTokens(s, WithUser(s, id, u));
  }

  lemma ChangedUserKeeps(s: Store, id: Uuid, u: User)
    requires Invariant(s) && id in s.users && u.email == s.users[id].email && (s.users[id].verified ==> u.verified)
    ensures Invariant(s.(users := s.users[id := u]))
  {
    GrownTokens(s, s.(users := s.users[id := u]));
  }

  lemma SignupKeeps(s: Store, email: string, password: string, c: Settings, env: Env)
    requires Invariant(s)
    ensures Invariant(AfterSignup(s, email, password, c, env).0)
  {
    var e := Fold(email);
    var u := User(e, Some(TrimSpace(password)), false);
    if e !in s.emails && env.user !in s.users {
      NewUserKeeps(s, env.user, u);
      HousedKeeps(WithUser(s, env.user, u), env.user, env.tenants);
    }
  }

  lemma LinkedKeeps(s: Store, user: Uuid, id: Identity, c: Settings, env: Env)
    requires Invariant(s) && user in s.users && s.users[user].verified
    ensures Invariant(Linked(s, user, id, c, env).0)
  {
    var linked := s.(identities := s.identities[id := user]);
    GrownTokens(s, linked);
    OpenedKeeps(linked, user, c, env);
  }

  lemma ConfirmedKeeps(s: Store, user: Uuid, env: Env)
    requires Invariant(s) && user in s.users
    ensures var r := Confirmed(s, user, env);
            r.Some? ==> Invariant(r.value) && user in r.value.users && r.value.users[user].verified
  {
    ChangedUserKeeps(s, user, s.users[user].(verified := true));
  }

  lemma SocialKeeps(s: Store, provider: string, providerUser: string, email: string, c: Settings, env: Env)
    requires Invariant(s)
    ensures Invariant(AfterSocial(s, provider, providerUser, email, c, env).0)
  {
    var id, e := (Fold(provider), TrimSpace(providerUser)), Fold(email);
    if id in s.identities {
      var user := s.identities[id];
      ConfirmedKeeps(s, user, env);
      if Confirmed(s, user, env).Some? {
        OpenedKeeps(Confirmed(s, user, env).value, user, c, env);
      }
    } else if e in s.emails {
      var user := s.emails[e];
      ConfirmedKeeps(s, user, env);
      if Confirmed(s, user, env).Some? {
        LinkedKeeps(Confirmed(s, user, env).value, user, id, c, env);
      }
    } else if env.user !in s.users {
      NewUserKeeps(s, env.user, User(e, None, true));
      LinkedKeeps(WithUser(s, env.user, User(e, None, true)), env.user, id, c, env);
    }
  }

  lemma CodeStoredKeeps(s: Store, user: Uuid, c: Settings, env: Env)
    requires Invariant(s)
    ensures Invariant(CodeStored(s, user, c, env).0)
  {
    GrownTokens(s, CodeStored(s, user, c, env).0);
  }

  lemma VerifyKeeps(s: Store, email: string, code: string, c: Settings, env: Env)
    requires Invariant(s)
    ensures Invariant(AfterVerify(s, email, code, c, env).0)
  {
    var e := Fold(email);
    if e in s.emails {
      var user := s.emails[e];
      var marked := MarkedVerified(s, user);
      ChangedUserKeeps(s, user, s.users[user].(verified := true));
      var consumed := marked.(codes := marked.codes - {user});
      GrownTokens(marked, consumed);
      OpenedKeeps(consumed, user, c, env);
    }
  }

  lemma ResetKeeps(s: Store, email: string, code: string, newPassword: string, env: Env)
    requires Invariant(s)
    ensures Invariant(AfterReset(s, email, code, newPassword, env).0)
  {
    var e := Fold(email);
    if e in s.emails {
      var user := s.emails[e];
      var changed := s.users[user].(password := Some(TrimSpace(newPassword)));
      ChangedUserKeeps(s, user, changed);
      var after := s.(users := s.users[user := changed]);
      GrownTokens(after, after.(codes := after.codes - {user}));
    }
  }

  lemma WithoutTokenKeeps(s: Store, raw: string)
    requires Invariant(s)
    ensures Invariant(s.(tokens := s.tokens - {raw}))
  {
    GrownTokens(s, s.(tokens := s.tokens - {raw}));
  }

  lemma RefreshKeeps(s: Store, token: string, c: Settings, env: Env)
    requires Invariant(s)
    ensures Invariant(AfterRefresh(s, token, c, env).0)
  {
    var raw := TrimSpace(token);
    if raw in s.tokens {
      var user := s.tokens[raw].user;
      assert TokenSound(s, s.tokens[raw]);
      WithoutTokenKeeps(s, raw);
      OpenedKeeps(s.(tokens := s.tokens - {raw}), user, c, env);
    }
  }

  /** Each operation, with whatever faults on the way, keeps the invariant. */
  lemma OpKeepsInvariant(s: Store, op: Op, c: Settings, env: Env)
    requires Invariant(s)
    ensures Invariant(After(s, op, c, env).0)
  {
    match op
    case Signup(email, password) => SignupKeeps(s, email, password, c, env);
    case Signin(email, password) => SigninKeeps(s, email, password, c, env);
    case Social(provider, providerUser, email) => SocialKeeps(s, provider, providerUser, email, c, env);
    case Resend(email) => ResendKeeps(s, email, c, env);
    case Forgot(email) => ForgotKeeps(s, email, c, env);
    case Verify(email, code) => VerifyKeeps(s, email, code, c, env);
    case Reset(email, code, newPassword) => ResetKeeps(s, email, code, newPassword, env);
    case Refresh(token) => RefreshKeeps(s, token, c, env);
    case Logout(token) => WithoutTokenKeeps(s, TrimSpace(token));
  }

  lemma SigninKeeps(s: Store, email: string, password: string, c: Settings, env: Env)
    requires Invariant(s)
    ensures Invariant(AfterSignin(s, email, password, c, env).0)
  {
    var e := Fold(email);
    if e in s.emails && s.users[s.emails[e]].verified {
      OpenedKeeps(s, s.emails[e], c, env);
    }
  }

  lemma ResendKeeps(s: Store, email: string, c: Settings, env: Env)
    requires Invariant(s)
    ensures Invariant(AfterResend(s, email, c, env).0)
  {
    if Fold(email) in s.emails {
      CodeStoredKeeps(s, s.emails[Fold(email)], c, env);
    }
  }

  lemma ForgotKeeps(s: Store, email: string, c: Settings, env: Env)
    requires Invariant(s)
    ensures Invariant(AfterForgot(s, email, c, env).0)
  {
    if Fold(email) in s.emails {
      CodeStoredKeeps(s, s.emails[Fold(email)], c, env);
    }
  }

  // ----- Runs -----

  datatype Request = Request(op: Op, env: Env)

  function Run(s: Store, requests: seq<Request>, c: Settings): Store {
    if requests == [] then s
    else
      var last := requests[|requests| - 1];
      After(Run(s, requests[..|requests| - 1], c), last.op, c, last.env).0
  }

  lemma {:induction false} EmptyKeepsInvariant(requests: seq<Request>, c: Settings)
    ensures Invariant(Run(EMPTY, requests, c))
  {
    if requests != [] {
      var last := requests[|requests| - 1];
      EmptyKeepsInvariant(requests[..|requests| - 1], c);
      OpKeepsInvariant(Run(EMPTY, requests[..|requests| - 1], c), last.op, c, last.env);
    }
  }

  /** Main result on sessions: after any requests, with any faults, each refresh token belongs to a user
      whose address is verified and who has a membership whose organisation has a default environment. */
  lemma TokensAreSound(requests: seq<Request>, c: Settings, t: string)
    requires t in Run(EMPTY, requests, c).tokens
    ensures var s := Run(EMPTY, requests, c);
            var user := s.tokens[t].user;
            && user in s.users && s.users[user].verified
            && exists m, e :: m in s.tenants.members && m.user == user &&
                              e in s.tenants.environments && e.org == m.org && e.isDefault
  {
    EmptyKeepsInvariant(requests, c);
    var s := Run(EMPTY, requests, c);
    assert TokenSound(s, s.tokens[t]);
    var m := Tenants.FirstMembership(s.tenants.members, s.tokens[t].user).value;
    var e := Tenants.DefaultOf(s.tenants.environments, m.org).value;
  }

  // ----- Refreshing -----

  /** With the invariant, once a valid token has been deleted nothing but a failing query, a failing
      insert or a token drawn twice can stop its replacement; the tenant is there and stays as it is. */
  predicate Blocked(s: Store, raw: string, env: Env) {
    || !NoTenantFault(env)
    || GenerateTokens in env.faults || CreateToken in env.faults || (env.token in s.tokens && env.token != raw)
  }

  predicate Deletes(s: Store, raw: string, env: Env) {
    && raw != "" && raw in s.tokens && s.tokens[raw].expires >= env.now
    && GetToken !in env.faults && GetUser !in env.faults && DeleteToken !in env.faults
  }

  /** Main result on refreshing: it succeeds exactly for a known token that has not expired, where
      nothing fails; then it takes that token away and adds one for the same user. Where something
      fails before the deletion nothing changes; where it fails after it, the session is lost. */
  lemma RefreshRotates(s: Store, token: string, c: Settings, env: Env)
    requires Invariant(s)
    ensures var raw := TrimSpace(token);
            var (after, r) := AfterRefresh(s, token, c, env);
            && (r.Ok? <==> Deletes(s, raw, env) && !Blocked(s, raw, env))
            && (r.Ok? ==> after == Rotated(s, raw, c, env) && |after.tokens| == |s.tokens|)
            && (r.Err? ==> after == if Deletes(s, raw, env) then s.(tokens := s.tokens - {raw}) else s)
  {
    var raw := TrimSpace(token);
    if raw in s.tokens {
      assert TokenSound(s, s.tokens[raw]);
      SizeWithout(s.tokens, raw);
      HousedOpens(s.(tokens := s.tokens - {raw}), s.tokens[raw].user, c, env);
      RefreshByToken(s, token, c, env);
    }
  }

  /** Which error a refresh gives before it deletes the token. */
  lemma RefreshErrors(s: Store, token: string, c: Settings, env: Env)
    requires Invariant(s)
    ensures var raw, r := TrimSpace(token), AfterRefresh(s, token, c, env).1;
            && (r == Err(MissingInput) <==> raw == "")
            && (r == Err(InvalidCredentials) <==>
                raw != "" && GetToken !in env.faults && (raw !in s.tokens || s.tokens[raw].expires < env.now))
  {
    if TrimSpace(token) in s.tokens {
      assert TokenSound(s, s.tokens[TrimSpace(token)]);
      OpenedErrors(s.(tokens := s.tokens - {TrimSpace(token)}), s.tokens[TrimSpace(token)].user, c, env);
    }
  }

  function Rotated(s: Store, raw: string, c: Settings, env: Env): Store
    requires raw in s.tokens
  {
    s.(tokens := (s.tokens - {raw})[env.token := Token(s.tokens[raw].user, env.now + c.refreshTTL)])
  }

  predicate NoTenantFault(env: Env) {
    Tenants.GetMembership !in env.tenants.faults && Tenants.GetDefault !in env.tenants.faults
  }

  /** A session for a user who has a tenant leaves the tenants alone. */
  lemma HousedOpens(s: Store, user: Uuid, c: Settings, env: Env)
    requires user in s.users && Tenants.HasTenant(s.tenants, user)
    ensures var (after, r) := Opened(s, user, c, env);
            && (r.Ok? <==>
                NoTenantFault(env) && GenerateTokens !in env.faults && CreateToken !in env.faults &&
                env.token !in s.tokens)
            && after == if r.Ok? then s.(tokens := s.tokens[env.token := Token(user, env.now + c.refreshTTL)]) else s
  {
  }

  lemma RefreshByToken(s: Store, token: string, c: Settings, env: Env)
    requires TrimSpace(token) in s.tokens
    requires var user := s.tokens[TrimSpace(token)].user; user in s.users && s.users[user].verified
    ensures var raw := TrimSpace(token);
            AfterRefresh(s, token, c, env).0 ==
            if Deletes(s, raw, env) then Opened(s.(tokens := s.tokens - {raw}), s.tokens[raw].user, c, env).0 else s
    ensures var raw := TrimSpace(token);
            AfterRefresh(s, token, c, env).1.Ok? <==>
            Deletes(s, raw, env) && Opened(s.(tokens := s.tokens - {raw}), s.tokens[raw].user, c, env).1.Ok?
  {
  }

  lemma SizeWithout(m: map<string, Token>, k: string)
    requires k in m
    ensures |m - {k}| == |m| - 1
  {
    assert (m - {k})[k := m[k]] == m;
  }

  // ----- What a session takes -----

  /** The session in this reply is stored, and it is for `user`, whose address is verified. */
  predicate SessionFor(o: Outcome, user: Uuid, c: Settings, env: Env) {
    o.1.Ok? ==>
      && o.1.value.Session? && o.1.value.user == user && user in o.0.users && o.0.users[user].verified
      && o.1.value.token in o.0.tokens && o.0.tokens[o.1.value.token] == Token(user, env.now + c.refreshTTL)
  }

  lemma OpenedReply(s: Store, user: Uuid, c: Settings, env: Env)
    requires user in s.users && s.users[user].verified
    ensures SessionFor(Opened(s, user, c, env), user, c, env)
    ensures Opened(s, user, c, env).0.identities == s.identities && Opened(s, user, c, env).0.emails == s.emails
  {
  }

  lemma LinkedReply(s: Store, user: Uuid, id: Identity, c: Settings, env: Env)
    requires user in s.users && s.users[user].verified && Linked(s, user, id, c, env).1.Ok?
    ensures var after := Linked(s, user, id, c, env).0;
            after.identities == s.identities[id := user] && after.emails == s.emails
    ensures SessionFor(Linked(s, user, id, c, env), user, c, env)
  {
    OpenedReply(s.(identities := s.identities[id := user]), user, c, env);
  }

  /** A password session takes the password of an account whose address is verified already. */
  lemma SigninNeedsPassword(s: Store, email: string, password: string, c: Settings, env: Env)
    requires AfterSignin(s, email, password, c, env).1.Ok?
    ensures Fold(email) in s.emails && s.emails[Fold(email)] in s.users
    ensures var user := s.emails[Fold(email)];
            && TrimSpace(password) != "" && s.users[user] == User(s.users[user].email, Some(TrimSpace(password)), true)
            && SessionFor(AfterSignin(s, email, password, c, env), user, c, env)
  {
    OpenedReply(s, s.emails[Fold(email)], c, env);
  }

  /** A session by verification takes the code that is stored for the address, before it expires. */
  lemma VerifyNeedsCode(s: Store, email: string, code: string, c: Settings, env: Env)
    requires AfterVerify(s, email, code, c, env).1.Ok?
    ensures Fold(email) in s.emails && s.emails[Fold(email)] in s.codes
    ensures var user := s.emails[Fold(email)];
            && TrimSpace(code) != "" && s.codes[user].text == TrimSpace(code) && env.now <= s.codes[user].expires
            && SessionFor(AfterVerify(s, email, code, c, env), user, c, env)
  {
    var user := s.emails[Fold(email)];
    var marked := MarkedVerified(s, user);
    OpenedReply(marked.(codes := marked.codes - {user}), user, c, env);
  }

  /** A social session is for the user that the provider's account is linked to: the one from before, or
      else the one with the given address, linked from then on. */
  lemma SocialNeedsIdentity(s: Store, provider: string, providerUser: string, email: string, c: Settings, env: Env)
    requires AfterSocial(s, provider, providerUser, email, c, env).1.Ok?
    ensures var id, e := (Fold(provider), TrimSpace(providerUser)), Fold(email);
            var (after, r) := AfterSocial(s, provider, providerUser, email, c, env);
            && id in after.identities
            && (id in s.identities ==> after.identities == s.identities)
            && (id !in s.identities ==> e in after.emails && after.identities == s.identities[id := after.emails[e]])
            && SessionFor((after, r), after.identities[id], c, env)
  {
    var id, e := (Fold(provider), TrimSpace(providerUser)), Fold(email);
    if id in s.identities {
      OpenedReply(Confirmed(s, s.identities[id], env).value, s.identities[id], c, env);
    } else if e in s.emails && s.emails[e] in s.users {
      LinkedReply(Confirmed(s, s.emails[e], env).value, s.emails[e], id, c, env);
    } else {
      LinkedReply(WithUser(s, env.user, User(e, None, true)), env.user, id, c, env);
    }
  }

  // ----- When each operation succeeds -----

  /** A session can be opened for the user: the tenant is found or created, the tokens are generated, and the
      new token can be stored. */
  ghost predicate CanOpen(s: Store, user: Uuid, env: Env) {
    && Tenants.Ensured(s.tenants, user, env.tenants).1.Some?
    && {GenerateTokens, CreateToken} !! env.faults && env.token !in s.tokens
  }

  lemma OpenedIff(s: Store, user: Uuid, c: Settings, env: Env)
    requires user in s.users
    ensures var (after, r), (tenants, tenancy) :=
              Opened(s, user, c, env), Tenants.Ensured(s.tenants, user, env.tenants);
            && (r.Ok? <==> CanOpen(s, user, env)) && (r.Err? ==> r == Err(StoreError))
            && (r.Ok? ==> r == Ok(Session(user, tenancy.value, env.token)))
            && after == s.(tenants := tenants,
                           tokens := if r.Ok? then s.tokens[env.token := Token(user, env.now + c.refreshTTL)]
                                     else s.tokens)
  {
  }

  /** Signing up succeeds exactly for a free address and a password that is not blank, where none of its calls
      fails. Where it fails, nothing has changed, or the user is there, unverified and with that password, but
      without a code, so that the address is taken from then on. */
  lemma SignupSucceedsIff(s: Store, email: string, password: string, c: Settings, env: Env)
    ensures var e, p, (after, r) := Fold(email), TrimSpace(password), AfterSignup(s, email, password, c, env);
            var created := && e !in s.emails && p != "" && env.user !in s.users
                           && {GetUser, HashPassword, CreateUser} !! env.faults;
            && (r.Ok? <==> created && Tenants.Ensured(s.tenants, env.user, env.tenants).1.Some? &&
                           {GenerateCode, PutCode} !! env.faults)
            && (r == Err(EmailExists) <==> GetUser !in env.faults && e in s.emails)
            && (r == Err(MissingInput) <==> GetUser !in env.faults && e !in s.emails && p == "")
            && (!created ==> after == s)
            && (created ==>
                  && after.users == s.users[env.user := User(e, Some(p), false)]
                  && after.emails == s.emails[e := env.user])
            && (r.Err? ==> after.codes == s.codes)
  {
  }

  /** Hence, where nothing fails and the ids are new, every free address is registered with every password
      that is not blank. */
  lemma FreeAddressIsRegistered(s: Store, email: string, password: string, c: Settings, env: Env)
    requires Invariant(s) && Fold(email) !in s.emails && TrimSpace(password) != ""
    requires env.faults == {} && env.tenants.faults == {} && env.user !in s.users && env.tenants.org !in s.tenants.orgs
    requires Tenants.SeedsGo(s.tenants, env.tenants)
    ensures AfterSignup(s, email, password, c, env).1.Ok?
  {
    SignupSucceedsIff(s, email, password, c, env);
    Tenants.TenantIff(s.tenants, env.user, env.tenants);
  }

  /** After a sign-up that failed half-way the address cannot be signed up again; but with another code the
      user can verify it. */
  lemma HalfSignupTakesAddress(s: Store, email: string, password: string, c: Settings, env: Env,
                               again: string, later: Env)
    requires Invariant(s) && AfterSignup(s, email, password, c, env).1.Err?
    requires AfterSignup(s, email, password, c, env).0 != s && later.faults == {}
    ensures var after := AfterSignup(s, email, password, c, env).0;
            && AfterSignup(after, email, again, c, later) == (after, Err(EmailExists))
            && AfterResend(after, email, c, later).1.Ok?
            && CodeFits(AfterResend(after, email, c, later).0, Fold(email), later.code, later.now)
               == (later.code != "" && c.verificationTTL >= 0)
  {
    SignupSucceedsIff(s, email, password, c, env);
    var after := AfterSignup(s, email, password, c, env).0;
    SignupSucceedsIff(after, email, again, c, later);
  }

  /** Signing in succeeds exactly for a verified address with its password, where a session can be opened. */
  lemma SigninSucceedsIff(s: Store, email: string, password: string, c: Settings, env: Env)
    requires Invariant(s)
    ensures var e, p, (after, r) := Fold(email), TrimSpace(password), AfterSignin(s, email, password, c, env);
            var accepted := && GetUser !in env.faults && e in s.emails && p != ""
                            && s.users[s.emails[e]].verified && s.users[s.emails[e]].password == Some(p);
            && (r.Ok? <==> accepted && CanOpen(s, s.emails[e], env))
            && after == s.(tokens := after.tokens, tenants := after.tenants)
            && (!accepted ==> after == s)
  {
    if Fold(email) in s.emails {
      OpenedIff(s, s.emails[Fold(email)], c, env);
    }
  }

  /** Verifying succeeds exactly for a code that fits, where none of its calls fails. From the first write on the
      address stays verified, and the code goes unless its deletion fails. */
  lemma VerifySucceedsIff(s: Store, email: string, code: string, c: Settings, env: Env)
    ensures var e, (after, r) := Fold(email), AfterVerify(s, email, code, c, env);
            var accepted := CodeFits(s, e, TrimSpace(code), env.now) && {GetUser, GetCode, VerifyUser} !! env.faults;
            && (r.Ok? <==> accepted && DeleteCode !in env.faults && CanOpen(s, s.emails[e], env))
            && (!accepted ==> after == s)
            && (accepted ==>
                  && after.users == s.users[s.emails[e] := s.users[s.emails[e]].(verified := true)]
                  && after.codes == if DeleteCode in env.faults then s.codes else s.codes - {s.emails[e]})
  {
    var e := Fold(email);
    CodeAcceptedIff(s, e, TrimSpace(code), env);
    if CodeProblem(s, e, TrimSpace(code), env).None? {
      var marked := MarkedVerified(s, s.emails[e]);
      OpenedIff(marked.(codes := marked.codes - {s.emails[e]}), s.emails[e], c, env);
    }
  }

  /** Which error the checks on a code give. */
  lemma CodeErrors(s: Store, email: string, code: string, env: Env)
    requires Invariant(s)
    ensures var problem := CodeProblem(s, email, code, env);
            var stored := email in s.emails && s.emails[email] in s.codes;
            && (problem == Some(StoreError) <==> GetUser in env.faults || (email in s.emails && GetCode in env.faults))
            && (problem == Some(CodeExpired) <==>
                {GetUser, GetCode} !! env.faults && stored && s.codes[s.emails[email]].expires < env.now)
            && (problem == Some(InvalidCode) <==>
                && GetUser !in env.faults && (email in s.emails ==> GetCode !in env.faults)
                && (!stored || (env.now <= s.codes[s.emails[email]].expires &&
                                (code == "" || code != s.codes[s.emails[email]].text))))
  {
  }

  /** A code is sent to every known address, and again to every unverified one, exactly if no call fails; an
      unknown address is no error. */
  lemma CodeRequestSucceedsIff(s: Store, op: Op, c: Settings, env: Env)
    requires Invariant(s) && (op.Forgot? || op.Resend?)
    ensures var e, (after, r) := Fold(op.email), After(s, op, c, env);
            var refused := op.Resend? && e in s.emails && s.users[s.emails[e]].verified;
            && (r.Ok? <==>
                GetUser !in env.faults && !refused && (e in s.emails ==> {GenerateCode, PutCode} !! env.faults))
            && (r == Err(AlreadyVerified) <==> GetUser !in env.faults && refused)
            && (r == Ok(Done) <==> GetUser !in env.faults && e !in s.emails)
            && (r == Ok(Done) || r.Err? ==> after == s)
  {
  }

  /** The address of the user is verified, or can be marked so. */
  ghost predicate CanConfirm(s: Store, user: Uuid, env: Env) {
    user in s.users && (s.users[user].verified || VerifyUser !in env.faults)
  }

  /** The link from the provider's account to the user can be stored. */
  ghost predicate CanLink(s: Store, provider: string, user: Uuid, env: Env) {
    CreateIdentity !in env.faults && forall k | k in s.identities :: !(k.0 == provider && s.identities[k] == user)
  }

  /** The user that a social sign-in is for. */
  ghost function SocialUser(s: Store, id: Identity, email: string, env: Env): Uuid {
    if id in s.identities then s.identities[id] else if email in s.emails then s.emails[email] else env.user
  }

  ghost predicate CanSignInAs(s: Store, id: Identity, email: string, env: Env) {
    var user := SocialUser(s, id, email, env);
    && {GetIdentity, GetUser} !! env.faults && CanOpen(s, user, env)
    && (id !in s.identities ==> CanLink(s, id.0, user, env))
    && if id in s.identities || email in s.emails then CanConfirm(s, user, env)
       else CreateUser !in env.faults && user !in s.users
  }

  /** How a social sign-in ends that names a provider, an account and an address. */
  ghost predicate SignsInAs(s: Store, id: Identity, e: string, env: Env, o: Outcome) {
    var user := SocialUser(s, id, e, env);
    && (o.1.Ok? <==> CanSignInAs(s, id, e, env))
    && (o.1.Err? ==> o.1 == Err(StoreError))
    && (o.1.Ok? ==>
          && o.0.users == s.users[user := if user in s.users then s.users[user].(verified := true)
                                          else User(e, None, true)]
          && o.0.codes == s.codes
          && o.0.emails == if user in s.users then s.emails else s.emails[e := user])
  }

  ghost predicate IsComplete(provider: string, providerUser: string, email: string) {
    Fold(provider) in {"google", "github"} && TrimSpace(providerUser) != "" && Fold(email) != ""
  }

  /** A social sign-in succeeds exactly for Google or GitHub with an account and an address, where none of the
      calls fails that it takes, and no other account of the provider is linked to the user already. The
      user's address is verified then, and no other user and no code has changed. */
  lemma SocialSucceedsIff(s: Store, provider: string, providerUser: string, email: string, c: Settings, env: Env)
    requires Invariant(s)
    ensures var id, e := (Fold(provider), TrimSpace(providerUser)), Fold(email);
            var o := AfterSocial(s, provider, providerUser, email, c, env);
            var supported := id.0 in {"google", "github"};
            && (IsComplete(provider, providerUser, email) ==> SignsInAs(s, id, e, env, o))
            && (!supported ==> o == (s, Err(UnsupportedProvider)))
            && (supported && id.1 == "" ==> o == (s, Err(MissingInput)))
            && (supported && id.1 != "" && e == "" ==> o == (s, Err(EmailRequired)))
  {
    if IsComplete(provider, providerUser, email) {
      if (Fold(provider), TrimSpace(providerUser)) in s.identities {
        KnownIdentitySignsIn(s, provider, providerUser, email, c, env);
      } else if Fold(email) in s.emails {
        KnownAddressLinks(s, provider, providerUser, email, c, env);
        KnownAddressSignsIn(s, (Fold(provider), TrimSpace(providerUser)), Fold(email), c, env);
      } else {
        NewAddressLinks(s, provider, providerUser, email, c, env);
        NewAddressSignsIn(s, (Fold(provider), TrimSpace(providerUser)), Fold(email), c, env);
      }
    }
  }

  lemma KnownIdentitySignsIn(s: Store, provider: string, providerUser: string, email: string, c: Settings, env: Env)
    requires Invariant(s) && IsComplete(provider, providerUser, email)
    requires (Fold(provider), TrimSpace(providerUser)) in s.identities
    ensures SignsInAs(s, (Fold(provider), TrimSpace(providerUser)), Fold(email), env,
                      AfterSocial(s, provider, providerUser, email, c, env))
  {
    var user := s.identities[(Fold(provider), TrimSpace(providerUser))];
    ConfirmedIs(s, user, env);
    if CanConfirm(s, user, env) {
      OpenedIff(Confirmed(s, user, env).value, user, c, env);
    }
  }

  lemma KnownAddressLinks(s: Store, provider: string, providerUser: string, email: string, c: Settings, env: Env)
    requires Invariant(s) && IsComplete(provider, providerUser, email)
    requires (Fold(provider), TrimSpace(providerUser)) !in s.identities && Fold(email) in s.emails
    ensures var user := s.emails[Fold(email)];
            AfterSocial(s, provider, providerUser, email, c, env) ==
            if {GetIdentity, GetUser} !! env.faults && Confirmed(s, user, env).Some?
            then Linked(Confirmed(s, user, env).value, user, (Fold(provider), TrimSpace(providerUser)), c, env)
            else (s, Err(StoreError))
  {
  }

  lemma KnownAddressSignsIn(s: Store, id: Identity, e: string, c: Settings, env: Env)
    requires Invariant(s) && id !in s.identities && e in s.emails
    ensures var user := s.emails[e];
            SignsInAs(s, id, e, env,
                      if {GetIdentity, GetUser} !! env.faults && Confirmed(s, user, env).Some?
                      then Linked(Confirmed(s, user, env).value, user, id, c, env) else (s, Err(StoreError)))
  {
    var user := s.emails[e];
    ConfirmedIs(s, user, env);
    if CanConfirm(s, user, env) {
      LinkedIff(Confirmed(s, user, env).value, user, id, c, env);
    }
  }

  lemma NewAddressLinks(s: Store, provider: string, providerUser: string, email: string, c: Settings, env: Env)
    requires IsComplete(provider, providerUser, email)
    requires (Fold(provider), TrimSpace(providerUser)) !in s.identities && Fold(email) !in s.emails
    ensures AfterSocial(s, provider, providerUser, email, c, env) ==
            if {GetIdentity, GetUser, CreateUser} !! env.faults && env.user !in s.users
            then Linked(WithUser(s, env.user, User(Fold(email), None, true)), env.user,
                        (Fold(provider), TrimSpace(providerUser)), c, env)
            else (s, Err(StoreError))
  {
  }

  lemma NewAddressSignsIn(s: Store, id: Identity, e: string, c: Settings, env: Env)
    requires Invariant(s) && id !in s.identities && e !in s.emails
    ensures SignsInAs(s, id, e, env,
                      if {GetIdentity, GetUser, CreateUser} !! env.faults && env.user !in s.users
                      then Linked(WithUser(s, env.user, User(e, None, true)), env.user, id, c, env)
                      else (s, Err(StoreError)))
  {
    LinkedIff(WithUser(s, env.user, User(e, None, true)), env.user, id, c, env);
  }

  lemma ConfirmedIs(s: Store, user: Uuid, env: Env)
    requires user in s.users
    ensures Confirmed(s, user, env).Some? <==> CanConfirm(s, user, env)
    ensures CanConfirm(s, user, env) ==>
              Confirmed(s, user, env).value == s.(users := s.users[user := s.users[user].(verified := true)])
  {
    assert s.users[user].verified ==> s.users == s.users[user := s.users[user].(verified := true)];
  }

  lemma LinkedIff(s: Store, user: Uuid, id: Identity, c: Settings, env: Env)
    requires user in s.users && id !in s.identities
    ensures var (after, r) := Linked(s, user, id, c, env);
            && (r.Ok? <==> CanLink(s, id.0, user, env) && CanOpen(s, user, env)) && (r.Err? ==> r == Err(StoreError))
            && after.users == s.users && after.codes == s.codes && after.emails == s.emails
  {
    OpenedIff(s.(identities := s.identities[id := user]), user, c, env);
  }

  // ----- What each operation is for -----

  /** The code is the one that is stored for the address, and it has not expired. */
  predicate CodeFits(s: Store, email: string, code: string, now: int) {
    && email in s.emails && s.emails[email] in s.users && s.emails[email] in s.codes
    && now <= s.codes[s.emails[email]].expires && code != "" && code == s.codes[s.emails[email]].text
  }

  /** A code is accepted exactly if it fits and neither query fails. */
  lemma CodeAcceptedIff(s: Store, email: string, code: string, env: Env)
    ensures CodeProblem(s, email, code, env).None? <==>
            GetUser !in env.faults && GetCode !in env.faults && CodeFits(s, email, code, env.now)
  {
  }

  /** A new code replaces the one before, whose holder can no longer use it: afterwards exactly the new
      code is accepted, until it expires. Nothing but the codes has changed. */
  lemma OnlyTheLatestCodeFits(s: Store, op: Op, c: Settings, env: Env, given: string, now: int)
    requires op.Forgot? || op.Resend?
    requires After(s, op, c, env).1.Ok? && Fold(op.email) in s.emails && s.emails[Fold(op.email)] in s.users
    ensures var after := After(s, op, c, env).0;
            && (CodeFits(after, Fold(op.email), given, now) <==>
                given == env.code && given != "" && now <= env.now + c.verificationTTL)
            && after == s.(codes := after.codes)
            && (forall u | u != s.emails[Fold(op.email)] :: u in s.codes <==> u in after.codes)
            && (forall u | u in s.codes && u != s.emails[Fold(op.email)] :: after.codes[u] == s.codes[u])
  {
  }

  /** Where nothing fails, the reply to a forgotten password is success for every address, so that it does not
      tell which ones are known; a code is accepted afterwards for exactly the known ones. The reply to a
      repeated verification tells the addresses that are verified, and no others. */
  lemma RepliesToCodeRequests(s: Store, email: string, c: Settings, env: Env)
    requires Invariant(s) && env.faults == {} && env.code != "" && c.verificationTTL >= 0
    ensures var (after, r) := AfterForgot(s, email, c, env);
            r.Ok? && (CodeFits(after, Fold(email), env.code, env.now) <==> Fold(email) in s.emails)
    ensures var (after, r) := AfterResend(s, email, c, env);
            && (r.Err? <==> Fold(email) in s.emails && s.users[s.emails[Fold(email)]].verified)
            && (r.Err? ==> after == s)
  {
  }

  /** Once a code has been used, for a verification or for a reset, no code is accepted for the address. */
  lemma UsedCodeIsGone(s: Store, op: Op, c: Settings, env: Env, given: string, now: int)
    requires Invariant(s) && (op.Verify? || op.Reset?) && After(s, op, c, env).1.Ok?
    ensures !CodeFits(After(s, op, c, env).0, Fold(op.email), given, now)
  {
    if op.Verify? {
      VerifyTables(s, op.email, op.code, c, env);
      VerifyKeepsEmails(s, op.email, op.code, c, env);
    } else {
      ResetSetsPassword(s, op.email, op.code, op.newPassword, env);
    }
  }

  lemma VerifyKeepsEmails(s: Store, email: string, code: string, c: Settings, env: Env)
    ensures AfterVerify(s, email, code, c, env).0.emails == s.emails
  {
  }

  /** A reset succeeds exactly with a password and an accepted code, where no write fails. Then the user
      has that password and the code is gone; if only the deletion of the code fails, the password has
      changed all the same; otherwise nothing has. Sessions, addresses and tenants are never touched. */
  lemma ResetSetsPassword(s: Store, email: string, code: string, newPassword: string, env: Env)
    ensures var e, p := Fold(email), TrimSpace(newPassword);
            var (after, r) := AfterReset(s, email, code, newPassword, env);
            var accepted := p != "" && CodeProblem(s, e, TrimSpace(code), env).None?
                            && HashPassword !in env.faults && SetPassword !in env.faults;
            && (r.Ok? <==> accepted && DeleteCode !in env.faults) && (r == Err(MissingInput) <==> p == "")
            && after == s.(users := after.users, codes := after.codes)
            && (accepted ==>
                  && s.emails[e] in after.users && after.users[s.emails[e]].password == Some(p)
                  && after.users[s.emails[e]].verified == s.users[s.emails[e]].verified
                  && (forall u | u in s.users && u != s.emails[e] :: u in after.users && after.users[u] == s.users[u])
                  && (r.Ok? ==> s.emails[e] !in after.codes))
            && (!accepted ==> after == s)
  {
  }

  /** Resetting and signing in: a verified user gets past the checks with the new password and with no
      other one. */
  lemma ResetThenSignin(s: Store, email: string, code: string, newPassword: string, env: Env,
                        c: Settings, given: string, later: Env)
    requires Invariant(s) && AfterReset(s, email, code, newPassword, env).1.Ok?
    requires Fold(email) in s.emails && s.users[s.emails[Fold(email)]].verified && GetUser !in later.faults
    ensures var after := AfterReset(s, email, code, newPassword, env).0;
            AfterSignin(after, email, given, c, later) == (after, Err(InvalidCredentials)) <==>
            TrimSpace(given) != TrimSpace(newPassword)
  {
    ResetSetsPassword(s, email, code, newPassword, env);
    var after := AfterReset(s, email, code, newPassword, env).0;
    if TrimSpace(given) == TrimSpace(newPassword) {
      NoSuchRefusal(after, s.emails[Fold(email)], c, later);
    }
  }

  lemma NoSuchRefusal(s: Store, user: Uuid, c: Settings, env: Env)
    ensures Opened(s, user, c, env).1 != Err(InvalidCredentials)
  {
  }

  /** Logging out fails exactly for a blank token or a failing deletion, and changes nothing then. Otherwise
      it takes away the one token, which cannot be refreshed any more; no other token is touched. */
  lemma LogoutEndsSession(s: Store, token: string, env: Env, c: Settings, later: Env)
    ensures var (after, r) := AfterLogout(s, token, env);
            && (r.Err? <==> TrimSpace(token) == "" || DeleteToken in env.faults)
            && (r.Err? ==> after == s)
            && (r.Ok? ==>
                  && after == s.(tokens := after.tokens)
                  && AfterRefresh(after, token, c, later).1.Err?
                  && (forall t | t in s.tokens && t != TrimSpace(token) ::
                        t in after.tokens && after.tokens[t] == s.tokens[t]))
  {
  }

  /** Signing up: a taken address changes nothing, and no session is opened. On success the address has a
      new unverified user with that password, a tenant and the code that was sent. */
  lemma SignupRegisters(s: Store, email: string, password: string, c: Settings, env: Env)
    requires Tenants.Sound(s.tenants)
    ensures var e, (after, r) := Fold(email), AfterSignup(s, email, password, c, env);
            && after.tokens == s.tokens && after.identities == s.identities
            && (e in s.emails ==> r.Err? && after == s)
            && (r.Ok? ==>
                  && r.value.Registered? && r.value.newUser == env.user && env.user !in s.users
                  && after.users == s.users[env.user := User(e, Some(TrimSpace(password)), false)]
                  && after.emails == s.emails[e := env.user]
                  && after.codes == s.codes[env.user := Code(env.code, env.now + c.verificationTTL)]
                  && Tenants.HasTenant(after.tenants, env.user))
  {
    SignupTables(s, email, password, c, env);
    if AfterSignup(s, email, password, c, env).1.Ok? {
      EnsuredHouses(s.tenants, env.user, env.tenants);
    }
  }

  lemma EnsuredHouses(d: Tenants.Directory, user: Uuid, env: Tenants.Env)
    requires Tenants.Sound(d) && Tenants.Ensured(d, user, env).1.Some?
    ensures Tenants.HasTenant(Tenants.Ensured(d, user, env).0, user)
  {
    Tenants.EnsuredKeeps(d, user, env);
  }

  lemma SignupTables(s: Store, email: string, password: string, c: Settings, env: Env)
    ensures var e, (after, r) := Fold(email), AfterSignup(s, email, password, c, env);
            && after.tokens == s.tokens && after.identities == s.identities
            && (e in s.emails ==> r.Err? && after == s)
            && (r.Ok? ==>
                  && r.value.Registered? && r.value.newUser == env.user && env.user !in s.users
                  && after.users == s.users[env.user := User(e, Some(TrimSpace(password)), false)]
                  && after.emails == s.emails[e := env.user]
                  && after.codes == s.codes[env.user := Code(env.code, env.now + c.verificationTTL)]
                  && Tenants.Ensured(s.tenants, env.user, env.tenants).1.Some?
                  && after.tenants == Tenants.Ensured(s.tenants, env.user, env.tenants).0)
            && (r.Err? ==> after.codes == s.codes)
  {
  }

  /** Signing up and verifying: with the code that was sent, before it expires and where nothing fails, the
      new user gets a session, and before that none by password. */
  lemma SignupThenVerify(s: Store, email: string, password: string, c: Settings, env: Env, code: string, later: Env)
    requires Invariant(s) && AfterSignup(s, email, password, c, env).1.Ok?
    requires later.faults == {} && later.tenants.faults == {} && later.token !in s.tokens
    requires TrimSpace(code) == env.code != "" && later.now <= env.now + c.verificationTTL
    ensures var after := AfterSignup(s, email, password, c, env).0;
            && AfterSignin(after, email, password, c, later) == (after, Err(EmailNotVerified))
            && AfterVerify(after, email, code, c, later).1.Ok?
            && SessionFor(AfterVerify(after, email, code, c, later), env.user, c, later)
  {
    SignupRegisters(s, email, password, c, env);
    var after := AfterSignup(s, email, password, c, env).0;
    assert CodeFits(after, Fold(email), TrimSpace(code), later.now);
    var marked := MarkedVerified(after, env.user);
    var consumed := marked.(codes := marked.codes - {env.user});
    HousedOpens(consumed, env.user, c, later);
    OpenedReply(consumed, env.user, c, later);
  }

  /** A refused sign-in changes nothing; and the checks refuse exactly an unknown address, an unverified one,
      and a password that is blank or not the user's. */
  lemma SigninRefusals(s: Store, email: string, password: string, c: Settings, env: Env)
    requires Invariant(s) && GetUser !in env.faults
    ensures var e, p, (after, r) := Fold(email), TrimSpace(password), AfterSignin(s, email, password, c, env);
            && (r == Err(EmailNotVerified) <==> e in s.emails && !s.users[s.emails[e]].verified)
            && (r == Err(InvalidCredentials) <==>
                e !in s.emails ||
                (s.users[s.emails[e]].verified && (p == "" || s.users[s.emails[e]].password != Some(p))))
            && (r == Err(EmailNotVerified) || r == Err(InvalidCredentials) ==> after == s)
  {
    if Fold(email) in s.emails {
      OpenedErrors(s, s.emails[Fold(email)], c, env);
    }
  }

  lemma OpenedErrors(s: Store, user: Uuid, c: Settings, env: Env)
    ensures Opened(s, user, c, env).1.Err? ==> Opened(s, user, c, env).1 == Err(StoreError)
  {
  }

  // ----- Codes and tokens are good for one use -----

  function Bit(b: bool): nat {
    if b then 1 else 0
  }

  /** A successful refresh with this token. */
  predicate Redeems(s: Store, q: Request, c: Settings, t: string) {
    q.op.Refresh? && TrimSpace(q.op.token) == t && After(s, q.op, c, q.env).1.Ok?
  }

  /** A reply that contains this token. */
  predicate Hands(s: Store, q: Request, c: Settings, t: string) {
    var r := After(s, q.op, c, q.env).1;
    r.Ok? && r.value.Session? && r.value.token == t
  }

  /** A successful verification or reset for this user. */
  predicate Consumes(s: Store, q: Request, c: Settings, user: Uuid) {
    && (q.op.Verify? || q.op.Reset?) && Fold(q.op.email) in s.emails && s.emails[Fold(q.op.email)] == user
    && After(s, q.op, c, q.env).1.Ok?
  }

  /** A reply that tells of a new code for this user. */
  predicate Issues(s: Store, q: Request, c: Settings, user: Uuid) {
    var r := After(s, q.op, c, q.env).1;
    && r.Ok?
    && match r.value
       case Registered(newUser, _, _) => newUser == user
       case CodeSent(_) =>
         (q.op.Resend? || q.op.Forgot?) && Fold(q.op.email) in s.emails && s.emails[Fold(q.op.email)] == user
       case _ => false
  }

  function CountRedeemed(s: Store, requests: seq<Request>, c: Settings, t: string): nat {
    if requests == [] then 0
    else
      var front := requests[..|requests| - 1];
      CountRedeemed(s, front, c, t) + Bit(Redeems(Run(s, front, c), requests[|requests| - 1], c, t))
  }

  function CountHanded(s: Store, requests: seq<Request>, c: Settings, t: string): nat {
    if requests == [] then 0
    else
      var front := requests[..|requests| - 1];
      CountHanded(s, front, c, t) + Bit(Hands(Run(s, front, c), requests[|requests| - 1], c, t))
  }

  function CountConsumed(s: Store, requests: seq<Request>, c: Settings, user: Uuid): nat {
    if requests == [] then 0
    else
      var front := requests[..|requests| - 1];
      CountConsumed(s, front, c, user) + Bit(Consumes(Run(s, front, c), requests[|requests| - 1], c, user))
  }

  function CountIssued(s: Store, requests: seq<Request>, c: Settings, user: Uuid): nat {
    if requests == [] then 0
    else
      var front := requests[..|requests| - 1];
      CountIssued(s, front, c, user) + Bit(Issues(Run(s, front, c), requests[|requests| - 1], c, user))
  }

  /** What a new session does to the tables of codes and tokens. */
  lemma OpenedTables(s: Store, user: Uuid, c: Settings, env: Env)
    ensures var (after, r) := Opened(s, user, c, env);
            && after.codes == s.codes
            && (r.Ok? ==> r.value.Session? && r.value.token == env.token && env.token !in s.tokens)
            && after.tokens.Keys == s.tokens.Keys + if r.Ok? then {env.token} else {}
  {
  }

  lemma LinkedTables(s: Store, user: Uuid, id: Identity, c: Settings, env: Env)
    ensures var (after, r) := Linked(s, user, id, c, env);
            && after.codes == s.codes
            && (r.Ok? ==> r.value.Session? && r.value.token == env.token && env.token !in s.tokens)
            && after.tokens.Keys == s.tokens.Keys + if r.Ok? then {env.token} else {}
  {
    OpenedTables(s.(identities := s.identities[id := user]), user, c, env);
  }

  lemma ConfirmedTables(s: Store, user: Uuid, env: Env)
    requires user in s.users
    ensures var r := Confirmed(s, user, env);
            r.Some? ==> r.value.codes == s.codes && r.value.tokens == s.tokens
  {
  }

  /** Codes stay, and the only token that can be new is the one in the reply. */
  ghost predicate AddsToken(s: Store, o: Outcome, env: Env) {
    && o.0.codes == s.codes
    && (o.1.Ok? ==> o.1.value.Session? && o.1.value.token == env.token && env.token !in s.tokens)
    && o.0.tokens.Keys == s.tokens.Keys + if o.1.Ok? then {env.token} else {}
  }

  lemma OpenedAdds(s: Store, base: Store, user: Uuid, c: Settings, env: Env)
    requires base.codes == s.codes && base.tokens == s.tokens
    ensures AddsToken(s, Opened(base, user, c, env), env)
  {
    OpenedTables(base, user, c, env);
  }

  lemma LinkedAdds(s: Store, base: Store, user: Uuid, id: Identity, c: Settings, env: Env)
    requires base.codes == s.codes && base.tokens == s.tokens
    ensures AddsToken(s, Linked(base, user, id, c, env), env)
  {
    LinkedTables(base, user, id, c, env);
  }

  lemma KnownIdentityAdds(s: Store, provider: string, providerUser: string, email: string, c: Settings, env: Env)
    requires (Fold(provider), TrimSpace(providerUser)) in s.identities
    ensures AddsToken(s, AfterSocial(s, provider, providerUser, email, c, env), env)
  {
    var user := s.identities[(Fold(provider), TrimSpace(providerUser))];
    if user in s.users && Confirmed(s, user, env).Some? {
      ConfirmedTables(s, user, env);
      OpenedAdds(s, Confirmed(s, user, env).value, user, c, env);
    }
  }

  lemma KnownAddressAdds(s: Store, provider: string, providerUser: string, email: string, c: Settings, env: Env)
    requires (Fold(provider), TrimSpace(providerUser)) !in s.identities
    requires Fold(email) in s.emails && s.emails[Fold(email)] in s.users
    ensures AddsToken(s, AfterSocial(s, provider, providerUser, email, c, env), env)
  {
    var user := s.emails[Fold(email)];
    if Confirmed(s, user, env).Some? {
      ConfirmedTables(s, user, env);
      LinkedAdds(s, Confirmed(s, user, env).value, user, (Fold(provider), TrimSpace(providerUser)), c, env);
    }
  }

  lemma NewAddressAdds(s: Store, provider: string, providerUser: string, email: string, c: Settings, env: Env)
    requires (Fold(provider), TrimSpace(providerUser)) !in s.identities
    requires !(Fold(email) in s.emails && s.emails[Fold(email)] in s.users)
    ensures AddsToken(s, AfterSocial(s, provider, providerUser, email, c, env), env)
  {
    LinkedAdds(s, WithUser(s, env.user, User(Fold(email), None, true)), env.user,
               (Fold(provider), TrimSpace(providerUser)), c, env);
  }

  lemma SocialTables(s: Store, provider: string, providerUser: string, email: string, c: Settings, env: Env)
    ensures AddsToken(s, AfterSocial(s, provider, providerUser, email, c, env), env)
  {
    if (Fold(provider), TrimSpace(providerUser)) in s.identities {
      KnownIdentityAdds(s, provider, providerUser, email, c, env);
    } else if Fold(email) in s.emails && s.emails[Fold(email)] in s.users {
      KnownAddressAdds(s, provider, providerUser, email, c, env);
    } else {
      NewAddressAdds(s, provider, providerUser, email, c, env);
    }
  }

  predicate OpensSessions(op: Op) {
    op.Signin? || op.Social? || op.Verify? || op.Refresh?
  }

  lemma OtherTables(s: Store, op: Op, c: Settings, env: Env)
    requires !OpensSessions(op)
    ensures var (after, r) := After(s, op, c, env);
            && after.tokens.Keys <= s.tokens.Keys && (r.Ok? ==> !r.value.Session?)
            && (op.Reset? && r.Ok? ==> Fold(op.email) in s.emails && s.emails[Fold(op.email)] in s.codes
                                       && after.codes == s.codes - {s.emails[Fold(op.email)]})
  {
  }

  lemma SigninTables(s: Store, email: string, password: string, c: Settings, env: Env)
    ensures var (after, r) := AfterSignin(s, email, password, c, env);
            && after.codes == s.codes
            && (r.Ok? ==> r.value.Session? && r.value.token == env.token && env.token !in s.tokens)
            && after.tokens.Keys == s.tokens.Keys + if r.Ok? then {env.token} else {}
  {
    if Fold(email) in s.emails {
      OpenedTables(s, s.emails[Fold(email)], c, env);
    }
  }

  lemma RefreshTables(s: Store, token: string, c: Settings, env: Env)
    ensures var raw := TrimSpace(token);
            var (after, r) := AfterRefresh(s, token, c, env);
            && after.codes == s.codes
            && (r.Ok? ==> r.value.Session? && r.value.token == env.token && raw in s.tokens
                          && after.tokens.Keys == s.tokens.Keys - {raw} + {env.token})
            && (r.Err? ==> after.tokens.Keys <= s.tokens.Keys)
  {
    var raw := TrimSpace(token);
    if raw in s.tokens {
      OpenedTables(s.(tokens := s.tokens - {raw}), s.tokens[raw].user, c, env);
    }
  }

  lemma TokenBudget(s: Store, q: Request, c: Settings, t: string)
    ensures Bit(t in After(s, q.op, c, q.env).0.tokens) + Bit(Redeems(s, q, c, t)) <=
            Bit(t in s.tokens) + Bit(Hands(s, q, c, t))
  {
    if !OpensSessions(q.op) {
      OtherTables(s, q.op, c, q.env);
    } else {
      match q.op
      case Signin(email, password) => SigninTables(s, email, password, c, q.env);
      case Social(provider, providerUser, email) => SocialTables(s, provider, providerUser, email, c, q.env);
      case Verify(email, code) => VerifyTables(s, email, code, c, q.env);
      case Refresh(token) => RefreshTables(s, token, c, q.env);
    }
  }

  lemma VerifyTables(s: Store, email: string, code: string, c: Settings, env: Env)
    ensures var (after, r) := AfterVerify(s, email, code, c, env);
            && (r.Ok? ==> r.value.Session? && r.value.token == env.token && env.token !in s.tokens)
            && (r.Ok? ==> Fold(email) in s.emails && s.emails[Fold(email)] in s.codes &&
                          after.codes == s.codes - {s.emails[Fold(email)]})
            && after.codes.Keys <= s.codes.Keys
            && after.tokens.Keys == s.tokens.Keys + if r.Ok? then {env.token} else {}
  {
    if CodeProblem(s, Fold(email), TrimSpace(code), env).None? {
      var user := s.emails[Fold(email)];
      var marked := MarkedVerified(s, user);
      OpenedTables(marked.(codes := marked.codes - {user}), user, c, env);
    }
  }

  /** The codes of a user that one operation spends and leaves are at most those it found and issued. */
  ghost predicate CodesWithin(s: Store, q: Request, c: Settings, user: Uuid) {
    Bit(user in After(s, q.op, c, q.env).0.codes) + Bit(Consumes(s, q, c, user)) <=
    Bit(user in s.codes) + Bit(Issues(s, q, c, user))
  }

  lemma CodeBudget(s: Store, q: Request, c: Settings, user: Uuid)
    ensures CodesWithin(s, q, c, user)
  {
    if !OpensSessions(q.op) {
      OtherCodes(s, q, c, user);
    } else {
      match q.op
      case Signin(email, password) => SigninTables(s, email, password, c, q.env);
      case Social(provider, providerUser, email) => SocialTables(s, provider, providerUser, email, c, q.env);
      case Verify(email, code) => VerifyTables(s, email, code, c, q.env);
      case Refresh(token) => RefreshTables(s, token, c, q.env);
    }
  }

  lemma OtherCodes(s: Store, q: Request, c: Settings, user: Uuid)
    requires !OpensSessions(q.op)
    ensures CodesWithin(s, q, c, user)
  {
    match q.op
    case Signup(_, _) => SignupCodes(s, q, c, user);
    case Resend(_) => SentCodes(s, q, c, user);
    case Forgot(_) => SentCodes(s, q, c, user);
    case Reset(_, _, _) => SpentCodes(s, q, c, user);
    case Logout(_) => SpentCodes(s, q, c, user);
  }

  lemma SignupCodes(s: Store, q: Request, c: Settings, user: Uuid)
    requires q.op.Signup?
    ensures CodesWithin(s, q, c, user)
  {
    SignupTables(s, q.op.email, q.op.password, c, q.env);
  }

  lemma SentCodes(s: Store, q: Request, c: Settings, user: Uuid)
    requires q.op.Resend? || q.op.Forgot?
    ensures CodesWithin(s, q, c, user)
  {
  }

  lemma SpentCodes(s: Store, q: Request, c: Settings, user: Uuid)
    requires q.op.Reset? || q.op.Logout?
    ensures CodesWithin(s, q, c, user)
  {
    OtherTables(s, q.op, c, q.env);
  }

  /** Main result: over any run, the successful refreshes with a token are at most the times it was
      handed out (and one, if it was in the table at the start). */
  lemma {:induction false} TokensAreSingleUse(s: Store, requests: seq<Request>, c: Settings, t: string)
    ensures CountRedeemed(s, requests, c, t) + Bit(t in Run(s, requests, c).tokens) <=
            Bit(t in s.tokens) + CountHanded(s, requests, c, t)
  {
    if requests != [] {
      var front, last := requests[..|requests| - 1], requests[|requests| - 1];
      TokensAreSingleUse(s, front, c, t);
      TokenBudget(Run(s, front, c), last, c, t);
    }
  }

  /** Main result: over any run, for each user, the successful verifications and resets together are at
      most the codes issued (and one, if a code was pending at the start). */
  lemma {:induction false} CodesAreSingleUse(s: Store, requests: seq<Request>, c: Settings, user: Uuid)
    ensures CountConsumed(s, requests, c, user) + Bit(user in Run(s, requests, c).codes) <=
            Bit(user in s.codes) + CountIssued(s, requests, c, user)
  {
    if requests != [] {
      var front, last := requests[..|requests| - 1], requests[|requests| - 1];
      CodesAreSingleUse(s, front, c, user);
      CodeBudget(Run(s, front, c), last, c, user);
    }
  }
}
