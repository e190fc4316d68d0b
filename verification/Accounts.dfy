/** What users are given by signing up, logging in and refreshing: a role, a pair of tokens
    that lives as long as configured, and the errors that say why not. */
module Accounts {
  import opened Prelude
  import opened Database
  import opened Tokens
  import CacheRuns
  import Keys

  // ---- Roles ----

  /** Every row but this user's is what it was. */
  predicate OnlyRowOf(auth: map<string, AuthRow>, auth': map<string, AuthRow>, uid: string) {
    auth' - {uid} == auth - {uid}
  }

  lemma CreatedKeepsRole(s: Server, c: Config, uid: string, role: Role, accepted: bool)
    requires uid in s.db.tables.auth
    ensures var auth, auth' := s.db.tables.auth, Created(s, c, uid, role, accepted).0.db.tables.auth;
            && OnlyRowOf(auth, auth', uid) && uid in auth'
            && auth'[uid].userRole == (if accepted then role else auth[uid].userRole)
            && auth'[uid].password == auth[uid].password && auth'[uid].salt == auth[uid].salt
            && auth'[uid].socialYN == auth[uid].socialYN
  {
  }

  /** Whoever signs up becomes an ordinary local user, whatever comes of the tokens; a name
      that is taken is refused, and nothing happens. */
  lemma SignUpMakesUsers(s: Server, c: Config, uid: string, password: string, saved: bool, accepted: bool)
    ensures var (s', r) := SignedUp(s, c, uid, password, saved, accepted);
            var auth, auth' := s.db.tables.auth, s'.db.tables.auth;
            && OnlyRowOf(auth, auth', uid)
            && (if uid in auth then r == Err(UserAlreadyExists(uid)) && s' == s
                else if !saved then r == Err(StoreRefused) && auth' == auth
                else
                  && uid in auth' && auth'[uid].userRole == USER && auth'[uid].socialYN == "N"
                  && auth'[uid].salt == Keys.Decimal(s.db.now)
                  && auth'[uid].password == Stretched(c.sha, password, Keys.Decimal(s.db.now), 3)
                  && (r.Ok? <==> accepted))
  {
    if uid !in s.db.tables.auth && saved {
      var db := CacheRuns.Apply(s.db, CacheRuns.SaveAuth(LocalRow(c, uid, password, s.db.now), true)).0;
      CreatedKeepsRole(s.(db := db), c, uid, USER, accepted);
    }
  }

  /** Whoever comes vouched for is registered as an ordinary social user if unknown, and
      keeps the role otherwise. */
  lemma OauthMakesUsers(s: Server, c: Config, email: Option<string>, saved: bool, accepted: bool)
    requires forall u | u in s.db.tables.auth :: s.db.tables.auth[u].uid == u
    ensures var (s', r) := OauthLoggedIn(s, c, email, saved, accepted);
            var auth, auth' := s.db.tables.auth, s'.db.tables.auth;
            if email.None? || email == Some("") then r == Err(InvalidOauthToken) && s' == s
            else
              var uid := email.value;
              && OnlyRowOf(auth, auth', uid)
              && (if uid in auth then uid in auth' && auth'[uid].userRole == auth[uid].userRole && (r.Ok? <==> accepted)
                  else if !saved then r == Err(StoreRefused) && auth' == auth
                  else
                    && uid in auth' && auth'[uid].userRole == USER && auth'[uid].socialYN == "Y"
                    && auth'[uid].salt == auth'[uid].password == "-"
                    && (r.Ok? <==> accepted))
  {
    if email.Some? && email.value != "" {
      var uid, auth := email.value, s.db.tables.auth;
      if uid in auth {
        CreatedKeepsRole(s, c, uid, auth[uid].userRole, accepted);
      } else if saved {
        var db := CacheRuns.Apply(s.db, CacheRuns.SaveAuth(SocialRow(uid), true)).0;
        CreatedKeepsRole(s.(db := db), c, uid, USER, accepted);
      }
    }
  }

  predicate SameRoles(auth: map<string, AuthRow>, auth': map<string, AuthRow>) {
    auth'.Keys == auth.Keys && forall u | u in auth :: auth'[u].userRole == auth[u].userRole
  }

  lemma OneRoleKept(auth: map<string, AuthRow>, auth': map<string, AuthRow>, uid: string)
    requires OnlyRowOf(auth, auth', uid) && uid in auth && uid in auth' && auth'[uid].userRole == auth[uid].userRole
    ensures SameRoles(auth, auth')
  {
    forall u
      ensures u in auth' <==> u in auth
      ensures u in auth ==> auth'[u].userRole == auth[u].userRole
    {
      assert u in auth - {uid} <==> u in auth && u != uid;
      assert u in auth' - {uid} <==> u in auth' && u != uid;
      if u in auth && u != uid { assert (auth - {uid})[u] == (auth' - {uid})[u]; }
    }
  }

  lemma LoginKeepsRoles(s: Server, c: Config, uid: string, password: string, accepted: bool)
    requires forall u | u in s.db.tables.auth :: s.db.tables.auth[u].uid == u
    ensures SameRoles(s.db.tables.auth, LoggedIn(s, c, uid, password, accepted).0.db.tables.auth)
  {
    var auth := s.db.tables.auth;
    if uid in auth && Stretched(c.sha, password, auth[uid].salt, 3) == auth[uid].password {
      CreatedKeepsRole(s, c, uid, auth[uid].userRole, accepted);
      OneRoleKept(auth, LoggedIn(s, c, uid, password, accepted).0.db.tables.auth, uid);
    }
  }

  /** What verifying answers, by the row: each failure has its own error. */
  lemma VerifyingAnswers(db: Db, x: Token)
    requires CacheRuns.Coherent(db)
    ensures VerifyRefresh(db, x).0.tables == db.tables && VerifyRefresh(db, x).0.now == db.now
    ensures CacheRuns.Coherent(VerifyRefresh(db, x).0)
    ensures VerifyRefresh(db, x).1
         == if !x.Signed? then Err(Malformed)
            else if x.expires <= db.now then Err(Expired)
            else if x.uid !in db.tables.auth then Err(UserNotFound(x.uid))
            else if db.tables.auth[x.uid].refreshToken != x then Err(Mismatch)
            else Ok(Session(x.uid, x, db.tables.auth[x.uid].userRole))
  {
    if x.Signed? { CacheRuns.ApplyIsTransparent(db, CacheRuns.GetSession(x.uid)); }
  }

  /** The same for access tokens, which need a registered user and no more. */
  lemma AccessAnswers(db: Db, x: Token)
    requires CacheRuns.Coherent(db)
    ensures VerifyAccess(db, x).0.tables == db.tables
    ensures VerifyAccess(db, x).1
         == if !x.Signed? then Err(Malformed)
            else if x.expires <= db.now then Err(Expired)
            else if x.uid !in db.tables.auth then Err(UserNotFound(x.uid))
            else Ok(())
  {
    if x.Signed? { CacheRuns.ApplyIsTransparent(db, CacheRuns.GetSession(x.uid)); }
  }

  lemma RefreshKeepsRoles(s: Server, c: Config, x: Option<Token>, accepted: bool)
    requires CacheRuns.Coherent(s.db)
    ensures SameRoles(s.db.tables.auth, Refreshed(s, c, x, accepted).0.db.tables.auth)
  {
    if x.Some? {
      VerifyingAnswers(s.db, x.value);
      var (db, session) := VerifyRefresh(s.db, x.value);
      if session.Ok? {
        CreatedKeepsRole(s.(db := db), c, session.value.uid, session.value.userRole, accepted);
        if x.value.Signed? {
          var end := Created(s.(db := db), c, x.value.uid, session.value.userRole, accepted).0;
          OneRoleKept(s.db.tables.auth, end.db.tables.auth, x.value.uid);
        }
      }
    }
  }

  /** What anyone can ask of the server, `Elsewhere` being the calls that neither insert
      into the authentication table nor update it. */
  datatype Call =
    | SignUp(uid: string, password: string, saved: bool, accepted: bool)
    | Login(uid: string, password: string, accepted: bool)
    | Oauth(email: Option<string>, saved: bool, accepted: bool)
    | Refresh(token: Option<Token>, accepted: bool)
    | Guard(bearer: Option<Token>, cookie: Token)
    | Elsewhere(op: CacheRuns.Op)

  function Served(s: Server, c: Config, call: Call): Server {
    match call
    case SignUp(uid, password, saved, accepted) => SignedUp(s, c, uid, password, saved, accepted).0
    case Login(uid, password, accepted) => LoggedIn(s, c, uid, password, accepted).0
    case Oauth(email, saved, accepted) => OauthLoggedIn(s, c, email, saved, accepted).0
    case Refresh(token, accepted) => Refreshed(s, c, token, accepted).0
    case Guard(bearer, cookie) => s.(db := Guarded(s.db, bearer, cookie).0)
    case Elsewhere(op) =>
      if op.SaveAuth? || op.UpdateSession? then s else s.(db := CacheRuns.Apply(s.db, op).0)
  }

  function After(s: Server, c: Config, calls: seq<Call>): Server {
    if calls == [] then s else Served(After(s, c, calls[..|calls| - 1]), c, calls[|calls| - 1])
  }

  /** The cache is coherent and every row stands under its own name. */
  ghost predicate IsSound(s: Server) {
    CacheRuns.Coherent(s.db) && forall u | u in s.db.tables.auth :: s.db.tables.auth[u].uid == u
  }

  /** Users stay, keep their roles, and join as ordinary users. */
  predicate RolesGrow(auth: map<string, AuthRow>, auth': map<string, AuthRow>) {
    && (forall u | u in auth :: u in auth' && auth'[u].userRole == auth[u].userRole)
    && forall u | u in auth' && u !in auth :: auth'[u].userRole == USER
  }

  lemma CreatedIsSound(s: Server, c: Config, uid: string, role: Role, accepted: bool)
    requires IsSound(s)
    ensures IsSound(Created(s, c, uid, role, accepted).0)
  {
    var latest := Signed(s.serial + 1, uid, s.db.now + c.refreshTtl);
    CacheRuns.ApplyIsTransparent(s.db, CacheRuns.UpdateSession(Session(uid, latest, role), accepted));
  }

  lemma ApplyIsSound(s: Server, op: CacheRuns.Op)
    requires IsSound(s)
    ensures IsSound(s.(db := CacheRuns.Apply(s.db, op).0))
    ensures !op.SaveAuth? && !op.UpdateSession? ==> CacheRuns.Apply(s.db, op).0.tables.auth == s.db.tables.auth
  {
    CacheRuns.ApplyIsTransparent(s.db, op);
  }

  lemma RegistrationIsSound(s: Server, c: Config, call: Call)
    requires IsSound(s) && (call.SignUp? || call.Oauth?)
    ensures IsSound(Served(s, c, call)) && RolesGrow(s.db.tables.auth, Served(s, c, call).db.tables.auth)
  {
    var auth, auth' := s.db.tables.auth, Served(s, c, call).db.tables.auth;
    if call.SignUp? {
      var row := LocalRow(c, call.uid, call.password, s.db.now);
      ApplyIsSound(s, CacheRuns.SaveAuth(row, true));
      var db := CacheRuns.Apply(s.db, CacheRuns.SaveAuth(row, true)).0;
      CreatedIsSound(s.(db := db), c, call.uid, USER, call.accepted);
      SignUpMakesUsers(s, c, call.uid, call.password, call.saved, call.accepted);
      OthersKeepRows(auth, auth', call.uid);
    } else if call.email.Some? && call.email.value != "" {
      var uid := call.email.value;
      ApplyIsSound(s, CacheRuns.SaveAuth(SocialRow(uid), true));
      var db := CacheRuns.Apply(s.db, CacheRuns.SaveAuth(SocialRow(uid), true)).0;
      CreatedIsSound(s.(db := db), c, uid, USER, call.accepted);
      if uid in auth { CreatedIsSound(s, c, uid, auth[uid].userRole, call.accepted); }
      OauthMakesUsers(s, c, call.email, call.saved, call.accepted);
      OthersKeepRows(auth, auth', uid);
    }
  }

  lemma OthersKeepRows(auth: map<string, AuthRow>, auth': map<string, AuthRow>, uid: string)
    requires OnlyRowOf(auth, auth', uid)
    ensures forall u | u != uid :: (u in auth <==> u in auth') && (u in auth ==> auth'[u] == auth[u])
  {
    forall u | u != uid
      ensures (u in auth <==> u in auth') && (u in auth ==> auth'[u] == auth[u])
    {
      assert u in auth - {uid} <==> u in auth;
      assert u in auth' - {uid} <==> u in auth';
      if u in auth { assert (auth - {uid})[u] == auth[u] && (auth' - {uid})[u] == auth'[u]; }
    }
  }

  lemma ServedIsSound(s: Server, c: Config, call: Call)
    requires IsSound(s)
    ensures IsSound(Served(s, c, call)) && RolesGrow(s.db.tables.auth, Served(s, c, call).db.tables.auth)
  {
    match call
    case Login(uid, password, accepted) =>
      LoginKeepsRoles(s, c, uid, password, accepted);
      ApplyIsSound(s, CacheRuns.GetAuth(uid));
      if uid in s.db.tables.auth { CreatedIsSound(s, c, uid, s.db.tables.auth[uid].userRole, accepted); }
    case Refresh(token, accepted) =>
      RefreshKeepsRoles(s, c, token, accepted);
      RefreshIsSound(s, c, token, accepted);
    case Guard(bearer, cookie) => GuardIsSound(s, bearer, cookie);
    case Elsewhere(op) => ApplyIsSound(s, op);
    case _ => RegistrationIsSound(s, c, call);
  }

  lemma RefreshIsSound(s: Server, c: Config, x: Option<Token>, accepted: bool)
    requires IsSound(s)
    ensures IsSound(Refreshed(s, c, x, accepted).0)
  {
    if x.Some? {
      VerifyingAnswers(s.db, x.value);
      var (db, session) := VerifyRefresh(s.db, x.value);
      if session.Ok? { CreatedIsSound(s.(db := db), c, session.value.uid, session.value.userRole, accepted); }
    }
  }

  lemma GuardIsSound(s: Server, bearer: Option<Token>, cookie: Token)
    requires IsSound(s)
    ensures var db := Guarded(s.db, bearer, cookie).0;
            IsSound(s.(db := db)) && db.tables == s.db.tables
  {
    if bearer.Some? && bearer.value.Signed? {
      CacheRuns.ApplyIsTransparent(s.db, CacheRuns.GetSession(bearer.value.uid));
      VerifyingAnswers(CacheRuns.Apply(s.db, CacheRuns.GetSession(bearer.value.uid)).0, cookie);
    }
    VerifyingAnswers(s.db, cookie);
  }

  /** No sequence of calls makes an administrator of anyone who was not one, or takes the
      role from one who was; whoever joins is an ordinary user. */
  lemma {:induction false} NobodyBecomesAdmin(s: Server, c: Config, calls: seq<Call>)
    requires IsSound(s)
    ensures IsSound(After(s, c, calls)) && RolesGrow(s.db.tables.auth, After(s, c, calls).db.tables.auth)
    ensures var auth := After(s, c, calls).db.tables.auth;
            forall u | u in auth && auth[u].userRole == ADMIN ::
              u in s.db.tables.auth && s.db.tables.auth[u].userRole == ADMIN
    decreases |calls|
  {
    if calls != [] {
      NobodyBecomesAdmin(s, c, calls[..|calls| - 1]);
      ServedIsSound(After(s, c, calls[..|calls| - 1]), c, calls[|calls| - 1]);
    }
  }

  // ---- Answers ----

  /** A login is refused for a user who is not there, for a password that hashes otherwise,
      or by the store, and for nothing else. */
  lemma LoginAnswers(s: Server, c: Config, uid: string, password: string, accepted: bool)
    ensures var r, auth := LoggedIn(s, c, uid, password, accepted).1, s.db.tables.auth;
            && (r == Err(UserNotFound(uid)) <==> uid !in auth)
            && (r == Err(InvalidPassword) <==>
                  uid in auth && Stretched(c.sha, password, auth[uid].salt, 3) != auth[uid].password)
            && (r.Err? ==> r.error in {UserNotFound(uid), InvalidPassword, StoreRefused})
            && (r == Err(StoreRefused) ==> !accepted)
  {
  }

  /** A refresh without a token says so; one with a token that does not verify does not say
      why. */
  lemma RefreshAnswers(s: Server, c: Config, x: Option<Token>, accepted: bool)
    ensures var r := Refreshed(s, c, x, accepted).1;
            && (r == Err(TokenRequired) <==> x == None || x == Some(NoToken))
            && (r == Err(InvalidRefreshToken) <==> x.Some? && x != Some(NoToken) && VerifyRefresh(s.db, x.value).1.Err?)
            && (r.Ok? ==> accepted)
  {
  }

  /** Passwords are hashed three times, with the salt each time. */
  lemma ThreeRounds(c: Config, password: string, salt: string)
    ensures var sha := c.sha;
            Stretched(sha, password, salt, 3) == sha(sha(sha(password + salt) + salt) + salt)
  {
    assert Stretched(c.sha, password, salt, 2) == c.sha(Stretched(c.sha, password, salt, 1) + salt);
    assert Stretched(c.sha, password, salt, 1) == c.sha(Stretched(c.sha, password, salt, 0) + salt);
  }

  /** No password logs a social user in, if digests are longer than one character. */
  lemma SocialUsersHaveNoPassword(s: Server, c: Config, uid: string, password: string, accepted: bool)
    requires (forall x :: |c.sha(x)| > 1) && uid in s.db.tables.auth
    requires s.db.tables.auth[uid].password == "-"
    ensures LoggedIn(s, c, uid, password, accepted).1 == Err(InvalidPassword)
  {
    ThreeRounds(c, password, s.db.tables.auth[uid].salt);
  }

  // ---- Lifetimes ----

  /** A pair that was stored serves for exactly as long as configured: the access token for
      its own time, the refresh token for its own, and the two are never the same. */
  lemma PairLives(s: Server, c: Config, uid: string, role: Role, ms: nat)
    requires IsSound(s) && uid in s.db.tables.auth
    ensures var (s', r) := Created(s, c, uid, role, true);
            && r.Ok? && r.value.accessToken != r.value.refreshToken
            && var later := s'.db.(now := s.db.now + ms);
               && (VerifyAccess(later, r.value.accessToken).1.Ok? <==> ms < c.accessTtl)
               && (VerifyRefresh(later, r.value.refreshToken).1.Ok? <==> ms < c.refreshTtl)
               && VerifyRefresh(later, r.value.accessToken).1.Err?
  {
    CreatedIsSound(s, c, uid, role, true);
    var (s', r) := Created(s, c, uid, role, true);
    var later := s'.db.(now := s.db.now + ms);
    CacheRuns.FewerEntries(s'.db, later);
    CacheRuns.ApplyIsTransparent(later, CacheRuns.GetSession(uid));
    VerifyingAnswers(later, r.value.refreshToken);
    VerifyingAnswers(later, r.value.accessToken);
  }
}
