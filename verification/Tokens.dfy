/** Access and refresh tokens: signing, verifying, and the four calls that rotate them. */
module Tokens {
  import opened Prelude
  import opened Database
  import opened CacheRuns
  import Keys

  datatype Jwt = Jwt(accessToken: Token, refreshToken: Token)

  datatype AuthError =
    | Malformed
    | Expired
    | UserNotFound(uid: string)
    | Mismatch
    | TokenRequired
    | InvalidRefreshToken
    | InvalidPassword
    | InvalidOauthToken
    | UserAlreadyExists(uid: string)
    | StoreRefused
    | Unauthorized

  /** `sha` is the digest the passwords are stretched with. */
  datatype Config = Config(accessTtl: int, refreshTtl: int, sha: string -> string)

  /** The database and the serial number of the next token signed. */
  datatype Server = Server(db: Db, serial: nat)

  function Decode(x: Token, now: int): Result<string, AuthError> {
    match x
    case Signed(_, uid, expires) => if now < expires then Ok(uid) else Err(Expired)
    case _ => Err(Malformed)
  }

  function Created(s: Server, c: Config, uid: string, role: Role, accepted: bool): (Server, Result<Jwt, AuthError>) {
    var jwt := Jwt(Signed(s.serial, uid, s.db.now + c.accessTtl), Signed(s.serial + 1, uid, s.db.now + c.refreshTtl));
    var db := Apply(s.db, UpdateSession(Session(uid, jwt.refreshToken, role), accepted)).0;
    (Server(db, s.serial + 2), if accepted then Ok(jwt) else Err(StoreRefused))
  }

  function VerifyAccess(db: Db, x: Token): (Db, Result<(), AuthError>) {
    var d := Decode(x, db.now);
    if d.Err? then (db, Err(d.error))
    else
      var (db', found) := Apply(db, GetSession(d.value));
      (db', if found.session.Ok? then Ok(()) else Err(UserNotFound(d.value)))
  }

  function VerifyRefresh(db: Db, x: Token): (Db, Result<Session, AuthError>) {
    var d := Decode(x, db.now);
    if d.Err? then (db, Err(d.error))
    else
      var (db', found) := Apply(db, GetSession(d.value));
      (db',
       if found.session.Err? then Err(UserNotFound(d.value))
       else if x != found.session.value.refreshToken then Err(Mismatch)
       else Ok(found.session.value))
  }

  /** The guard on protected routes: a bearer token, if the header is there, and the
      refresh cookie.  The caller becomes the user of the cookie's session. */
  function Guarded(db: Db, bearer: Option<Token>, cookie: Token): (Db, Result<Session, AuthError>) {
    if bearer.None? then (db, Err(Unauthorized))
    else
      var (db', access) := VerifyAccess(db, bearer.value);
      if access.Err? then (db', Err(Unauthorized))
      else
        var (db'', session) := VerifyRefresh(db', cookie);
        (db'', if session.Ok? then session else Err(Unauthorized))
  }

  function Refreshed(s: Server, c: Config, x: Option<Token>, accepted: bool): (Server, Result<Jwt, AuthError>) {
    if x.None? || x.value.NoToken? then (s, Err(TokenRequired))
    else
      var (db, session) := VerifyRefresh(s.db, x.value);
      if session.Err? then (s.(db := db), Err(InvalidRefreshToken))
      else Created(s.(db := db), c, session.value.uid, session.value.userRole, accepted)
  }

  /** The password after so many rounds of salting and hashing. */
  function Stretched(sha: string -> string, password: string, salt: string, rounds: nat): string {
    if rounds == 0 then password else sha(Stretched(sha, password, salt, rounds - 1) + salt)
  }

  function Salt(now: int): string {
    Keys.Decimal(now)
  }

  function LocalRow(c: Config, uid: string, password: string, now: int): AuthRow {
    AuthRow(uid, Stretched(c.sha, password, Salt(now), 3), Salt(now), "N", NoToken, USER)
  }

  function SocialRow(uid: string): AuthRow {
    AuthRow(uid, "-", "-", "Y", NoToken, USER)
  }

  function SignedUp(s: Server, c: Config, uid: string, password: string, saved: bool, accepted: bool)
    : (Server, Result<Jwt, AuthError>)
  {
    if uid in s.db.tables.auth then (s, Err(UserAlreadyExists(uid)))
    else if !saved then (s, Err(StoreRefused))
    else
      var db := Apply(s.db, SaveAuth(LocalRow(c, uid, password, s.db.now), true)).0;
      Created(s.(db := db), c, uid, USER, accepted)
  }

  function LoggedIn(s: Server, c: Config, uid: string, password: string, accepted: bool)
    : (Server, Result<Jwt, AuthError>)
  {
    var (db, found) := Apply(s.db, GetAuth(uid));
    if found.auth.Err? then (s.(db := db), Err(UserNotFound(uid)))
    else
      var row := found.auth.value;
      if Stretched(c.sha, password, row.salt, 3) != row.password then (s.(db := db), Err(InvalidPassword))
      else Created(s.(db := db), c, row.uid, row.userRole, accepted)
  }

  /** `email` is what the identity provider vouches for, if anything. */
  function OauthLoggedIn(s: Server, c: Config, email: Option<string>, saved: bool, accepted: bool)
    : (Server, Result<Jwt, AuthError>)
  {
    if email.None? || email.value == "" then (s, Err(InvalidOauthToken))
    else
      var uid, auth := email.value, s.db.tables.auth;
      if uid !in auth && !saved then (s, Err(StoreRefused))
      else
        var db := if uid in auth then s.db else Apply(s.db, SaveAuth(SocialRow(uid), true)).0;
        var row := db.tables.auth[uid];
        Created(s.(db := db), c, row.uid, row.userRole, accepted)
  }

  class JwtService {
    const repository: UserAuthRepository
    const config: Config
    var serial: nat

    constructor (repository: UserAuthRepository, config: Config)
      ensures this.repository == repository && this.config == config && serial == 0
    {
      this.repository, this.config, serial := repository, config, 0;
    }

    function View(): Server
      reads this, repository.dataSource
    {
      Server(repository.dataSource.View(), serial)
    }

    /** Signing never repeats a token: the encrypted uid inside is salted anew. */
    method GenerateToken(uid: string, ttl: int) returns (token: Token)
      modifies this`serial
      ensures token == Signed(old(serial), uid, repository.dataSource.clock + ttl)
      ensures serial == old(serial) + 1
    {
      token := Signed(serial, uid, repository.dataSource.clock + ttl);
      serial := serial + 1;
    }

    method Create(uid: string, role: Role, accepted: bool) returns (r: Result<Jwt, AuthError>)
      modifies this`serial, repository.dataSource`cache, repository.dataSource`auth
      ensures (View(), r) == Created(old(View()), config, uid, role, accepted)
    {
      var accessToken := GenerateToken(uid, config.accessTtl);
      var refreshToken := GenerateToken(uid, config.refreshTtl);
      var stored := repository.UpdateUserAuthByUserSessionEntity(Session(uid, refreshToken, role), accepted);
      if stored.Err? {
        return Err(StoreRefused);
      }
      r := Ok(Jwt(accessToken, refreshToken));
    }

    method VerifyAccessToken(x: Token) returns (r: Result<(), AuthError>)
      modifies repository.dataSource`cache
      ensures (repository.dataSource.View(), r) == VerifyAccess(old(repository.dataSource.View()), x)
    {
      var decoded := Decode(x, repository.dataSource.clock);
      if decoded.Err? {
        return Err(decoded.error);
      }
      var session := repository.GetUserSessionEntityByUid(decoded.value);
      r := if session.Ok? then Ok(()) else Err(UserNotFound(decoded.value));
    }

    method VerifyRefreshToken(x: Token) returns (r: Result<Session, AuthError>)
      modifies repository.dataSource`cache
      ensures (repository.dataSource.View(), r) == VerifyRefresh(old(repository.dataSource.View()), x)
    {
      var decoded := Decode(x, repository.dataSource.clock);
      if decoded.Err? {
        return Err(decoded.error);
      }
      var session := repository.GetUserSessionEntityByUid(decoded.value);
      if session.Err? {
        return Err(UserNotFound(decoded.value));
      }
      if x != session.value.refreshToken {
        return Err(Mismatch);
      }
      r := Ok(session.value);
    }

    method ReissueJwtByUserSessionEntity(session: Session, accepted: bool) returns (r: Result<Jwt, AuthError>)
      modifies this`serial, repository.dataSource`cache, repository.dataSource`auth
      ensures (View(), r) == Created(old(View()), config, session.uid, session.userRole, accepted)
    {
      r := Create(session.uid, session.userRole, accepted);
    }
  }

  class UserAuthService {
    const jwtService: JwtService
    const repository: UserAuthRepository
    const config: Config

    constructor (jwtService: JwtService)
      ensures this.jwtService == jwtService
      ensures repository == jwtService.repository && config == jwtService.config
    {
      this.jwtService, repository, config := jwtService, jwtService.repository, jwtService.config;
    }

    ghost predicate Wired() {
      repository == jwtService.repository && config == jwtService.config
    }

    method CreateNewUser(uid: string, password: string, saved: bool, accepted: bool) returns (r: Result<Jwt, AuthError>)
      requires Wired()
      modifies jwtService`serial, repository.dataSource`cache, repository.dataSource`auth
      ensures (jwtService.View(), r) == SignedUp(old(jwtService.View()), config, uid, password, saved, accepted)
    {
      var isExist := repository.IsExist(uid);
      if isExist {
        return Err(UserAlreadyExists(uid));
      }
      var salt := Salt(repository.dataSource.clock);
      var hashed := HashingPassword(password, salt);
      var stored := repository.SaveUserAuthEntity(AuthRow(uid, hashed, salt, "N", NoToken, USER), saved);
      if stored.Err? {
        return Err(StoreRefused);
      }
      r := jwtService.Create(uid, USER, accepted);
    }

    method Login(uid: string, password: string, accepted: bool) returns (r: Result<Jwt, AuthError>)
      requires Wired()
      modifies jwtService`serial, repository.dataSource`cache, repository.dataSource`auth
      ensures (jwtService.View(), r) == LoggedIn(old(jwtService.View()), config, uid, password, accepted)
    {
      var found := repository.GetUserAuthEntity(uid);
      if found.Err? {
        return Err(UserNotFound(uid));
      }
      var hashed := HashingPassword(password, found.value.salt);
      if hashed != found.value.password {
        return Err(InvalidPassword);
      }
      r := jwtService.Create(found.value.uid, found.value.userRole, accepted);
    }

    method GoogleOauthLogin(email: Option<string>, saved: bool, accepted: bool) returns (r: Result<Jwt, AuthError>)
      requires Wired()
      modifies jwtService`serial, repository.dataSource`cache, repository.dataSource`auth
      ensures (jwtService.View(), r) == OauthLoggedIn(old(jwtService.View()), config, email, saved, accepted)
    {
      if email.None? || email.value == "" {
        return Err(InvalidOauthToken);
      }
      var uid := email.value;
      var isExist := repository.IsExist(uid);
      if !isExist {
        var stored := repository.SaveUserAuthEntity(SocialRow(uid), saved);
        if stored.Err? {
          return Err(StoreRefused);
        }
      }
      var found := repository.GetUserAuthEntity(uid);
      r := jwtService.Create(found.value.uid, found.value.userRole, accepted);
    }

    method Refresh(x: Option<Token>, accepted: bool) returns (r: Result<Jwt, AuthError>)
      requires Wired()
      modifies jwtService`serial, repository.dataSource`cache, repository.dataSource`auth
      ensures (jwtService.View(), r) == Refreshed(old(jwtService.View()), config, x, accepted)
    {
      if x.None? || x.value.NoToken? {
        return Err(TokenRequired);
      }
      var session := jwtService.VerifyRefreshToken(x.value);
      if session.Err? {
        return Err(InvalidRefreshToken);
      }
      r := jwtService.ReissueJwtByUserSessionEntity(session.value, accepted);
    }

    method HashingPassword(password: string, salt: string) returns (r: string)
      ensures r == Stretched(config.sha, password, salt, 3)
    {
      r := password;
      for i := 0 to 3
        invariant r == Stretched(config.sha, password, salt, i)
      {
        r := config.sha(r + salt);
      }
    }
  }

  /** What the guard reads of a request, and the header it answers for: later stages
      trust it to name the user. */
  class Request {
    const bearer: Option<Token>
    const cookie: Token
    var authenticatedUser: Option<string>

    constructor (bearer: Option<Token>, cookie: Token, authenticatedUser: Option<string>)
      ensures this.bearer == bearer && this.cookie == cookie && this.authenticatedUser == authenticatedUser
    {
      this.bearer, this.cookie, this.authenticatedUser := bearer, cookie, authenticatedUser;
    }
  }

  class AuthGuard {
    const jwtService: JwtService

    constructor (jwtService: JwtService)
      ensures this.jwtService == jwtService
    {
      this.jwtService := jwtService;
    }

    /** Whatever user the client wrote into the header is gone; a user stands there in
        the end only if both tokens verified and a role of the route is met. */
    method CanActivate(request: Request, isPublic: bool, roles: Option<set<Role>>) returns (r: Result<bool, AuthError>)
      modifies request`authenticatedUser, jwtService.repository.dataSource`cache
      ensures var db := old(jwtService.repository.dataSource.View());
              var (db', session) := Guarded(db, request.bearer, request.cookie);
              var met := session.Ok? && (roles.None? || session.value.userRole in roles.value);
              && jwtService.repository.dataSource.View() == (if isPublic then db else db')
              && r == (if isPublic then Ok(true) else if session.Err? then Err(Unauthorized) else Ok(met))
              && request.authenticatedUser == if !isPublic && met then Some(session.value.uid) else None
    {
      request.authenticatedUser := None;
      if isPublic {
        return Ok(true);
      }
      if request.bearer.None? {
        return Err(Unauthorized);
      }
      var verified := jwtService.VerifyAccessToken(request.bearer.value);
      if verified.Err? {
        return Err(Unauthorized);
      }
      var session := jwtService.VerifyRefreshToken(request.cookie);
      if session.Err? {
        return Err(Unauthorized);
      }
      if roles.None? || session.value.userRole in roles.value {
        request.authenticatedUser := Some(session.value.uid);
        return Ok(true);
      }
      r := Ok(false);
    }
  }
}
