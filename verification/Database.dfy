/** The tables, the query result cache in front of them, and the repositories. */
module Database {
  import opened Prelude
  import Keys

  datatype Role = ADMIN | USER

  /** A refresh token column or a bearer string: empty, signed by this server (never
      twice with the same serial number), or anything else. */
  datatype Token = NoToken | Signed(serial: nat, uid: string, expires: int) | Forged(text: string)

  datatype AuthRow = AuthRow(uid: string, password: string, salt: string, socialYN: string,
                             refreshToken: Token, userRole: Role)
  datatype Session = Session(uid: string, refreshToken: Token, userRole: Role)
  datatype InfoRow = InfoRow(uid: string, nickname: string, introduce: string)
  datatype LikeRow = LikeRow(postId: int, uid: string)

  datatype Tables = Tables(auth: map<string, AuthRow>, info: map<string, InfoRow>, likes: seq<LikeRow>)

  /** Rows a cached query returned. */
  datatype Rows = Sessions(sessions: seq<Session>) | Infos(infos: seq<InfoRow>) | Likes(likes: seq<LikeRow>) | NoRows

  datatype Cached = Cached(rows: Rows, expiry: int)

  datatype Db = Db(tables: Tables, cache: map<string, Cached>, now: int)

  /** Why a repository call fails. */
  datatype DbError = NotFound(uid: string) | Refused

  const HOUR := 3_600_000

  function LikesOf(likes: seq<LikeRow>, postId: int): seq<LikeRow> {
    if likes == [] then []
    else (if likes[0].postId == postId then [likes[0]] else []) + LikesOf(likes[1..], postId)
  }

  /** The likes of any of these posts, in table order. */
  function LikesIn(likes: seq<LikeRow>, postIds: seq<int>): seq<LikeRow> {
    if likes == [] then []
    else (if likes[0].postId in postIds then [likes[0]] else []) + LikesIn(likes[1..], postIds)
  }

  lemma NoPostsNoLikes(likes: seq<LikeRow>)
    ensures LikesIn(likes, []) == []
  {
  }

  /** What the tables answer to a cached query. */
  function Query(t: Tables, q: Keys.CachedQuery): Rows {
    match q
    case UserSession(uid) =>
      Sessions(if uid in t.auth then [Session(uid, t.auth[uid].refreshToken, t.auth[uid].userRole)] else [])
    case UserInfo(uid) => Infos(if uid in t.info then [t.info[uid]] else [])
    case PostLikes(postId) => Likes(LikesOf(t.likes, postId))
    case _ => NoRows
  }

  predicate IsLive(db: Db, q: Keys.CachedQuery) {
    Keys.CacheId(q) in db.cache && db.now < db.cache[Keys.CacheId(q)].expiry
  }

  /** A query with a cache id: the live entry if there is one, else the tables, kept. */
  function CachedRead(db: Db, q: Keys.CachedQuery, ms: int): (Db, Rows) {
    if IsLive(db, q) then (db, db.cache[Keys.CacheId(q)].rows)
    else
      (db.(cache := db.cache[Keys.CacheId(q) := Cached(Query(db.tables, q), db.now + ms)]), Query(db.tables, q))
  }

  function Uncached(db: Db, q: Keys.CachedQuery): Db {
    db.(cache := db.cache - {Keys.CacheId(q)})
  }

  predicate IsEmpty(r: Rows) {
    match r
    case Sessions(s) => s == []
    case Infos(i) => i == []
    case Likes(l) => l == []
    case NoRows => true
  }

  /** A lookup that must find a row: a miss is not left in the cache. */
  function Lookup(db: Db, q: Keys.CachedQuery, ms: int): (Db, Rows) {
    var (db', rows) := CachedRead(db, q, ms);
    if IsEmpty(rows) then (Uncached(db', q), rows) else (db', rows)
  }

  function SessionOf(uid: string, rows: Rows): Result<Session, DbError> {
    if rows.Sessions? && rows.sessions != [] then Ok(rows.sessions[0]) else Err(NotFound(uid))
  }

  function InfoOf(uid: string, rows: Rows): Result<InfoRow, DbError> {
    if rows.Infos? && rows.infos != [] then Ok(rows.infos[0]) else Err(NotFound(uid))
  }

  function LikeListOf(rows: Rows): seq<LikeRow> {
    if rows.Likes? then rows.likes else []
  }

  function WithSession(t: Tables, s: Session): Tables {
    if s.uid !in t.auth then t
    else t.(auth := t.auth[s.uid := t.auth[s.uid].(refreshToken := s.refreshToken, userRole := s.userRole)])
  }

  function WithInfo(t: Tables, row: InfoRow): Tables {
    if row.uid !in t.info then t else t.(info := t.info[row.uid := row])
  }

  /** Deletes every row equal to `row`: the table holds at most one. */
  function WithoutLike(likes: seq<LikeRow>, row: LikeRow): seq<LikeRow> {
    if likes == [] then []
    else (if likes[0] == row then [] else [likes[0]]) + WithoutLike(likes[1..], row)
  }

  /** The connection the repositories share.  `accepted` on a write is the database's
      own verdict: a constraint or a failure may refuse it. */
  class DataSource {
    var auth: map<string, AuthRow>
    var info: map<string, InfoRow>
    var likes: seq<LikeRow>
    var cache: map<string, Cached>
    var clock: int

    constructor (db: Db)
      ensures View() == db
    {
      auth, info, likes := db.tables.auth, db.tables.info, db.tables.likes;
      cache, clock := db.cache, db.now;
    }

    function View(): Db
      reads this
    {
      Db(Tables(auth, info, likes), cache, clock)
    }

    method FindCached(q: Keys.CachedQuery, ms: int) returns (rows: Rows)
      modifies this`cache
      ensures (View(), rows) == CachedRead(old(View()), q, ms)
    {
      var id := Keys.CacheId(q);
      if id in cache && clock < cache[id].expiry {
        rows := cache[id].rows;
      } else {
        rows := Query(View().tables, q);
        cache := cache[id := Cached(rows, clock + ms)];
      }
    }

    method RemoveCache(q: Keys.CachedQuery)
      modifies this`cache
      ensures View() == Uncached(old(View()), q)
    {
      cache := cache - {Keys.CacheId(q)};
    }
  }

  class UserAuthRepository {
    const dataSource: DataSource

    constructor (dataSource: DataSource)
      ensures this.dataSource == dataSource
    {
      this.dataSource := dataSource;
    }

    method SaveUserAuthEntity(row: AuthRow, accepted: bool) returns (r: Result<(), DbError>)
      modifies dataSource`auth
      ensures var db := old(dataSource.View());
              if accepted && row.uid !in db.tables.auth
              then r == Ok(()) && dataSource.View() == db.(tables := db.tables.(auth := db.tables.auth[row.uid := row]))
              else r == Err(Refused) && dataSource.View() == db
    {
      if row.uid in dataSource.auth || !accepted {
        return Err(Refused);
      }
      dataSource.auth := dataSource.auth[row.uid := row];
      r := Ok(());
    }

    method GetUserAuthEntity(uid: string) returns (r: Result<AuthRow, DbError>)
      modifies dataSource`cache
      ensures var db := old(dataSource.View());
              if uid in db.tables.auth then r == Ok(db.tables.auth[uid]) && dataSource.View() == db
              else r == Err(NotFound(uid)) && dataSource.View() == Uncached(db, Keys.UserAuth(uid))
    {
      if uid in dataSource.auth {
        return Ok(dataSource.auth[uid]);
      }
      dataSource.RemoveCache(Keys.UserAuth(uid));
      r := Err(NotFound(uid));
    }

    method IsExist(uid: string) returns (r: bool)
      ensures r == (uid in dataSource.auth)
    {
      r := uid in dataSource.auth;
    }

    method GetUserSessionEntityByUid(uid: string) returns (r: Result<Session, DbError>)
      modifies dataSource`cache
      ensures var end := Lookup(old(dataSource.View()), Keys.UserSession(uid), 6 * HOUR);
              dataSource.View() == end.0 && r == SessionOf(uid, end.1)
    {
      var rows := dataSource.FindCached(Keys.UserSession(uid), 6 * HOUR);
      if IsEmpty(rows) {
        dataSource.RemoveCache(Keys.UserSession(uid));
        return Err(NotFound(uid));
      }
      r := SessionOf(uid, rows);
    }

    /** The cache entry goes first; the row follows if the database accepts it. */
    method UpdateUserAuthByUserSessionEntity(s: Session, accepted: bool) returns (r: Result<(), DbError>)
      modifies dataSource`cache, dataSource`auth
      ensures var db := Uncached(old(dataSource.View()), Keys.UserSession(s.uid));
              && dataSource.View() == db.(tables := if accepted then WithSession(db.tables, s) else db.tables)
              && r == if accepted then Ok(()) else Err(Refused)
    {
      dataSource.RemoveCache(Keys.UserSession(s.uid));
      if !accepted {
        return Err(Refused);
      }
      if s.uid in dataSource.auth {
        var row := dataSource.auth[s.uid].(refreshToken := s.refreshToken, userRole := s.userRole);
        dataSource.auth := dataSource.auth[s.uid := row];
      }
      r := Ok(());
    }
  }

  class UserInfoRepository {
    const dataSource: DataSource

    constructor (dataSource: DataSource)
      ensures this.dataSource == dataSource
    {
      this.dataSource := dataSource;
    }

    method SaveUserInfoEntity(row: InfoRow, accepted: bool) returns (r: Result<(), DbError>)
      modifies dataSource`info
      ensures var db := old(dataSource.View());
              if accepted && row.uid !in db.tables.info
              then r == Ok(()) && dataSource.View() == db.(tables := db.tables.(info := db.tables.info[row.uid := row]))
              else r == Err(Refused) && dataSource.View() == db
    {
      if row.uid in dataSource.info || !accepted {
        return Err(Refused);
      }
      dataSource.info := dataSource.info[row.uid := row];
      r := Ok(());
    }

    method FindUserInfoEntity(uid: string) returns (r: Result<InfoRow, DbError>)
      modifies dataSource`cache
      ensures var end := Lookup(old(dataSource.View()), Keys.UserInfo(uid), 24 * HOUR);
              dataSource.View() == end.0 && r == InfoOf(uid, end.1)
    {
      var rows := dataSource.FindCached(Keys.UserInfo(uid), 24 * HOUR);
      if IsEmpty(rows) {
        dataSource.RemoveCache(Keys.UserInfo(uid));
        return Err(NotFound(uid));
      }
      r := InfoOf(uid, rows);
    }

    method UpdateUserInfoEntity(row: InfoRow, accepted: bool) returns (r: Result<(), DbError>)
      modifies dataSource`cache, dataSource`info
      ensures var db := Uncached(old(dataSource.View()), Keys.UserInfo(row.uid));
              && dataSource.View() == db.(tables := if accepted then WithInfo(db.tables, row) else db.tables)
              && r == if accepted then Ok(()) else Err(Refused)
    {
      dataSource.RemoveCache(Keys.UserInfo(row.uid));
      if !accepted {
        return Err(Refused);
      }
      if row.uid in dataSource.info {
        dataSource.info := dataSource.info[row.uid := row];
      }
      r := Ok(());
    }

    method DeleteUserInfoByUid(uid: string, accepted: bool) returns (r: Result<(), DbError>)
      modifies dataSource`cache, dataSource`info
      ensures var db := Uncached(old(dataSource.View()), Keys.UserInfo(uid));
              && dataSource.View()
              == db.(tables := if accepted then db.tables.(info := db.tables.info - {uid}) else db.tables)
              && r == if accepted then Ok(()) else Err(Refused)
    {
      dataSource.RemoveCache(Keys.UserInfo(uid));
      if !accepted {
        return Err(Refused);
      }
      dataSource.info := dataSource.info - {uid};
      r := Ok(());
    }
  }

  class PostLikeRepository {
    const dataSource: DataSource

    constructor (dataSource: DataSource)
      ensures this.dataSource == dataSource
    {
      this.dataSource := dataSource;
    }

    method IsExist(row: LikeRow) returns (r: bool)
      ensures r == (row in dataSource.likes)
    {
      r := row in dataSource.likes;
    }

    method FindPostLikeEntityList(postId: int) returns (r: seq<LikeRow>)
      modifies dataSource`cache
      ensures var end := CachedRead(old(dataSource.View()), Keys.PostLikes(postId), 24 * HOUR);
              dataSource.View() == end.0 && r == LikeListOf(end.1)
    {
      var rows := dataSource.FindCached(Keys.PostLikes(postId), 24 * HOUR);
      r := LikeListOf(rows);
    }

    /** One query for several posts, which is not cached. */
    method FindPostLikeEntitiesByPostIds(postIds: seq<int>) returns (r: seq<LikeRow>)
      ensures r == LikesIn(dataSource.likes, postIds)
    {
      if |postIds| == 0 {
        NoPostsNoLikes(dataSource.likes);
        return [];
      }
      r := LikesIn(dataSource.likes, postIds);
    }

    /** The storage engine chooses where the new row stands among the others. */
    method SavePostLikeEntity(row: LikeRow, place: nat, accepted: bool) returns (r: Result<(), DbError>)
      requires place <= |dataSource.likes|
      modifies dataSource`cache, dataSource`likes
      ensures var db := Uncached(old(dataSource.View()), Keys.PostLikes(row.postId));
              var t := db.tables;
              if accepted && row !in t.likes
              then r == Ok(())
                && dataSource.View() == db.(tables := t.(likes := t.likes[..place] + [row] + t.likes[place..]))
              else r == Err(Refused) && dataSource.View() == db
    {
      dataSource.RemoveCache(Keys.PostLikes(row.postId));
      if row in dataSource.likes || !accepted {
        return Err(Refused);
      }
      dataSource.likes := dataSource.likes[..place] + [row] + dataSource.likes[place..];
      r := Ok(());
    }

    method RemovePostLikeEntity(row: LikeRow, accepted: bool) returns (r: Result<(), DbError>)
      modifies dataSource`cache, dataSource`likes
      ensures var db := Uncached(old(dataSource.View()), Keys.PostLikes(row.postId));
              && dataSource.View() == db.(tables := if accepted
                                                    then db.tables.(likes := WithoutLike(db.tables.likes, row))
                                                    else db.tables)
              && r == if accepted then Ok(()) else Err(Refused)
    {
      dataSource.RemoveCache(Keys.PostLikes(row.postId));
      if !accepted {
        return Err(Refused);
      }
      dataSource.likes := WithoutLike(dataSource.likes, row);
      r := Ok(());
    }
  }
}
