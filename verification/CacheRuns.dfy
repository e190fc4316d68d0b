/** The repositories as a sequence of calls, one after another, against the same calls
    on plain tables: the cache never shows. */
module CacheRuns {
  import opened Prelude
  import opened Database
  import Keys

  /** One repository call, with the database's verdict where it writes, or time passing. */
  datatype Op =
    | SaveAuth(row: AuthRow, accepted: bool)
    | GetAuth(uid: string)
    | GetSession(uid: string)
    | UpdateSession(session: Session, accepted: bool)
    | SaveInfo(info: InfoRow, accepted: bool)
    | FindInfo(uid: string)
    | UpdateInfo(info: InfoRow, accepted: bool)
    | DeleteInfo(uid: string, accepted: bool)
    | ListLikes(postId: int)
    | SaveLike(like: LikeRow, place: nat, accepted: bool)
    | RemoveLike(like: LikeRow, accepted: bool)
    | Pass(ms: nat)

  datatype Answer =
    | Done(result: Result<(), DbError>)
    | AuthFound(auth: Result<AuthRow, DbError>)
    | SessionFound(session: Result<Session, DbError>)
    | InfoFound(info: Result<InfoRow, DbError>)
    | LikesFound(likes: seq<LikeRow>)

  function Verdict(accepted: bool): Answer {
    Done(if accepted then Ok(()) else Err(Refused))
  }

  function InsertedAt(likes: seq<LikeRow>, row: LikeRow, place: nat): seq<LikeRow> {
    var i := if place <= |likes| then place else |likes|;
    likes[..i] + [row] + likes[i..]
  }

  /** What a call does to plain tables, and answers. */
  function Plain(t: Tables, op: Op): (Tables, Answer) {
    match op
    case SaveAuth(row, accepted) =>
      if accepted && row.uid !in t.auth then (t.(auth := t.auth[row.uid := row]), Verdict(true))
      else (t, Verdict(false))
    case GetAuth(uid) => (t, AuthFound(if uid in t.auth then Ok(t.auth[uid]) else Err(NotFound(uid))))
    case GetSession(uid) => (t, SessionFound(SessionOf(uid, Query(t, Keys.UserSession(uid)))))
    case UpdateSession(s, accepted) => (if accepted then WithSession(t, s) else t, Verdict(accepted))
    case SaveInfo(row, accepted) =>
      if accepted && row.uid !in t.info then (t.(info := t.info[row.uid := row]), Verdict(true))
      else (t, Verdict(false))
    case FindInfo(uid) => (t, InfoFound(InfoOf(uid, Query(t, Keys.UserInfo(uid)))))
    case UpdateInfo(row, accepted) => (if accepted then WithInfo(t, row) else t, Verdict(accepted))
    case DeleteInfo(uid, accepted) => (if accepted then t.(info := t.info - {uid}) else t, Verdict(accepted))
    case ListLikes(postId) => (t, LikesFound(LikesOf(t.likes, postId)))
    case SaveLike(row, place, accepted) =>
      if accepted && row !in t.likes then (t.(likes := InsertedAt(t.likes, row, place)), Verdict(true))
      else (t, Verdict(false))
    case RemoveLike(row, accepted) =>
      (if accepted then t.(likes := WithoutLike(t.likes, row)) else t, Verdict(accepted))
    case Pass(_) => (t, Verdict(true))
  }

  /** The query whose cache entry a call drops before it writes. */
  function Dropped(op: Op): Option<Keys.CachedQuery> {
    match op
    case UpdateSession(s, _) => Some(Keys.UserSession(s.uid))
    case UpdateInfo(row, _) => Some(Keys.UserInfo(row.uid))
    case DeleteInfo(uid, _) => Some(Keys.UserInfo(uid))
    case SaveLike(row, _, _) => Some(Keys.PostLikes(row.postId))
    case RemoveLike(row, _) => Some(Keys.PostLikes(row.postId))
    case _ => None
  }

  /** The same call on the database with its cache. */
  function Apply(db: Db, op: Op): (Db, Answer) {
    match op
    case GetAuth(uid) =>
      (if uid in db.tables.auth then db else Uncached(db, Keys.UserAuth(uid)), Plain(db.tables, op).1)
    case GetSession(uid) =>
      var (db', rows) := Lookup(db, Keys.UserSession(uid), 6 * HOUR);
      (db', SessionFound(SessionOf(uid, rows)))
    case FindInfo(uid) =>
      var (db', rows) := Lookup(db, Keys.UserInfo(uid), 24 * HOUR);
      (db', InfoFound(InfoOf(uid, rows)))
    case ListLikes(postId) =>
      var (db', rows) := CachedRead(db, Keys.PostLikes(postId), 24 * HOUR);
      (db', LikesFound(LikeListOf(rows)))
    case Pass(ms) => (db.(now := db.now + ms), Verdict(true))
    case _ =>
      var db' := if Dropped(op).Some? then Uncached(db, Dropped(op).value) else db;
      var (t, answer) := Plain(db.tables, op);
      (db'.(tables := t), answer)
  }

  /** The state after a sequence of calls, and all their answers. */
  function Run(db: Db, ops: seq<Op>): (Db, seq<Answer>) {
    if ops == [] then (db, [])
    else
      var (before, answers) := Run(db, ops[..|ops| - 1]);
      var (after, answer) := Apply(before, ops[|ops| - 1]);
      (after, answers + [answer])
  }

  function PlainRun(t: Tables, ops: seq<Op>): (Tables, seq<Answer>) {
    if ops == [] then (t, [])
    else
      var (before, answers) := PlainRun(t, ops[..|ops| - 1]);
      var (after, answer) := Plain(before, ops[|ops| - 1]);
      (after, answers + [answer])
  }

  /** Each call of a repository is its step of the machine. */
  method Perform(auth: UserAuthRepository, info: UserInfoRepository, likes: PostLikeRepository, op: Op)
      returns (answer: Answer)
    requires auth.dataSource == info.dataSource == likes.dataSource
    modifies auth.dataSource
    ensures (auth.dataSource.View(), answer) == Apply(old(auth.dataSource.View()), op)
  {
    match op {
      case SaveAuth(row, accepted) =>
        var r := auth.SaveUserAuthEntity(row, accepted);
        answer := Done(r);
      case GetAuth(uid) =>
        var r := auth.GetUserAuthEntity(uid);
        answer := AuthFound(r);
      case GetSession(uid) =>
        var r := auth.GetUserSessionEntityByUid(uid);
        answer := SessionFound(r);
      case UpdateSession(session, accepted) =>
        var r := auth.UpdateUserAuthByUserSessionEntity(session, accepted);
        answer := Done(r);
      case SaveInfo(row, accepted) =>
        var r := info.SaveUserInfoEntity(row, accepted);
        answer := Done(r);
      case FindInfo(uid) =>
        var r := info.FindUserInfoEntity(uid);
        answer := InfoFound(r);
      case UpdateInfo(row, accepted) =>
        var r := info.UpdateUserInfoEntity(row, accepted);
        answer := Done(r);
      case DeleteInfo(uid, accepted) =>
        var r := info.DeleteUserInfoByUid(uid, accepted);
        answer := Done(r);
      case ListLikes(postId) =>
        var r := likes.FindPostLikeEntityList(postId);
        answer := LikesFound(r);
      case SaveLike(like, place, accepted) =>
        var i := if place <= |likes.dataSource.likes| then place else |likes.dataSource.likes|;
        var r := likes.SavePostLikeEntity(like, i, accepted);
        answer := Done(r);
      case RemoveLike(like, accepted) =>
        var r := likes.RemovePostLikeEntity(like, accepted);
        answer := Done(r);
      case Pass(ms) =>
        auth.dataSource.clock := auth.dataSource.clock + ms;
        answer := Verdict(true);
    }
  }

  /** A live entry shows what the tables say; and it is not a miss, unless it is a list
      of likes, which may be empty. */
  ghost predicate EntryOk(db: Db, q: Keys.CachedQuery) {
    IsLive(db, q) ==>
      && db.cache[Keys.CacheId(q)].rows == Query(db.tables, q)
      && (q.PostLikes? || !IsEmpty(Query(db.tables, q)))
  }

  ghost predicate Coherent(db: Db) {
    forall q :: EntryOk(db, q)
  }

  /** Dropping entries and letting time pass never hurts. */
  lemma FewerEntries(db: Db, db': Db)
    requires Coherent(db) && db'.tables == db.tables && db.now <= db'.now
    requires forall id | id in db'.cache :: id in db.cache && db'.cache[id] == db.cache[id]
    ensures Coherent(db')
  {
    forall q
      ensures EntryOk(db', q)
    {
      assert EntryOk(db, q);
    }
  }

  /** Reading through a coherent cache answers as the tables do, and keeps it coherent
      once a miss is dropped again. */
  lemma ReadIsTransparent(db: Db, q: Keys.CachedQuery, ms: int)
    requires Coherent(db)
    ensures CachedRead(db, q, ms).1 == Query(db.tables, q)
    ensures q.PostLikes? || !IsEmpty(Query(db.tables, q)) ==> Coherent(CachedRead(db, q, ms).0)
    ensures CachedRead(db, q, ms).0.tables == db.tables
  {
    assert EntryOk(db, q);
    var db' := CachedRead(db, q, ms).0;
    if q.PostLikes? || !IsEmpty(Query(db.tables, q)) {
      forall r
        ensures EntryOk(db', r)
      {
        assert EntryOk(db, r);
        if Keys.CacheId(r) == Keys.CacheId(q) { Keys.CacheIdIsInjective(r, q); }
      }
    }
  }

  lemma LookupIsTransparent(db: Db, q: Keys.CachedQuery, ms: int)
    requires Coherent(db) && !q.PostLikes?
    ensures Lookup(db, q, ms).1 == Query(db.tables, q)
    ensures Coherent(Lookup(db, q, ms).0)
    ensures Lookup(db, q, ms).0.tables == db.tables
  {
    ReadIsTransparent(db, q, ms);
    if IsEmpty(Query(db.tables, q)) {
      FewerEntries(db, Lookup(db, q, ms).0);
    }
  }

  lemma {:induction false} LikesOfSplits(a: seq<LikeRow>, b: seq<LikeRow>, postId: int)
    ensures LikesOf(a + b, postId) == LikesOf(a, postId) + LikesOf(b, postId)
  {
    if a == [] {
      assert a + b == b;
    } else {
      var rest := a[1..];
      LikesOfSplits(rest, b, postId);
      LikesOfCons(a[0], rest + b, postId);
      LikesOfCons(a[0], rest, postId);
      assert a + b == [a[0]] + (rest + b) && a == [a[0]] + rest;
    }
  }

  lemma LikesOfCons(row: LikeRow, rows: seq<LikeRow>, postId: int)
    ensures LikesOf([row] + rows, postId) == (if row.postId == postId then [row] else []) + LikesOf(rows, postId)
  {
    assert ([row] + rows)[1..] == rows;
  }

  lemma InsertLeavesOtherPosts(likes: seq<LikeRow>, row: LikeRow, place: nat, postId: int)
    requires postId != row.postId
    ensures LikesOf(InsertedAt(likes, row, place), postId) == LikesOf(likes, postId)
  {
    var i := if place <= |likes| then place else |likes|;
    LikesOfSplits(likes[..i] + [row], likes[i..], postId);
    LikesOfSplits(likes[..i], [row], postId);
    LikesOfSplits(likes[..i], likes[i..], postId);
    assert likes[..i] + likes[i..] == likes;
  }

  lemma {:induction false} RemoveLeavesOtherPosts(likes: seq<LikeRow>, row: LikeRow, postId: int)
    requires postId != row.postId
    ensures LikesOf(WithoutLike(likes, row), postId) == LikesOf(likes, postId)
  {
    if likes != [] {
      RemoveLeavesOtherPosts(likes[1..], row, postId);
      LikesOfSplits(if likes[0] == row then [] else [likes[0]], WithoutLike(likes[1..], row), postId);
    }
  }

  /** A write changes the answer of the one query it drops, or of one that missed. */
  lemma WriteTouchesDropped(t: Tables, op: Op, q: Keys.CachedQuery)
    requires Dropped(op) != Some(q)
    ensures Query(Plain(t, op).0, q) == Query(t, q) || (!q.PostLikes? && IsEmpty(Query(t, q)))
  {
    match op
    case SaveLike(row, place, _) =>
      if q.PostLikes? { InsertLeavesOtherPosts(t.likes, row, place, q.postId); }
    case RemoveLike(row, _) =>
      if q.PostLikes? { RemoveLeavesOtherPosts(t.likes, row, q.postId); }
    case _ =>
  }

  lemma WriteKeepsCoherent(db: Db, op: Op)
    requires Coherent(db)
    ensures var db' := if Dropped(op).Some? then Uncached(db, Dropped(op).value) else db;
            Coherent(db'.(tables := Plain(db.tables, op).0))
  {
    var db' := (if Dropped(op).Some? then Uncached(db, Dropped(op).value) else db)
               .(tables := Plain(db.tables, op).0);
    forall q
      ensures EntryOk(db', q)
    {
      assert EntryOk(db, q);
      if Dropped(op) != Some(q) { WriteTouchesDropped(db.tables, op, q); }
    }
  }

  /** One call: the same answer, the same tables, and the cache stays coherent. */
  lemma ApplyIsTransparent(db: Db, op: Op)
    requires Coherent(db)
    ensures Coherent(Apply(db, op).0)
    ensures (Apply(db, op).0.tables, Apply(db, op).1) == Plain(db.tables, op)
  {
    match op
    case GetAuth(uid) => FewerEntries(db, Apply(db, op).0);
    case GetSession(uid) => LookupIsTransparent(db, Keys.UserSession(uid), 6 * HOUR);
    case FindInfo(uid) => LookupIsTransparent(db, Keys.UserInfo(uid), 24 * HOUR);
    case ListLikes(postId) => ReadIsTransparent(db, Keys.PostLikes(postId), 24 * HOUR);
    case Pass(_) => FewerEntries(db, Apply(db, op).0);
    case _ => WriteKeepsCoherent(db, op);
  }

  /** The same over any sequence of calls, from any database with a coherent cache. */
  lemma {:induction false} RunIsTransparent(db: Db, ops: seq<Op>)
    requires Coherent(db)
    ensures Coherent(Run(db, ops).0)
    ensures (Run(db, ops).0.tables, Run(db, ops).1) == PlainRun(db.tables, ops)
    decreases |ops|
  {
    if ops != [] {
      var before := ops[..|ops| - 1];
      RunIsTransparent(db, before);
      ApplyIsTransparent(Run(db, before).0, ops[|ops| - 1]);
    }
  }

  /** Cache refinement.  From an empty cache over any tables, every sequence of calls that
      do not overlap gets exactly the answers plain tables would give, and leaves exactly
      the tables they would leave. */
  lemma CacheNeverShows(t: Tables, now: int, ops: seq<Op>)
    ensures var (db, answers) := Run(Db(t, map[], now), ops);
            && Coherent(db)
            && (db.tables, answers) == PlainRun(t, ops)
  {
    RunIsTransparent(Db(t, map[], now), ops);
  }

  // ---- One like per user and post ----

  ghost predicate EachOnce(likes: seq<LikeRow>) {
    forall row :: multiset(likes)[row] <= 1
  }

  lemma {:induction false} RemovalOnlyRemoves(likes: seq<LikeRow>, row: LikeRow, other: LikeRow)
    ensures multiset(WithoutLike(likes, row))[other] == if other == row then 0 else multiset(likes)[other]
  {
    if likes != [] {
      RemovalOnlyRemoves(likes[1..], row, other);
      assert likes == [likes[0]] + likes[1..];
    }
  }

  lemma InsertionAddsOne(likes: seq<LikeRow>, row: LikeRow, place: nat)
    ensures multiset(InsertedAt(likes, row, place)) == multiset(likes) + multiset{row}
  {
    var i := if place <= |likes| then place else |likes|;
    assert likes[..i] + likes[i..] == likes;
  }

  lemma PlainKeepsEachOnce(t: Tables, op: Op)
    requires EachOnce(t.likes)
    ensures EachOnce(Plain(t, op).0.likes)
  {
    if op.SaveLike? {
      InsertionAddsOne(t.likes, op.like, op.place);
    } else if op.RemoveLike? {
      forall other
        ensures multiset(WithoutLike(t.likes, op.like))[other] <= 1
      {
        RemovalOnlyRemoves(t.likes, op.like, other);
      }
    }
  }

  /** No sequence of calls ever makes a user like a post twice. */
  lemma {:induction false} NobodyLikesTwice(t: Tables, now: int, ops: seq<Op>)
    requires EachOnce(t.likes)
    ensures EachOnce(Run(Db(t, map[], now), ops).0.tables.likes)
    decreases |ops|
  {
    CacheNeverShows(t, now, ops);
    if ops != [] {
      var before := ops[..|ops| - 1];
      CacheNeverShows(t, now, before);
      NobodyLikesTwice(t, now, before);
      PlainKeepsEachOnce(PlainRun(t, before).0, ops[|ops| - 1]);
    }
  }

  // ---- Whole calls between the two halves of a write ----

  /** A write with other calls falling between its two halves: the entry is dropped, the
      calls run, and only then do the tables change. */
  function Overlapped(db: Db, op: Op, gap: seq<Op>): Db
    requires Dropped(op).Some?
  {
    var db' := Run(Uncached(db, Dropped(op).value), gap).0;
    db'.(tables := Plain(db'.tables, op).0)
  }

  /** One reader in the gap is enough to bring the old refresh token back. */
  lemma OneReaderIsEnough(db: Db, s: Session)
    requires Coherent(db) && s.uid in db.tables.auth
    requires db.tables.auth[s.uid].refreshToken != s.refreshToken
    ensures var end := Overlapped(db, UpdateSession(s, true), [GetSession(s.uid)]);
            && !Coherent(end)
            && Apply(end, GetSession(s.uid)).1.session.Ok?
            && Apply(end, GetSession(s.uid)).1.session.value.refreshToken == db.tables.auth[s.uid].refreshToken
  {
    var q, gap := Keys.UserSession(s.uid), [GetSession(s.uid)];
    var db0 := Uncached(db, q);
    FewerEntries(db, db0);
    assert gap[..0] == [];
    assert Run(db0, gap).0 == Apply(Run(db0, gap[..0]).0, gap[0]).0;
    LookupIsTransparent(db0, q, 6 * HOUR);
    var end := Overlapped(db, UpdateSession(s, true), gap);
    assert IsLive(end, q) && !EntryOk(end, q);
  }
}
