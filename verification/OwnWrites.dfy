/** What a write is for: later calls answer with it, until another write to the same thing,
    and nothing else changes its answer. */
module OwnWrites {
  import opened Prelude
  import opened Database
  import opened CacheRuns
  import Keys

  function FoundInfo(db: Db, uid: string): Answer {
    Apply(db, FindInfo(uid)).1
  }

  function FoundSession(db: Db, uid: string): Answer {
    Apply(db, GetSession(uid)).1
  }

  function FoundAuth(db: Db, uid: string): Answer {
    Apply(db, GetAuth(uid)).1
  }

  function FoundLikes(db: Db, postId: int): Answer {
    Apply(db, ListLikes(postId)).1
  }

  /** Every answer of the database about other users and about posts. */
  ghost predicate OthersAnswerAlike(db: Db, db': Db, uid: string) {
    && (forall u | u != uid :: FoundInfo(db', u) == FoundInfo(db, u))
    && (forall u | u != uid :: FoundSession(db', u) == FoundSession(db, u))
    && (forall u | u != uid :: FoundAuth(db', u) == FoundAuth(db, u))
    && forall p :: FoundLikes(db', p) == FoundLikes(db, p)
  }

  function InfoRowOf(t: Tables, uid: string): Result<InfoRow, DbError> {
    if uid in t.info then Ok(t.info[uid]) else Err(NotFound(uid))
  }

  function AuthRowOf(t: Tables, uid: string): Result<AuthRow, DbError> {
    if uid in t.auth then Ok(t.auth[uid]) else Err(NotFound(uid))
  }

  lemma AnswersAreThoseOfTables(db: Db, uid: string, postId: int)
    requires Coherent(db)
    ensures FoundInfo(db, uid) == InfoFound(InfoRowOf(db.tables, uid))
    ensures FoundSession(db, uid)
         == SessionFound(if uid in db.tables.auth
                         then Ok(Session(uid, db.tables.auth[uid].refreshToken, db.tables.auth[uid].userRole))
                         else Err(NotFound(uid)))
    ensures FoundAuth(db, uid) == AuthFound(AuthRowOf(db.tables, uid))
    ensures FoundLikes(db, postId) == LikesFound(LikesOf(db.tables.likes, postId))
  {
    ApplyIsTransparent(db, FindInfo(uid));
    ApplyIsTransparent(db, GetSession(uid));
    ApplyIsTransparent(db, GetAuth(uid));
    ApplyIsTransparent(db, ListLikes(postId));
  }

  /** Rows of other users stay what they were, and so do the likes. */
  predicate OnlyUser(t: Tables, t': Tables, uid: string) {
    && t'.info - {uid} == t.info - {uid} && t'.auth - {uid} == t.auth - {uid} && t'.likes == t.likes
  }

  lemma OthersSeeNothing(db: Db, db': Db, uid: string)
    requires Coherent(db) && Coherent(db') && OnlyUser(db.tables, db'.tables, uid)
    ensures OthersAnswerAlike(db, db', uid)
  {
    forall u | u != uid
      ensures FoundInfo(db', u) == FoundInfo(db, u) && FoundSession(db', u) == FoundSession(db, u)
      ensures FoundAuth(db', u) == FoundAuth(db, u)
    {
      assert u in db.tables.info <==> u in db.tables.info - {uid};
      assert u in db'.tables.info <==> u in db'.tables.info - {uid};
      assert u in db.tables.auth <==> u in db.tables.auth - {uid};
      assert u in db'.tables.auth <==> u in db'.tables.auth - {uid};
      assert u in db.tables.info ==> (db.tables.info - {uid})[u] == db.tables.info[u];
      assert u in db.tables.auth ==> (db.tables.auth - {uid})[u] == db.tables.auth[u];
      AnswersAreThoseOfTables(db, u, 0);
      AnswersAreThoseOfTables(db', u, 0);
    }
    forall p
      ensures FoundLikes(db', p) == FoundLikes(db, p)
    {
      AnswersAreThoseOfTables(db, uid, p);
      AnswersAreThoseOfTables(db', uid, p);
    }
  }

  // ---- Profiles ----

  predicate TouchesInfo(op: Op, uid: string) {
    match op
    case SaveInfo(row, _) => row.uid == uid
    case UpdateInfo(row, _) => row.uid == uid
    case DeleteInfo(u, _) => u == uid
    case _ => false
  }

  lemma {:induction false} InfoStays(t: Tables, ops: seq<Op>, uid: string)
    requires forall op | op in ops :: !TouchesInfo(op, uid)
    ensures uid in PlainRun(t, ops).0.info <==> uid in t.info
    ensures uid in t.info ==> PlainRun(t, ops).0.info[uid] == t.info[uid]
    decreases |ops|
  {
    if ops != [] {
      InfoStays(t, ops[..|ops| - 1], uid);
      assert ops[|ops| - 1] in ops;
    }
  }

  /** An accepted update of a profile is what every later lookup answers. */
  lemma UpdatedProfileIsFound(db: Db, row: InfoRow, ops: seq<Op>)
    requires Coherent(db) && FoundInfo(db, row.uid).info.Ok?
    requires forall op | op in ops :: !TouchesInfo(op, row.uid)
    ensures var (db', answer) := Apply(db, UpdateInfo(row, true));
            && answer == Done(Ok(())) && OthersAnswerAlike(db, db', row.uid)
            && FoundSession(db', row.uid) == FoundSession(db, row.uid)
            && FoundInfo(Run(db', ops).0, row.uid) == InfoFound(Ok(row))
  {
    WriteToInfo(db, UpdateInfo(row, true), row.uid, ops);
  }

  /** A new profile likewise; one that exists already is refused and stays. */
  lemma SavedProfileIsFound(db: Db, row: InfoRow, ops: seq<Op>)
    requires Coherent(db) && (forall op | op in ops :: !TouchesInfo(op, row.uid))
    ensures var (db', answer) := Apply(db, SaveInfo(row, true));
            && OthersAnswerAlike(db, db', row.uid)
            && FoundSession(db', row.uid) == FoundSession(db, row.uid)
            && answer == Done(if FoundInfo(db, row.uid).info.Err? then Ok(()) else Err(Refused))
            && FoundInfo(Run(db', ops).0, row.uid)
               == if FoundInfo(db, row.uid).info.Err? then InfoFound(Ok(row)) else FoundInfo(db, row.uid)
  {
    WriteToInfo(db, SaveInfo(row, true), row.uid, ops);
  }

  /** A deleted profile is found no more. */
  lemma DeletedProfileIsGone(db: Db, uid: string, ops: seq<Op>)
    requires Coherent(db) && (forall op | op in ops :: !TouchesInfo(op, uid))
    ensures var (db', answer) := Apply(db, DeleteInfo(uid, true));
            && answer == Done(Ok(())) && OthersAnswerAlike(db, db', uid)
            && FoundSession(db', uid) == FoundSession(db, uid)
            && FoundInfo(Run(db', ops).0, uid) == InfoFound(Err(NotFound(uid)))
  {
    WriteToInfo(db, DeleteInfo(uid, true), uid, ops);
  }

  lemma WriteToInfo(db: Db, op: Op, uid: string, ops: seq<Op>)
    requires Coherent(db) && TouchesInfo(op, uid) && (forall o | o in ops :: !TouchesInfo(o, uid))
    ensures var db', t' := Apply(db, op).0, Plain(db.tables, op).0;
            && OthersAnswerAlike(db, db', uid) && FoundSession(db', uid) == FoundSession(db, uid)
            && Apply(db, op).1 == Plain(db.tables, op).1
            && FoundInfo(Run(db', ops).0, uid)
               == InfoFound(InfoRowOf(t', uid))
            && FoundInfo(db, uid) == InfoFound(InfoRowOf(db.tables, uid))
  {
    ApplyIsTransparent(db, op);
    var db' := Apply(db, op).0;
    OthersSeeNothing(db, db', uid);
    AnswersAreThoseOfTables(db, uid, 0);
    AnswersAreThoseOfTables(db', uid, 0);
    RunIsTransparent(db', ops);
    InfoStays(db'.tables, ops, uid);
    AnswersAreThoseOfTables(Run(db', ops).0, uid, 0);
  }

  // ---- Sessions ----

  predicate TouchesAuth(op: Op, uid: string) {
    match op
    case SaveAuth(row, _) => row.uid == uid
    case UpdateSession(s, _) => s.uid == uid
    case _ => false
  }

  lemma {:induction false} AuthStays(t: Tables, ops: seq<Op>, uid: string)
    requires forall op | op in ops :: !TouchesAuth(op, uid)
    ensures uid in PlainRun(t, ops).0.auth <==> uid in t.auth
    ensures uid in t.auth ==> PlainRun(t, ops).0.auth[uid] == t.auth[uid]
    decreases |ops|
  {
    if ops != [] {
      AuthStays(t, ops[..|ops| - 1], uid);
      assert ops[|ops| - 1] in ops;
    }
  }

  lemma WriteToAuth(db: Db, op: Op, uid: string, ops: seq<Op>)
    requires Coherent(db) && TouchesAuth(op, uid) && (forall o | o in ops :: !TouchesAuth(o, uid))
    ensures var db', t' := Apply(db, op).0, Plain(db.tables, op).0;
            && OthersAnswerAlike(db, db', uid) && FoundInfo(db', uid) == FoundInfo(db, uid)
            && Apply(db, op).1 == Plain(db.tables, op).1
            && FoundAuth(db, uid) == AuthFound(AuthRowOf(db.tables, uid))
            && var end := Run(db', ops).0;
               && FoundAuth(end, uid) == AuthFound(AuthRowOf(t', uid))
               && FoundSession(end, uid)
                  == SessionFound(if uid in t'.auth
                                  then Ok(Session(uid, t'.auth[uid].refreshToken, t'.auth[uid].userRole))
                                  else Err(NotFound(uid)))
  {
    ApplyIsTransparent(db, op);
    var db' := Apply(db, op).0;
    OthersSeeNothing(db, db', uid);
    AnswersAreThoseOfTables(db, uid, 0);
    AnswersAreThoseOfTables(db', uid, 0);
    RunIsTransparent(db', ops);
    AuthStays(db'.tables, ops, uid);
    AnswersAreThoseOfTables(Run(db', ops).0, uid, 0);
  }

  /** An accepted update of a session is what every later lookup answers; of the user's row
      it changes the token and the role, and nothing else. */
  lemma UpdatedSessionIsFound(db: Db, s: Session, ops: seq<Op>)
    requires Coherent(db) && FoundAuth(db, s.uid).auth.Ok?
    requires forall op | op in ops :: !TouchesAuth(op, s.uid)
    ensures var (db', answer) := Apply(db, UpdateSession(s, true));
            var end, row := Run(db', ops).0, FoundAuth(db, s.uid).auth.value;
            && answer == Done(Ok(())) && OthersAnswerAlike(db, db', s.uid)
            && FoundInfo(db', s.uid) == FoundInfo(db, s.uid)
            && FoundSession(end, s.uid) == SessionFound(Ok(s))
            && FoundAuth(end, s.uid)
               == AuthFound(Ok(AuthRow(row.uid, row.password, row.salt, row.socialYN, s.refreshToken, s.userRole)))
  {
    WriteToAuth(db, UpdateSession(s, true), s.uid, ops);
  }

  /** A new user's row is what every later lookup answers; an existing user is refused and
      keeps what was there. */
  lemma SavedUserIsFound(db: Db, row: AuthRow, ops: seq<Op>)
    requires Coherent(db) && (forall op | op in ops :: !TouchesAuth(op, row.uid))
    ensures var (db', answer) := Apply(db, SaveAuth(row, true));
            var end, isNew := Run(db', ops).0, FoundAuth(db, row.uid).auth.Err?;
            && OthersAnswerAlike(db, db', row.uid) && FoundInfo(db', row.uid) == FoundInfo(db, row.uid)
            && answer == Done(if isNew then Ok(()) else Err(Refused))
            && FoundAuth(end, row.uid) == (if isNew then AuthFound(Ok(row)) else FoundAuth(db, row.uid))
            && (isNew ==>
                  FoundSession(end, row.uid) == SessionFound(Ok(Session(row.uid, row.refreshToken, row.userRole))))
  {
    WriteToAuth(db, SaveAuth(row, true), row.uid, ops);
  }

  // ---- Likes ----

  lemma LikesAnswer(db: Db, op: Op)
    requires Coherent(db) && (op.SaveLike? || op.RemoveLike?)
    ensures var db' := Apply(db, op).0;
            && Apply(db, op).1 == Plain(db.tables, op).1 && db'.tables == Plain(db.tables, op).0
            && forall p :: FoundLikes(db', p) == LikesFound(LikesOf(db'.tables.likes, p))
                           && FoundLikes(db, p) == LikesFound(LikesOf(db.tables.likes, p))
  {
    ApplyIsTransparent(db, op);
    forall p
      ensures FoundLikes(Apply(db, op).0, p) == LikesFound(LikesOf(Apply(db, op).0.tables.likes, p))
      ensures FoundLikes(db, p) == LikesFound(LikesOf(db.tables.likes, p))
    {
      AnswersAreThoseOfTables(db, "", p);
      AnswersAreThoseOfTables(Apply(db, op).0, "", p);
    }
  }

  lemma {:induction false} CountsInList(likes: seq<LikeRow>, row: LikeRow, postId: int)
    ensures multiset(LikesOf(likes, postId))[row] == if row.postId == postId then multiset(likes)[row] else 0
  {
    if likes != [] {
      CountsInList(likes[1..], row, postId);
      assert likes == [likes[0]] + likes[1..];
    }
  }

  /** A like that is given stands once more in its post's list, and no list changes in any
      other way; one that is there already is refused. */
  lemma GivenLikeIsListed(db: Db, like: LikeRow, place: nat, postId: int, row: LikeRow)
    requires Coherent(db)
    ensures var (db', answer) := Apply(db, SaveLike(like, place, true));
            var before, after := FoundLikes(db, postId).likes, FoundLikes(db', postId).likes;
            var isNew := answer == Done(Ok(())) && row == like && postId == like.postId;
            && answer == Done(if like in FoundLikes(db, like.postId).likes then Err(Refused) else Ok(()))
            && multiset(after)[row] == multiset(before)[row] + if isNew then 1 else 0
  {
    var op := SaveLike(like, place, true);
    LikesAnswer(db, op);
    InListIffInTable(db.tables.likes, like);
    CountAfterInsertion(db.tables.likes, like, place, row, postId);
  }

  lemma InListIffInTable(likes: seq<LikeRow>, like: LikeRow)
    ensures like in likes <==> like in LikesOf(likes, like.postId)
  {
    CountsInList(likes, like, like.postId);
    assert like in likes <==> multiset(likes)[like] > 0;
    assert like in LikesOf(likes, like.postId) <==> multiset(LikesOf(likes, like.postId))[like] > 0;
  }

  lemma CountAfterInsertion(likes: seq<LikeRow>, like: LikeRow, place: nat, row: LikeRow, postId: int)
    ensures multiset(LikesOf(InsertedAt(likes, like, place), postId))[row]
         == multiset(LikesOf(likes, postId))[row] + if row == like && postId == like.postId then 1 else 0
  {
    CountsInList(likes, row, postId);
    CountsInList(InsertedAt(likes, like, place), row, postId);
    InsertionAddsOne(likes, like, place);
  }

  /** A like that is taken back stands in no list, and no list changes in any other way. */
  lemma TakenLikeIsGone(db: Db, like: LikeRow, postId: int, row: LikeRow)
    requires Coherent(db)
    ensures var (db', answer) := Apply(db, RemoveLike(like, true));
            var before, after := FoundLikes(db, postId).likes, FoundLikes(db', postId).likes;
            && answer == Done(Ok(()))
            && multiset(after)[row] == if row == like then 0 else multiset(before)[row]
  {
    LikesAnswer(db, RemoveLike(like, true));
    CountAfterRemoval(db.tables.likes, like, row, postId);
  }

  lemma CountAfterRemoval(likes: seq<LikeRow>, like: LikeRow, row: LikeRow, postId: int)
    ensures multiset(LikesOf(WithoutLike(likes, like), postId))[row]
         == if row == like then 0 else multiset(LikesOf(likes, postId))[row]
  {
    CountsInList(likes, row, postId);
    CountsInList(WithoutLike(likes, like), row, postId);
    RemovalOnlyRemoves(likes, like, row);
  }

  // ---- Refusals ----

  predicate IsRefused(op: Op) {
    match op
    case SaveAuth(_, accepted) => !accepted
    case UpdateSession(_, accepted) => !accepted
    case SaveInfo(_, accepted) => !accepted
    case UpdateInfo(_, accepted) => !accepted
    case DeleteInfo(_, accepted) => !accepted
    case SaveLike(_, _, accepted) => !accepted
    case RemoveLike(_, accepted) => !accepted
    case _ => false
  }

  /** A write the database refuses says so, and changes no answer. */
  lemma RefusedWritesDoNothing(db: Db, op: Op, uid: string, postId: int)
    requires Coherent(db) && IsRefused(op)
    ensures var (db', answer) := Apply(db, op);
            && answer == Done(Err(Refused))
            && FoundInfo(db', uid) == FoundInfo(db, uid) && FoundSession(db', uid) == FoundSession(db, uid)
            && FoundAuth(db', uid) == FoundAuth(db, uid) && FoundLikes(db', postId) == FoundLikes(db, postId)
  {
    ApplyIsTransparent(db, op);
    AnswersAreThoseOfTables(db, uid, postId);
    AnswersAreThoseOfTables(Apply(db, op).0, uid, postId);
  }

  // ---- How long answers are kept ----

  /** A session that had to be looked up is kept for six hours, a profile or a list of likes
      for a day, and not a millisecond longer. */
  lemma AnswersAreKept(db: Db, uid: string, postId: int, ms: nat)
    requires !IsLive(db, Keys.UserSession(uid)) && !IsLive(db, Keys.UserInfo(uid))
    requires !IsLive(db, Keys.PostLikes(postId))
    ensures uid in db.tables.auth ==>
              var db' := Apply(db, GetSession(uid)).0;
              IsLive(db'.(now := db.now + ms), Keys.UserSession(uid)) <==> ms < 21_600_000
    ensures uid in db.tables.info ==>
              var db' := Apply(db, FindInfo(uid)).0;
              IsLive(db'.(now := db.now + ms), Keys.UserInfo(uid)) <==> ms < 86_400_000
    ensures var db' := Apply(db, ListLikes(postId)).0;
            IsLive(db'.(now := db.now + ms), Keys.PostLikes(postId)) <==> ms < 86_400_000
  {
  }
}
