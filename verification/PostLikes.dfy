/** Likes of posts: one batched load for a page of posts against one load per post. */
module PostLikes {
  import opened Prelude
  import opened Database
  import CacheRuns
  import Keys

  datatype LikeError = AlreadyLiked | NotLiked | Store(error: DbError)

  type Nicknames = map<int, seq<string>>

  // ---- What the calls compute, cache included ----

  /** Looks the users up one after another, adding to the names already `done`. */
  function NicknamesFrom(db: Db, done: seq<string>, rows: seq<LikeRow>): (Db, Result<seq<string>, DbError>)
    decreases |rows|
  {
    if rows == [] then (db, Ok(done))
    else
      var (db', infos) := Lookup(db, Keys.UserInfo(rows[0].uid), 24 * HOUR);
      var found := InfoOf(rows[0].uid, infos);
      if found.Err? then (db', Err(found.error)) else NicknamesFrom(db', done + [found.value.nickname], rows[1..])
  }

  /** The posts of a list of likes, each where it first appears. */
  function FirstSeen(rows: seq<LikeRow>): seq<int> {
    if rows == [] then []
    else
      var seen, postId := FirstSeen(rows[..|rows| - 1]), rows[|rows| - 1].postId;
      if postId in seen then seen else seen + [postId]
  }

  function GroupsOf(rows: seq<LikeRow>, order: seq<int>): map<int, seq<LikeRow>> {
    map p | p in order :: LikesOf(rows, p)
  }

  /** Fills in one group of likes after another. */
  function FillFrom(db: Db, done: Nicknames, order: seq<int>, rows: seq<LikeRow>): (Db, Result<Nicknames, DbError>)
    decreases |order|
  {
    if order == [] then (db, Ok(done))
    else
      var (db', names) := NicknamesFrom(db, [], LikesOf(rows, order[0]));
      if names.Err? then (db', Err(names.error))
      else FillFrom(db', done[order[0] := names.value], order[1..], rows)
  }

  function NoNames(postIds: seq<int>): Nicknames {
    map p | p in postIds :: []
  }

  function LikeMap(db: Db, postIds: seq<int>): (Db, Result<Nicknames, DbError>) {
    var rows := LikesIn(db.tables.likes, postIds);
    FillFrom(db, NoNames(postIds), FirstSeen(rows), rows)
  }

  class PostLikeService {
    const repository: PostLikeRepository
    const userInfo: UserInfoRepository

    constructor (repository: PostLikeRepository, userInfo: UserInfoRepository)
      requires repository.dataSource == userInfo.dataSource
      ensures this.repository == repository && this.userInfo == userInfo
    {
      this.repository, this.userInfo := repository, userInfo;
    }

    ghost predicate Wired() {
      repository.dataSource == userInfo.dataSource
    }

    method GetPostLikeMapByPostIds(postIds: seq<int>) returns (r: Result<Nicknames, DbError>)
      requires Wired()
      modifies repository.dataSource`cache
      ensures (repository.dataSource.View(), r) == LikeMap(old(repository.dataSource.View()), postIds)
    {
      var rows := repository.FindPostLikeEntitiesByPostIds(postIds);
      var postLikeMap := map[];
      for i := 0 to |postIds|
        invariant postLikeMap == NoNames(postIds[..i])
      {
        postLikeMap := postLikeMap[postIds[i] := []];
      }
      assert postIds[..|postIds|] == postIds;

      var order, groups := GroupByPostId(rows);
      for i := 0 to |order|
        invariant FillFrom(repository.dataSource.View(), postLikeMap, order[i..], rows)
               == LikeMap(old(repository.dataSource.View()), postIds)
      {
        var names := GetNicknameList(groups[order[i]]);
        if names.Err? {
          return Err(names.error);
        }
        postLikeMap := postLikeMap[order[i] := names.value];
      }
      r := Ok(postLikeMap);
    }

    /** Groups keep the order in which their posts first appear. */
    method GroupByPostId(rows: seq<LikeRow>) returns (order: seq<int>, groups: map<int, seq<LikeRow>>)
      ensures order == FirstSeen(rows) && groups == GroupsOf(rows, order)
    {
      order, groups := [], map[];
      for i := 0 to |rows|
        invariant order == FirstSeen(rows[..i]) && groups == GroupsOf(rows[..i], order)
      {
        var row := rows[i];
        PrefixGrows(rows, i);
        if row.postId !in groups {
          order, groups := order + [row.postId], groups[row.postId := []];
        }
        groups := groups[row.postId := groups[row.postId] + [row]];
      }
      assert rows[..|rows|] == rows;
    }

    method GetNicknameList(rows: seq<LikeRow>) returns (r: Result<seq<string>, DbError>)
      modifies userInfo.dataSource`cache
      ensures (userInfo.dataSource.View(), r) == NicknamesFrom(old(userInfo.dataSource.View()), [], rows)
    {
      var names := [];
      for i := 0 to |rows|
        invariant NicknamesFrom(userInfo.dataSource.View(), names, rows[i..])
               == NicknamesFrom(old(userInfo.dataSource.View()), [], rows)
      {
        var found := userInfo.FindUserInfoEntity(rows[i].uid);
        if found.Err? {
          return Err(found.error);
        }
        names := names + [found.value.nickname];
      }
      r := Ok(names);
    }

    method AddPostLikeUser(like: LikeRow, place: nat, accepted: bool) returns (r: Result<(), LikeError>)
      requires place <= |repository.dataSource.likes|
      modifies repository.dataSource`cache, repository.dataSource`likes
      ensures var db := old(repository.dataSource.View());
              if like in db.tables.likes then r == Err(AlreadyLiked) && repository.dataSource.View() == db
              else
                && repository.dataSource.View() == CacheRuns.Apply(db, CacheRuns.SaveLike(like, place, accepted)).0
                && r == if accepted then Ok(()) else Err(Store(Refused))
    {
      var isExist := repository.IsExist(like);
      if isExist {
        return Err(AlreadyLiked);
      }
      var saved := repository.SavePostLikeEntity(like, place, accepted);
      r := if saved.Ok? then Ok(()) else Err(Store(saved.error));
    }

    method RemovePostLikeUser(like: LikeRow, accepted: bool) returns (r: Result<(), LikeError>)
      modifies repository.dataSource`cache, repository.dataSource`likes
      ensures var db := old(repository.dataSource.View());
              if like !in db.tables.likes then r == Err(NotLiked) && repository.dataSource.View() == db
              else
                && repository.dataSource.View() == CacheRuns.Apply(db, CacheRuns.RemoveLike(like, accepted)).0
                && r == if accepted then Ok(()) else Err(Store(Refused))
    {
      var isExist := repository.IsExist(like);
      if !isExist {
        return Err(NotLiked);
      }
      var removed := repository.RemovePostLikeEntity(like, accepted);
      r := if removed.Ok? then Ok(()) else Err(Store(removed.error));
    }
  }

  // ---- What the groups are ----

  lemma {:induction false} FirstSeenHasAll(rows: seq<LikeRow>, p: int)
    ensures p in FirstSeen(rows) <==> LikesOf(rows, p) != []
    ensures p in FirstSeen(rows) <==> exists row | row in rows :: row.postId == p
    decreases |rows|
  {
    if rows != [] {
      var init, last := rows[..|rows| - 1], rows[|rows| - 1];
      FirstSeenHasAll(init, p);
      CacheRuns.LikesOfSplits(init, [last], p);
      assert rows == init + [last];
    }
  }

  lemma LikesGrow(rows: seq<LikeRow>, row: LikeRow, p: int)
    ensures LikesOf(rows + [row], p) == LikesOf(rows, p) + if p == row.postId then [row] else []
  {
    CacheRuns.LikesOfSplits(rows, [row], p);
    assert [row][1..] == [];
  }

  lemma OrderGrows(rows: seq<LikeRow>, row: LikeRow)
    ensures FirstSeen(rows + [row]) == FirstSeen(rows) + if row.postId in FirstSeen(rows) then [] else [row.postId]
  {
    assert (rows + [row])[..|rows|] == rows;
  }

  /** One more like joins the group of its post, or starts it. */
  lemma GroupsGrow(rows: seq<LikeRow>, order: seq<int>, row: LikeRow)
    requires row.postId in order || LikesOf(rows, row.postId) == []
    ensures var more := if row.postId in order then order else order + [row.postId];
            GroupsOf(rows + [row], more) == GroupsOf(rows, order)[row.postId := LikesOf(rows, row.postId) + [row]]
  {
    var more := if row.postId in order then order else order + [row.postId];
    var a, b := GroupsOf(rows, order), GroupsOf(rows + [row], more);
    LikesGrow(rows, row, row.postId);
    forall p | p in a && p != row.postId
      ensures p in b && a[p] == b[p]
    {
      LikesGrow(rows, row, p);
    }
    MapGrows(a, b, row.postId, LikesOf(rows, row.postId) + [row]);
  }

  lemma PrefixGrows(rows: seq<LikeRow>, i: nat)
    requires i < |rows|
    ensures var row, order := rows[i], FirstSeen(rows[..i]);
            var more := if row.postId in order then order else order + [row.postId];
            var group := if row.postId in order then LikesOf(rows[..i], row.postId) else [];
            && FirstSeen(rows[..i + 1]) == more
            && GroupsOf(rows[..i + 1], more) == GroupsOf(rows[..i], order)[row.postId := group + [row]]
  {
    var row, order := rows[i], FirstSeen(rows[..i]);
    assert rows[..i + 1] == rows[..i] + [row];
    OrderGrows(rows[..i], row);
    FirstSeenHasAll(rows[..i], row.postId);
    GroupsGrow(rows[..i], order, row);
  }

  lemma MapGrows<V>(a: map<int, V>, b: map<int, V>, k: int, v: V)
    requires b.Keys == a.Keys + {k} && b[k] == v
    requires forall p | p in a && p != k :: b[p] == a[p]
    ensures b == a[k := v]
  {
    var c := a[k := v];
    assert forall p :: p in b <==> p in a || p == k;
    assert forall p | p in b :: p in c && b[p] == c[p];
  }

  lemma {:induction false} FirstSeenIsDistinct(rows: seq<LikeRow>)
    ensures forall i, j | 0 <= i < j < |FirstSeen(rows)| :: FirstSeen(rows)[i] != FirstSeen(rows)[j]
    decreases |rows|
  {
    if rows != [] { FirstSeenIsDistinct(rows[..|rows| - 1]); }
  }

  /** The batch query and then a group of it, or the rows of one post directly. */
  lemma {:induction false} GroupOfBatch(likes: seq<LikeRow>, postIds: seq<int>, p: int)
    ensures LikesOf(LikesIn(likes, postIds), p) == if p in postIds then LikesOf(likes, p) else []
  {
    if likes != [] {
      GroupOfBatch(likes[1..], postIds, p);
      CacheRuns.LikesOfSplits(if likes[0].postId in postIds then [likes[0]] else [], LikesIn(likes[1..], postIds), p);
    }
  }

  /** All groups, one after another. */
  function Groups(rows: seq<LikeRow>, order: seq<int>): seq<LikeRow> {
    if order == [] then [] else LikesOf(rows, order[0]) + Groups(rows, order[1..])
  }

  lemma {:induction false} SplitOff(rows: seq<LikeRow>, p: int, order: seq<int>)
    requires p !in order
    ensures multiset(LikesIn(rows, [p] + order)) == multiset(LikesOf(rows, p)) + multiset(LikesIn(rows, order))
  {
    if rows != [] {
      SplitOff(rows[1..], p, order);
    }
  }

  lemma {:induction false} GroupsAreLikes(rows: seq<LikeRow>, order: seq<int>)
    requires forall i, j | 0 <= i < j < |order| :: order[i] != order[j]
    ensures multiset(Groups(rows, order)) == multiset(LikesIn(rows, order))
    decreases |order|
  {
    if order == [] {
      NoPostsNoLikes(rows);
    } else {
      GroupsAreLikes(rows, order[1..]);
      assert Groups(rows, order) == LikesOf(rows, order[0]) + Groups(rows, order[1..]);
      SplitOff(rows, order[0], order[1..]);
      assert order == [order[0]] + order[1..];
    }
  }

  lemma {:induction false} LikesInAll(rows: seq<LikeRow>, order: seq<int>)
    requires forall row | row in rows :: row.postId in order
    ensures LikesIn(rows, order) == rows
  {
    if rows != [] {
      assert rows[0] in rows;
      LikesInAll(rows[1..], order);
    }
  }

  /** Grouping loses no like and doubles none: together the groups are the rows, no post
      has two groups, and a group holds likes of its own post only. */
  lemma GroupingConserves(rows: seq<LikeRow>)
    ensures multiset(Groups(rows, FirstSeen(rows))) == multiset(rows)
    ensures forall i, j | 0 <= i < j < |FirstSeen(rows)| :: FirstSeen(rows)[i] != FirstSeen(rows)[j]
    ensures forall p, row | row in LikesOf(rows, p) :: row.postId == p
  {
    FirstSeenIsDistinct(rows);
    GroupsAreLikes(rows, FirstSeen(rows));
    forall row | row in rows
      ensures row.postId in FirstSeen(rows)
    {
      FirstSeenHasAll(rows, row.postId);
    }
    LikesInAll(rows, FirstSeen(rows));
    forall p, row | row in LikesOf(rows, p)
      ensures row.postId == p
    {
      OnlyOwnLikes(rows, p);
    }
  }

  lemma {:induction false} OnlyOwnLikes(rows: seq<LikeRow>, p: int)
    ensures forall row | row in LikesOf(rows, p) :: row.postId == p && row in rows
  {
    if rows != [] { OnlyOwnLikes(rows[1..], p); }
  }

  // ---- One by one ----

  /** The nicknames behind a list of likes, or the first user that has none. */
  function NamesOf(info: map<string, InfoRow>, rows: seq<LikeRow>): Result<seq<string>, DbError> {
    if rows == [] then Ok([])
    else if rows[0].uid !in info then Err(NotFound(rows[0].uid))
    else
      var rest := NamesOf(info, rows[1..]);
      if rest.Err? then rest else Ok([info[rows[0].uid].nickname] + rest.value)
  }

  /** A post on its own: its likes, then their users. */
  function Single(t: Tables, postId: int): Result<seq<string>, DbError> {
    NamesOf(t.info, LikesOf(t.likes, postId))
  }

  /** A list of likes loads exactly when every user behind it has a profile, and then
      names them like for like. */
  lemma {:induction false} NamesAreNicknames(info: map<string, InfoRow>, rows: seq<LikeRow>)
    ensures var names := NamesOf(info, rows);
            && (names.Ok? <==> forall row | row in rows :: row.uid in info)
            && (names.Ok? ==> |names.value| == |rows|
                              && forall i | 0 <= i < |rows| :: names.value[i] == info[rows[i].uid].nickname)
  {
    if rows != [] {
      NamesAreNicknames(info, rows[1..]);
      assert rows == [rows[0]] + rows[1..];
    }
  }

  /** Unliking undoes liking, wherever the row was put. */
  lemma UnlikeUndoesLike(likes: seq<LikeRow>, row: LikeRow, place: nat)
    requires row !in likes
    ensures WithoutLike(CacheRuns.InsertedAt(likes, row, place), row) == likes
  {
    var i := if place <= |likes| then place else |likes|;
    WithoutInserted(likes[..i], likes[i..], row);
    assert likes == likes[..i] + likes[i..];
  }

  lemma {:induction false} WithoutInserted(a: seq<LikeRow>, b: seq<LikeRow>, row: LikeRow)
    requires row !in a && row !in b
    ensures WithoutLike(a + [row] + b, row) == a + b
  {
    if a == [] {
      assert ([row] + b)[1..] == b && a + [row] + b == [row] + b;
      WithoutAbsent(b, row);
    } else {
      assert (a + [row] + b)[1..] == a[1..] + [row] + b;
      WithoutInserted(a[1..], b, row);
      assert a + b == [a[0]] + (a[1..] + b);
    }
  }

  lemma {:induction false} WithoutAbsent(likes: seq<LikeRow>, row: LikeRow)
    requires row !in likes
    ensures WithoutLike(likes, row) == likes
  {
    if likes != [] { WithoutAbsent(likes[1..], row); }
  }

  lemma {:induction false} NicknamesArePlain(db: Db, done: seq<string>, rows: seq<LikeRow>)
    requires CacheRuns.Coherent(db)
    ensures var (db', r) := NicknamesFrom(db, done, rows);
            && CacheRuns.Coherent(db') && db'.tables == db.tables
            && var names := NamesOf(db.tables.info, rows);
               r == if names.Err? then names else Ok(done + names.value)
    decreases |rows|
  {
    if rows != [] {
      var uid := rows[0].uid;
      CacheRuns.LookupIsTransparent(db, Keys.UserInfo(uid), 24 * HOUR);
      if uid in db.tables.info {
        var nickname := db.tables.info[uid].nickname;
        NicknamesArePlain(Lookup(db, Keys.UserInfo(uid), 24 * HOUR).0, done + [nickname], rows[1..]);
        var rest := NamesOf(db.tables.info, rows[1..]);
        if rest.Ok? {
          assert done + ([nickname] + rest.value) == done + [nickname] + rest.value;
        }
      }
    } else {
      assert done + [] == done;
    }
  }

  predicate AllLoad(t: Tables, posts: seq<int>) {
    forall p | p in posts :: Single(t, p).Ok?
  }

  /** The posts of `order` got their own nicknames, the others kept what they had. */
  ghost predicate Filled(t: Tables, done: Nicknames, order: seq<int>, m: Nicknames) {
    && m.Keys == done.Keys + (set p | p in order)
    && (forall p | p in order :: Single(t, p) == Ok(m[p]))
    && forall p | p in m && p !in order :: m[p] == done[p]
  }

  /** `e` is what the first post of `order` that does not load alone fails with. */
  ghost predicate FailsFirst(t: Tables, order: seq<int>, e: DbError) {
    exists k | 0 <= k < |order| :: Single(t, order[k]) == Err(e) && AllLoad(t, order[..k])
  }

  lemma {:induction false} FillIsPlain(db: Db, done: Nicknames, order: seq<int>, rows: seq<LikeRow>)
    requires CacheRuns.Coherent(db)
    requires forall i, j | 0 <= i < j < |order| :: order[i] != order[j]
    requires forall p | p in order :: LikesOf(rows, p) == LikesOf(db.tables.likes, p)
    ensures var (db', r) := FillFrom(db, done, order, rows);
            && CacheRuns.Coherent(db') && db'.tables == db.tables
            && if r.Ok? then Filled(db.tables, done, order, r.value) else FailsFirst(db.tables, order, r.error)
    decreases |order|
  {
    if order != [] {
      var p := order[0];
      NicknamesArePlain(db, [], LikesOf(rows, p));
      var (db', names) := NicknamesFrom(db, [], LikesOf(rows, p));
      if names.Ok? {
        assert names == Single(db.tables, p) by { assert forall s: seq<string> :: [] + s == s; }
        FillIsPlain(db', done[p := names.value], order[1..], rows);
        var r := FillFrom(db', done[p := names.value], order[1..], rows).1;
        if r.Err? {
          FailsLater(db.tables, order, r.error);
        }
      } else {
        assert AllLoad(db.tables, order[..0]);
      }
    }
  }

  lemma FailsLater(t: Tables, order: seq<int>, e: DbError)
    requires order != [] && Single(t, order[0]).Ok? && FailsFirst(t, order[1..], e)
    ensures FailsFirst(t, order, e)
  {
    var k :| 0 <= k < |order[1..]| && Single(t, order[1..][k]) == Err(e) && AllLoad(t, order[1..][..k]);
    assert order[..k + 1] == [order[0]] + order[1..][..k];
    assert Single(t, order[k + 1]) == Err(e) && AllLoad(t, order[..k + 1]);
  }

  /** `order` names the posts of the batch that have likes. */
  ghost predicate IsOrder(t: Tables, postIds: seq<int>, order: seq<int>) {
    && (forall p | p in order :: p in postIds)
    && forall p | p in postIds && p !in order :: LikesOf(t.likes, p) == []
  }

  lemma FirstSeenIsOrder(t: Tables, postIds: seq<int>)
    ensures var rows := LikesIn(t.likes, postIds);
            && IsOrder(t, postIds, FirstSeen(rows))
            && forall p | p in FirstSeen(rows) :: LikesOf(rows, p) == LikesOf(t.likes, p)
  {
    var rows := LikesIn(t.likes, postIds);
    forall p
      ensures p in FirstSeen(rows) ==> p in postIds && LikesOf(rows, p) == LikesOf(t.likes, p)
      ensures p in postIds && p !in FirstSeen(rows) ==> LikesOf(t.likes, p) == []
    {
      GroupOfBatch(t.likes, postIds, p);
      FirstSeenHasAll(rows, p);
    }
  }

  lemma UnlikedPostsLoad(t: Tables, postIds: seq<int>, order: seq<int>)
    requires IsOrder(t, postIds, order)
    ensures AllLoad(t, postIds) <==> AllLoad(t, order)
    ensures forall p | p in postIds && p !in order :: Single(t, p) == Ok([])
  {
  }

  /** Batching preserves meaning.  The batched load succeeds exactly when every post
      loads alone; it then gives every post asked for, and no other, the nicknames it
      gets alone; otherwise it fails as one of the posts does, the one that fails first
      in the order of the likes.  The tables are untouched and the cache stays right. */
  lemma BatchIsOneByOne(db: Db, postIds: seq<int>)
    requires CacheRuns.Coherent(db)
    ensures var (db', r) := LikeMap(db, postIds);
            && CacheRuns.Coherent(db') && db'.tables == db.tables
            && (r.Ok? <==> AllLoad(db.tables, postIds))
            && (r.Ok? ==> r.value.Keys == (set p | p in postIds)
                          && forall p | p in postIds :: Single(db.tables, p) == Ok(r.value[p]))
            && (r.Err? ==> FailsFirst(db.tables, FirstSeen(LikesIn(db.tables.likes, postIds)), r.error))
  {
    var rows := LikesIn(db.tables.likes, postIds);
    FirstSeenIsDistinct(rows);
    FirstSeenIsOrder(db.tables, postIds);
    FillIsPlain(db, NoNames(postIds), FirstSeen(rows), rows);
    UnlikedPostsLoad(db.tables, postIds, FirstSeen(rows));
  }

  /** A page of posts and each of its posts opened alone agree. */
  lemma PageAgreesWithPost(db: Db, postIds: seq<int>, p: int)
    requires CacheRuns.Coherent(db) && p in postIds
    ensures var (page, post) := (LikeMap(db, postIds).1, LikeMap(db, [p]).1);
            && (page.Ok? ==> post.Ok? && p in page.value && p in post.value && page.value[p] == post.value[p])
            && (post.Err? ==> page.Err?)
  {
    BatchIsOneByOne(db, postIds);
    BatchIsOneByOne(db, [p]);
    assert p in [p];
  }
}
