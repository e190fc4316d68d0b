/** Posts with the nicknames of those who like them: single posts and clamped pages. */
module Posts {
  import opened Prelude
  import opened Database
  import opened PostLikes
  import opened Paging
  import CacheRuns

  datatype PostRow = PostRow(
    postId: int,
    postUid: string,
    title: string,
    writeDatetime: int,
    contents: string,
    hits: int)

  datatype PostDto = PostDto(row: PostRow, postLikeNicknameList: seq<string>)

  datatype PostError = BadPage(page: InvalidPage) | PostNotFound(postId: int) | NoNickname(error: DbError)

  /** One snapshot of the table of posts, newest first. */
  class PostRepository {
    const posts: seq<PostRow>

    constructor (posts: seq<PostRow>)
      ensures this.posts == posts
    {
      this.posts := posts;
    }

    method FindPostEntityListAndCountByPage(page: int) returns (r: Result<(seq<PostRow>, nat), InvalidPage>)
      ensures r == Found(posts, page)
    {
      var skip := GetSkip(page);
      r := if skip.Err? then Err(skip.error) else Ok((Slice(posts, skip.value, TAKE), |posts|));
    }

    method FindPostEntityListAndCountByPostPageDto(postUid: string, page: int)
      returns (r: Result<(seq<PostRow>, nat), InvalidPage>)
      ensures r == Found(WrittenBy(posts, postUid), page)
    {
      var skip, mine := GetSkip(page), WrittenBy(posts, postUid);
      r := if skip.Err? then Err(skip.error) else Ok((Slice(mine, skip.value, TAKE), |mine|));
    }

    method FindPostEntityByPostId(postId: int) returns (r: Result<PostRow, PostError>)
      ensures r.Ok? ==> r.value in posts && r.value.postId == postId
      ensures r.Err? ==> r == Err(PostNotFound(postId)) && forall row | row in posts :: row.postId != postId
    {
      for i := 0 to |posts|
        invariant forall j | 0 <= j < i :: posts[j].postId != postId
      {
        if posts[i].postId == postId {
          return Ok(posts[i]);
        }
      }
      r := Err(PostNotFound(postId));
    }
  }

  function Found(list: seq<PostRow>, page: int): Result<(seq<PostRow>, nat), InvalidPage> {
    if page < 1 then Err(InvalidPage(page)) else Ok((RowsOn(list, page), |list|))
  }

  function WrittenBy(posts: seq<PostRow>, postUid: string): seq<PostRow> {
    if posts == [] then []
    else (if posts[0].postUid == postUid then [posts[0]] else []) + WrittenBy(posts[1..], postUid)
  }

  function Ids(rows: seq<PostRow>): seq<int> {
    seq(|rows|, i requires 0 <= i < |rows| => rows[i].postId)
  }

  function WithLikes(row: PostRow, likes: Nicknames): PostDto {
    PostDto(row, if row.postId in likes then likes[row.postId] else [])
  }

  function AllWithLikes(rows: seq<PostRow>, likes: Nicknames): seq<PostDto> {
    seq(|rows|, i requires 0 <= i < |rows| => WithLikes(rows[i], likes))
  }

  /** A page of a list as the client gets it: the rows of the page asked for, or of the
      last page when that is past the end, each with its likes. */
  function Served(db: Db, list: seq<PostRow>, page: int): (Db, Result<Page<PostDto>, PostError>) {
    if page < 1 then (db, Err(BadPage(InvalidPage(page))))
    else
      var last := GetLastPage(|list|);
      var at := Min(page, last);
      var rows := RowsOn(list, at);
      var (db', likes) := LikeMap(db, Ids(rows));
      (db',
       if likes.Err? then Err(NoNickname(likes.error))
       else Ok(Page(AllWithLikes(rows, likes.value), NewMeta(|list|, at, last))))
  }

  class PostDao {
    const row: PostRow
    var postLikeNicknameList: seq<string>

    constructor From(row: PostRow)
      ensures this.row == row && postLikeNicknameList == []
    {
      this.row, postLikeNicknameList := row, [];
    }

    function ToPostDto(): PostDto
      reads this
    {
      PostDto(row, postLikeNicknameList)
    }
  }

  class PostService {
    const repository: PostRepository
    const likeService: PostLikeService

    constructor (repository: PostRepository, likeService: PostLikeService)
      ensures this.repository == repository && this.likeService == likeService
    {
      this.repository, this.likeService := repository, likeService;
    }

    method GetPostPageListByPage(page: int) returns (r: Result<Page<PostDto>, PostError>)
      requires likeService.Wired()
      modifies likeService.repository.dataSource`cache
      ensures (likeService.repository.dataSource.View(), r)
           == Served(old(likeService.repository.dataSource.View()), repository.posts, page)
    {
      var found := repository.FindPostEntityListAndCountByPage(page);
      if found.Err? {
        return Err(BadPage(found.error));
      }
      var (postEntityList, total) := found.value;
      var lastPage := GetLastPage(total);
      var currentPage := page;
      if page > lastPage {
        found := repository.FindPostEntityListAndCountByPage(lastPage);
        postEntityList := found.value.0;
        currentPage := lastPage;
      }
      r := ToPage(postEntityList, total, currentPage);
    }

    method GetPostPageListByPostUid(postUid: string, page: int) returns (r: Result<Page<PostDto>, PostError>)
      requires likeService.Wired()
      modifies likeService.repository.dataSource`cache
      ensures (likeService.repository.dataSource.View(), r)
           == Served(old(likeService.repository.dataSource.View()), WrittenBy(repository.posts, postUid), page)
    {
      var found := repository.FindPostEntityListAndCountByPostPageDto(postUid, page);
      if found.Err? {
        return Err(BadPage(found.error));
      }
      var (postEntityList, total) := found.value;
      var lastPage := GetLastPage(total);
      var currentPage := page;
      if page > lastPage {
        found := repository.FindPostEntityListAndCountByPostPageDto(postUid, lastPage);
        postEntityList := found.value.0;
        currentPage := lastPage;
      }
      r := ToPage(postEntityList, total, currentPage);
    }

    /** What both lookups do with the rows they settled on. */
    method ToPage(rows: seq<PostRow>, total: nat, currentPage: int) returns (r: Result<Page<PostDto>, PostError>)
      requires likeService.Wired() && currentPage >= 1
      modifies likeService.repository.dataSource`cache
      ensures var (db', likes) := LikeMap(old(likeService.repository.dataSource.View()), Ids(rows));
              var last := GetLastPage(total);
              && likeService.repository.dataSource.View() == db'
              && r == if likes.Err? then Err(NoNickname(likes.error))
                      else Ok(Page(AllWithLikes(rows, likes.value), NewMeta(total, Min(currentPage, last), last)))
    {
      var daos := ToPostDaoList(rows);
      ghost var likes := LikeMap(old(likeService.repository.dataSource.View()), Ids(rows)).1;
      if daos.Err? {
        assert daos.error == likes.error;
        return Err(NoNickname(daos.error));
      }
      var dtos := ToPostDtoList(daos.value);
      assert dtos == AllWithLikes(rows, likes.value);
      var dto := ToPaginationDto(dtos, total, currentPage);
      r := Ok(dto.value);
    }

    method GetPostByPostId(postId: int) returns (r: Result<PostDto, PostError>)
      requires likeService.Wired()
      modifies likeService.repository.dataSource`cache
      ensures var db := old(likeService.repository.dataSource.View());
              if forall row | row in repository.posts :: row.postId != postId
              then r == Err(PostNotFound(postId)) && likeService.repository.dataSource.View() == db
              else
                var (db', likes) := LikeMap(db, [postId]);
                && likeService.repository.dataSource.View() == db'
                && if likes.Err? then r == Err(NoNickname(likes.error))
                   else exists row | row in repository.posts ::
                          row.postId == postId && r == Ok(WithLikes(row, likes.value))
    {
      var found := repository.FindPostEntityByPostId(postId);
      if found.Err? {
        return Err(found.error);
      }
      var dao := new PostDao.From(found.value);
      var likes := likeService.GetPostLikeMapByPostIds([dao.row.postId]);
      if likes.Err? {
        return Err(NoNickname(likes.error));
      }
      dao.postLikeNicknameList := if dao.row.postId in likes.value then likes.value[dao.row.postId] else [];
      r := Ok(dao.ToPostDto());
    }

    method ToPostDaoList(rows: seq<PostRow>) returns (r: Result<seq<PostDao>, DbError>)
      requires likeService.Wired()
      modifies likeService.repository.dataSource`cache
      ensures var (db', likes) := LikeMap(old(likeService.repository.dataSource.View()), Ids(rows));
              && likeService.repository.dataSource.View() == db'
              && r.Ok? == likes.Ok?
              && if likes.Err? then r == Err(likes.error)
                 else |r.value| == |rows|
                      && forall i | 0 <= i < |rows| ::
                           fresh(r.value[i]) && r.value[i].ToPostDto() == WithLikes(rows[i], likes.value)
    {
      var daos := FromRows(rows);
      var postIds := seq(|daos|, i requires 0 <= i < |daos| => daos[i].row.postId);
      assert postIds == Ids(rows);
      var likes := likeService.GetPostLikeMapByPostIds(postIds);
      if likes.Err? {
        return Err(likes.error);
      }
      SetLikes(daos, likes.value);
      r := Ok(daos);
    }

    method FromRows(rows: seq<PostRow>) returns (daos: seq<PostDao>)
      ensures |daos| == |rows| && forall i | 0 <= i < |rows| :: fresh(daos[i]) && daos[i].row == rows[i]
    {
      daos := [];
      for i := 0 to |rows|
        invariant |daos| == i && forall j | 0 <= j < i :: fresh(daos[j]) && daos[j].row == rows[j]
      {
        var dao := new PostDao.From(rows[i]);
        daos := daos + [dao];
      }
    }

    method SetLikes(daos: seq<PostDao>, likes: Nicknames)
      modifies set dao | dao in daos
      ensures forall i | 0 <= i < |daos| :: daos[i].ToPostDto() == WithLikes(daos[i].row, likes)
    {
      for i := 0 to |daos|
        invariant forall j | 0 <= j < i :: daos[j].ToPostDto() == WithLikes(daos[j].row, likes)
      {
        var postId := daos[i].row.postId;
        daos[i].postLikeNicknameList := if postId in likes then likes[postId] else [];
      }
    }

    method ToPostDtoList(daos: seq<PostDao>) returns (dtos: seq<PostDto>)
      ensures |dtos| == |daos| && forall i | 0 <= i < |daos| :: dtos[i] == daos[i].ToPostDto()
    {
      dtos := [];
      for i := 0 to |daos|
        invariant |dtos| == i && forall j | 0 <= j < i :: dtos[j] == daos[j].ToPostDto()
      {
        dtos := dtos + [daos[i].ToPostDto()];
      }
    }
  }

  // ---- What the client sees ----

  /** The post with the nicknames it gets on its own. */
  ghost predicate IsShown(t: Tables, row: PostRow, dto: PostDto) {
    dto.row == row && Single(t, row.postId) == Ok(dto.postLikeNicknameList)
  }

  ghost predicate AllShown(t: Tables, rows: seq<PostRow>, dtos: seq<PostDto>) {
    |dtos| == |rows| && forall i | 0 <= i < |rows| :: IsShown(t, rows[i], dtos[i])
  }

  /** Any page from 1 up gets page min(page, last) of the list, with matching metadata
      and every post's own nicknames; it fails only if one of those posts does alone. */
  lemma ServedIsClamped(db: Db, list: seq<PostRow>, page: int)
    requires CacheRuns.Coherent(db) && page >= 1
    ensures var (db', r) := Served(db, list, page);
            var at := Min(page, GetLastPage(|list|));
            && CacheRuns.Coherent(db') && db'.tables == db.tables
            && (r.Ok? <==> AllLoad(db.tables, Ids(RowsOn(list, at))))
            && (r.Ok? ==> AllShown(db.tables, RowsOn(list, at), r.value.data)
                          && r.value.meta == NewMeta(|list|, at, GetLastPage(|list|)))
  {
    var at := Min(page, GetLastPage(|list|));
    var rows := RowsOn(list, at);
    BatchIsOneByOne(db, Ids(rows));
    var likes := LikeMap(db, Ids(rows)).1;
    if likes.Ok? {
      forall i | 0 <= i < |rows|
        ensures IsShown(db.tables, rows[i], WithLikes(rows[i], likes.value))
      {
        assert Ids(rows)[i] == rows[i].postId;
      }
    }
  }

  /** An author's list is every post of the author, as often as it is in the table, and
      no other. */
  lemma {:induction false} WrittenByIsExact(posts: seq<PostRow>, postUid: string, row: PostRow)
    ensures multiset(WrittenBy(posts, postUid))[row] == if row.postUid == postUid then multiset(posts)[row] else 0
  {
    if posts != [] {
      WrittenByIsExact(posts[1..], postUid, row);
      assert posts == [posts[0]] + posts[1..];
    }
  }

  function DataOf(r: Result<Page<PostDto>, PostError>): Result<seq<PostDto>, PostError> {
    if r.Ok? then Ok(r.value.data) else Err(r.error)
  }

  function Joined(first: Result<seq<PostDto>, PostError>, rest: Result<seq<PostDto>, PostError>)
    : Result<seq<PostDto>, PostError>
  {
    if first.Err? then first else if rest.Err? then rest else Ok(first.value + rest.value)
  }

  /** Some way of serving pages, in a database that changes as they are served. */
  type Server = (Db, int) -> (Db, Result<Page<PostDto>, PostError>)

  /** No page from the last one on is said to have a next. */
  ghost predicate EndsAt(serve: Server, last: int) {
    forall db, page :: serve(db, page).1.Ok? && serve(db, page).1.value.meta.hasNextPage ==> page < last
  }

  /** A client that starts at some page and follows hasNextPage to the end. */
  function Browse(serve: Server, ghost last: int, db: Db, page: int): Result<seq<PostDto>, PostError>
    requires EndsAt(serve, last)
    decreases last - page
  {
    var (db', r) := serve(db, page);
    if r.Err? || !r.value.meta.hasNextPage then DataOf(r)
    else Joined(DataOf(r), Browse(serve, last, db', page + 1))
  }

  /** The pages of a list as the service gives them. */
  function Pages(list: seq<PostRow>): Server {
    (db, page) => Served(db, list, page)
  }

  lemma PagesEnd(list: seq<PostRow>)
    ensures EndsAt(Pages(list), GetLastPage(|list|))
  {
  }

  lemma IdsSplit(a: seq<PostRow>, b: seq<PostRow>)
    ensures Ids(a + b) == Ids(a) + Ids(b)
  {
  }

  lemma LoadSplit(t: Tables, a: seq<int>, b: seq<int>)
    ensures AllLoad(t, a + b) <==> AllLoad(t, a) && AllLoad(t, b)
  {
    assert forall p | p in a :: p in a + b;
    assert forall p | p in b :: p in a + b;
  }

  /** The rows are all shown, unless one of them cannot be. */
  ghost predicate Faithful(t: Tables, rows: seq<PostRow>, r: Result<seq<PostDto>, PostError>) {
    && (r.Ok? <==> AllLoad(t, Ids(rows)))
    && (r.Ok? ==> AllShown(t, rows, r.value))
  }

  lemma FaithfulJoin(t: Tables, a: seq<PostRow>, b: seq<PostRow>,
                     first: Result<seq<PostDto>, PostError>, rest: Result<seq<PostDto>, PostError>)
    requires Faithful(t, a, first) && (first.Ok? ==> Faithful(t, b, rest))
    ensures Faithful(t, a + b, Joined(first, rest))
  {
    IdsSplit(a, b);
    LoadSplit(t, Ids(a), Ids(b));
  }

  lemma PagesGoOn(list: seq<PostRow>, page: int)
    requires 1 <= page <= GetLastPage(|list|)
    ensures PagesFrom(list, page)
         == RowsOn(list, page) + if page < GetLastPage(|list|) then PagesFrom(list, page + 1) else []
  {
  }

  /** One page in front of pages that are shown faithfully. */
  lemma BrowseJoins(t: Tables, list: seq<PostRow>, page: int, first: Result<seq<PostDto>, PostError>,
                    rest: Result<seq<PostDto>, PostError>)
    requires 1 <= page < GetLastPage(|list|)
    requires Faithful(t, RowsOn(list, page), first) && Faithful(t, PagesFrom(list, page + 1), rest)
    ensures Faithful(t, PagesFrom(list, page), Joined(first, rest))
  {
    PagesGoOn(list, page);
    FaithfulJoin(t, RowsOn(list, page), PagesFrom(list, page + 1), first, rest);
  }

  lemma LastPageIsLast(t: Tables, list: seq<PostRow>, first: Result<seq<PostDto>, PostError>)
    requires Faithful(t, RowsOn(list, GetLastPage(|list|)), first)
    ensures Faithful(t, PagesFrom(list, GetLastPage(|list|)), first)
  {
    var last := GetLastPage(|list|);
    PagesGoOn(list, last);
    assert RowsOn(list, last) + [] == RowsOn(list, last);
  }

  ghost predicate ShowsPage(t: Tables, list: seq<PostRow>, page: int, r: Result<seq<PostDto>, PostError>) {
    page >= 1 && Faithful(t, RowsOn(list, page), r)
  }

  ghost predicate ShowsFrom(t: Tables, list: seq<PostRow>, page: int, r: Result<seq<PostDto>, PostError>) {
    page >= 1 && Faithful(t, PagesFrom(list, page), r)
  }

  /** In a good state every page is served faithfully, says rightly whether there is a next,
      and leaves a good state. */
  ghost predicate ServesWell(serve: Server, isGood: Db -> bool, t: Tables, list: seq<PostRow>) {
    forall db, page | isGood(db) && 1 <= page <= GetLastPage(|list|) ::
      var (db', r) := serve(db, page);
      && isGood(db') && ShowsPage(t, list, page, DataOf(r))
      && (r.Ok? ==> (r.value.meta.hasNextPage <==> page < GetLastPage(|list|)))
  }

  type Shown = (int, Result<seq<PostDto>, PostError>) -> bool

  /** From the last page back to the first: if what holds of a page as served makes it hold
      of all pages from there on, it holds of browsing from any page. */
  lemma {:induction false} PageByPage(serve: Server, isGood: Db -> bool, one: Shown, all: Shown, last: int,
                                      db: Db, page: int)
    requires EndsAt(serve, last) && isGood(db) && 1 <= page <= last
    requires forall d, p | isGood(d) && 1 <= p <= last ::
               isGood(serve(d, p).0) && one(p, DataOf(serve(d, p).1))
               && (serve(d, p).1.Ok? ==> (serve(d, p).1.value.meta.hasNextPage <==> p < last))
    requires forall r | one(last, r) :: all(last, r)
    requires forall p, r, rest | 1 <= p < last && one(p, r) && all(p + 1, rest) :: all(p, Joined(r, rest))
    ensures all(page, Browse(serve, last, db, page))
    decreases last - page
  {
    if page < last {
      var (db', r) := serve(db, page);
      PageByPage(serve, isGood, one, all, last, db', page + 1);
      assert all(page, Joined(DataOf(r), Browse(serve, last, db', page + 1)));
    }
  }

  lemma PagesAddUp(t: Tables, list: seq<PostRow>)
    ensures forall r | ShowsPage(t, list, GetLastPage(|list|), r) :: ShowsFrom(t, list, GetLastPage(|list|), r)
    ensures forall p, r, rest
              | 1 <= p < GetLastPage(|list|) && ShowsPage(t, list, p, r) && ShowsFrom(t, list, p + 1, rest) ::
              ShowsFrom(t, list, p, Joined(r, rest))
  {
    forall r | ShowsPage(t, list, GetLastPage(|list|), r)
      ensures ShowsFrom(t, list, GetLastPage(|list|), r)
    {
      LastPageIsLast(t, list, r);
    }
    forall p, r, rest | 1 <= p < GetLastPage(|list|) && ShowsPage(t, list, p, r) && ShowsFrom(t, list, p + 1, rest)
      ensures ShowsFrom(t, list, p, Joined(r, rest))
    {
      BrowseJoins(t, list, p, r, rest);
    }
  }

  lemma BrowseFrom(serve: Server, isGood: Db -> bool, t: Tables, list: seq<PostRow>, db: Db, page: int)
    requires EndsAt(serve, GetLastPage(|list|)) && ServesWell(serve, isGood, t, list)
    requires isGood(db) && 1 <= page <= GetLastPage(|list|)
    ensures ShowsFrom(t, list, page, Browse(serve, GetLastPage(|list|), db, page))
  {
    ghost var one: Shown := (p, r) => ShowsPage(t, list, p, r);
    ghost var all: Shown := (p, r) => ShowsFrom(t, list, p, r);
    PagesAddUp(t, list);
    PageByPage(serve, isGood, one, all, GetLastPage(|list|), db, page);
  }

  lemma PagesServeWell(t: Tables, list: seq<PostRow>, isGood: Db -> bool)
    requires forall db :: isGood(db) <==> CacheRuns.Coherent(db) && db.tables == t
    ensures ServesWell(Pages(list), isGood, t, list)
  {
    forall db, page | isGood(db) && 1 <= page <= GetLastPage(|list|)
      ensures var (db', r) := Pages(list)(db, page);
              && isGood(db') && ShowsPage(t, list, page, DataOf(r))
              && (r.Ok? ==> (r.value.meta.hasNextPage <==> page < GetLastPage(|list|)))
    {
      ServedIsClamped(db, list, page);
    }
  }

  /** Following hasNextPage from page 1 ends, and has then shown every post of the list
      exactly once, in order, with its own nicknames; it breaks off only if some post of
      the list cannot be shown at all. */
  lemma BrowsingShowsAll(db: Db, list: seq<PostRow>)
    requires CacheRuns.Coherent(db)
    ensures EndsAt(Pages(list), GetLastPage(|list|))
    ensures Faithful(db.tables, list, Browse(Pages(list), GetLastPage(|list|), db, 1))
  {
    ghost var isGood := d => CacheRuns.Coherent(d) && d.tables == db.tables;
    PagesEnd(list);
    PagesServeWell(db.tables, list, isGood);
    BrowseFrom(Pages(list), isGood, db.tables, list, db, 1);
    PagesPartition(list);
  }

  // ---- Newest first ----

  predicate NewestFirst(posts: seq<PostRow>) {
    forall i, j | 0 <= i < j < |posts| :: posts[i].postId > posts[j].postId
  }

  lemma NewestOnTop(row: PostRow, rest: seq<PostRow>)
    requires NewestFirst(rest) && (forall i | 0 <= i < |rest| :: row.postId > rest[i].postId)
    ensures NewestFirst([row] + rest)
  {
  }

  lemma {:induction false} WrittenByOnly(posts: seq<PostRow>, postUid: string)
    ensures forall i | 0 <= i < |WrittenBy(posts, postUid)| ::
              WrittenBy(posts, postUid)[i] in posts && WrittenBy(posts, postUid)[i].postUid == postUid
    decreases |posts|
  {
    if posts != [] { WrittenByOnly(posts[1..], postUid); }
  }

  lemma {:induction false} WrittenByStays(posts: seq<PostRow>, postUid: string)
    requires NewestFirst(posts)
    ensures NewestFirst(WrittenBy(posts, postUid))
    decreases |posts|
  {
    if posts != [] {
      WrittenByStays(posts[1..], postUid);
      WrittenByOnly(posts[1..], postUid);
      assert forall row | row in posts[1..] :: posts[0].postId > row.postId;
      NewestOnTop(posts[0], WrittenBy(posts[1..], postUid));
    }
  }

  /** Everyone's posts and one author's come newest first, and so does every page of
      either; page numbers below one are refused. */
  lemma PagesAreNewestFirst(db: Db, posts: seq<PostRow>, postUid: string, page: int)
    requires NewestFirst(posts)
    ensures NewestFirst(WrittenBy(posts, postUid))
    ensures page >= 1 ==> NewestFirst(RowsOn(posts, page)) && NewestFirst(RowsOn(WrittenBy(posts, postUid), page))
    ensures page < 1 ==> Served(db, posts, page) == (db, Err(BadPage(InvalidPage(page))))
  {
    WrittenByStays(posts, postUid);
    if page >= 1 {
      SliceIsNewestFirst(posts, page);
      SliceIsNewestFirst(WrittenBy(posts, postUid), page);
    }
  }

  lemma SliceIsNewestFirst(posts: seq<PostRow>, page: int)
    requires NewestFirst(posts) && page >= 1
    ensures NewestFirst(RowsOn(posts, page))
  {
  }
}
