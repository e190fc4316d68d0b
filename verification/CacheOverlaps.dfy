/** Repository calls taken apart where they wait.  A cached lookup asks the cache, selects
    from the tables and fills the cache; a write drops its entry and then commits.  Any
    number of calls may be under way at once, and a call may stop for good at any point. */
module CacheOverlaps {
  import opened Prelude
  import opened Database
  import opened CacheRuns
  import Keys
  import PostLikes

  /** A lookup that missed, before and after its SELECT.  `changes` counts the commits
      since the SELECT that changed the answer to its query; no step reads it. */
  datatype Reader =
    | Asking(q: Keys.CachedQuery)
    | Selected(q: Keys.CachedQuery, rows: Rows, changes: nat)

  /** `Evict` is the removal of a cached miss, or any other loss of an entry. */
  datatype Event =
    | Ask(id: nat, q: Keys.CachedQuery)
    | Select(id: nat)
    | Fill(id: nat)
    | Evict(q: Keys.CachedQuery)
    | Drop(id: nat, op: Op)
    | Commit(id: nat)
    | Wait(ms: nat)

  datatype State = State(db: Db, readers: map<nat, Reader>, writers: map<nat, Op>)

  /** How long an answer is kept. */
  function KeepFor(q: Keys.CachedQuery): int {
    if q.UserSession? then 6 * HOUR else 24 * HOUR
  }

  /** The one query whose answer a write may change.  The two inserts drop no entry. */
  function Target(op: Op): Option<Keys.CachedQuery> {
    match op
    case SaveAuth(row, _) => Some(Keys.UserSession(row.uid))
    case SaveInfo(row, _) => Some(Keys.UserInfo(row.uid))
    case _ => Dropped(op)
  }

  function Aged(r: Reader, before: Tables, after: Tables): Reader {
    if r.Selected? && Query(before, r.q) != Query(after, r.q) then r.(changes := r.changes + 1) else r
  }

  predicate HasSelected(s: State, id: nat) {
    id in s.readers && s.readers[id].Selected?
  }

  function Next(s: State, e: Event): State {
    match e
    case Ask(id, q) => if id in s.readers || IsLive(s.db, q) then s else s.(readers := s.readers[id := Asking(q)])
    case Select(id) =>
      if id !in s.readers || s.readers[id].Selected? then s
      else s.(readers := s.readers[id := Selected(s.readers[id].q, Query(s.db.tables, s.readers[id].q), 0)])
    case Fill(id) =>
      if !HasSelected(s, id) then s
      else
        var r := s.readers[id];
        var cache := s.db.cache[Keys.CacheId(r.q) := Cached(r.rows, s.db.now + KeepFor(r.q))];
        s.(db := s.db.(cache := cache), readers := s.readers - {id})
    case Evict(q) => s.(db := Uncached(s.db, q))
    case Drop(id, op) =>
      if id in s.writers || Target(op).None? then s
      else
        var db := if Dropped(op).Some? then Uncached(s.db, Dropped(op).value) else s.db;
        s.(db := db, writers := s.writers[id := op])
    case Commit(id) =>
      if id !in s.writers then s
      else
        var t := Plain(s.db.tables, s.writers[id]).0;
        State(s.db.(tables := t), map i | i in s.readers :: Aged(s.readers[i], s.db.tables, t), s.writers - {id})
    case Wait(ms) => s.(db := s.db.(now := s.db.now + ms))
  }

  function Run(s: State, es: seq<Event>): State {
    if es == [] then s else Next(Run(s, es[..|es| - 1]), es[|es| - 1])
  }

  // ---- When the cache stays right ----

  /** A live entry for the query shows what the tables say. */
  predicate Accurate(db: Db, q: Keys.CachedQuery) {
    IsLive(db, q) ==> db.cache[Keys.CacheId(q)].rows == Query(db.tables, q)
  }

  /** The commit leaves the answer alone, or finds no live entry for it. */
  predicate CommitFits(s: State, id: nat, q: Keys.CachedQuery)
    requires id in s.writers
  {
    !IsLive(s.db, q) || Query(Plain(s.db.tables, s.writers[id]).0, q) == Query(s.db.tables, q)
  }

  /** What the reader selected is what it would select now. */
  predicate FillFits(s: State, id: nat)
    requires HasSelected(s, id)
  {
    s.readers[id].rows == Query(s.db.tables, s.readers[id].q)
  }

  /** For this query the step may be taken: a commit or a fill of it fits. */
  predicate Fits(s: State, e: Event, q: Keys.CachedQuery) {
    && (e.Commit? && e.id in s.writers ==> CommitFits(s, e.id, q))
    && (e.Fill? && HasSelected(s, e.id) && s.readers[e.id].q == q ==> FillFits(s, e.id))
  }

  /** A write changes the answer of its target alone, so the guard on a commit concerns
      one query. */
  lemma OnlyTargetChanges(t: Tables, op: Op, q: Keys.CachedQuery)
    requires Target(op) != Some(q)
    ensures Query(Plain(t, op).0, q) == Query(t, q)
  {
    if op.SaveLike? && q.PostLikes? {
      InsertLeavesOtherPosts(t.likes, op.like, op.place, q.postId);
    } else if op.RemoveLike? && q.PostLikes? {
      RemoveLeavesOtherPosts(t.likes, op.like, q.postId);
    }
  }

  lemma StepIsAccurateIff(s: State, e: Event, q: Keys.CachedQuery)
    requires Accurate(s.db, q)
    ensures Accurate(Next(s, e).db, q) <==> Fits(s, e, q)
  {
    if e.Fill? && HasSelected(s, e.id) {
      var r := s.readers[e.id].q;
      if r != q && Keys.CacheId(r) == Keys.CacheId(q) { Keys.CacheIdIsInjective(r, q); }
    }
  }

  predicate AlwaysAccurate(s: State, es: seq<Event>, q: Keys.CachedQuery) {
    Accurate(Run(s, es).db, q) && (es == [] || AlwaysAccurate(s, es[..|es| - 1], q))
  }

  predicate AlwaysFits(s: State, es: seq<Event>, q: Keys.CachedQuery) {
    es == [] || (AlwaysFits(s, es[..|es| - 1], q) && Fits(Run(s, es[..|es| - 1]), es[|es| - 1], q))
  }

  /** Coherence under overlap, query by query.  Over every interleaving of any number of
      lookups and writes, the cache is right about a query at every moment if and only if
      no commit changes its answer while it has a live entry, and no lookup fills in an
      answer that is no longer the tables' own. */
  lemma {:induction false} StaysCoherentIff(s: State, es: seq<Event>, q: Keys.CachedQuery)
    requires Accurate(s.db, q)
    ensures AlwaysAccurate(s, es, q) <==> AlwaysFits(s, es, q)
    decreases |es|
  {
    if es != [] {
      var before := es[..|es| - 1];
      StaysCoherentIff(s, before, q);
      if AlwaysAccurate(s, before, q) {
        StepIsAccurateIff(Run(s, before), es[|es| - 1], q);
      }
    }
  }

  /** While every step fits, a hit answers what the tables say at that moment. */
  lemma HitsAreCurrent(s: State, es: seq<Event>, q: Keys.CachedQuery)
    requires Accurate(s.db, q) && AlwaysFits(s, es, q) && IsLive(Run(s, es).db, q)
    ensures Run(s, es).db.cache[Keys.CacheId(q)].rows == Query(Run(s, es).db.tables, q)
  {
    StaysCoherentIff(s, es, q);
  }

  // ---- When a fill is overtaken ----

  /** The commit does not give the query back an answer that a lookup still under way
      selected before it changed. */
  ghost predicate IsNovel(s: State, e: Event, q: Keys.CachedQuery) {
    e.Commit? && e.id in s.writers ==>
      var t := Plain(s.db.tables, s.writers[e.id]).0;
      Query(s.db.tables, q) != Query(t, q) ==>
        forall i | HasSelected(s, i) && s.readers[i].q == q :: s.readers[i].rows != Query(t, q)
  }

  ghost predicate AlwaysNovel(s: State, es: seq<Event>, q: Keys.CachedQuery) {
    es == [] || (AlwaysNovel(s, es[..|es| - 1], q) && IsNovel(Run(s, es[..|es| - 1]), es[|es| - 1], q))
  }

  /** One commit that changes the answer is enough to overtake a lookup, and without one
      it is not overtaken.  Two or more may change the answer back. */
  ghost predicate CountsChanges(s: State) {
    forall id | HasSelected(s, id) ::
      && (s.readers[id].changes == 0 ==> FillFits(s, id))
      && (s.readers[id].changes == 1 ==> !FillFits(s, id))
  }

  lemma NextCountsChanges(s: State, e: Event)
    requires CountsChanges(s)
    ensures CountsChanges(Next(s, e))
  {
    var s' := Next(s, e);
    forall id | HasSelected(s', id)
      ensures s'.readers[id].changes == 0 ==> FillFits(s', id)
      ensures s'.readers[id].changes == 1 ==> !FillFits(s', id)
    {
      assert HasSelected(s, id) || e == Select(id);
    }
  }

  lemma {:induction false} OneChangeOvertakes(s: State, es: seq<Event>)
    requires s.readers == map[]
    ensures CountsChanges(Run(s, es))
    decreases |es|
  {
    if es != [] {
      OneChangeOvertakes(s, es[..|es| - 1]);
      NextCountsChanges(Run(s, es[..|es| - 1]), es[|es| - 1]);
    }
  }

  ghost predicate FitsIffUnchanged(s: State, q: Keys.CachedQuery) {
    forall id | HasSelected(s, id) && s.readers[id].q == q :: FillFits(s, id) <==> s.readers[id].changes == 0
  }

  lemma NextFitsIffUnchanged(s: State, e: Event, q: Keys.CachedQuery)
    requires FitsIffUnchanged(s, q) && IsNovel(s, e, q)
    ensures FitsIffUnchanged(Next(s, e), q)
  {
    var s' := Next(s, e);
    forall id | HasSelected(s', id) && s'.readers[id].q == q
      ensures FillFits(s', id) <==> s'.readers[id].changes == 0
    {
      assert HasSelected(s, id) || e == Select(id);
    }
  }

  /** Where the answers to a query never come back, a lookup may fill the cache with one
      exactly when no commit changed it since the lookup selected. */
  lemma {:induction false} FillFitsIffUnchanged(s: State, es: seq<Event>, q: Keys.CachedQuery)
    requires s.readers == map[] && AlwaysNovel(s, es, q)
    ensures FitsIffUnchanged(Run(s, es), q)
    decreases |es|
  {
    if es != [] {
      FillFitsIffUnchanged(s, es[..|es| - 1], q);
      NextFitsIffUnchanged(Run(s, es[..|es| - 1]), es[|es| - 1], q);
    }
  }

  /** The step keeps to the history's own guards: a commit fits, and a fill comes from a
      lookup whose answer no commit has changed since it selected. */
  predicate IsTimely(s: State, e: Event, q: Keys.CachedQuery) {
    && (e.Commit? && e.id in s.writers ==> CommitFits(s, e.id, q))
    && (e.Fill? && HasSelected(s, e.id) && s.readers[e.id].q == q ==> s.readers[e.id].changes == 0)
  }

  predicate AlwaysTimely(s: State, es: seq<Event>, q: Keys.CachedQuery) {
    es == [] || (AlwaysTimely(s, es[..|es| - 1], q) && IsTimely(Run(s, es[..|es| - 1]), es[|es| - 1], q))
  }

  /** Over every interleaving that keeps these guards for a query the cache is always
      right about it; and if its answers never come back, only over those. */
  lemma {:induction false} StaysCoherentIfTimely(s: State, es: seq<Event>, q: Keys.CachedQuery)
    requires Accurate(s.db, q) && s.readers == map[]
    ensures AlwaysTimely(s, es, q) ==> AlwaysAccurate(s, es, q)
    ensures AlwaysNovel(s, es, q) ==> (AlwaysTimely(s, es, q) <==> AlwaysAccurate(s, es, q))
    decreases |es|
  {
    if es != [] {
      var before, e := es[..|es| - 1], es[|es| - 1];
      StaysCoherentIfTimely(s, before, q);
      OneChangeOvertakes(s, before);
      if AlwaysNovel(s, before, q) { FillFitsIffUnchanged(s, before, q); }
      if AlwaysAccurate(s, before, q) { StepIsAccurateIff(Run(s, before), e, q); }
    }
  }

  // ---- Calls that run through ----

  /** The steps of one repository call. */
  function StepsOf(db: Db, op: Op): seq<Event> {
    match op
    case GetSession(uid) => LookupSteps(db, Keys.UserSession(uid))
    case FindInfo(uid) => LookupSteps(db, Keys.UserInfo(uid))
    case ListLikes(postId) => [Ask(0, Keys.PostLikes(postId)), Select(0), Fill(0)]
    case GetAuth(uid) => if uid in db.tables.auth then [] else [Evict(Keys.UserAuth(uid))]
    case Pass(ms) => [Wait(ms)]
    case _ => [Drop(0, op), Commit(0)]
  }

  function LookupSteps(db: Db, q: Keys.CachedQuery): seq<Event> {
    [Ask(0, q), Select(0), Fill(0)] + if IsEmpty(CachedRead(db, q, KeepFor(q)).1) then [Evict(q)] else []
  }

  lemma ReadRunsThrough(db: Db, q: Keys.CachedQuery)
    ensures Run(State(db, map[], map[]), [Ask(0, q), Select(0), Fill(0)])
         == State(CachedRead(db, q, KeepFor(q)).0, map[], map[])
  {
    var s := State(db, map[], map[]);
    var s1 := Next(s, Ask(0, q));
    var s2 := Next(s1, Select(0));
    var es := [Ask(0, q), Select(0), Fill(0)];
    StepThrough(s, es, 0);
    StepThrough(s, es, 1);
    StepThrough(s, es, 2);
    if !IsLive(db, q) {
      assert s2.readers == map[0 := Selected(q, Query(db.tables, q), 0)];
      assert s2.readers - {0} == map[];
    }
  }

  /** A call whose steps follow each other undisturbed is the call made whole. */
  lemma WholeCallIsItsSteps(db: Db, op: Op)
    ensures Run(State(db, map[], map[]), StepsOf(db, op)) == State(Apply(db, op).0, map[], map[])
  {
    var s, es := State(db, map[], map[]), StepsOf(db, op);
    match op
    case GetSession(uid) => LookupRunsThrough(db, Keys.UserSession(uid));
    case FindInfo(uid) => LookupRunsThrough(db, Keys.UserInfo(uid));
    case ListLikes(postId) => ReadRunsThrough(db, Keys.PostLikes(postId));
    case GetAuth(uid) => OneStep(s, Evict(Keys.UserAuth(uid)));
    case Pass(ms) => OneStep(s, Wait(ms));
    case _ => WriteRunsThrough(db, op);
  }

  lemma OneStep(s: State, e: Event)
    ensures Run(s, [e]) == Next(s, e)
  {
    assert [e][..0] == [];
  }

  lemma StepThrough(s: State, es: seq<Event>, n: nat)
    requires n < |es|
    ensures Run(s, es[..n + 1]) == Next(Run(s, es[..n]), es[n])
    ensures n == 0 ==> Run(s, es[..n]) == s
    ensures n + 1 == |es| ==> Run(s, es[..n + 1]) == Run(s, es)
  {
    assert es[..n + 1][..n] == es[..n];
    assert n + 1 == |es| ==> es[..n + 1] == es;
  }

  lemma LookupRunsThrough(db: Db, q: Keys.CachedQuery)
    ensures Run(State(db, map[], map[]), LookupSteps(db, q)) == State(Lookup(db, q, KeepFor(q)).0, map[], map[])
  {
    ReadRunsThrough(db, q);
    var s, es := State(db, map[], map[]), LookupSteps(db, q);
    assert es[..3] == [Ask(0, q), Select(0), Fill(0)];
    if |es| == 4 {
      StepThrough(s, es, 3);
    } else {
      assert es == es[..3];
    }
  }

  lemma WriteRunsThrough(db: Db, op: Op)
    requires Target(op).Some?
    ensures Run(State(db, map[], map[]), [Drop(0, op), Commit(0)]) == State(Apply(db, op).0, map[], map[])
  {
    var s, es := State(db, map[], map[]), [Drop(0, op), Commit(0)];
    StepThrough(s, es, 0);
    StepThrough(s, es, 1);
    var s1 := Next(s, Drop(0, op));
    assert s1.writers == map[0 := op] && s1.writers - {0} == map[];
  }

  // ---- A lookup that is overtaken ----

  /** A lookup selects the session, the session is updated, and only then does the lookup
      fill the cache. */
  function Overtaken(s: Session): seq<Event> {
    [Ask(0, Keys.UserSession(s.uid)), Select(0), Drop(0, UpdateSession(s, true)), Commit(0), Fill(0)]
  }

  lemma FiveSteps(s: State, es: seq<Event>)
    requires |es| == 5
    ensures Run(s, es) == Next(Next(Next(Next(Next(s, es[0]), es[1]), es[2]), es[3]), es[4])
  {
    TwoSteps(s, es[..2]);
    assert es[..4][..3][..2] == es[..2] && es[..4][..3][2] == es[2];
    assert Run(s, es[..4][..3]) == Next(Run(s, es[..2]), es[2]);
    assert Run(s, es[..4]) == Next(Run(s, es[..4][..3]), es[3]);
  }

  lemma TwoSteps(s: State, es: seq<Event>)
    requires |es| == 2
    ensures Run(s, es) == Next(Next(s, es[0]), es[1])
  {
    assert es[..1] == [es[0]];
    OneStep(s, es[0]);
  }

  lemma SelectsFirst(db: Db, q: Keys.CachedQuery)
    requires !IsLive(db, q)
    ensures Next(Next(State(db, map[], map[]), Ask(0, q)), Select(0))
         == State(db, map[0 := Selected(q, Query(db.tables, q), 0)], map[])
  {
    var readers := map[0 := Asking(q)];
    assert Next(State(db, map[], map[]), Ask(0, q)) == State(db, readers, map[]);
    assert readers[0 := Selected(q, Query(db.tables, q), 0)] == map[0 := Selected(q, Query(db.tables, q), 0)];
  }

  lemma WritesNext(db: Db, r: Reader, op: Op)
    requires Dropped(op).Some? && r.Selected?
    ensures var t := Plain(db.tables, op).0;
            Next(Next(State(db, map[0 := r], map[]), Drop(0, op)), Commit(0))
            == State(Uncached(db, Dropped(op).value).(tables := t), map[0 := Aged(r, db.tables, t)], map[])
  {
    var dropped := Next(State(db, map[0 := r], map[]), Drop(0, op));
    assert dropped == State(Uncached(db, Dropped(op).value), map[0 := r], map[0 := op]);
    assert dropped.writers - {0} == map[];
  }

  /** No lookup is in the gap between the two halves of the write, and the old row is
      cached all the same. */
  lemma LateFillWins(db: Db, s: Session)
    requires s.uid in db.tables.auth && !IsLive(db, Keys.UserSession(s.uid))
    ensures var q := Keys.UserSession(s.uid);
            var end := Run(State(db, map[], map[]), Overtaken(s)).db;
            && end.now == db.now && end.tables == WithSession(db.tables, s)
            && Keys.CacheId(q) in end.cache
            && end.cache[Keys.CacheId(q)] == Cached(Query(db.tables, q), db.now + 6 * HOUR)
  {
    var q := Keys.UserSession(s.uid);
    FiveSteps(State(db, map[], map[]), Overtaken(s));
    SelectsFirst(db, q);
    WritesNext(db, Selected(q, Query(db.tables, q), 0), UpdateSession(s, true));
  }

  // ---- A lookup that is overtaken twice ----

  lemma LikeChangesAnswer(t: Tables, like: LikeRow)
    requires like !in t.likes
    ensures var liked, q := Plain(t, SaveLike(like, 0, true)).0, Keys.PostLikes(like.postId);
            && Query(liked, q) != Query(t, q)
            && Plain(liked, RemoveLike(like, true)).0 == t
  {
    LikesOfCons(like, t.likes, like.postId);
    assert InsertedAt(t.likes, like, 0) == [like] + t.likes;
    PostLikes.UnlikeUndoesLike(t.likes, like, 0);
  }

  /** Why a fill is judged by what the answer is, and not by whether it ever changed: a
      like given and taken back leaves a lookup that selected before both of them with the
      right answer to fill in. */
  lemma AnswersMayReturn(db: Db, like: LikeRow)
    requires like !in db.tables.likes
    ensures var q := Keys.PostLikes(like.postId);
            var s := State(db, map[0 := Selected(q, Query(db.tables, q), 0)], map[]);
            var liked := Next(Next(s, Drop(0, SaveLike(like, 0, true))), Commit(0));
            var end := Next(Next(liked, Drop(0, RemoveLike(like, true))), Commit(0));
            HasSelected(end, 0) && end.readers[0].changes == 2 && FillFits(end, 0)
  {
    var q := Keys.PostLikes(like.postId);
    var r := Selected(q, Query(db.tables, q), 0);
    var t := Plain(db.tables, SaveLike(like, 0, true)).0;
    LikeChangesAnswer(db.tables, like);
    WritesNext(db, r, SaveLike(like, 0, true));
    assert Aged(r, db.tables, t) == r.(changes := 1);
    WritesNext(Uncached(db, q).(tables := t), r.(changes := 1), RemoveLike(like, true));
  }
}
