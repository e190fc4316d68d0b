/** What a step that does not fit means for tokens: the replaced one goes on working, and
    the one that replaced it does not, until the cache entry runs out. */
module StaleSessions {
  import opened Prelude
  import opened Database
  import opened Tokens
  import opened TokenSteps
  import opened TokenCalls
  import CacheOverlaps
  import CacheRuns
  import Keys
  import TokenRuns
  import TokenSafety

  /** The cache holds this session until `until`. */
  predicate Holds(db: Db, s: Session, until: int) {
    var id := Keys.CacheId(Keys.UserSession(s.uid));
    id in db.cache && db.cache[id] == Cached(Sessions([s]), until)
  }

  /** Until then its token is the one that verifies; afterwards the table's is. */
  lemma EntryDecides(db: Db, s: Session, until: int, x: Token)
    requires Holds(db, s, until) && s.uid in db.tables.auth && x.Signed? && x.uid == s.uid
    ensures var current := if db.now < until then s.refreshToken else db.tables.auth[s.uid].refreshToken;
            && (TokenRuns.Verifies(db, x) <==> db.now < x.expires && x == current)
            && (db.now < x.expires && x != current ==> VerifyRefresh(db, x).1 == Err(Mismatch))
  {
  }

  /** At a later moment an unexpired token of the user verifies exactly if it is the one
      replaced, as long as its entry is kept, and then exactly if it is the table's. */
  predicate RulesAt(db: Db, s: Session, replaced: Token, ms: nat, x: Token) {
    var later := db.(now := db.now + ms);
    var current := if ms < 6 * HOUR then replaced else s.refreshToken;
    x.Signed? && x.uid == s.uid && later.now < x.expires ==>
      (TokenRuns.Verifies(later, x) <==> x == current) && (x != current ==> VerifyRefresh(later, x).1 == Err(Mismatch))
  }

  /** The table has `s` by now, but its predecessor's token rules. */
  ghost predicate ReplacedTokenRules(db: Db, s: Session, replaced: Token) {
    && s.uid in db.tables.auth && db.tables.auth[s.uid].refreshToken == s.refreshToken
    && forall ms: nat, x: Token :: RulesAt(db, s, replaced, ms, x)
  }

  lemma HeldTokenRules(db: Db, s: Session, shown: Session)
    requires shown.uid == s.uid && Holds(db, shown, db.now + 6 * HOUR)
    requires s.uid in db.tables.auth && db.tables.auth[s.uid].refreshToken == s.refreshToken
    ensures ReplacedTokenRules(db, s, shown.refreshToken)
  {
    forall ms: nat, x: Token
      ensures RulesAt(db, s, shown.refreshToken, ms, x)
    {
      if x.Signed? && x.uid == s.uid { EntryDecides(db.(now := db.now + ms), shown, db.now + 6 * HOUR, x); }
    }
  }

  /** A whole lookup between the two halves of the update. */
  lemma ReaderInTheGap(db: Db, s: Session)
    requires CacheRuns.Coherent(db) && s.uid in db.tables.auth
    ensures var end := CacheRuns.Overlapped(db, CacheRuns.UpdateSession(s, true), [CacheRuns.GetSession(s.uid)]);
            end.now == db.now && ReplacedTokenRules(end, s, db.tables.auth[s.uid].refreshToken)
  {
    var q, gap := Keys.UserSession(s.uid), [CacheRuns.GetSession(s.uid)];
    var db0 := Uncached(db, q);
    assert gap[..0] == [];
    assert CacheRuns.Run(db0, gap).0 == CacheRuns.Apply(CacheRuns.Run(db0, gap[..0]).0, gap[0]).0;
    var end := CacheRuns.Overlapped(db, CacheRuns.UpdateSession(s, true), gap);
    HeldTokenRules(end, s, Session(s.uid, db.tables.auth[s.uid].refreshToken, db.tables.auth[s.uid].userRole));
  }

  /** A lookup around the update: it selects before and fills after. */
  lemma ReaderAround(db: Db, s: Session)
    requires s.uid in db.tables.auth && !IsLive(db, Keys.UserSession(s.uid))
    ensures var start := CacheOverlaps.State(db, map[], map[]);
            var end := CacheOverlaps.Run(start, CacheOverlaps.Overtaken(s)).db;
            end.now == db.now && ReplacedTokenRules(end, s, db.tables.auth[s.uid].refreshToken)
  {
    CacheOverlaps.LateFillWins(db, s);
    var end := CacheOverlaps.Run(CacheOverlaps.State(db, map[], map[]), CacheOverlaps.Overtaken(s)).db;
    HeldTokenRules(end, s, Session(s.uid, db.tables.auth[s.uid].refreshToken, db.tables.auth[s.uid].userRole));
  }

  // ---- A guard in the gap of a refresh ----

  /** A refresh is checked and signs its pair; before that is committed, a guard checks the
      same token; then the refresh ends. */
  function GuardedRefresh(h: History, c: Config, x: Token, a: nat, g: nat): History {
    Next(Checked(Waiting(h, c, x, a), c, g, x, false), c, Commit(a))
  }

  lemma GuardFillsTheGap(h: History, c: Config, x: Token, g: nat, a: nat, s: Session)
    requires x.Signed? && h.flow.db.now < x.expires && !TokenRuns.IsCached(h, x.uid)
    requires Shows(TokenRuns.SessionRows(h, x.uid), x)
    requires IsFree(h, g) && g != a && IsStoring(h, a) && a in h.flow.writers
    requires h.flow.writers[a] == CacheRuns.UpdateSession(s, true)
    ensures var end := Next(Checked(h, c, g, x, false), c, Commit(a));
            && end.log == h.log + [Exchange(h.checks[a].token, h.checks[a].begin, h.steps + 4)]
            && end.checks == h.checks - {a} && end.flow.db.now == h.flow.db.now
            && TokenRuns.IsCached(end, x.uid) && Shows(TokenRuns.CachedRows(end, x.uid), x)
  {
    RefusedCheckRuns(h, c, g, x, false);
    CommitShape(Checked(h, c, g, x, false), c, a, s);
  }

  lemma RefreshPasses(h: History, c: Config, x: Token, a: nat)
    requires TokenSafety.Inv(h) && TokenRuns.Verifies(h.flow.db, x) && IsFree(h, a)
    ensures var h', session := Checked(h, c, a, x, true), VerifyRefresh(h.flow.db, x).1.value;
            && CanStore(h', a) && session.uid == x.uid
            && h'.checks == h.checks[a := Verified(x, session, h.steps + 1)]
            && h'.flow.readers == h.flow.readers && h'.flow.writers == h.flow.writers
            && h'.flow.db.tables == h.flow.db.tables
            && h'.log == h.log && h'.steps == h.steps + 3 && h'.serial == h.serial && h'.flow.db.now == h.flow.db.now
  {
    CheckRuns(h, c, a, x);
    SessionNamesUser(h, x);
    VerifyingAgain(h.flow.db, x);
  }

  lemma StoreWaits(h: History, c: Config, a: nat)
    requires CanStore(h, a)
    ensures var h', v := Next(h, c, Store(a, true)), h.checks[a];
            && h'.flow.db.tables == h.flow.db.tables && h'.log == h.log && h'.steps == h.steps + 1
            && h'.flow.db.now == h.flow.db.now && !TokenRuns.IsCached(h', v.session.uid)
            && h'.checks == h.checks[a := Storing(v.token, v.begin)]
            && h'.flow.readers == h.flow.readers
            && h'.flow.writers.Keys == h.flow.writers.Keys + {a}
            && h'.flow.writers[a].UpdateSession? && h'.flow.writers[a].accepted
  {
    StoreShape(h, c, a);
  }

  /** The refresh up to where it waits for its commit. */
  function Waiting(h: History, c: Config, x: Token, a: nat): History {
    Next(Checked(h, c, a, x, true), c, Store(a, true))
  }

  lemma RefreshWaits(h: History, c: Config, x: Token, a: nat)
    requires TokenSafety.Inv(h) && TokenRuns.Verifies(h.flow.db, x) && IsFree(h, a)
    ensures var h' := Waiting(h, c, x, a);
            && h'.flow.db.tables == h.flow.db.tables && h'.log == h.log && h'.steps == h.steps + 4
            && h'.flow.db.now == h.flow.db.now && !TokenRuns.IsCached(h', x.uid)
            && IsStoring(h', a) && h'.checks[a] == Storing(x, h.steps + 1) && h'.checks - {a} == h.checks - {a}
            && (forall g | g != a && IsFree(h, g) :: IsFree(h', g))
            && a in h'.flow.writers && h'.flow.writers[a].UpdateSession? && h'.flow.writers[a].accepted
  {
    RefreshPasses(h, c, x, a);
    StoreWaits(Checked(h, c, a, x, true), c, a);
  }

  lemma GuardedRefreshKeepsInv(h: History, c: Config, x: Token, a: nat, g: nat)
    requires TokenSafety.Inv(h)
    ensures TokenSafety.Inv(Waiting(h, c, x, a)) && TokenSafety.Inv(GuardedRefresh(h, c, x, a, g))
  {
    CheckedKeepsInv(h, c, a, x, true);
    TokenSafety.NextKeepsInv(Checked(h, c, a, x, true), c, Store(a, true));
    var h2 := Waiting(h, c, x, a);
    CheckedKeepsInv(h2, c, g, x, false);
    TokenSafety.NextKeepsInv(Checked(h2, c, g, x, false), c, Commit(a));
  }

  lemma GuardedRefreshEnds(h: History, c: Config, x: Token, a: nat, g: nat)
    requires TokenSafety.Inv(h) && TokenRuns.Verifies(h.flow.db, x) && x.Signed? && h.flow.db.now < x.expires
    requires Shows(TokenRuns.SessionRows(h, x.uid), x)
    requires a != g && IsFree(h, a) && IsFree(h, g)
    ensures var end := GuardedRefresh(h, c, x, a, g);
            && end.log == h.log + [Exchange(x, h.steps + 1, h.steps + 8)] && end.checks == h.checks
            && end.flow.db.now == h.flow.db.now
            && TokenRuns.IsCached(end, x.uid) && Shows(TokenRuns.CachedRows(end, x.uid), x)
  {
    RefreshWaits(h, c, x, a);
    var h2 := Waiting(h, c, x, a);
    GuardFillsTheGap(h2, c, x, g, a, h2.flow.writers[a].session);
    assert h.checks - {a} == h.checks;
  }

  /** No two refreshes overlap and a lock on the token is kept, and still the token can be
      redeemed again at once, while the pair it was exchanged for is refused. */
  lemma GuardInTheGap(h: History, c: Config, x: Token, a: nat, g: nat)
    requires TokenSafety.Inv(h) && TokenRuns.Verifies(h.flow.db, x) && IsLatest(h, x)
    requires a != g && IsFree(h, a) && IsFree(h, g)
    ensures var end := GuardedRefresh(h, c, x, a, g);
            && end.log == h.log + [Exchange(x, h.steps + 1, h.steps + 8)] && end.checks == h.checks
            && Refreshed(Server(end.flow.db, end.serial), c, Some(x), true).1.Ok?
            && forall y: Token | y.Signed? && y.uid == x.uid && y != x :: !TokenRuns.Verifies(end.flow.db, y)
  {
    TokenRuns.VerifiesIff(h, x);
    TokenRuns.RowShowsLatest(h, x);
    GuardedRefreshEnds(h, c, x, a, g);
    GuardedRefreshKeepsInv(h, c, x, a, g);
    var end := GuardedRefresh(h, c, x, a, g);
    assert end.log[|h.log|].token == x;
    TokenRuns.StaleRefreshIff(end, c, x, true);
    forall y: Token | y.Signed? && y.uid == x.uid && y != x
      ensures !TokenRuns.Verifies(end.flow.db, y)
    {
      TokenRuns.VerifiesIff(end, y);
    }
  }
}
