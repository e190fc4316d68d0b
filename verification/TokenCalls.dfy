/** The services' calls as steps that follow each other, and what two calls make of one
    token when they do not. */
module TokenCalls {
  import opened Prelude
  import opened Database
  import opened Tokens
  import opened TokenSteps
  import opened TokenSafety
  import opened TokenRuns
  import CacheRuns
  import Flow = CacheOverlaps
  import Keys

  /** A check from its beginning to its answer, with nothing in between. */
  function Checked(h: History, c: Config, id: nat, x: Token, refreshing: bool): History {
    Next(Next(Next(h, c, Begin(id, x, refreshing)), c, Select(id)), c, Fill(id))
  }

  predicate IsFree(h: History, id: nat) {
    id !in h.checks && id !in h.flow.readers && id !in h.flow.writers
  }

  /** How a check ends that is answered with these rows and leaves this database. */
  function Ended(h: History, id: nat, x: Token, refreshing: bool, db: Db, rows: Rows): History {
    Judged(h.(flow := h.flow.(db := db), steps := h.steps + 3), id, Looking(x, refreshing, h.steps + 1), rows)
  }

  lemma HitRuns(h: History, c: Config, id: nat, x: Token, refreshing: bool)
    requires IsFree(h, id) && Decode(x, h.flow.db.now).Ok? && IsCached(h, x.uid)
    ensures Checked(h, c, id, x, refreshing) == Ended(h, id, x, refreshing, h.flow.db, CachedRows(h, x.uid))
  {
    var h1 := Next(h, c, Begin(id, x, refreshing));
    assert h1 == Judged(Ticked(h), id, Looking(x, refreshing, h.steps + 1), CachedRows(h, x.uid));
    assert Next(h1, c, Select(id)) == Ticked(h1);
    assert Next(Ticked(h1), c, Fill(id)) == Ticked(Ticked(h1));
  }

  /** The database once a lookup has filled its entry. */
  function FilledDb(db: Db, uid: string): Db {
    var q := Keys.UserSession(uid);
    db.(cache := db.cache[Keys.CacheId(q) := Cached(Query(db.tables, q), db.now + 6 * HOUR)])
  }

  lemma MissSelects(h: History, c: Config, id: nat, x: Token, refreshing: bool)
    requires IsFree(h, id) && Decode(x, h.flow.db.now).Ok? && !IsCached(h, x.uid)
    ensures var h2 := Next(Next(h, c, Begin(id, x, refreshing)), c, Select(id));
            h2 == h.(flow := h.flow.(readers := h.flow.readers[id := Flow.Selected(Keys.UserSession(x.uid),
                                                                                 SessionRows(h, x.uid), 0)]),
                     checks := h.checks[id := Looking(x, refreshing, h.steps + 1)],
                     steps := h.steps + 2)
  {
    var q := Keys.UserSession(x.uid);
    var h1 := Next(h, c, Begin(id, x, refreshing));
    assert h1.flow.readers == h.flow.readers[id := Flow.Asking(q)];
    assert h1.flow.readers[id := Flow.Selected(q, SessionRows(h, x.uid), 0)]
        == h.flow.readers[id := Flow.Selected(q, SessionRows(h, x.uid), 0)];
  }

  lemma FillAnswers(h: History, c: Config, id: nat)
    requires IsLooking(h, id) && Flow.HasSelected(h.flow, id)
    ensures Next(h, c, Fill(id))
         == Judged(Flowed(Ticked(h), Flow.Fill(id)), id, h.checks[id], h.flow.readers[id].rows)
  {
  }

  /** It does not matter to a judgement what stood under its number before. */
  lemma JudgedAfresh(h: History, id: nat, check: Check, looking: Check, rows: Rows)
    requires check.Looking?
    ensures Judged(h.(checks := h.checks[id := looking]), id, check, rows) == Judged(h, id, check, rows)
  {
    assert h.checks[id := looking] - {id} == h.checks - {id};
  }

  lemma MissRuns(h: History, c: Config, id: nat, x: Token, refreshing: bool)
    requires IsFree(h, id) && Decode(x, h.flow.db.now).Ok? && !IsCached(h, x.uid)
    ensures Checked(h, c, id, x, refreshing)
         == Ended(h, id, x, refreshing, FilledDb(h.flow.db, x.uid), SessionRows(h, x.uid))
  {
    MissSelects(h, c, id, x, refreshing);
    var h2 := Next(Next(h, c, Begin(id, x, refreshing)), c, Select(id));
    var check := Looking(x, refreshing, h.steps + 1);
    FillAnswers(h2, c, id);
    assert h2.flow.readers - {id} == h.flow.readers;
    var h3 := h.(flow := h.flow.(db := FilledDb(h.flow.db, x.uid)), steps := h.steps + 3);
    assert Flowed(Ticked(h2), Flow.Fill(id)) == h3.(checks := h3.checks[id := check]);
    JudgedAfresh(h3, id, check, check, SessionRows(h, x.uid));
  }

  lemma VerifyingReads(db: Db, x: Token)
    requires Decode(x, db.now).Ok?
    ensures var live, k := IsLive(db, Keys.UserSession(x.uid)), Keys.CacheId(Keys.UserSession(x.uid));
            var rows := if live then db.cache[k].rows else Query(db.tables, Keys.UserSession(x.uid));
            && (Verifies(db, x) <==> Shows(rows, x))
            && (Verifies(db, x) ==> VerifyRefresh(db, x)
                                    == (if live then db else FilledDb(db, x.uid), Ok(rows.sessions[0])))
  {
  }

  /** The check of a refresh that passes. */
  lemma CheckRuns(h: History, c: Config, id: nat, x: Token)
    requires IsFree(h, id) && Verifies(h.flow.db, x)
    ensures var (db, session) := VerifyRefresh(h.flow.db, x);
            Checked(h, c, id, x, true)
            == h.(flow := h.flow.(db := db), checks := h.checks[id := Verified(x, session.value, h.steps + 1)],
                  steps := h.steps + 3)
  {
    VerifyingReads(h.flow.db, x);
    if IsCached(h, x.uid) { HitRuns(h, c, id, x, true); } else { MissRuns(h, c, id, x, true); }
  }

  /** A token that is expired or was never signed is not even looked up. */
  lemma BadTokensAreNotLookedUp(h: History, c: Config, id: nat, x: Token, refreshing: bool)
    requires IsFree(h, id) && (!x.Signed? || x.expires <= h.flow.db.now)
    ensures Checked(h, c, id, x, refreshing) == h.(steps := h.steps + 3)
  {
    assert Next(h, c, Begin(id, x, refreshing)) == Ticked(h);
    assert Next(Ticked(h), c, Select(id)) == Ticked(Ticked(h));
  }

  /** One that does not pass leaves no trace but in the cache. */
  lemma RefusedCheckRuns(h: History, c: Config, id: nat, x: Token, refreshing: bool)
    requires IsFree(h, id) && Decode(x, h.flow.db.now).Ok? && !(refreshing && Verifies(h.flow.db, x))
    ensures var h' := Checked(h, c, id, x, refreshing);
            var db := if IsCached(h, x.uid) then h.flow.db else FilledDb(h.flow.db, x.uid);
            h' == h.(flow := h.flow.(db := db), steps := h.steps + 3)
  {
    VerifyingReads(h.flow.db, x);
    assert h.checks - {id} == h.checks;
    if IsCached(h, x.uid) { HitRuns(h, c, id, x, refreshing); } else { MissRuns(h, c, id, x, refreshing); }
  }

  /** What storing a pair does, from its signing to its commit. */
  lemma PairIsCreated(h: History, c: Config, id: nat, uid: string, role: Role, accepted: bool)
    requires id !in h.flow.writers
    ensures var h' := Flowed(Signing(h, c, id, uid, role, accepted), Flow.Commit(id));
            var (server, r) := Created(Server(h.flow.db, h.serial), c, uid, role, accepted);
            && h'.flow.db == server.db && h'.serial == server.serial && h'.flow.writers == h.flow.writers
            && r.Ok? == accepted
            && (accepted ==> r.value.refreshToken == Signed(h.serial + 1, uid, h.flow.db.now + c.refreshTtl))
  {
    var h1 := Signing(h, c, id, uid, role, accepted);
    assert h1.flow.writers - {id} == h.flow.writers;
  }

  /** The pair of a login or a sign-up whose two steps follow each other is the service's. */
  lemma IssueIsCreated(h: History, c: Config, id: nat, uid: string, role: Role, accepted: bool)
    requires IsFree(h, id) && uid in h.flow.db.tables.auth
    ensures var h' := Next(Next(h, c, Issue(id, uid, role, accepted)), c, Commit(id));
            var (server, r) := Created(Server(h.flow.db, h.serial), c, uid, role, accepted);
            && Server(h'.flow.db, h'.serial) == server
            && h'.issued == (if r.Ok? then h.issued[uid := r.value.refreshToken] else h.issued)
            && h'.checks == h.checks && h'.log == h.log
  {
    PairIsCreated(Ticked(h), c, id, uid, role, accepted);
  }

  lemma RegistrationRuns(h: History, c: Config, id: nat, row: AuthRow)
    requires IsFree(h, id) && row.refreshToken == NoToken
    ensures var h' := Next(Next(h, c, Write(id, CacheRuns.SaveAuth(row, true))), c, Commit(id));
            && h'.flow.db == CacheRuns.Apply(h.flow.db, CacheRuns.SaveAuth(row, true)).0 && h'.serial == h.serial
            && IsFree(h', id)
  {
    var h1 := Next(h, c, Write(id, CacheRuns.SaveAuth(row, true)));
    assert h1.flow.writers == h.flow.writers[id := CacheRuns.SaveAuth(row, true)];
  }

  /** A new user's row, then the first pair, as four steps. */
  function Registered(h: History, c: Config, id: nat, row: AuthRow, accepted: bool): History {
    var h1 := Next(Next(h, c, Write(id, CacheRuns.SaveAuth(row, true))), c, Commit(id));
    Next(Next(h1, c, Issue(id, row.uid, USER, accepted)), c, Commit(id))
  }

  lemma RegisteredIsCreated(h: History, c: Config, id: nat, row: AuthRow, accepted: bool)
    requires IsFree(h, id) && row.refreshToken == NoToken && row.uid !in h.flow.db.tables.auth
    ensures var h' := Registered(h, c, id, row, accepted);
            var db := CacheRuns.Apply(h.flow.db, CacheRuns.SaveAuth(row, true)).0;
            Server(h'.flow.db, h'.serial) == Created(Server(db, h.serial), c, row.uid, USER, accepted).0
  {
    RegistrationRuns(h, c, id, row);
    var h1 := Next(Next(h, c, Write(id, CacheRuns.SaveAuth(row, true))), c, Commit(id));
    IssueIsCreated(h1, c, id, row.uid, USER, accepted);
  }

  /** A sign-up that nothing disturbs is the service's own. */
  lemma SignUpIsItsSteps(h: History, c: Config, id: nat, uid: string, password: string, accepted: bool)
    requires IsFree(h, id) && uid !in h.flow.db.tables.auth
    ensures var h' := Registered(h, c, id, LocalRow(c, uid, password, h.flow.db.now), accepted);
            Server(h'.flow.db, h'.serial)
            == SignedUp(Server(h.flow.db, h.serial), c, uid, password, true, accepted).0
  {
    RegisteredIsCreated(h, c, id, LocalRow(c, uid, password, h.flow.db.now), accepted);
  }

  /** So is the first login of someone vouched for. */
  lemma FirstOauthIsItsSteps(h: History, c: Config, id: nat, uid: string, accepted: bool)
    requires IsFree(h, id) && uid !in h.flow.db.tables.auth && uid != ""
    ensures var h' := Registered(h, c, id, SocialRow(uid), accepted);
            Server(h'.flow.db, h'.serial)
            == OauthLoggedIn(Server(h.flow.db, h.serial), c, Some(uid), true, accepted).0
  {
    RegisteredIsCreated(h, c, id, SocialRow(uid), accepted);
    var db := CacheRuns.Apply(h.flow.db, CacheRuns.SaveAuth(SocialRow(uid), true)).0;
    assert db.tables.auth[uid] == SocialRow(uid);
  }

  /** And a login with a known user's password. */
  lemma LoginIsItsSteps(h: History, c: Config, id: nat, uid: string, password: string, accepted: bool)
    requires IsFree(h, id) && uid in h.flow.db.tables.auth && h.flow.db.tables.auth[uid].uid == uid
    requires var row := h.flow.db.tables.auth[uid]; Stretched(c.sha, password, row.salt, 3) == row.password
    ensures var role := h.flow.db.tables.auth[uid].userRole;
            var h' := Next(Next(h, c, Issue(id, uid, role, accepted)), c, Commit(id));
            Server(h'.flow.db, h'.serial) == LoggedIn(Server(h.flow.db, h.serial), c, uid, password, accepted).0
  {
    IssueIsCreated(h, c, id, uid, h.flow.db.tables.auth[uid].userRole, accepted);
  }

  lemma StoreIsCreated(h: History, c: Config, id: nat, accepted: bool)
    requires CanStore(h, id)
    ensures var h', v := Next(Next(h, c, Store(id, accepted)), c, Commit(id)), h.checks[id];
            var (server, r) := Created(Server(h.flow.db, h.serial), c, v.session.uid, v.session.userRole, accepted);
            && Server(h'.flow.db, h'.serial) == server
            && h'.checks == h.checks - {id}
            && h'.log == if r.Ok? then h.log + [Exchange(v.token, v.begin, h.steps + 2)] else h.log
  {
    var v := h.checks[id];
    PairIsCreated(Ticked(h), c, id, v.session.uid, v.session.userRole, accepted);
  }

  /** A refresh that nothing disturbs is the service's own. */
  lemma RefreshIsItsSteps(h: History, c: Config, id: nat, x: Token, accepted: bool)
    requires IsFree(h, id) && Verifies(h.flow.db, x)
    ensures var h' := Next(Next(Checked(h, c, id, x, true), c, Store(id, accepted)), c, Commit(id));
            var (server, r) := Refreshed(Server(h.flow.db, h.serial), c, Some(x), accepted);
            && Server(h'.flow.db, h'.serial) == server
            && h'.checks == h.checks
            && h'.log == if r.Ok? then h.log + [Exchange(x, h.steps + 1, h.steps + 5)] else h.log
  {
    CheckRuns(h, c, id, x);
    var h3 := Checked(h, c, id, x, true);
    StoreIsCreated(h3, c, id, accepted);
    assert h3.checks - {id} == h.checks;
  }

  // ---- Two refreshes of one token ----

  lemma CheckedKeepsInv(h: History, c: Config, id: nat, x: Token, refreshing: bool)
    requires Inv(h)
    ensures Inv(Checked(h, c, id, x, refreshing))
  {
    NextKeepsInv(h, c, Begin(id, x, refreshing));
    NextKeepsInv(Next(h, c, Begin(id, x, refreshing)), c, Select(id));
    NextKeepsInv(Next(Next(h, c, Begin(id, x, refreshing)), c, Select(id)), c, Fill(id));
  }

  lemma VerifyingAgain(db: Db, x: Token)
    requires Verifies(db, x)
    ensures VerifyRefresh(VerifyRefresh(db, x).0, x) == VerifyRefresh(db, x)
    ensures VerifyRefresh(db, x).0.tables == db.tables && VerifyRefresh(db, x).0.now == db.now
  {
    VerifyingReads(db, x);
    if !IsLive(db, Keys.UserSession(x.uid)) { VerifyingReads(FilledDb(db, x.uid), x); }
  }

  lemma StoreShape(h: History, c: Config, id: nat)
    requires CanStore(h, id)
    ensures var v := h.checks[id];
            var s := Session(v.session.uid, Signed(h.serial + 1, v.session.uid, h.flow.db.now + c.refreshTtl),
                             v.session.userRole);
            Next(h, c, Store(id, true))
            == h.(flow := Flow.State(Uncached(h.flow.db, Keys.UserSession(s.uid)), h.flow.readers,
                                     h.flow.writers[id := CacheRuns.UpdateSession(s, true)]),
                  serial := h.serial + 2, checks := h.checks[id := Storing(v.token, v.begin)], steps := h.steps + 1)
  {
  }

  lemma CommitShape(h: History, c: Config, id: nat, s: Session)
    requires id in h.flow.writers && h.flow.writers[id] == CacheRuns.UpdateSession(s, true) && IsStoring(h, id)
    ensures var h' := Next(h, c, Commit(id));
            && h'.flow.db == h.flow.db.(tables := WithSession(h.flow.db.tables, s))
            && h'.flow.writers == h.flow.writers - {id}
            && h'.issued == h.issued[s.uid := s.refreshToken]
            && h'.checks == h.checks - {id}
            && h'.log == h.log + [Exchange(h.checks[id].token, h.checks[id].begin, h.steps + 1)]
            && h'.serial == h.serial && h'.steps == h.steps + 1
  {
  }

  /** Two refreshes of one token that are both checked before either is stored. */
  function BothChecked(h: History, c: Config, x: Token, a: nat, b: nat): History {
    Checked(Checked(h, c, a, x, true), c, b, x, true)
  }

  function BothStored(h: History, c: Config, a: nat, b: nat): History {
    Next(Next(h, c, Store(a, true)), c, Store(b, true))
  }

  function BothCommitted(h: History, c: Config, a: nat, b: nat): History {
    Next(Next(h, c, Commit(a)), c, Commit(b))
  }

  lemma BothCheckedShape(h: History, c: Config, x: Token, a: nat, b: nat)
    requires Inv(h) && Verifies(h.flow.db, x) && a != b && IsFree(h, a) && IsFree(h, b)
    ensures var (db, session) := VerifyRefresh(h.flow.db, x);
            BothChecked(h, c, x, a, b)
            == h.(flow := h.flow.(db := db),
                  checks := h.checks[a := Verified(x, session.value, h.steps + 1)]
                                    [b := Verified(x, session.value, h.steps + 4)],
                  steps := h.steps + 6)
  {
    CheckRuns(h, c, a, x);
    VerifyingAgain(h.flow.db, x);
    CheckRuns(Checked(h, c, a, x, true), c, b, x);
  }

  lemma BothCanStore(h: History, c: Config, x: Token, a: nat, b: nat)
    requires Inv(h) && Verifies(h.flow.db, x) && a != b && IsFree(h, a) && IsFree(h, b)
    ensures var h', session := BothChecked(h, c, x, a, b), VerifyRefresh(h.flow.db, x).1.value;
            && CanStore(h', a) && h'.checks[a] == Verified(x, session, h.steps + 1)
            && CanStore(h', b) && h'.checks[b] == Verified(x, session, h.steps + 4)
            && h'.log == h.log && h'.steps == h.steps + 6 && h'.serial == h.serial && h'.flow.db.now == h.flow.db.now
  {
    BothCheckedShape(h, c, x, a, b);
    VerifyingAgain(h.flow.db, x);
  }

  lemma SessionNamesUser(h: History, x: Token)
    requires Inv(h) && Verifies(h.flow.db, x)
    ensures VerifyRefresh(h.flow.db, x).1.value.uid == x.uid
  {
    VerifyingReads(h.flow.db, x);
    RowIsKnown(h, x.uid);
    assert EntryOk(h, x.uid);
  }

  lemma BothStoredShape(h: History, c: Config, a: nat, b: nat, session: Session, s1: Session, s2: Session)
    requires a != b && CanStore(h, a) && CanStore(h, b)
    requires h.checks[a].session == h.checks[b].session == session
    requires s1 == session.(refreshToken := Signed(h.serial + 1, session.uid, h.flow.db.now + c.refreshTtl))
    requires s2 == session.(refreshToken := Signed(h.serial + 3, session.uid, h.flow.db.now + c.refreshTtl))
    ensures var h' := BothStored(h, c, a, b);
            && !IsCached(h', session.uid) && h'.flow.db.now == h.flow.db.now
            && a in h'.flow.writers && h'.flow.writers[a] == CacheRuns.UpdateSession(s1, true)
            && b in h'.flow.writers && h'.flow.writers[b] == CacheRuns.UpdateSession(s2, true)
            && IsStoring(h', a) && h'.checks[a] == Storing(h.checks[a].token, h.checks[a].begin)
            && IsStoring(h', b) && h'.checks[b] == Storing(h.checks[b].token, h.checks[b].begin)
            && h'.log == h.log && h'.steps == h.steps + 2
  {
    StoreShape(h, c, a);
    StoreShape(Next(h, c, Store(a, true)), c, b);
  }

  lemma BothCommittedShape(h: History, c: Config, a: nat, b: nat, s1: Session, s2: Session)
    requires a != b && IsStoring(h, a) && IsStoring(h, b) && a in h.flow.writers && b in h.flow.writers
    requires h.flow.writers[a] == CacheRuns.UpdateSession(s1, true)
    requires h.flow.writers[b] == CacheRuns.UpdateSession(s2, true)
    ensures var h' := BothCommitted(h, c, a, b);
            && h'.flow.db.cache == h.flow.db.cache && h'.flow.db.now == h.flow.db.now
            && h'.issued == h.issued[s1.uid := s1.refreshToken][s2.uid := s2.refreshToken]
            && h'.log == h.log + [Exchange(h.checks[a].token, h.checks[a].begin, h.steps + 1),
                                  Exchange(h.checks[b].token, h.checks[b].begin, h.steps + 2)]
  {
    CommitShape(h, c, a, s1);
    CommitShape(Next(h, c, Commit(a)), c, b, s2);
  }

  lemma BothKeepInv(h: History, c: Config, x: Token, a: nat, b: nat)
    requires Inv(h)
    ensures Inv(Twice(h, c, x, a, b))
  {
    CheckedKeepsInv(h, c, a, x, true);
    CheckedKeepsInv(Checked(h, c, a, x, true), c, b, x, true);
    var h2 := BothChecked(h, c, x, a, b);
    NextKeepsInv(h2, c, Store(a, true));
    NextKeepsInv(Next(h2, c, Store(a, true)), c, Store(b, true));
    var h4 := BothStored(h2, c, a, b);
    NextKeepsInv(h4, c, Commit(a));
    NextKeepsInv(Next(h4, c, Commit(a)), c, Commit(b));
  }

  /** The state that two overlapping refreshes of a token end in. */
  function Twice(h: History, c: Config, x: Token, a: nat, b: nat): History {
    BothCommitted(BothStored(BothChecked(h, c, x, a, b), c, a, b), c, a, b)
  }

  /** What becomes of two refreshes that have passed with the same token and session. */
  lemma PairsShape(h: History, c: Config, a: nat, b: nat, session: Session)
    requires a != b && CanStore(h, a) && CanStore(h, b)
    requires h.checks[a].session == h.checks[b].session == session
    ensures var end := BothCommitted(BothStored(h, c, a, b), c, a, b);
            && end.log == h.log + [Exchange(h.checks[a].token, h.checks[a].begin, h.steps + 3),
                                   Exchange(h.checks[b].token, h.checks[b].begin, h.steps + 4)]
            && session.uid in end.issued
            && end.issued[session.uid] == Signed(h.serial + 3, session.uid, h.flow.db.now + c.refreshTtl)
            && !IsCached(end, session.uid) && end.flow.db.now == h.flow.db.now
  {
    var expires := h.flow.db.now + c.refreshTtl;
    var s1 := session.(refreshToken := Signed(h.serial + 1, session.uid, expires));
    var s2 := session.(refreshToken := Signed(h.serial + 3, session.uid, expires));
    BothStoredShape(h, c, a, b, session, s1, s2);
    BothCommittedShape(BothStored(h, c, a, b), c, a, b, s1, s2);
  }

  lemma TwiceShape(h: History, c: Config, x: Token, a: nat, b: nat)
    requires Inv(h) && Verifies(h.flow.db, x) && a != b && IsFree(h, a) && IsFree(h, b)
    ensures var end, expires := Twice(h, c, x, a, b), h.flow.db.now + c.refreshTtl;
            && end.log == h.log + [Exchange(x, h.steps + 1, h.steps + 9), Exchange(x, h.steps + 4, h.steps + 10)]
            && x.uid in end.issued && end.issued[x.uid] == Signed(h.serial + 3, x.uid, expires)
            && !IsCached(end, x.uid) && end.flow.db.now == h.flow.db.now
  {
    BothCanStore(h, c, x, a, b);
    SessionNamesUser(h, x);
    PairsShape(BothChecked(h, c, x, a, b), c, a, b, VerifyRefresh(h.flow.db, x).1.value);
  }

  lemma LastRules(h: History, first: Token, last: Token)
    requires Inv(h) && first.Signed? && last.Signed? && first.uid == last.uid && first != last
    requires !IsCached(h, last.uid) && last.uid in h.issued && h.issued[last.uid] == last
    ensures !Verifies(h.flow.db, first)
    ensures Verifies(h.flow.db, last) <==> h.flow.db.now < last.expires
  {
    VerifiesIff(h, first);
    VerifiesIff(h, last);
  }

  /** Two refreshes of one token that overlap both exchange it, and only the pair stored
      last is usable. */
  lemma OverlapRedeemsTwice(h: History, c: Config, x: Token, a: nat, b: nat)
    requires Inv(h) && Verifies(h.flow.db, x) && a != b && IsFree(h, a) && IsFree(h, b)
    ensures var end, expires := Twice(h, c, x, a, b), h.flow.db.now + c.refreshTtl;
            && end.log == h.log + [Exchange(x, h.steps + 1, h.steps + 9), Exchange(x, h.steps + 4, h.steps + 10)]
            && !Verifies(end.flow.db, Signed(h.serial + 1, x.uid, expires))
            && (Verifies(end.flow.db, Signed(h.serial + 3, x.uid, expires)) <==> c.refreshTtl > 0)
  {
    TwiceShape(h, c, x, a, b);
    BothKeepInv(h, c, x, a, b);
    var end, expires := Twice(h, c, x, a, b), h.flow.db.now + c.refreshTtl;
    LastRules(end, Signed(h.serial + 1, x.uid, expires), Signed(h.serial + 3, x.uid, expires));
  }
}
