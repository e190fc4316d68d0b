/** What every token history keeps, with no assumption on how its steps interleave. */
module TokenSafety {
  import opened Database
  import opened Tokens
  import opened TokenSteps
  import CacheRuns
  import Flow = CacheOverlaps
  import Keys

  /** A write under way brings this token. */
  ghost predicate Carried(h: History, x: Token) {
    exists id | id in h.flow.writers ::
      h.flow.writers[id].UpdateSession? && h.flow.writers[id].session.refreshToken == x
  }

  /** A token that was stored for the user once, or none. */
  ghost predicate Known(h: History, uid: string, x: Token) {
    x == NoToken || (x.Signed? && x.uid == uid && x.serial < h.serial && !Carried(h, x))
  }

  ghost predicate RowsKnown(h: History, uid: string, rows: Rows) {
    rows.Sessions? && forall s | s in rows.sessions ::
      s.uid == uid && uid in h.flow.db.tables.auth && Known(h, uid, s.refreshToken)
  }

  /** The tables carry exactly the tokens last stored. */
  ghost predicate TablesOk(h: History) {
    var auth := h.flow.db.tables.auth;
    && (forall u | u in h.issued :: u in auth && h.issued[u].Signed? && Known(h, u, h.issued[u]))
    && RowsCarry(auth, h.issued)
  }

  ghost predicate RowsCarry(auth: map<string, AuthRow>, issued: map<string, Token>) {
    forall u | u in auth ::
      auth[u].uid == u && auth[u].refreshToken == if u in issued then issued[u] else NoToken
  }

  predicate WriteOk(h: History, op: CacheRuns.Op) {
    match op
    case UpdateSession(s, _) =>
      s.refreshToken.Signed? && s.refreshToken.uid == s.uid && s.refreshToken.serial < h.serial
      && s.uid in h.flow.db.tables.auth
    case SaveAuth(row, _) => row.refreshToken == NoToken
    case _ => true
  }

  ghost predicate WritersOk(h: History) {
    && (forall id | id in h.flow.writers :: WriteOk(h, h.flow.writers[id]))
    && forall a, b | a in h.flow.writers && b in h.flow.writers && a != b
         && h.flow.writers[a].UpdateSession? && h.flow.writers[b].UpdateSession? ::
         h.flow.writers[a].session.refreshToken != h.flow.writers[b].session.refreshToken
  }

  ghost predicate EntryOk(h: History, uid: string) {
    var k := Keys.CacheId(Keys.UserSession(uid));
    k in h.flow.db.cache ==> RowsKnown(h, uid, h.flow.db.cache[k].rows)
  }

  ghost predicate ReaderOk(h: History, id: nat)
    requires id in h.flow.readers
  {
    var r := h.flow.readers[id];
    r.Selected? && r.q.UserSession? ==> RowsKnown(h, r.q.uid, r.rows)
  }

  /** Whatever the cache and the lookups show of a session was in its row once. */
  ghost predicate ShownOk(h: History) {
    (forall u :: EntryOk(h, u)) && forall id | id in h.flow.readers :: ReaderOk(h, id)
  }

  ghost predicate CheckOk(h: History, id: nat)
    requires id in h.checks
  {
    var check := h.checks[id];
    && check.token.Signed? && check.begin <= h.steps
    && match check
       case Looking(x, _, _) => id in h.flow.readers && h.flow.readers[id].q == Keys.UserSession(x.uid)
       case Verified(x, s, _) => Known(h, x.uid, x) && s.uid == x.uid && s.uid in h.flow.db.tables.auth
       case Storing(x, _) =>
         && Known(h, x.uid, x)
         && id in h.flow.writers && h.flow.writers[id].UpdateSession? && h.flow.writers[id].session.uid == x.uid
  }

  ghost predicate ChecksOk(h: History) {
    forall id | id in h.checks :: CheckOk(h, id)
  }

  /** Stored once, and no longer the latest: such a token is never stored again. */
  ghost predicate Dead(h: History, x: Token) {
    x.Signed? && x.serial < h.serial && !Carried(h, x) && !IsLatest(h, x)
  }

  ghost predicate LogOk(h: History) {
    && (forall i | 0 <= i < |h.log| :: Dead(h, h.log[i].token) && h.log[i].begin < h.log[i].end <= h.steps)
    && forall i, j | 0 <= i < j < |h.log| :: h.log[i].end < h.log[j].end
  }

  ghost predicate Inv(h: History) {
    TablesOk(h) && WritersOk(h) && ShownOk(h) && ChecksOk(h) && LogOk(h)
  }

  // ---- What time does to tokens ----

  /** Users stay, writes under way bring no token signed before, and a latest token gives
      way only to one that a write brought. */
  ghost predicate Later(h: History, h': History) {
    && h.serial <= h'.serial && h.steps <= h'.steps
    && (forall u | u in h.flow.db.tables.auth :: u in h'.flow.db.tables.auth)
    && (forall x | Carried(h', x) :: Carried(h, x) || (x.Signed? && h.serial <= x.serial))
    && (forall u | u in h'.issued :: (u in h.issued && h'.issued[u] == h.issued[u]) || Carried(h, h'.issued[u]))
  }

  lemma KnownStays(h: History, h': History, uid: string, rows: Rows)
    requires Later(h, h') && RowsKnown(h, uid, rows)
    ensures RowsKnown(h', uid, rows)
  {
  }

  lemma DeadStaysDead(h: History, h': History, x: Token)
    requires Later(h, h') && Dead(h, x)
    ensures Dead(h', x)
  {
  }

  lemma LogStays(h: History, h': History)
    requires LogOk(h) && Later(h, h') && h'.log == h.log
    ensures LogOk(h')
  {
    forall i | 0 <= i < |h.log|
      ensures Dead(h', h.log[i].token)
    {
      DeadStaysDead(h, h', h.log[i].token);
    }
  }

  lemma TablesStay(h: History, h': History)
    requires TablesOk(h) && Later(h, h') && h'.flow.db.tables.auth == h.flow.db.tables.auth && h'.issued == h.issued
    ensures TablesOk(h')
  {
  }

  /** No entry and no answer is new. */
  ghost predicate ShowsLess(h: History, h': History) {
    && (forall k | k in h'.flow.db.cache :: k in h.flow.db.cache && h'.flow.db.cache[k].rows == h.flow.db.cache[k].rows)
    && forall id | id in h'.flow.readers && h'.flow.readers[id].Selected? ::
         id in h.flow.readers && h.flow.readers[id].Selected?
         && h'.flow.readers[id].q == h.flow.readers[id].q && h'.flow.readers[id].rows == h.flow.readers[id].rows
  }

  lemma ShownStays(h: History, h': History)
    requires ShownOk(h) && Later(h, h') && ShowsLess(h, h')
    ensures ShownOk(h')
  {
    forall u
      ensures EntryOk(h', u)
    {
      assert EntryOk(h, u);
      var k := Keys.CacheId(Keys.UserSession(u));
      if k in h'.flow.db.cache { KnownStays(h, h', u, h.flow.db.cache[k].rows); }
    }
    forall id | id in h'.flow.readers
      ensures ReaderOk(h', id)
    {
      var r := h'.flow.readers[id];
      if r.Selected? && r.q.UserSession? {
        assert ReaderOk(h, id);
        KnownStays(h, h', r.q.uid, r.rows);
      }
    }
  }

  /** The check, its lookup and its write are where they were. */
  predicate SameCheck(h: History, h': History, id: nat) {
    id in h.checks && id in h'.checks && h'.checks[id] == h.checks[id]
    && (h.checks[id].Looking? ==>
          (id in h.flow.readers ==> id in h'.flow.readers && h'.flow.readers[id].q == h.flow.readers[id].q))
    && (h.checks[id].Storing? ==>
          (id in h.flow.writers ==> id in h'.flow.writers && h'.flow.writers[id] == h.flow.writers[id]))
  }

  lemma CheckStays(h: History, h': History, id: nat)
    requires id in h.checks && CheckOk(h, id) && Later(h, h') && SameCheck(h, h', id)
    ensures CheckOk(h', id)
  {
  }

  lemma ChecksStay(h: History, h': History)
    requires ChecksOk(h) && Later(h, h') && h'.checks == h.checks
    requires forall id | id in h.checks :: SameCheck(h, h', id)
    ensures ChecksOk(h')
  {
    forall id | id in h'.checks
      ensures CheckOk(h', id)
    {
      CheckStays(h, h', id);
    }
  }

  // ---- One step ----

  /** Lookups that begin, entries that go, time that passes, ordinary writes. */
  predicate IsPlain(h: History, e: Flow.Event) {
    match e
    case Ask(id, _) => id !in h.checks
    case Evict(_) => true
    case Wait(_) => true
    case Drop(id, op) => id !in h.flow.writers && IsOrdinary(op)
    case _ => false
  }

  lemma PlainMovesOn(h: History, e: Flow.Event)
    requires WritersOk(h) && IsPlain(h, e)
    ensures Later(h, Flowed(h, e)) && WritersOk(Flowed(h, e)) && ShowsLess(h, Flowed(h, e))
    ensures Flowed(h, e).flow.db.tables == h.flow.db.tables
    ensures forall id | id in h.checks :: SameCheck(h, Flowed(h, e), id)
  {
  }

  lemma PlainKeepsInv(h: History, e: Flow.Event)
    requires Inv(h) && IsPlain(h, e)
    ensures Inv(Flowed(h, e)) && Later(h, Flowed(h, e))
  {
    PlainMovesOn(h, e);
    TablesStay(h, Flowed(h, e));
    ShownStays(h, Flowed(h, e));
    ChecksStay(h, Flowed(h, e));
    LogStays(h, Flowed(h, e));
  }

  lemma TickKeepsInv(h: History)
    requires Inv(h)
    ensures Inv(Ticked(h)) && Later(h, Ticked(h))
  {
    TablesStay(h, Ticked(h));
    ShownStays(h, Ticked(h));
    ChecksStay(h, Ticked(h));
    LogStays(h, Ticked(h));
  }

  /** What the row says is known. */
  lemma RowIsKnown(h: History, uid: string)
    requires TablesOk(h)
    ensures RowsKnown(h, uid, Query(h.flow.db.tables, Keys.UserSession(uid)))
  {
  }

  lemma SelectKeepsInv(h: History, id: nat)
    requires Inv(h)
    ensures Inv(Flowed(h, Flow.Select(id))) && Later(h, Flowed(h, Flow.Select(id)))
  {
    var h' := Flowed(h, Flow.Select(id));
    if id in h.flow.readers && h.flow.readers[id].Asking? {
      var q := h.flow.readers[id].q;
      TablesStay(h, h');
      forall u
        ensures EntryOk(h', u)
      {
        assert EntryOk(h, u);
      }
      forall i | i in h'.flow.readers
        ensures ReaderOk(h', i)
      {
        assert ReaderOk(h, i);
        if i == id && q.UserSession? { RowIsKnown(h, q.uid); }
      }
      ChecksStay(h, h');
      LogStays(h, h');
    }
  }

  /** All is well but for one check. */
  ghost predicate InvBut(h: History, id: nat) {
    && TablesOk(h) && WritersOk(h) && ShownOk(h) && LogOk(h)
    && forall i | i in h.checks && i != id :: CheckOk(h, i)
  }

  lemma OneCheckChanges(h: History, h': History, id: nat)
    requires InvBut(h, id) && h' == h.(checks := h'.checks)
    requires forall i | i in h'.checks && i != id :: i in h.checks && h'.checks[i] == h.checks[i]
    requires id in h'.checks ==> CheckOk(h', id)
    ensures Inv(h') && Later(h, h')
  {
    TablesStay(h, h');
    ShownStays(h, h');
    LogStays(h, h');
    forall i | i in h'.checks
      ensures CheckOk(h', i)
    {
      if i != id { CheckStays(h, h', i); }
    }
  }

  lemma FillKeepsShown(h: History, id: nat)
    requires Inv(h) && Flow.HasSelected(h.flow, id)
    ensures ShownOk(Flowed(h, Flow.Fill(id)))
  {
    var h', r := Flowed(h, Flow.Fill(id)), h.flow.readers[id];
    forall u
      ensures EntryOk(h', u)
    {
      assert EntryOk(h, u) && ReaderOk(h, id);
      if Keys.CacheId(r.q) == Keys.CacheId(Keys.UserSession(u)) { Keys.CacheIdIsInjective(r.q, Keys.UserSession(u)); }
    }
    forall i | i in h'.flow.readers
      ensures ReaderOk(h', i)
    {
      assert ReaderOk(h, i);
    }
  }

  lemma FillKeepsRest(h: History, id: nat)
    requires Inv(h)
    ensures InvBut(Flowed(h, Flow.Fill(id)), id) && Later(h, Flowed(h, Flow.Fill(id)))
    ensures !(IsLooking(h, id) && Flow.HasSelected(h.flow, id)) ==> Inv(Flowed(h, Flow.Fill(id)))
  {
    var h' := Flowed(h, Flow.Fill(id));
    if Flow.HasSelected(h.flow, id) {
      FillKeepsShown(h, id);
      TablesStay(h, h');
      LogStays(h, h');
      forall i | i in h.checks && (i != id || !IsLooking(h, id))
        ensures CheckOk(h', i)
      {
        CheckStays(h, h', i);
      }
    }
  }

  /** A judged check is as good as the answer it was judged by. */
  lemma JudgedKeepsInv(h: History, id: nat, check: Check, rows: Rows)
    requires InvBut(h, id) && check.Looking? && check.token.Signed? && check.begin <= h.steps
    requires RowsKnown(h, check.token.uid, rows)
    ensures Inv(Judged(h, id, check, rows)) && Later(h, Judged(h, id, check, rows))
  {
    var h' := Judged(h, id, check, rows);
    OneCheckChanges(h, h', id);
  }

  lemma FilledKeepsInv(h: History, id: nat)
    requires Inv(h)
    ensures Inv(Filled(h, id)) && Later(h, Filled(h, id))
  {
    FillKeepsRest(h, id);
    if IsLooking(h, id) && Flow.HasSelected(h.flow, id) {
      assert CheckOk(h, id) && ReaderOk(h, id);
      var h1, rows := Flowed(h, Flow.Fill(id)), h.flow.readers[id].rows;
      KnownStays(h, h1, h.checks[id].token.uid, rows);
      JudgedKeepsInv(h1, id, h.checks[id], rows);
    }
  }

  lemma BegunKeepsInv(h: History, id: nat, x: Token, refreshing: bool)
    requires Inv(h)
    ensures Inv(Begun(h, id, x, refreshing)) && Later(h, Begun(h, id, x, refreshing))
  {
    if CanBegin(h, id, x) {
      var q, check := Keys.UserSession(x.uid), Looking(x, refreshing, h.steps);
      if IsLive(h.flow.db, q) {
        assert EntryOk(h, x.uid);
        JudgedKeepsInv(h, id, check, h.flow.db.cache[Keys.CacheId(q)].rows);
      } else {
        var h1 := Flowed(h, Flow.Ask(id, q));
        PlainKeepsInv(h, Flow.Ask(id, q));
        LookupEnters(h1, id, check);
      }
    }
  }

  lemma LookupEnters(h: History, id: nat, check: Check)
    requires Inv(h) && check.Looking? && check.token.Signed? && check.begin <= h.steps
    requires id in h.flow.readers && h.flow.readers[id].q == Keys.UserSession(check.token.uid)
    ensures Inv(h.(checks := h.checks[id := check]))
  {
    var h' := h.(checks := h.checks[id := check]);
    OneCheckChanges(h, h', id);
  }

  lemma SigningMovesOn(h: History, c: Config, id: nat, uid: string, role: Role, accepted: bool)
    requires WritersOk(h) && uid in h.flow.db.tables.auth && id !in h.flow.writers
    ensures var h' := Signing(h, c, id, uid, role, accepted);
            && Later(h, h') && WritersOk(h') && ShowsLess(h, h')
            && h'.flow.db.tables == h.flow.db.tables
            && id in h'.flow.writers && h'.flow.writers[id].UpdateSession? && h'.flow.writers[id].session.uid == uid
            && forall i | i in h.checks :: SameCheck(h, h', i)
  {
  }

  lemma SigningKeepsInv(h: History, c: Config, id: nat, uid: string, role: Role, accepted: bool)
    requires Inv(h) && uid in h.flow.db.tables.auth && id !in h.flow.writers
    ensures var h' := Signing(h, c, id, uid, role, accepted);
            Inv(h') && Later(h, h')
  {
    var h' := Signing(h, c, id, uid, role, accepted);
    SigningMovesOn(h, c, id, uid, role, accepted);
    TablesStay(h, h');
    ShownStays(h, h');
    ChecksStay(h, h');
    LogStays(h, h');
  }

  lemma StoredKeepsInv(h: History, c: Config, id: nat, accepted: bool)
    requires Inv(h)
    ensures Inv(Stored(h, c, id, accepted)) && Later(h, Stored(h, c, id, accepted))
  {
    if CanStore(h, id) {
      var v := h.checks[id];
      assert CheckOk(h, id);
      SigningKeepsInv(h, c, id, v.session.uid, v.session.userRole, accepted);
      SigningMovesOn(h, c, id, v.session.uid, v.session.userRole, accepted);
      var h1 := Signing(h, c, id, v.session.uid, v.session.userRole, accepted);
      StoringEnters(h1, id, Storing(v.token, v.begin));
    }
  }

  lemma StoringEnters(h: History, id: nat, check: Check)
    requires Inv(h) && check.Storing? && check.token.Signed? && check.begin <= h.steps
    requires Known(h, check.token.uid, check.token)
    requires id in h.flow.writers && h.flow.writers[id].UpdateSession?
    requires h.flow.writers[id].session.uid == check.token.uid
    ensures Inv(h.(checks := h.checks[id := check]))
  {
    var h' := h.(checks := h.checks[id := check]);
    OneCheckChanges(h, h', id);
  }

  /** What a commit does to the user table. */
  function AuthAfter(auth: map<string, AuthRow>, op: CacheRuns.Op): map<string, AuthRow> {
    if op.UpdateSession? && op.accepted && op.session.uid in auth then
      var s := op.session;
      auth[s.uid := auth[s.uid].(refreshToken := s.refreshToken, userRole := s.userRole)]
    else if op.SaveAuth? && op.accepted && op.row.uid !in auth then auth[op.row.uid := op.row]
    else auth
  }

  lemma CommitWrites(h: History, id: nat)
    requires id in h.flow.writers
    ensures Committed(h, id).flow.db.tables.auth == AuthAfter(h.flow.db.tables.auth, h.flow.writers[id])
  {
  }

  /** A committed write is under way no more. */
  lemma CommitEnds(h: History, id: nat)
    requires WritersOk(h) && id in h.flow.writers
    ensures var h' := Committed(h, id);
            && h'.flow.writers == h.flow.writers - {id} && WritersKeep(h, h')
            && (h.flow.writers[id].UpdateSession? ==> !Carried(h', h.flow.writers[id].session.refreshToken))
  {
  }

  ghost predicate WritersKeep(h: History, h': History) {
    forall x | Carried(h', x) :: Carried(h, x)
  }

  lemma CommitShowsLess(h: History, id: nat)
    ensures ShowsLess(h, Committed(h, id))
  {
  }

  lemma CommitMovesOn(h: History, id: nat)
    requires WritersOk(h) && id in h.flow.writers
    ensures var h' := Committed(h, id);
            && Later(h, h') && WritersOk(h')
            && (h.flow.writers[id].UpdateSession? ==> !Carried(h', h.flow.writers[id].session.refreshToken))
  {
    CommitEnds(h, id);
    CommitWrites(h, id);
    UsersStay(h.flow.db.tables.auth, h.flow.writers[id]);
    var h' := Committed(h, id);
    forall i | i in h'.flow.writers
      ensures WriteOk(h', h'.flow.writers[i])
    {
      assert WriteOk(h, h.flow.writers[i]);
    }
  }

  lemma UsersStay(auth: map<string, AuthRow>, op: CacheRuns.Op)
    ensures forall u | u in auth :: u in AuthAfter(auth, op)
  {
  }

  lemma CommitKeepsIssued(h: History, id: nat)
    requires TablesOk(h) && WritersOk(h) && id in h.flow.writers
    ensures var h' := Committed(h, id);
            forall u | u in h'.issued ::
              u in h'.flow.db.tables.auth && h'.issued[u].Signed? && Known(h', u, h'.issued[u])
  {
    CommitMovesOn(h, id);
    var h', op := Committed(h, id), h.flow.writers[id];
    assert WriteOk(h, op);
    forall u | u in h'.issued
      ensures u in h'.flow.db.tables.auth && h'.issued[u].Signed? && Known(h', u, h'.issued[u])
    {
      if !(op.UpdateSession? && op.accepted && u == op.session.uid) { assert Known(h, u, h.issued[u]); }
    }
  }

  lemma CommitKeepsTables(h: History, id: nat)
    requires TablesOk(h) && WritersOk(h) && id in h.flow.writers
    ensures TablesOk(Committed(h, id))
  {
    CommitKeepsIssued(h, id);
    CommitWrites(h, id);
    var op := h.flow.writers[id];
    assert WriteOk(h, op);
    RowsFollow(h.flow.db.tables.auth, h.issued, op);
  }

  /** The rows go on carrying the tokens last stored. */
  lemma RowsFollow(auth: map<string, AuthRow>, issued: map<string, Token>, op: CacheRuns.Op)
    requires forall u | u in issued :: u in auth
    requires RowsCarry(auth, issued)
    requires op.UpdateSession? ==> op.session.uid in auth
    requires op.SaveAuth? ==> op.row.refreshToken == NoToken
    ensures RowsCarry(AuthAfter(auth, op), if op.UpdateSession? && op.accepted
                                           then issued[op.session.uid := op.session.refreshToken] else issued)
  {
  }

  lemma CommitKeepsChecks(h: History, id: nat)
    requires Inv(h) && id in h.flow.writers
    ensures ChecksOk(Committed(h, id))
  {
    CommitMovesOn(h, id);
    forall i | i in Committed(h, id).checks
      ensures CheckOk(Committed(h, id), i)
    {
      assert CheckOk(h, i);
      CheckStays(h, Committed(h, id), i);
    }
  }

  lemma CommitKeepsLog(h: History, id: nat)
    requires Inv(h) && IsNew(h) && id in h.flow.writers
    ensures LogOk(Committed(h, id))
  {
    CommitMovesOn(h, id);
    var h' := Committed(h, id);
    forall i | 0 <= i < |h'.log|
      ensures Dead(h', h'.log[i].token) && h'.log[i].begin < h'.log[i].end <= h'.steps
    {
      if i < |h.log| {
        DeadStaysDead(h, h', h.log[i].token);
      } else {
        assert CheckOk(h, id) && WriteOk(h, h.flow.writers[id]);
      }
    }
  }

  /** Nothing is dated to this step yet. */
  predicate IsNew(h: History) {
    && (forall id | id in h.checks :: h.checks[id].begin < h.steps)
    && forall i | 0 <= i < |h.log| :: h.log[i].end < h.steps
  }

  lemma TickIsNew(h: History)
    requires ChecksOk(h) && LogOk(h)
    ensures IsNew(Ticked(h))
  {
    forall id | id in h.checks
      ensures h.checks[id].begin < Ticked(h).steps
    {
      assert CheckOk(h, id);
    }
  }

  lemma CommittedKeepsInv(h: History, id: nat)
    requires Inv(h) && IsNew(h)
    ensures Inv(Committed(h, id)) && Later(h, Committed(h, id))
  {
    if id in h.flow.writers {
      CommitMovesOn(h, id);
      CommitKeepsTables(h, id);
      CommitShowsLess(h, id);
      ShownStays(h, Committed(h, id));
      CommitKeepsChecks(h, id);
      CommitKeepsLog(h, id);
    }
  }

  lemma StepKeepsInv(h: History, c: Config, e: Event)
    requires Inv(h) && IsNew(h)
    ensures Inv(Step(h, c, e)) && Later(h, Step(h, c, e))
  {
    match e
    case Begin(id, token, refreshing) => BegunKeepsInv(h, id, token, refreshing);
    case Ask(id, q) => if id !in h.checks { PlainKeepsInv(h, Flow.Ask(id, q)); }
    case Select(id) => SelectKeepsInv(h, id);
    case Fill(id) => FilledKeepsInv(h, id);
    case Evict(q) => PlainKeepsInv(h, Flow.Evict(q));
    case Store(id, accepted) => StoredKeepsInv(h, c, id, accepted);
    case Issue(id, uid, role, accepted) =>
      if uid in h.flow.db.tables.auth && id !in h.flow.writers { SigningKeepsInv(h, c, id, uid, role, accepted); }
    case Write(id, op) =>
      if id !in h.flow.writers && IsOrdinary(op) { PlainKeepsInv(h, Flow.Drop(id, op)); }
    case Commit(id) => CommittedKeepsInv(h, id);
    case Wait(ms) => PlainKeepsInv(h, Flow.Wait(ms));
  }

  lemma NextKeepsInv(h: History, c: Config, e: Event)
    requires Inv(h)
    ensures Inv(Next(h, c, e)) && Later(h, Next(h, c, e))
  {
    TickKeepsInv(h);
    TickIsNew(h);
    StepKeepsInv(Ticked(h), c, e);
  }

  lemma {:induction false} RunKeepsInv(h: History, c: Config, es: seq<Event>)
    requires Inv(h)
    ensures Inv(Run(h, c, es))
    decreases |es|
  {
    if es != [] {
      RunKeepsInv(h, c, es[..|es| - 1]);
      NextKeepsInv(Run(h, c, es[..|es| - 1]), c, es[|es| - 1]);
    }
  }

  /** A token that is not the latest of its user now never is again. */
  lemma {:induction false} DeadForever(h: History, c: Config, es: seq<Event>, x: Token)
    requires Inv(h) && Dead(h, x)
    ensures Dead(Run(h, c, es), x)
    decreases |es|
  {
    if es != [] {
      var before := Run(h, c, es[..|es| - 1]);
      DeadForever(h, c, es[..|es| - 1], x);
      RunKeepsInv(h, c, es[..|es| - 1]);
      NextKeepsInv(before, c, es[|es| - 1]);
      DeadStaysDead(before, Run(h, c, es), x);
    }
  }

  // ---- Where histories begin ----

  /** A user table as the server leaves it behind: every row under its own uid, with no
      refresh token or one of that user's, signed before now. */
  predicate WellKept(auth: map<string, AuthRow>, serial: nat) {
    forall u | u in auth ::
      && auth[u].uid == u
      && var x := auth[u].refreshToken;
         x == NoToken || (x.Signed? && x.uid == u && x.serial < serial)
  }

  /** A server that starts over any such tables, its cache empty and nothing under way. */
  function Start(t: Tables, now: int, serial: nat): History {
    var issued := map u | u in t.auth && t.auth[u].refreshToken != NoToken :: t.auth[u].refreshToken;
    History(Flow.State(Db(t, map[], now), map[], map[]), serial, issued, map[], [], 0)
  }

  lemma StartHasInv(t: Tables, now: int, serial: nat)
    requires WellKept(t.auth, serial)
    ensures Inv(Start(t, now, serial))
  {
    assert forall x :: !Carried(Start(t, now, serial), x);
  }
}
