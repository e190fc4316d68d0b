/** Which refresh tokens still work, and how often one can be redeemed, over every history
    of refreshes, logins, guards and other calls taken apart where they wait. */
module TokenRuns {
  import opened Prelude
  import opened Database
  import opened Tokens
  import opened TokenSteps
  import opened TokenSafety
  import CacheRuns
  import Flow = CacheOverlaps
  import Keys

  /** The token works for a caller nobody disturbs: it decodes, and the session found in
      the cache or else in the table carries it. */
  predicate Verifies(db: Db, x: Token) {
    VerifyRefresh(db, x).1.Ok?
  }

  function SessionRows(h: History, uid: string): Rows {
    Query(h.flow.db.tables, Keys.UserSession(uid))
  }

  predicate IsCached(h: History, uid: string) {
    IsLive(h.flow.db, Keys.UserSession(uid))
  }

  function CachedRows(h: History, uid: string): Rows
    requires IsCached(h, uid)
  {
    h.flow.db.cache[Keys.CacheId(Keys.UserSession(uid))].rows
  }

  /** The cache is right about the session of this user. */
  predicate Right(h: History, uid: string) {
    Flow.Accurate(h.flow.db, Keys.UserSession(uid))
  }

  // ---- What a check finds ----

  lemma RowShowsLatest(h: History, x: Token)
    requires TablesOk(h) && x.Signed?
    ensures Shows(SessionRows(h, x.uid), x) <==> IsLatest(h, x)
  {
  }

  /** In every reachable state, however the steps before it interleaved, an undisturbed
      check passes exactly if the token is unexpired and shown by the live cache entry of
      its user, or is the latest if there is none. */
  lemma VerifiesIff(h: History, x: Token)
    requires Inv(h)
    ensures Verifies(h.flow.db, x)
            <==> x.Signed? && h.flow.db.now < x.expires
                 && if IsCached(h, x.uid) then Shows(CachedRows(h, x.uid), x) else IsLatest(h, x)
  {
    if x.Signed? { RowShowsLatest(h, x); }
  }

  /** What it takes to redeem an exchanged token again.  A refresh that nothing disturbs
      succeeds exactly if a live entry still shows the token and it is unexpired. */
  lemma StaleRefreshIff(h: History, c: Config, x: Token, accepted: bool)
    requires Inv(h) && Dead(h, x)
    ensures Refreshed(Server(h.flow.db, h.serial), c, Some(x), accepted).1.Ok?
            <==> accepted && h.flow.db.now < x.expires && IsCached(h, x.uid) && Shows(CachedRows(h, x.uid), x)
  {
    VerifiesIff(h, x);
  }

  /** Every exchanged token is in that position, after every history. */
  lemma ExchangedAgainIff(h: History, c: Config, es: seq<Event>, i: nat, accepted: bool)
    requires Inv(h) && i < |Run(h, c, es).log|
    ensures var h' := Run(h, c, es);
            var x := h'.log[i].token;
            && x.Signed?
            && (Refreshed(Server(h'.flow.db, h'.serial), c, Some(x), accepted).1.Ok?
                <==> accepted && h'.flow.db.now < x.expires
                     && IsCached(h', x.uid) && Shows(CachedRows(h', x.uid), x))
  {
    RunKeepsInv(h, c, es);
    StaleRefreshIff(Run(h, c, es), c, Run(h, c, es).log[i].token, accepted);
  }

  // ---- While the session's steps fit ----

  /** What a step does to the database, its lookups and its writes. */
  function Lowered(h: History, c: Config, e: Event): Option<Flow.Event> {
    match e
    case Begin(id, x, _) =>
      if !CanBegin(h, id, x) || IsCached(h, x.uid) then None else Some(Flow.Ask(id, Keys.UserSession(x.uid)))
    case Ask(id, q) => if id in h.checks then None else Some(Flow.Ask(id, q))
    case Select(id) => Some(Flow.Select(id))
    case Fill(id) => Some(Flow.Fill(id))
    case Evict(q) => Some(Flow.Evict(q))
    case Store(id, accepted) =>
      if !CanStore(h, id) then None
      else Some(Dropping(h, c, id, h.checks[id].session.uid, h.checks[id].session.userRole, accepted))
    case Issue(id, uid, role, accepted) =>
      if uid !in h.flow.db.tables.auth || id in h.flow.writers then None
      else Some(Dropping(h, c, id, uid, role, accepted))
    case Write(id, op) => if id in h.flow.writers || !IsOrdinary(op) then None else Some(Flow.Drop(id, op))
    case Commit(id) => Some(Flow.Commit(id))
    case Wait(ms) => Some(Flow.Wait(ms))
  }

  function Dropping(h: History, c: Config, id: nat, uid: string, role: Role, accepted: bool): Flow.Event {
    var latest := Signed(h.serial + 1, uid, h.flow.db.now + c.refreshTtl);
    Flow.Drop(id, CacheRuns.UpdateSession(Session(uid, latest, role), accepted))
  }

  lemma NextIsLowered(h: History, c: Config, e: Event)
    ensures Next(h, c, e).flow
         == if Lowered(h, c, e).None? then h.flow else Flow.Next(h.flow, Lowered(h, c, e).value)
    ensures Lowered(h, c, e).Some? && Lowered(h, c, e).value.Commit? ==> e == Commit(Lowered(h, c, e).value.id)
    ensures Lowered(h, c, e).Some? && Lowered(h, c, e).value.Fill? ==> e == Fill(Lowered(h, c, e).value.id)
  {
  }

  /** A step keeps the cache right about a session exactly if it fits. */
  lemma NextIsRightIff(h: History, c: Config, e: Event, uid: string)
    requires Right(h, uid)
    ensures Right(Next(h, c, e), uid) <==> Fits(h, e, uid)
  {
    NextIsLowered(h, c, e);
    if Lowered(h, c, e).Some? {
      Flow.StepIsAccurateIff(h.flow, Lowered(h, c, e).value, Keys.UserSession(uid));
    }
  }

  predicate AlwaysRight(h: History, c: Config, es: seq<Event>, uid: string) {
    Right(Run(h, c, es), uid) && (es == [] || AlwaysRight(h, c, es[..|es| - 1], uid))
  }

  /** The cache is right about a session at every moment exactly if every step fits it. */
  lemma {:induction false} StaysRightIff(h: History, c: Config, es: seq<Event>, uid: string)
    requires Right(h, uid)
    ensures AlwaysRight(h, c, es, uid) <==> AlwaysFits(h, c, es, uid)
    decreases |es|
  {
    if es != [] {
      StaysRightIff(h, c, es[..|es| - 1], uid);
      if AlwaysRight(h, c, es[..|es| - 1], uid) {
        NextIsRightIff(Run(h, c, es[..|es| - 1]), c, es[|es| - 1], uid);
      }
    }
  }

  lemma RunIsRight(h: History, c: Config, es: seq<Event>, uid: string)
    requires Right(h, uid) && AlwaysFits(h, c, es, uid)
    ensures Right(Run(h, c, es), uid)
  {
    StaysRightIff(h, c, es, uid);
  }

  lemma RightVerifies(h: History, x: Token)
    requires Inv(h) && x.Signed? && Right(h, x.uid)
    ensures Verifies(h.flow.db, x) <==> IsLatest(h, x) && h.flow.db.now < x.expires
  {
    VerifiesIff(h, x);
    RowShowsLatest(h, x);
  }

  /** Token rotation.  While the steps on a user's session fit, and whatever else overlaps,
      the tokens of that user that verify are exactly the unexpired latest one. */
  lemma OnlyTheLatestVerifies(h: History, c: Config, es: seq<Event>, x: Token)
    requires Inv(h) && x.Signed? && Right(h, x.uid) && AlwaysFits(h, c, es, x.uid)
    ensures var h' := Run(h, c, es);
            Verifies(h'.flow.db, x) <==> IsLatest(h', x) && h'.flow.db.now < x.expires
  {
    RunKeepsInv(h, c, es);
    RunIsRight(h, c, es, x.uid);
    RightVerifies(Run(h, c, es), x);
  }

  /** A token that is not the latest of its user now never verifies again, while the steps
      on that user's session fit. */
  lemma SupersededIsFinal(h: History, c: Config, es: seq<Event>, x: Token)
    requires Inv(h) && Dead(h, x) && Right(h, x.uid) && AlwaysFits(h, c, es, x.uid)
    ensures !Verifies(Run(h, c, es).flow.db, x)
  {
    OnlyTheLatestVerifies(h, c, es, x);
    DeadForever(h, c, es, x);
  }

  /** The token under check and the rows it is checked against, if this step answers a
      check: by a hit when it begins, or by the lookup it waited for. */
  function Answer(h: History, e: Event): Option<(Token, Rows)> {
    match e
    case Begin(id, x, _) => if CanBegin(h, id, x) && IsCached(h, x.uid) then Some((x, CachedRows(h, x.uid))) else None
    case Fill(id) =>
      if !IsLooking(h, id) || !Flow.HasSelected(h.flow, id) then None
      else Some((h.checks[id].token, h.flow.readers[id].rows))
    case _ => None
  }

  /** While the steps on the session fit, every check, of a guard or of a refresh, passes
      if and only if its token is the user's latest at the moment it is answered. */
  lemma ChecksPassIffLatest(h: History, c: Config, es: seq<Event>, e: Event, x: Token, rows: Rows)
    requires Inv(h) && Answer(Run(h, c, es), e) == Some((x, rows)) && x.Signed?
    requires Right(h, x.uid) && AlwaysFits(h, c, es, x.uid) && Fits(Run(h, c, es), e, x.uid)
    ensures Shows(rows, x) <==> IsLatest(Run(h, c, es), x)
  {
    RunKeepsInv(h, c, es);
    RunIsRight(h, c, es, x.uid);
    AnswerIsTheRow(Run(h, c, es), e, x, rows);
    RowShowsLatest(Run(h, c, es), x);
  }

  lemma AnswerIsTheRow(h: History, e: Event, x: Token, rows: Rows)
    requires Inv(h) && Answer(h, e) == Some((x, rows)) && x.Signed? && Right(h, x.uid) && Fits(h, e, x.uid)
    ensures rows == SessionRows(h, x.uid)
  {
    if e.Fill? { assert CheckOk(h, e.id); }
  }

  // ---- How often a token is redeemed ----

  /** Each of the two began before the other ended. */
  predicate Overlap(a: Exchange, b: Exchange) {
    a.begin < b.end && b.begin < a.end
  }

  /** The check has passed. */
  predicate HasPassed(h: History, id: nat) {
    id in h.checks && !h.checks[id].Looking?
  }

  predicate IsOf(x: Token, uid: string) {
    x.Signed? && x.uid == uid
  }

  /** Whoever passed with a token of this user began before any exchange of it ended. */
  ghost predicate SharedInTime(h: History, uid: string) {
    && (forall i, j | 0 <= i < j < |h.log| && h.log[i].token == h.log[j].token && IsOf(h.log[i].token, uid) ::
          h.log[j].begin < h.log[i].end)
    && forall i, id | 0 <= i < |h.log| && HasPassed(h, id) && h.checks[id].token == h.log[i].token
         && IsOf(h.log[i].token, uid) :: h.checks[id].begin < h.log[i].end
  }

  /** No check has newly passed, and no exchange is new. */
  ghost predicate PassesLess(h: History, h': History) {
    h'.log == h.log && forall id | HasPassed(h', id) ::
      HasPassed(h, id) && h'.checks[id].token == h.checks[id].token && h'.checks[id].begin == h.checks[id].begin
  }

  lemma SharedStays(h: History, h': History, uid: string)
    requires SharedInTime(h, uid) && PassesLess(h, h')
    ensures SharedInTime(h', uid)
  {
  }

  /** A check that passes on the row's own answer has a token no exchange of which ended. */
  lemma JudgedStaysShared(h: History, id: nat, check: Check, rows: Rows, uid: string)
    requires TablesOk(h) && LogOk(h) && SharedInTime(h, uid) && check.Looking?
    requires IsOf(check.token, uid) ==> rows == SessionRows(h, uid)
    ensures SharedInTime(Judged(h, id, check, rows), uid)
  {
    if IsOf(check.token, uid) {
      RowShowsLatest(h, check.token);
      assert forall i | 0 <= i < |h.log| :: Dead(h, h.log[i].token);
    }
  }

  lemma BegunStaysShared(h: History, id: nat, x: Token, refreshing: bool, uid: string)
    requires Inv(h) && Right(h, uid) && SharedInTime(h, uid)
    ensures SharedInTime(Begun(h, id, x, refreshing), uid)
  {
    if CanBegin(h, id, x) && IsCached(h, x.uid) {
      JudgedStaysShared(h, id, Looking(x, refreshing, h.steps), CachedRows(h, x.uid), uid);
    } else {
      SharedStays(h, Begun(h, id, x, refreshing), uid);
    }
  }

  lemma FilledStaysShared(h: History, id: nat, uid: string)
    requires Inv(h) && Fits(h, Fill(id), uid) && SharedInTime(h, uid)
    ensures SharedInTime(Filled(h, id), uid)
  {
    var h1 := Flowed(h, Flow.Fill(id));
    if IsLooking(h, id) && Flow.HasSelected(h.flow, id) {
      assert CheckOk(h, id);
      FillKeepsRest(h, id);
      SharedStays(h, h1, uid);
      JudgedStaysShared(h1, id, h.checks[id], h.flow.readers[id].rows, uid);
    } else {
      SharedStays(h, h1, uid);
    }
  }

  /** A refresh that ends began before every exchange of its token ended, its own too. */
  lemma ExchangeStaysShared(h: History, id: nat, uid: string)
    requires IsNew(h) && SharedInTime(h, uid) && HasPassed(h, id)
    ensures var x := Exchange(h.checks[id].token, h.checks[id].begin, h.steps);
            SharedInTime(h.(checks := h.checks - {id}, log := h.log + [x]), uid)
  {
  }

  lemma CommittedStaysShared(h: History, id: nat, uid: string)
    requires IsNew(h) && SharedInTime(h, uid)
    ensures SharedInTime(Committed(h, id), uid)
  {
    var h' := Committed(h, id);
    if h'.log == h.log {
      SharedStays(h, h', uid);
    } else {
      ExchangeStaysShared(h, id, uid);
      SharedStays(h.(checks := h'.checks, log := h'.log), h', uid);
    }
  }

  /** Only an answer lets a check pass, and only a commit ends an exchange. */
  lemma OtherStepsPassNothing(h: History, c: Config, e: Event)
    requires !e.Begin? && !e.Fill? && !e.Commit?
    ensures PassesLess(h, Step(h, c, e)) && HoldsLess(h, Step(h, c, e))
  {
  }

  lemma StepStaysShared(h: History, c: Config, e: Event, uid: string)
    requires Inv(h) && IsNew(h) && Right(h, uid) && Fits(h, e, uid) && SharedInTime(h, uid)
    ensures SharedInTime(Step(h, c, e), uid)
  {
    match e
    case Begin(id, x, refreshing) => BegunStaysShared(h, id, x, refreshing, uid);
    case Fill(id) => FilledStaysShared(h, id, uid);
    case Commit(id) => CommittedStaysShared(h, id, uid);
    case _ =>
      OtherStepsPassNothing(h, c, e);
      SharedStays(h, Step(h, c, e), uid);
  }

  lemma {:induction false} RunStaysShared(h: History, c: Config, es: seq<Event>, uid: string)
    requires Inv(h) && Right(h, uid) && SharedInTime(h, uid) && AlwaysFits(h, c, es, uid)
    ensures SharedInTime(Run(h, c, es), uid)
    decreases |es|
  {
    if es != [] {
      var before, e := Run(h, c, es[..|es| - 1]), es[|es| - 1];
      RunStaysShared(h, c, es[..|es| - 1], uid);
      RunKeepsInv(h, c, es[..|es| - 1]);
      RunIsRight(h, c, es[..|es| - 1], uid);
      TickKeepsInv(before);
      TickIsNew(before);
      SharedStays(before, Ticked(before), uid);
      StepStaysShared(Ticked(before), c, e, uid);
    }
  }

  /** Two redemptions of one token overlap, or some commit or fill of its user's session
      did not fit before the second ended. */
  lemma RedemptionsOverlapOrMisfit(h: History, c: Config, es: seq<Event>, i: nat, j: nat)
    requires Inv(h) && i < j < |Run(h, c, es).log| && Run(h, c, es).log[i].token == Run(h, c, es).log[j].token
    requires Run(h, c, es).log[i].token.Signed?
    requires Right(h, Run(h, c, es).log[i].token.uid) && SharedInTime(h, Run(h, c, es).log[i].token.uid)
    ensures var log := Run(h, c, es).log;
            Overlap(log[i], log[j]) || !AlwaysFits(h, c, es, log[i].token.uid)
  {
    RunKeepsInv(h, c, es);
    var log := Run(h, c, es).log;
    if AlwaysFits(h, c, es, log[i].token.uid) {
      RunStaysShared(h, c, es, log[i].token.uid);
      assert log[i].end < log[j].end && log[j].begin < log[i].end && log[i].begin < log[i].end;
    }
  }

  /** No token of the user is exchanged twice. */
  ghost predicate RedeemedOnce(h: History, uid: string) {
    forall i, j | 0 <= i < j < |h.log| && IsOf(h.log[i].token, uid) :: h.log[i].token != h.log[j].token
  }

  /** No two exchanges of one token of the user overlap. */
  ghost predicate RedeemedApart(h: History, uid: string) {
    forall i, j | 0 <= i < j < |h.log| && IsOf(h.log[i].token, uid) && h.log[i].token == h.log[j].token ::
      !Overlap(h.log[i], h.log[j])
  }

  /** Single redemption.  Over every history in which the steps on a user's session fit, no
      token of that user is redeemed twice if and only if no two accepted refreshes of one
      of them overlap; everything else may. */
  lemma RedeemedOnceIffApart(h: History, c: Config, es: seq<Event>, uid: string)
    requires Inv(h) && Right(h, uid) && SharedInTime(h, uid) && AlwaysFits(h, c, es, uid)
    ensures RedeemedOnce(Run(h, c, es), uid) <==> RedeemedApart(Run(h, c, es), uid)
  {
    RunKeepsInv(h, c, es);
    RunStaysShared(h, c, es, uid);
    var log := Run(h, c, es).log;
    forall i, j | 0 <= i < j < |log| && IsOf(log[i].token, uid) && log[i].token == log[j].token
      ensures Overlap(log[i], log[j])
    {
      assert log[i].end < log[j].end && log[j].begin < log[i].end && log[i].begin < log[i].end;
    }
  }

  // ---- A lock on the token ----

  predicate IsRefresh(check: Check) {
    check.Looking? ==> check.refreshing
  }

  /** A refresh with a token of the user begins only while no other refresh of that token
      is under way. */
  predicate KeepsLock(h: History, e: Event, uid: string) {
    e.Begin? && e.refreshing && IsOf(e.token, uid) ==>
      forall id | id in h.checks && IsRefresh(h.checks[id]) :: h.checks[id].token != e.token
  }

  predicate AlwaysKeepsLock(h: History, c: Config, es: seq<Event>, uid: string) {
    es == []
    || (AlwaysKeepsLock(h, c, es[..|es| - 1], uid) && KeepsLock(Run(h, c, es[..|es| - 1]), es[|es| - 1], uid))
  }

  /** A token of the user is held once: by a refresh under way, or by the log and then by
      no refresh that has passed. */
  ghost predicate HeldOnce(h: History, uid: string) {
    && RedeemedOnce(h, uid)
    && (forall a, b | a in h.checks && b in h.checks && a != b && IsRefresh(h.checks[a]) && IsRefresh(h.checks[b])
         && IsOf(h.checks[a].token, uid) :: h.checks[a].token != h.checks[b].token)
    && forall i, id | 0 <= i < |h.log| && HasPassed(h, id) && IsOf(h.checks[id].token, uid) ::
         h.log[i].token != h.checks[id].token
  }

  /** Refreshes end or go on, and none has newly passed. */
  predicate HoldsLess(h: History, h': History) {
    h'.log == h.log && forall id | id in h'.checks && IsRefresh(h'.checks[id]) ::
      && id in h.checks && IsRefresh(h.checks[id]) && h'.checks[id].token == h.checks[id].token
      && (HasPassed(h', id) ==> HasPassed(h, id))
  }

  lemma HeldOnceStays(h: History, h': History, uid: string)
    requires HeldOnce(h, uid) && HoldsLess(h, h')
    ensures HeldOnce(h', uid)
  {
  }

  lemma JudgedIsHeldOnce(h: History, id: nat, check: Check, rows: Rows, uid: string)
    requires TablesOk(h) && LogOk(h) && HeldOnce(h, uid) && check.Looking?
    requires IsOf(check.token, uid) ==> rows == SessionRows(h, uid)
    requires check.refreshing && IsOf(check.token, uid) ==>
               forall i | i in h.checks && i != id && IsRefresh(h.checks[i]) :: h.checks[i].token != check.token
    ensures HeldOnce(Judged(h, id, check, rows), uid)
  {
    if IsOf(check.token, uid) {
      RowShowsLatest(h, check.token);
      assert forall i | 0 <= i < |h.log| :: Dead(h, h.log[i].token);
    }
  }

  lemma BegunIsHeldOnce(h: History, id: nat, x: Token, refreshing: bool, uid: string)
    requires Inv(h) && Right(h, uid) && HeldOnce(h, uid) && KeepsLock(h, Begin(id, x, refreshing), uid)
    ensures HeldOnce(Begun(h, id, x, refreshing), uid)
  {
    if CanBegin(h, id, x) && IsCached(h, x.uid) {
      JudgedIsHeldOnce(h, id, Looking(x, refreshing, h.steps), CachedRows(h, x.uid), uid);
    }
  }

  lemma FillKeepsTables(h: History, id: nat)
    requires Inv(h)
    ensures TablesOk(Flowed(h, Flow.Fill(id))) && LogOk(Flowed(h, Flow.Fill(id)))
  {
    FillKeepsRest(h, id);
  }

  lemma FilledIsHeldOnce(h: History, id: nat, uid: string)
    requires TablesOk(Flowed(h, Flow.Fill(id))) && LogOk(Flowed(h, Flow.Fill(id)))
    requires id in h.checks ==> CheckOk(h, id)
    requires Fits(h, Fill(id), uid) && HeldOnce(h, uid)
    ensures HeldOnce(Filled(h, id), uid)
  {
    var h1 := Flowed(h, Flow.Fill(id));
    HeldOnceStays(h, h1, uid);
    if IsLooking(h, id) && Flow.HasSelected(h.flow, id) {
      if IsOf(h.checks[id].token, uid) {
        JudgedIsHeldOnce(h1, id, h.checks[id], h.flow.readers[id].rows, uid);
      } else {
        OthersAreHeldOnce(h1, id, h.checks[id], h.flow.readers[id].rows, uid);
      }
    }
  }

  lemma OthersAreHeldOnce(h: History, id: nat, check: Check, rows: Rows, uid: string)
    requires HeldOnce(h, uid) && check.Looking? && !IsOf(check.token, uid)
    ensures HeldOnce(Judged(h, id, check, rows), uid)
  {
  }

  lemma CommittedIsHeldOnce(h: History, id: nat, uid: string)
    requires HeldOnce(h, uid)
    ensures HeldOnce(Committed(h, id), uid)
  {
  }

  lemma StepIsHeldOnce(h: History, c: Config, e: Event, uid: string)
    requires Inv(h) && Right(h, uid) && Fits(h, e, uid) && KeepsLock(h, e, uid) && HeldOnce(h, uid)
    ensures HeldOnce(Step(h, c, e), uid)
  {
    match e
    case Begin(id, x, refreshing) => BegunIsHeldOnce(h, id, x, refreshing, uid);
    case Fill(id) =>
      FillKeepsTables(h, id);
      FilledIsHeldOnce(h, id, uid);
    case Commit(id) => CommittedIsHeldOnce(h, id, uid);
    case _ =>
      OtherStepsPassNothing(h, c, e);
      HeldOnceStays(h, Step(h, c, e), uid);
  }

  /** A lock on the token is enough while the steps on its user's session fit: no token of
      the user is then ever redeemed twice. */
  lemma {:induction false} TokenLockSuffices(h: History, c: Config, es: seq<Event>, uid: string)
    requires Inv(h) && Right(h, uid) && HeldOnce(h, uid)
    requires AlwaysFits(h, c, es, uid) && AlwaysKeepsLock(h, c, es, uid)
    ensures HeldOnce(Run(h, c, es), uid) && RedeemedOnce(Run(h, c, es), uid)
    decreases |es|
  {
    if es != [] {
      var before, e := Run(h, c, es[..|es| - 1]), es[|es| - 1];
      TokenLockSuffices(h, c, es[..|es| - 1], uid);
      RunKeepsInv(h, c, es[..|es| - 1]);
      RunIsRight(h, c, es[..|es| - 1], uid);
      TickKeepsInv(before);
      StepIsHeldOnce(Ticked(before), c, e, uid);
    }
  }

  // ---- Guards ----

  /** A lookup through an entry that is right finds the row, and leaves right what was. */
  lemma SessionIsStored(db: Db, uid: string, other: string)
    requires Flow.Accurate(db, Keys.UserSession(uid)) && Flow.Accurate(db, Keys.UserSession(other))
    ensures var (db', found) := CacheRuns.Apply(db, CacheRuns.GetSession(uid));
            && db'.tables == db.tables && db'.now == db.now
            && Flow.Accurate(db', Keys.UserSession(other))
            && found.session == if uid in db.tables.auth
                                then Ok(Session(uid, db.tables.auth[uid].refreshToken, db.tables.auth[uid].userRole))
                                else Err(NotFound(uid))
  {
    if Keys.CacheId(Keys.UserSession(uid)) == Keys.CacheId(Keys.UserSession(other)) {
      Keys.CacheIdIsInjective(Keys.UserSession(uid), Keys.UserSession(other));
    }
  }

  lemma RowVerifies(db: Db, x: Token)
    requires x.Signed? ==> Flow.Accurate(db, Keys.UserSession(x.uid))
    ensures Verifies(db, x) <==> x.Signed? && db.now < x.expires && x.uid in db.tables.auth
                                 && db.tables.auth[x.uid].refreshToken == x
    ensures Verifies(db, x) ==> VerifyRefresh(db, x).1.value.uid == x.uid
  {
    if x.Signed? { SessionIsStored(db, x.uid, x.uid); }
  }

  lemma GuardReadsRows(db: Db, bearer: Option<Token>, cookie: Token)
    requires bearer.Some? && bearer.value.Signed? ==> Flow.Accurate(db, Keys.UserSession(bearer.value.uid))
    requires cookie.Signed? ==> Flow.Accurate(db, Keys.UserSession(cookie.uid))
    ensures Guarded(db, bearer, cookie).1.Ok?
            <==> bearer.Some? && Decode(bearer.value, db.now).Ok? && bearer.value.uid in db.tables.auth
                 && Verifies(db, cookie)
    ensures Guarded(db, bearer, cookie).1.Ok? ==> Guarded(db, bearer, cookie).1.value.uid == cookie.uid
  {
    RowVerifies(db, cookie);
    if bearer.Some? && bearer.value.Signed? {
      var uid := bearer.value.uid;
      SessionIsStored(db, uid, if cookie.Signed? then cookie.uid else uid);
      RowVerifies(CacheRuns.Apply(db, CacheRuns.GetSession(uid)).0, cookie);
    }
  }

  /** The steps on the session the token names fit. */
  predicate FitsFor(h: History, c: Config, es: seq<Event>, x: Token) {
    x.Signed? ==> Right(h, x.uid) && AlwaysFits(h, c, es, x.uid)
  }

  /** While the steps on both sessions fit, a guard that nothing disturbs lets a request
      through exactly when its bearer token is a live one of some registered user and its
      cookie is the unexpired latest refresh token of the user it then acts as. */
  lemma GuardAdmitsTheLatest(h: History, c: Config, es: seq<Event>, bearer: Option<Token>, cookie: Token)
    requires Inv(h) && FitsFor(h, c, es, cookie) && (bearer.Some? ==> FitsFor(h, c, es, bearer.value))
    ensures var h' := Run(h, c, es);
            var db := h'.flow.db;
            var r := Guarded(db, bearer, cookie).1;
            && (r.Ok? <==> bearer.Some? && Decode(bearer.value, db.now).Ok? && bearer.value.uid in db.tables.auth
                           && IsLatest(h', cookie) && db.now < cookie.expires)
            && (r.Ok? ==> r.value.uid == cookie.uid)
  {
    RunKeepsInv(h, c, es);
    var h' := Run(h, c, es);
    if cookie.Signed? {
      RunIsRight(h, c, es, cookie.uid);
      RightVerifies(h', cookie);
    }
    if bearer.Some? && bearer.value.Signed? { RunIsRight(h, c, es, bearer.value.uid); }
    GuardReadsRows(h'.flow.db, bearer, cookie);
  }

  // ---- Answers never come back ----

  /** No lookup under way has seen the token a write brings, so no commit gives a lookup of
      a session its old answer back. */
  lemma TokenCommitsAreNovel(h: History, id: nat, uid: string)
    requires Inv(h)
    ensures Flow.IsNovel(h.flow, Flow.Commit(id), Keys.UserSession(uid))
  {
    if id in h.flow.writers {
      var op, q := h.flow.writers[id], Keys.UserSession(uid);
      var t := CacheRuns.Plain(h.flow.db.tables, op).0;
      assert WriteOk(h, op);
      forall i | Query(h.flow.db.tables, q) != Query(t, q) && Flow.HasSelected(h.flow, i) && h.flow.readers[i].q == q
        ensures h.flow.readers[i].rows != Query(t, q)
      {
        assert ReaderOk(h, i);
        CommitChangesRow(h, op, uid);
        assert Query(t, q).sessions[0] in Query(t, q).sessions;
      }
    }
  }

  /** A write that changes a session leaves a row with the token it carries, or a new one. */
  lemma CommitChangesRow(h: History, op: CacheRuns.Op, uid: string)
    requires WriteOk(h, op)
    requires var t := CacheRuns.Plain(h.flow.db.tables, op).0;
             Query(h.flow.db.tables, Keys.UserSession(uid)) != Query(t, Keys.UserSession(uid))
    ensures var rows := Query(CacheRuns.Plain(h.flow.db.tables, op).0, Keys.UserSession(uid));
            && |rows.sessions| == 1
            && ((op.UpdateSession? && rows.sessions[0].refreshToken == op.session.refreshToken)
                || uid !in h.flow.db.tables.auth)
  {
  }

  /** In every history a lookup of a session may fill the cache exactly when no commit
      changed the session since the lookup selected. */
  lemma {:induction false} SessionFillFitsIffUnchanged(h: History, c: Config, es: seq<Event>, uid: string)
    requires Inv(h) && Flow.FitsIffUnchanged(h.flow, Keys.UserSession(uid))
    ensures Flow.FitsIffUnchanged(Run(h, c, es).flow, Keys.UserSession(uid))
    decreases |es|
  {
    if es != [] {
      var before, e := Run(h, c, es[..|es| - 1]), es[|es| - 1];
      SessionFillFitsIffUnchanged(h, c, es[..|es| - 1], uid);
      RunKeepsInv(h, c, es[..|es| - 1]);
      NextIsLowered(before, c, e);
      if Lowered(before, c, e).Some? {
        if e.Commit? { TokenCommitsAreNovel(before, e.id, uid); }
        Flow.NextFitsIffUnchanged(before.flow, Lowered(before, c, e).value, Keys.UserSession(uid));
      }
    }
  }

  // ---- Passwords ----

  predicate SameCredentials(a: map<string, AuthRow>, b: map<string, AuthRow>, u: string) {
    u in a ==> u in b && b[u].(refreshToken := a[u].refreshToken, userRole := a[u].userRole) == a[u]
  }

  /** Only commits touch the table, and they touch no credentials. */
  lemma NextKeepsCredentials(h: History, c: Config, e: Event, u: string)
    ensures SameCredentials(h.flow.db.tables.auth, Next(h, c, e).flow.db.tables.auth, u)
  {
    if e.Commit? && e.id in h.flow.writers {
      CommitWrites(Ticked(h), e.id);
    } else {
      NextIsLowered(h, c, e);
    }
  }

  lemma {:induction false} RunKeepsCredentials(h: History, c: Config, es: seq<Event>, u: string)
    ensures SameCredentials(h.flow.db.tables.auth, Run(h, c, es).flow.db.tables.auth, u)
    decreases |es|
  {
    if es != [] {
      RunKeepsCredentials(h, c, es[..|es| - 1], u);
      NextKeepsCredentials(Run(h, c, es[..|es| - 1]), c, es[|es| - 1], u);
    }
  }

  lemma LoginChecksThePassword(s: Server, c: Config, uid: string, attempt: string, accepted: bool)
    requires uid in s.db.tables.auth
    ensures LoggedIn(s, c, uid, attempt, accepted).1.Ok?
            <==> accepted && Stretched(c.sha, attempt, s.db.tables.auth[uid].salt, 3) == s.db.tables.auth[uid].password
  {
  }

  /** Once a sign-up's row is committed, whatever follows and whatever comes of its tokens,
      exactly the passwords that hash like the chosen one log in. */
  lemma SignUpLasts(h: History, c: Config, id: nat, uid: string, password: string, when: int, es: seq<Event>,
                    attempt: string, accepted: bool)
    requires id in h.flow.writers && uid !in h.flow.db.tables.auth
    requires h.flow.writers[id] == CacheRuns.SaveAuth(LocalRow(c, uid, password, when), true)
    ensures var end := Run(Next(h, c, Commit(id)), c, es);
            LoggedIn(Server(end.flow.db, end.serial), c, uid, attempt, accepted).1.Ok?
            <==> accepted && Stretched(c.sha, attempt, Salt(when), 3) == Stretched(c.sha, password, Salt(when), 3)
  {
    CommitWrites(Ticked(h), id);
    RunKeepsCredentials(Next(h, c, Commit(id)), c, es, uid);
    var end := Run(Next(h, c, Commit(id)), c, es);
    LoginChecksThePassword(Server(end.flow.db, end.serial), c, uid, attempt, accepted);
  }
}
