/** Signing, checking and storing tokens, taken apart where they wait.  Every lookup of a
    session asks, selects and fills; every new pair drops a cache entry and then commits;
    any number of refreshes, logins, guards and other calls may be under way at once. */
module TokenSteps {
  import opened Database
  import opened Tokens
  import CacheRuns
  import Flow = CacheOverlaps
  import Keys

  /** A token under check: its session is being looked up; or it passed, and a refresh
      goes on; or the refresh has signed its pair and is storing it. */
  datatype Check =
    | Looking(token: Token, refreshing: bool, begin: nat)
    | Verified(token: Token, session: Session, begin: nat)
    | Storing(token: Token, begin: nat)

  /** A token exchanged for a new pair: when its refresh began and ended. */
  datatype Exchange = Exchange(token: Token, begin: nat, end: nat)

  /** `Begin` starts the check of a token, for a refresh or for a guard; a lookup under
      the same number is part of it.  `Issue` is the pair of a login or a sign-up.  `Ask`
      is the lookup of anyone else, `Write` any other write, be it the insertion of a
      user. */
  datatype Event =
    | Begin(id: nat, token: Token, refreshing: bool)
    | Ask(id: nat, q: Keys.CachedQuery)
    | Select(id: nat)
    | Fill(id: nat)
    | Evict(q: Keys.CachedQuery)
    | Store(id: nat, accepted: bool)
    | Issue(id: nat, uid: string, role: Role, accepted: bool)
    | Write(id: nat, op: CacheRuns.Op)
    | Commit(id: nat)
    | Wait(ms: nat)

  /** The database with its lookups and writes under way, and the next serial number; then
      the refresh token last stored for each user, the checks under way, the exchanges in
      the order they ended, and the number of events. */
  datatype History = History(
    flow: Flow.State,
    serial: nat,
    issued: map<string, Token>,
    checks: map<nat, Check>,
    log: seq<Exchange>,
    steps: nat)

  function Flowed(h: History, e: Flow.Event): History {
    h.(flow := Flow.Next(h.flow, e))
  }

  /** The answer to a lookup shows this token. */
  predicate Shows(rows: Rows, x: Token) {
    rows.Sessions? && rows.sessions != [] && rows.sessions[0].refreshToken == x
  }

  /** A lookup for a check is answered: a refresh that passes goes on, all else ends. */
  function Judged(h: History, id: nat, check: Check, rows: Rows): History
    requires check.Looking?
  {
    if check.refreshing && Shows(rows, check.token)
    then h.(checks := h.checks[id := Verified(check.token, rows.sessions[0], check.begin)])
    else h.(checks := h.checks - {id})
  }

  predicate CanBegin(h: History, id: nat, x: Token) {
    id !in h.checks && id !in h.flow.readers && Decode(x, h.flow.db.now).Ok?
  }

  function Begun(h: History, id: nat, x: Token, refreshing: bool): History {
    if !CanBegin(h, id, x) then h
    else
      var q, check := Keys.UserSession(x.uid), Looking(x, refreshing, h.steps);
      if IsLive(h.flow.db, q) then Judged(h, id, check, h.flow.db.cache[Keys.CacheId(q)].rows)
      else Flowed(h, Flow.Ask(id, q)).(checks := h.checks[id := check])
  }

  predicate IsLooking(h: History, id: nat) {
    id in h.checks && h.checks[id].Looking?
  }

  function Filled(h: History, id: nat): History {
    if IsLooking(h, id) && Flow.HasSelected(h.flow, id)
    then Judged(Flowed(h, Flow.Fill(id)), id, h.checks[id], h.flow.readers[id].rows)
    else Flowed(h, Flow.Fill(id))
  }

  /** Signs a pair and drops the session's entry; the row waits for the commit. */
  function Signing(h: History, c: Config, id: nat, uid: string, role: Role, accepted: bool): History {
    var latest := Signed(h.serial + 1, uid, h.flow.db.now + c.refreshTtl);
    var op := CacheRuns.UpdateSession(Session(uid, latest, role), accepted);
    Flowed(h, Flow.Drop(id, op)).(serial := h.serial + 2)
  }

  predicate CanStore(h: History, id: nat) {
    id in h.checks && h.checks[id].Verified? && id !in h.flow.writers
  }

  function Stored(h: History, c: Config, id: nat, accepted: bool): History {
    if !CanStore(h, id) then h
    else
      var v := h.checks[id];
      Signing(h, c, id, v.session.uid, v.session.userRole, accepted)
      .(checks := h.checks[id := Storing(v.token, v.begin)])
  }

  /** The write carries the pair of a refresh under way. */
  predicate IsStoring(h: History, id: nat) {
    id in h.checks && h.checks[id].Storing?
  }

  /** A pair that is stored is handed out; a refresh that stored it is over. */
  function Committed(h: History, id: nat): History {
    var h' := Flowed(h, Flow.Commit(id));
    if id !in h.flow.writers || !h.flow.writers[id].UpdateSession? then h'
    else
      var op, mine := h.flow.writers[id], IsStoring(h, id);
      h'.(issued := if op.accepted then h.issued[op.session.uid := op.session.refreshToken] else h.issued,
          checks := if mine then h.checks - {id} else h.checks,
          log := if mine && op.accepted then h.log + [Exchange(h.checks[id].token, h.checks[id].begin, h.steps)]
                 else h.log)
  }

  /** Writes of the rest of the application: none updates a session, and a new user has
      no refresh token. */
  predicate IsOrdinary(op: CacheRuns.Op) {
    !op.UpdateSession? && (op.SaveAuth? ==> op.row.refreshToken == NoToken)
  }

  function Ticked(h: History): History {
    h.(steps := h.steps + 1)
  }

  function Step(h: History, c: Config, e: Event): History {
    match e
    case Begin(id, token, refreshing) => Begun(h, id, token, refreshing)
    case Ask(id, q) => if id in h.checks then h else Flowed(h, Flow.Ask(id, q))
    case Select(id) => Flowed(h, Flow.Select(id))
    case Fill(id) => Filled(h, id)
    case Evict(q) => Flowed(h, Flow.Evict(q))
    case Store(id, accepted) => Stored(h, c, id, accepted)
    case Issue(id, uid, role, accepted) =>
      if uid !in h.flow.db.tables.auth || id in h.flow.writers then h else Signing(h, c, id, uid, role, accepted)
    case Write(id, op) => if id in h.flow.writers || !IsOrdinary(op) then h else Flowed(h, Flow.Drop(id, op))
    case Commit(id) => Committed(h, id)
    case Wait(ms) => Flowed(h, Flow.Wait(ms))
  }

  function Next(h: History, c: Config, e: Event): History {
    Step(Ticked(h), c, e)
  }

  function Run(h: History, c: Config, es: seq<Event>): History {
    if es == [] then h else Next(Run(h, c, es[..|es| - 1]), c, es[|es| - 1])
  }

  predicate IsLatest(h: History, x: Token) {
    x.Signed? && x.uid in h.issued && h.issued[x.uid] == x
  }

  /** The step fits the session of this user: see the cache's own guards. */
  predicate Fits(h: History, e: Event, uid: string) {
    && (e.Commit? ==> Flow.Fits(h.flow, Flow.Commit(e.id), Keys.UserSession(uid)))
    && (e.Fill? ==> Flow.Fits(h.flow, Flow.Fill(e.id), Keys.UserSession(uid)))
  }

  predicate AlwaysFits(h: History, c: Config, es: seq<Event>, uid: string) {
    es == [] || (AlwaysFits(h, c, es[..|es| - 1], uid) && Fits(Run(h, c, es[..|es| - 1]), es[|es| - 1], uid))
  }
}
