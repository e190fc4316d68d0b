/** The protocol against its ideal: one atomic memo per user and key, which is idle,
    held by one request, or done with one outcome, and falls idle again by itself. */
module MemoRefinement {
  import opened Prelude
  import opened RedisStore
  import opened Idempotency
  import opened Interceptor
  import opened SharedSystem
  import opened IdempotencySafety
  import Keys

  datatype Memo =
    | Idle
    | Held(owner: nat, method_: string, path: string, deadline: int)
    | Done(owner: nat, record: IdempotencyRecord, deadline: int)

  /** What can happen to a memo. */
  datatype Act =
    | Nothing
    | Pass(elapsed: nat)
    | Take(taker: nat, method_: string, path: string)
    | Put(putter: nat, record: IdempotencyRecord)

  function Expire(m: Memo, now: int): Memo {
    if m.Idle? || now < m.deadline then m else Idle
  }

  /** The ideal memo.  Only the request that holds it may put an outcome. */
  function Ideal(m: Memo, now: int, act: Act): Option<Memo> {
    match act
    case Nothing => Some(m)
    case Pass(elapsed) => Some(Expire(m, now + elapsed))
    case Take(id, method_, path) => Some(if m.Idle? then Held(id, method_, path, now + TTL) else m)
    case Put(id, record) =>
      if m.Held? && m.owner == id then Some(Done(id, record, now + TTL)) else None
  }

  /** What the ideal memo tells a request that looks at it. */
  function IdealAnswer(m: Memo, req: Request): Pc {
    match m
    case Idle => Missed
    case Held(_, method_, path, _) =>
      if method_ == req.method_ && path == req.path then Refused(Busy) else Refused(Conflict)
    case Done(_, record, _) =>
      if record.method_ == req.method_ && record.path == req.path then Replayed(record) else Refused(Conflict)
  }

  /** The memo a state of the system stands for. */
  function MemoOf(s: State, k: string): Memo {
    if !Live(s.data, s.now, k) || k !in s.authors || !s.data[k].value.Record? || s.data[k].expiry.None? then Idle
    else
      var r, deadline := s.data[k].value.record, s.data[k].expiry.value;
      if r.state.Pending? then Held(s.authors[k], r.method_, r.path, deadline)
      else Done(s.authors[k], r, deadline)
  }

  predicate TakesOn(s: State, e: Event, k: string) {
    e.DoLock? && At(s, e.id, Missed) && s.flights[e.id].key == k && !e.net.LostRequest?
  }

  predicate PutsOn(s: State, e: Event, k: string) {
    e.DoStore? && AtStoring(s, e.id) && s.flights[e.id].key == k && !e.net.LostRequest?
  }

  /** What an event does to the memo of `k`. */
  function ActOf(s: State, e: Event, k: string): Act {
    if e.Tick? then Pass(e.elapsed)
    else if TakesOn(s, e, k) then
      var req := s.flights[e.id].admission.req;
      Take(e.id, req.method_, req.path)
    else if PutsOn(s, e, k) then
      Put(e.id, Snapshot(s.flights[e.id].admission.req, s.flights[e.id].pc.outcome))
    else Nothing
  }

  /** The event is a step of the ideal memo. */
  predicate Refines(s: State, e: Event, k: string) {
    Ideal(MemoOf(s, k), s.now, ActOf(s, e, k)) == Some(MemoOf(Next(s, e), k))
  }

  /** A write of an outcome that reaches the server lands before the lock it was
      computed under runs out. */
  predicate Timely(s: State, e: Event, k: string) {
    PutsOn(s, e, k) ==> s.now < s.flights[e.id].pc.since + TTL
  }

  predicate AllRefine(es: seq<Event>, k: string) {
    es == [] || (AllRefine(es[..|es| - 1], k) && Refines(Run(es[..|es| - 1]), es[|es| - 1], k))
  }

  predicate AllTimely(es: seq<Event>, k: string) {
    es == [] || (AllTimely(es[..|es| - 1], k) && Timely(Run(es[..|es| - 1]), es[|es| - 1], k))
  }

  /** The request that took the latest lock on `k`. */
  function LastOwner(locks: seq<Lock>, k: string): Option<nat> {
    if locks == [] then None
    else if locks[|locks| - 1].key == k then Some(locks[|locks| - 1].id)
    else LastOwner(locks[..|locks| - 1], k)
  }

  function Since(pc: Pc): Option<int> {
    match pc
    case Running(since) => Some(since)
    case Storing(since, _) => Some(since)
    case _ => None
  }

  /** While outcomes land in time, a lock that has not run out is held by its taker,
      and whatever the memo shows belongs to the latest taker. */
  ghost predicate HoldsOwn(s: State, k: string, id: nat)
    requires id in s.flights
  {
    var f := s.flights[id];
    f.admission.Guarded? && f.key == k && Since(f.pc).Some? && s.now < Since(f.pc).value + TTL ==>
      MemoOf(s, k) == Held(id, f.admission.req.method_, f.admission.req.path, Since(f.pc).value + TTL)
  }

  ghost predicate InTime(s: State, k: string) {
    && (forall id | id in s.flights :: HoldsOwn(s, k, id))
    && (!MemoOf(s, k).Idle? ==> LastOwner(s.locks, k) == Some(MemoOf(s, k).owner))
  }

  /** Reads and lock attempts that reach the server are answered as the ideal memo
      answers, at every moment of every run. */
  lemma AnswersAreIdeal(s: State, id: nat)
    requires Inv(s) && id in s.flights && s.flights[id].admission.Guarded?
    ensures var f := s.flights[id];
            && ReadStep(f.key, f.admission.req, s.data, s.now, Delivered)
            == IdealAnswer(MemoOf(s, f.key), f.admission.req)
            && LockStep(f.key, f.admission.req, s.data, s.now, Delivered).1
            == if MemoOf(s, f.key).Idle? then Running(s.now) else Refused(Busy)
  {
    var f := s.flights[id];
    KeyOfIsIdempotencyKey(f.admission.req);
    if f.key in s.data { assert f.key in s.authors && RecordOk(s, f.key); }
    ReadIsIdeal(s, f.key, f.admission.req);
    LockIsIdeal(s, f.key, f.admission.req);
  }

  lemma ReadIsIdeal(s: State, k: string, req: Request)
    requires k in s.data ==> k in s.authors && RecordOk(s, k)
    ensures ReadStep(k, req, s.data, s.now, Delivered) == IdealAnswer(MemoOf(s, k), req)
  {
  }

  lemma LockIsIdeal(s: State, k: string, req: Request)
    requires k in s.data ==> k in s.authors && RecordOk(s, k)
    ensures LockStep(k, req, s.data, s.now, Delivered).1
         == if MemoOf(s, k).Idle? then Running(s.now) else Refused(Busy)
  {
  }

  lemma WaitRefines(s: State, elapsed: nat, k: string)
    ensures Expire(MemoOf(s, k), s.now + elapsed) == MemoOf(s.(now := s.now + elapsed), k)
  {
  }

  lemma TakeRefines(s: State, id: nat, net: Delivery, k: string)
    requires RecordsOk(s) && At(s, id, Missed) && s.flights[id].key == k && !net.LostRequest?
    requires k in s.data ==> k in s.authors
    ensures var req := s.flights[id].admission.req;
            Ideal(MemoOf(s, k), s.now, Take(id, req.method_, req.path)) == Some(MemoOf(LockNext(s, id, net), k))
  {
    if k in s.authors {
      assert RecordOk(s, k);
    }
  }

  /** After an outcome is put the memo is done with it, whatever it was before. */
  lemma PutShows(s: State, id: nat, net: Delivery, k: string)
    requires AtStoring(s, id) && s.flights[id].key == k && !net.LostRequest?
    ensures MemoOf(StoreNext(s, id, net), k)
         == Done(id, Snapshot(s.flights[id].admission.req, s.flights[id].pc.outcome), s.now + TTL)
  {
    SnapshotKeepsRoute(s.flights[id].admission.req, s.flights[id].pc.outcome);
  }

  /** Every other event leaves the memo of `k` alone. */
  lemma OthersLeaveMemo(s: State, e: Event, k: string)
    requires Keys.IsIdempotencyKey(k)
    requires !e.Tick? && !TakesOn(s, e, k) && !PutsOn(s, e, k)
    ensures MemoOf(Next(s, e), k) == MemoOf(s, k)
  {
    if IsForeign(e) {
      ForeignFrame(s, e, k);
    } else {
      DataStaysFor(s, e, k);
    }
  }

  lemma DataStaysFor(s: State, e: Event, k: string)
    requires !IsForeign(e) && !e.Tick? && !TakesOn(s, e, k) && !PutsOn(s, e, k)
    ensures Next(s, e).now == s.now
    ensures (k in Next(s, e).data <==> k in s.data) && (k in s.data ==> Next(s, e).data[k] == s.data[k])
    ensures (k in Next(s, e).authors <==> k in s.authors)
    ensures k in s.authors ==> Next(s, e).authors[k] == s.authors[k]
  {
    DataFootprint(s, e);
  }

  predicate HeldBy(s: State, k: string, id: nat) {
    MemoOf(s, k).Held? && MemoOf(s, k).owner == id
  }

  lemma TickRefines(s: State, e: Event, k: string)
    requires e.Tick?
    ensures Refines(s, e, k)
  {
    WaitRefines(s, e.elapsed, k);
    assert Next(s, e) == s.(now := s.now + e.elapsed);
  }

  lemma TakeEventRefines(s: State, e: Event, k: string)
    requires RecordsOk(s) && (k in s.data ==> k in s.authors) && TakesOn(s, e, k)
    ensures Refines(s, e, k)
  {
    TakeRefines(s, e.id, e.net, k);
    assert Next(s, e) == LockNext(s, e.id, e.net);
  }

  lemma PutEventRefines(s: State, e: Event, k: string)
    requires RecordsOk(s) && PutsOn(s, e, k)
    ensures Refines(s, e, k) <==> HeldBy(s, k, e.id)
  {
    PutShows(s, e.id, e.net, k);
    assert Next(s, e) == StoreNext(s, e.id, e.net);
  }

  /** An event that puts no outcome is always an ideal step; one that does is an ideal
      step exactly when its request still holds the memo. */
  lemma EventRefines(s: State, e: Event, k: string)
    requires Keys.IsIdempotencyKey(k) && RecordsOk(s) && (k in s.data ==> k in s.authors)
    ensures Refines(s, e, k) <==> (PutsOn(s, e, k) ==> HeldBy(s, k, e.id))
  {
    if e.Tick? {
      TickRefines(s, e, k);
    } else if TakesOn(s, e, k) {
      TakeEventRefines(s, e, k);
    } else if PutsOn(s, e, k) {
      PutEventRefines(s, e, k);
    } else {
      OthersLeaveMemo(s, e, k);
    }
  }

  /** A request that still holds the memo does so under its own lock, which has
      therefore not run out. */
  lemma HeldMeansInTime(s: State, id: nat, k: string)
    requires Core(s) && AtStoring(s, id) && s.flights[id].key == k && HeldBy(s, k, id)
    ensures MemoOf(s, k).deadline == s.flights[id].pc.since + TTL && s.now < s.flights[id].pc.since + TTL
  {
    assert RecordOk(s, k) && FlightOk(s, id);
    var l, l' := Lock(id, k, s.data[k].expiry.value - TTL), Lock(id, k, s.flights[id].pc.since);
    assert l in s.locks && l' in s.locks;
    assert l == l';
  }

  lemma NewLockIsLast(locks: seq<Lock>, l: Lock, k: string)
    ensures LastOwner(locks + [l], k) == if l.key == k then Some(l.id) else LastOwner(locks, k)
  {
    assert (locks + [l])[..|locks|] == locks;
  }

  predicate Holds(s: State, k: string, id: nat) {
    id in s.flights && s.flights[id].key == k && Since(s.flights[id].pc).Some?
  }

  /** A step that leaves the memo of `k`, its locks and the clock alone. */
  lemma InTimeStays(s: State, s': State, k: string)
    requires InTime(s, k) && s'.now == s.now
    requires MemoOf(s', k) == MemoOf(s, k) && LastOwner(s'.locks, k) == LastOwner(s.locks, k)
    requires forall id | Holds(s', k, id) ::
      id in s.flights && SameIdentity(s, s', id) && Since(s.flights[id].pc) == Since(s'.flights[id].pc)
    ensures InTime(s', k)
  {
    forall id | id in s'.flights
      ensures HoldsOwn(s', k, id)
    {
      if Holds(s', k, id) {
        assert HoldsOwn(s, k, id);
      }
    }
  }

  lemma WaitStaysInTime(s: State, elapsed: nat, k: string)
    requires InTime(s, k)
    ensures InTime(s.(now := s.now + elapsed), k)
  {
    var s' := s.(now := s.now + elapsed);
    WaitRefines(s, elapsed, k);
    forall id | id in s'.flights
      ensures HoldsOwn(s', k, id)
    {
      assert HoldsOwn(s, k, id);
    }
  }

  lemma TakeStaysInTime(s: State, id: nat, net: Delivery, k: string)
    requires InTime(s, k) && RecordsOk(s) && (k in s.data ==> k in s.authors)
    requires At(s, id, Missed) && s.flights[id].key == k && !net.LostRequest?
    ensures InTime(LockNext(s, id, net), k)
  {
    var s' := LockNext(s, id, net);
    TakeRefines(s, id, net, k);
    if Takes(s, id, net) {
      NewLockIsLast(s.locks, Lock(id, k, s.now), k);
    }
    forall i | i in s'.flights
      ensures HoldsOwn(s', k, i)
    {
      if i != id { assert HoldsOwn(s, k, i); }
    }
  }

  lemma PutStaysInTime(s: State, id: nat, net: Delivery, k: string)
    requires InTime(s, k)
    requires AtStoring(s, id) && s.flights[id].key == k && !net.LostRequest?
    requires s.now < s.flights[id].pc.since + TTL
    ensures HeldBy(s, k, id)
    ensures InTime(StoreNext(s, id, net), k)
  {
    var s' := StoreNext(s, id, net);
    assert HoldsOwn(s, k, id);
    PutShows(s, id, net, k);
    forall i | i in s'.flights
      ensures HoldsOwn(s', k, i)
    {
      if i != id { assert HoldsOwn(s, k, i); }
    }
  }

  /** Any other event of the protocol. */
  lemma OthersStayInTime(s: State, e: Event, k: string)
    requires Keys.IsIdempotencyKey(k) && InTime(s, k)
    requires !e.Tick? && !TakesOn(s, e, k) && !PutsOn(s, e, k)
    ensures InTime(Next(s, e), k)
  {
    var s' := Next(s, e);
    OthersLeaveMemo(s, e, k);
    OthersLeaveLocks(s, e, k);
    forall id | Holds(s', k, id)
      ensures id in s.flights && SameIdentity(s, s', id) && Since(s.flights[id].pc) == Since(s'.flights[id].pc)
    {
      OthersLeaveHolder(s, e, k, id);
    }
    InTimeStays(s, s', k);
  }

  lemma OthersLeaveLocks(s: State, e: Event, k: string)
    requires !e.Tick? && !TakesOn(s, e, k)
    ensures Next(s, e).now == s.now
    ensures LastOwner(Next(s, e).locks, k) == LastOwner(s.locks, k)
  {
    if IsForeign(e) {
      ForeignFrame(s, e, k);
    } else if e.DoLock? && Enabled(s, e) && Takes(s, e.id, e.net) {
      NewLockIsLast(s.locks, Lock(e.id, s.flights[e.id].key, s.now), k);
    }
  }

  /** A holder was one before, for just as long. */
  lemma OthersLeaveHolder(s: State, e: Event, k: string, id: nat)
    requires !TakesOn(s, e, k)
    requires Holds(Next(s, e), k, id)
    ensures id in s.flights && SameIdentity(s, Next(s, e), id)
    ensures Since(s.flights[id].pc) == Since(Next(s, e).flights[id].pc)
  {
    if IsForeign(e) {
      ForeignFrame(s, e, k);
    } else if id in s.flights {
      FlightsKeepIdentity(s, e, id);
    }
  }

  lemma TickNextStaysInTime(s: State, e: Event, k: string)
    requires e.Tick? && RecordsOk(s) && InTime(s, k)
    ensures InTime(Next(s, e), k)
  {
    WaitStaysInTime(s, e.elapsed, k);
    assert Next(s, e) == s.(now := s.now + e.elapsed);
  }

  lemma TakeNextStaysInTime(s: State, e: Event, k: string)
    requires RecordsOk(s) && (k in s.data ==> k in s.authors) && InTime(s, k) && TakesOn(s, e, k)
    ensures InTime(Next(s, e), k)
  {
    TakeStaysInTime(s, e.id, e.net, k);
    assert Next(s, e) == LockNext(s, e.id, e.net);
  }

  lemma PutNextStaysInTime(s: State, e: Event, k: string)
    requires RecordsOk(s) && (k in s.data ==> k in s.authors) && InTime(s, k) && PutsOn(s, e, k) && Timely(s, e, k)
    ensures InTime(Next(s, e), k) && HeldBy(s, k, e.id)
  {
    PutStaysInTime(s, e.id, e.net, k);
    assert Next(s, e) == StoreNext(s, e.id, e.net);
  }

  lemma NextStaysInTime(s: State, e: Event, k: string)
    requires Keys.IsIdempotencyKey(k) && RecordsOk(s) && (k in s.data ==> k in s.authors)
    requires InTime(s, k) && Timely(s, e, k)
    ensures InTime(Next(s, e), k)
    ensures PutsOn(s, e, k) ==> HeldBy(s, k, e.id)
  {
    if e.Tick? {
      TickNextStaysInTime(s, e, k);
    } else if TakesOn(s, e, k) {
      TakeNextStaysInTime(s, e, k);
    } else if PutsOn(s, e, k) {
      PutNextStaysInTime(s, e, k);
    } else {
      OthersStayInTime(s, e, k);
    }
  }

  lemma RunKeepsMemoParts(es: seq<Event>, k: string)
    requires Keys.IsIdempotencyKey(k)
    ensures Core(Run(es)) && (k in Run(es).data ==> k in Run(es).authors)
  {
    RunKeepsInv(es);
  }

  lemma {:induction false} TimelyRunsStayInTime(es: seq<Event>, k: string)
    requires Keys.IsIdempotencyKey(k) && AllTimely(es, k)
    ensures InTime(Run(es), k)
    decreases |es|
  {
    if es != [] {
      var before, e := es[..|es| - 1], es[|es| - 1];
      TimelyRunsStayInTime(before, k);
      RunKeepsMemoParts(before, k);
      NextStaysInTime(Run(before), e, k);
    }
  }

  /** Refinement.  Every event of a run is a step of the ideal memo of a key if and only
      if every outcome written under that key lands before its own lock runs out. */
  lemma {:induction false} RefinesIffTimely(es: seq<Event>, k: string)
    requires Keys.IsIdempotencyKey(k)
    ensures AllRefine(es, k) <==> AllTimely(es, k)
    decreases |es|
  {
    if es != [] {
      var before, e := es[..|es| - 1], es[|es| - 1];
      var s := Run(before);
      RefinesIffTimely(before, k);
      RunKeepsMemoParts(before, k);
      EventRefines(s, e, k);
      if AllTimely(before, k) {
        TimelyRunsStayInTime(before, k);
        if Timely(s, e, k) {
          NextStaysInTime(s, e, k);
        }
        if PutsOn(s, e, k) && HeldBy(s, k, e.id) {
          HeldMeansInTime(s, e.id, k);
        }
      }
    }
  }

  /** One outcome per generation.  In a timely run a replay always carries the outcome
      of the request that took the latest lock on the key. */
  lemma ReplaysAreCurrent(es: seq<Event>, id: nat, net: Delivery)
    requires At(Run(es), id, Pc.Reading) && AllTimely(es, Run(es).flights[id].key)
    requires Run(es + [DoRead(id, net)]).flights[id].pc.Replayed?
    ensures var s, f := Run(es), Run(es).flights[id];
            && LastOwner(s.locks, f.key).Some?
            && var src := LastOwner(s.locks, f.key).value;
            && src in s.outcomes
            && Run(es + [DoRead(id, net)]).flights[id].pc == Replayed(Snapshot(f.admission.req, s.outcomes[src]))
  {
    var s, f := Run(es), Run(es).flights[id];
    RunSnoc(es, DoRead(id, net));
    RunReadsSoundly(es, id, net);
    RunKeepsKeys(es, id);
    KeyOfIsIdempotencyKey(f.admission.req);
    TimelyRunsStayInTime(es, f.key);
    ReplaysReadTheStore(s, id, net);
    RunKeepsRecord(es, f.key);
    ReplayShowsMemo(s, id, net);
  }

  lemma ReplaysReadTheStore(s: State, id: nat, net: Delivery)
    requires At(s, id, Pc.Reading) && ReadNext(s, id, net).flights[id].pc.Replayed?
    ensures s.flights[id].key in s.data
  {
  }

  lemma ReplayShowsMemo(s: State, id: nat, net: Delivery)
    requires At(s, id, Pc.Reading) && ReadNext(s, id, net).flights[id].pc.Replayed?
    requires s.flights[id].key in s.authors && s.flights[id].key in s.data
    requires RecordOk(s, s.flights[id].key)
    ensures MemoOf(s, s.flights[id].key).Done?
    ensures MemoOf(s, s.flights[id].key).owner == s.authors[s.flights[id].key]
  {
  }
}
