/** What every run of the idempotency protocol keeps, with no assumption on timing:
    lock spacing, provenance of replays, and bounded work per request. */
module IdempotencySafety {
  import opened RedisStore
  import opened Idempotency
  import opened Interceptor
  import opened SharedSystem
  import Keys

  ghost predicate HeldUntil(s: State, k: string, t: int) {
    k in s.data && s.data[k].expiry.Some? && t <= s.data[k].expiry.value
  }

  predicate BeforeLock(pc: Pc) {
    pc.Reading? || pc.Missed? || pc.Bypassing?
  }

  /** A lock was taken by a protected request that is past taking it, and keeps its
      key occupied for a full TTL. */
  ghost predicate LockOk(s: State, l: Lock) {
    && l.id in s.flights
    && s.flights[l.id].admission.Guarded?
    && l.key == s.flights[l.id].key
    && !BeforeLock(s.flights[l.id].pc)
    && l.time <= s.now
    && l.key in s.authors
    && (s.now < l.time + TTL ==> HeldUntil(s, l.key, l.time + TTL))
  }

  ghost predicate Spaced(locks: seq<Lock>) {
    forall i, j | 0 <= i < j < |locks| ::
      && locks[i].id != locks[j].id
      && (locks[i].key == locks[j].key ==> locks[i].time + TTL <= locks[j].time)
  }

  ghost predicate LocksOk(s: State) {
    (forall l | l in s.locks :: LockOk(s, l)) && Spaced(s.locks)
  }

  /** A record under `k` was written by the request that took a lock on `k`: its
      pending mark, expiring a TTL after the lock, or the snapshot of its outcome. */
  ghost predicate RecordOk(s: State, k: string)
    requires k in s.data && k in s.authors
  {
    var e, a := s.data[k], s.authors[k];
    && e.value.Record?
    && e.expiry.Some?
    && e.expiry.value <= s.now + TTL
    && a in s.flights
    && s.flights[a].admission.Guarded?
    && s.flights[a].key == k
    && (if e.value.record.state.Pending? then
          && e.value.record == PendingRecord(s.flights[a].admission.req.method_, s.flights[a].admission.req.path)
          && Lock(a, k, e.expiry.value - TTL) in s.locks
        else
          a in s.outcomes && e.value.record == Snapshot(s.flights[a].admission.req, s.outcomes[a]))
  }

  ghost predicate RecordsOk(s: State) {
    forall k | k in s.authors :: k in s.data && RecordOk(s, k)
  }

  /** How many commands and handler runs a request has behind it at each stage. */
  predicate WorkOk(f: Flight) {
    match f.pc
    case Bypassing => f.admission.Bypass? && f.commands == 0 && f.runs == 0
    case Reading => f.admission.Guarded? && f.commands == 0 && f.runs == 0
    case Missed => f.admission.Guarded? && f.commands == 1 && f.runs == 0
    case Running(_) => f.admission.Guarded? && f.commands == 2 && f.runs == 0
    case Storing(_, _) => f.admission.Guarded? && f.commands == 2 && f.runs == 1
    case Answered(_) => f.commands <= 3 && f.runs == 1
    case Replayed(_) => f.commands == 1 && f.runs == 0
    case Refused(_) => f.commands <= 2 && f.runs == 0
    case Crashed => f.commands <= 3 && f.runs <= 1
  }

  /** What a reply stands on: the request's own handler run, or the outcome of the
      request whose record it read. */
  ghost predicate FlightOk(s: State, id: nat)
    requires id in s.flights
  {
    var f := s.flights[id];
    && WorkOk(f)
    && (f.runs == 1 <==> id in s.outcomes)
    && (f.runs == 1 && f.admission.Guarded? ==> exists t :: Lock(id, f.key, t) in s.locks)
    && match f.pc
       case Running(since) => Lock(id, f.key, since) in s.locks
       case Storing(since, o) => Lock(id, f.key, since) in s.locks && s.outcomes[id] == o
       case Answered(o) => s.outcomes[id] == o
       case Replayed(r) => ReplayOk(s, id, r)
       case _ => true
  }

  ghost predicate ReplayOk(s: State, id: nat, record: IdempotencyRecord)
    requires id in s.flights
  {
    && id in s.sources
    && s.sources[id] in s.outcomes
    && s.sources[id] in s.flights
    && s.sources[id] != id
    && s.flights[id].admission.Guarded?
    && s.flights[s.sources[id]].admission == s.flights[id].admission
    && record == Snapshot(s.flights[id].admission.req, s.outcomes[s.sources[id]])
  }

  ghost predicate FlightsOk(s: State) {
    && (forall id | id in s.flights :: FlightOk(s, id))
    && (forall id | id in s.outcomes :: id in s.flights)
  }

  /** The keys of the protocol: each protected request's, and the fact that nobody
      else writes under the idempotency prefix. */
  ghost predicate KeysOk(s: State) {
    && (forall id | id in s.flights && s.flights[id].admission.Guarded? ::
          && s.flights[id].key == KeyOf(s.flights[id].admission.req)
          && Keys.IsUuidV4(s.flights[id].admission.req.key))
    && (forall k | k in s.data && Keys.IsIdempotencyKey(k) :: k in s.authors)
    && (forall k | k in s.authors :: Keys.IsIdempotencyKey(k))
  }

  ghost predicate Core(s: State) {
    LocksOk(s) && RecordsOk(s) && FlightsOk(s)
  }

  ghost predicate Inv(s: State) {
    Core(s) && KeysOk(s)
  }

  lemma KeyOfIsIdempotencyKey(req: Request)
    ensures Keys.IsIdempotencyKey(KeyOf(req))
  {
    Keys.KeySpacesAreDisjoint(req.user, req.key, "", Keys.UserInfo(""));
  }

  lemma SnapshotKeepsRoute(req: Request, o: Outcome)
    ensures Snapshot(req, o).method_ == req.method_ && Snapshot(req, o).path == req.path
    ensures Snapshot(req, o).state.Completed?
    ensures Snapshot(req, o).failed <==> o.Raised?
  {
  }

  predicate SameIdentity(s: State, s': State, id: nat)
    requires id in s.flights
  {
    id in s'.flights && s'.flights[id].admission == s.flights[id].admission && s'.flights[id].key == s.flights[id].key
  }

  /** A step lets in only the request that arrives. */
  lemma FlightsAreClosed(s: State, e: Event)
    requires !IsForeign(e)
    ensures forall id | id in Next(s, e).flights ::
      id in s.flights || (e.Arrive? && e.id == id && Next(s, e).flights[id] == Arrived(e.http))
  {
  }

  /** A step renames no request. */
  lemma FlightsKeepIdentity(s: State, e: Event, id: nat)
    requires !IsForeign(e) && id in s.flights
    ensures SameIdentity(s, Next(s, e), id)
  {
  }

  /** A step writes only under the key of the request that makes it. */
  lemma DataFootprint(s: State, e: Event)
    requires !IsForeign(e)
    ensures
      || (Next(s, e).data == s.data && Next(s, e).authors == s.authors)
      || ((e.DoLock? || e.DoStore?) && e.id in s.flights && s.flights[e.id].admission.Guarded?
          && s.flights[e.id].key in Next(s, e).data
          && Next(s, e).data == s.data[s.flights[e.id].key := Next(s, e).data[s.flights[e.id].key]]
          && Next(s, e).authors == s.authors[s.flights[e.id].key := e.id])
  {
    if Enabled(s, e) {
      match e
      case DoLock(id, net) =>
        if Takes(s, id, net) {
          assert Next(s, e).data == s.data[s.flights[id].key := Next(s, e).data[s.flights[id].key]];
        }
      case DoStore(id, net) =>
        if !net.LostRequest? {
          assert Next(s, e).data == s.data[s.flights[id].key := Next(s, e).data[s.flights[id].key]];
        }
      case _ =>
    }
  }

  lemma ArrivedKey(http: HttpRequest)
    requires Admit(http).Guarded?
    ensures Arrived(http).key == KeyOf(Admit(http).req) && Keys.IsUuidV4(Admit(http).req.key)
  {
  }

  /** The key invariant survives every step. */
  lemma NextKeepsKeys(s: State, e: Event)
    requires KeysOk(s)
    ensures KeysOk(Next(s, e))
  {
    if IsForeign(e) {
      ForeignKeepsKeys(s, e);
    } else {
      OwnKeepsKeys(s, e);
    }
  }

  lemma OwnKeepsKeys(s: State, e: Event)
    requires KeysOk(s) && !IsForeign(e)
    ensures KeysOk(Next(s, e))
  {
    var s' := Next(s, e);
    FlightsAreClosed(s, e);
    forall id | id in s.flights ensures SameIdentity(s, s', id) { FlightsKeepIdentity(s, e, id); }
    DataFootprint(s, e);
    forall id | id in s'.flights && s'.flights[id].admission.Guarded?
      ensures s'.flights[id].key == KeyOf(s'.flights[id].admission.req)
      ensures Keys.IsUuidV4(s'.flights[id].admission.req.key)
    {
      if id !in s.flights { ArrivedKey(e.http); }
    }
    forall k | k in s'.authors
      ensures Keys.IsIdempotencyKey(k)
    {
      if k !in s.authors { KeyOfIsIdempotencyKey(s.flights[e.id].admission.req); }
    }
  }

  lemma ForeignKeepsKeys(s: State, e: Event)
    requires KeysOk(s) && IsForeign(e)
    ensures KeysOk(Next(s, e))
  {
    var s' := Next(s, e);
    ForeignFrame(s, e, "");
    forall k | k in s'.data && Keys.IsIdempotencyKey(k)
      ensures k in s'.authors
    {
      ForeignFrame(s, e, k);
    }
  }

  /** `s'` comes after `s`: requests keep their identity, locks and outcomes are only
      added, and the clock does not go back. */
  ghost predicate Later(s: State, s': State) {
    && s.now <= s'.now
    && s.locks <= s'.locks
    && (forall i | i in s.flights ::
          && i in s'.flights
          && s'.flights[i].admission == s.flights[i].admission
          && s'.flights[i].key == s.flights[i].key
          && (BeforeLock(s'.flights[i].pc) ==> BeforeLock(s.flights[i].pc)))
    && (forall i | i in s.outcomes :: i in s'.outcomes && s'.outcomes[i] == s.outcomes[i])
    && (forall k | k in s.authors :: k in s'.authors)
  }

  /** Only the request `id` moves. */
  ghost predicate OnlyMoves(s: State, s': State, id: nat) {
    && (forall i | i in s'.flights && i != id :: i in s.flights && s'.flights[i] == s.flights[i])
    && (forall i | i in s'.outcomes && i != id :: i in s.outcomes)
    && (forall i | i in s.sources && i != id :: i in s'.sources && s'.sources[i] == s.sources[i])
    && (forall i | i in s'.outcomes :: i in s'.flights)
  }

  /** The store and the history of locks are as before. */
  ghost predicate Quiet(s: State, s': State) {
    s'.data == s.data && s'.locks == s.locks && s'.authors == s.authors
  }

  /** Old locks stay good when every key they occupy stays occupied. */
  lemma OldLocksStay(s: State, s': State)
    requires LocksOk(s) && Later(s, s')
    requires forall k, t | k in s.authors && HeldUntil(s, k, t) && s.now < t <= s.now + TTL :: HeldUntil(s', k, t)
    ensures forall l | l in s.locks :: LockOk(s', l)
  {
    forall l | l in s.locks
      ensures LockOk(s', l)
    {
      assert LockOk(s, l);
    }
  }

  /** Records left alone stay good. */
  lemma OldRecordStays(s: State, s': State, k: string)
    requires RecordsOk(s) && Later(s, s')
    requires k in s.authors && s'.authors[k] == s.authors[k]
    requires k in s.data ==> k in s'.data && s'.data[k] == s.data[k]
    ensures k in s'.data && RecordOk(s', k)
  {
    assert RecordOk(s, k);
    assert forall l | l in s.locks :: l in s'.locks;
  }

  /** Requests that do not move stay good. */
  lemma OldFlightStays(s: State, s': State, id: nat)
    requires FlightsOk(s) && Later(s, s')
    requires id in s.flights && s'.flights[id] == s.flights[id]
    requires id in s'.outcomes ==> id in s.outcomes
    requires id in s.sources ==> id in s'.sources && s'.sources[id] == s.sources[id]
    ensures FlightOk(s', id)
  {
    assert FlightOk(s, id);
    assert forall l | l in s.locks :: l in s'.locks;
  }

  lemma QuietStep(s: State, s': State)
    requires Core(s) && Later(s, s') && Quiet(s, s')
    ensures LocksOk(s') && RecordsOk(s')
  {
    OldLocksStay(s, s');
    forall k | k in s'.authors
      ensures k in s'.data && RecordOk(s', k)
    {
      assert RecordOk(s, k);
      OldRecordStays(s, s', k);
    }
  }

  /** Puts a step of one request together: the data side, the others, and itself. */
  lemma StepKeepsCore(s: State, s': State, id: nat)
    requires Core(s) && Later(s, s') && OnlyMoves(s, s', id)
    requires Quiet(s, s') || (LocksOk(s') && RecordsOk(s'))
    requires id in s'.flights && FlightOk(s', id)
    ensures Core(s')
  {
    if Quiet(s, s') {
      QuietStep(s, s');
    }
    forall i | i in s'.flights
      ensures FlightOk(s', i)
    {
      if i != id { OldFlightStays(s, s', i); }
    }
  }

  lemma TickKeepsCore(s: State, elapsed: nat)
    requires Core(s)
    ensures Core(s.(now := s.now + elapsed))
  {
    var s' := s.(now := s.now + elapsed);
    QuietStep(s, s');
    forall i | i in s'.flights ensures FlightOk(s', i) { OldFlightStays(s, s', i); }
  }

  lemma ArriveKeepsCore(s: State, id: nat, f: Flight)
    requires Core(s) && id !in s.flights
    requires f.commands == f.runs == 0 && WorkOk(f) && (BeforeLock(f.pc) || f.pc.Refused?)
    ensures Core(s.(flights := s.flights[id := f]))
  {
    StepKeepsCore(s, s.(flights := s.flights[id := f]), id);
  }

  /** A completed record that matches a reader's method and path was left by a handler
      run of a request with the very same user, key, method and path. */
  lemma ReadFindsItsAuthor(s: State, id: nat, net: Delivery)
    requires Inv(s) && At(s, id, Pc.Reading)
    ensures ReadIsSound(s, id, net)
  {
    var k, req := s.flights[id].key, s.flights[id].admission.req;
    if !ReadStep(k, req, s.data, s.now, net).Replayed? { return; }
    KeyOfIsIdempotencyKey(req);
    assert RecordOk(s, k);
    var a := s.authors[k];
    assert a in s.outcomes && FlightOk(s, a) && FlightOk(s, id);
    var req' := s.flights[a].admission.req;
    Keys.BuildKeyIsInjective(req.user, req.key, req'.user, req'.key);
    SnapshotKeepsRoute(req', s.outcomes[a]);
  }

  /** If the read ends in a replay, the record is some run's outcome for this request. */
  ghost predicate ReadIsSound(s: State, id: nat, net: Delivery)
    requires At(s, id, Pc.Reading)
  {
    var f := s.flights[id];
    var pc := ReadStep(f.key, f.admission.req, s.data, s.now, net);
    pc.Replayed? ==>
      && f.key in s.authors
      && var a := s.authors[f.key];
      && a in s.outcomes && a in s.flights && a != id
      && s.flights[a].admission == f.admission
      && pc.record == Snapshot(f.admission.req, s.outcomes[a])
  }

  lemma ReaderMoves(s: State, id: nat, net: Delivery)
    requires At(s, id, Pc.Reading) && FlightOk(s, id) && ReadIsSound(s, id, net)
    ensures FlightOk(ReadNext(s, id, net), id)
  {
  }

  lemma ReadShape(s: State, id: nat, net: Delivery)
    requires At(s, id, Pc.Reading) && (forall i | i in s.outcomes :: i in s.flights)
    ensures Later(s, ReadNext(s, id, net)) && OnlyMoves(s, ReadNext(s, id, net), id)
    ensures Quiet(s, ReadNext(s, id, net))
  {
  }

  lemma ReadKeepsCore(s: State, id: nat, net: Delivery)
    requires Core(s) && At(s, id, Pc.Reading) && ReadIsSound(s, id, net)
    ensures Core(ReadNext(s, id, net))
  {
    ReadShape(s, id, net);
    ReaderMoves(s, id, net);
    StepKeepsCore(s, ReadNext(s, id, net), id);
  }

  lemma LockerMoves(s: State, id: nat, net: Delivery)
    requires At(s, id, Missed) && FlightOk(s, id)
    ensures FlightOk(LockNext(s, id, net), id)
  {
  }

  lemma LockShape(s: State, id: nat, net: Delivery)
    requires At(s, id, Missed) && (forall i | i in s.outcomes :: i in s.flights)
    ensures Later(s, LockNext(s, id, net)) && OnlyMoves(s, LockNext(s, id, net), id)
    ensures !Takes(s, id, net) ==> Quiet(s, LockNext(s, id, net))
  {
  }

  /** Taking a free key: every earlier lock on it is a TTL old. */
  lemma LockTaken(s: State, id: nat, net: Delivery)
    requires Core(s) && At(s, id, Missed) && Takes(s, id, net) && Later(s, LockNext(s, id, net))
    ensures LocksOk(LockNext(s, id, net))
  {
    var s', k := LockNext(s, id, net), s.flights[id].key;
    forall l | l in s.locks
      ensures l.id != id && (l.key == k ==> l.time + TTL <= s.now)
    {
      assert LockOk(s, l);
    }
    OldLocksStay(s, s');
  }

  lemma LockTakenRecords(s: State, id: nat, net: Delivery)
    requires RecordsOk(s) && At(s, id, Missed) && Takes(s, id, net) && Later(s, LockNext(s, id, net))
    ensures RecordsOk(LockNext(s, id, net))
  {
    var s', k := LockNext(s, id, net), s.flights[id].key;
    forall j | j in s'.authors
      ensures j in s'.data && RecordOk(s', j)
    {
      if j != k {
        assert RecordOk(s, j);
        OldRecordStays(s, s', j);
      }
    }
  }

  lemma LockKeepsCore(s: State, id: nat, net: Delivery)
    requires Core(s) && At(s, id, Missed)
    ensures Core(LockNext(s, id, net))
  {
    LockShape(s, id, net);
    LockerMoves(s, id, net);
    if Takes(s, id, net) {
      LockTaken(s, id, net);
      LockTakenRecords(s, id, net);
    }
    StepKeepsCore(s, LockNext(s, id, net), id);
  }

  lemma FinisherMoves(s: State, id: nat, outcome: Outcome)
    requires (AtRunning(s, id) || AtBypass(s, id)) && FlightOk(s, id)
    ensures FlightOk(FinishNext(s, id, outcome), id)
  {
  }

  lemma FinishShape(s: State, id: nat, outcome: Outcome)
    requires (AtRunning(s, id) || AtBypass(s, id)) && id !in s.outcomes
    requires forall i | i in s.outcomes :: i in s.flights
    ensures Later(s, FinishNext(s, id, outcome)) && OnlyMoves(s, FinishNext(s, id, outcome), id)
    ensures Quiet(s, FinishNext(s, id, outcome))
  {
  }

  lemma FinishKeepsCore(s: State, id: nat, outcome: Outcome)
    requires Core(s) && (AtRunning(s, id) || AtBypass(s, id))
    ensures Core(FinishNext(s, id, outcome))
  {
    assert FlightOk(s, id);
    FinishShape(s, id, outcome);
    FinisherMoves(s, id, outcome);
    StepKeepsCore(s, FinishNext(s, id, outcome), id);
  }

  lemma StorerMoves(s: State, id: nat, net: Delivery)
    requires AtStoring(s, id) && FlightOk(s, id)
    ensures FlightOk(StoreNext(s, id, net), id)
  {
  }

  lemma StoreShape(s: State, id: nat, net: Delivery)
    requires AtStoring(s, id) && (forall i | i in s.outcomes :: i in s.flights)
    ensures Later(s, StoreNext(s, id, net)) && OnlyMoves(s, StoreNext(s, id, net), id)
    ensures net.LostRequest? ==> Quiet(s, StoreNext(s, id, net))
  {
  }

  lemma OutcomeStoredLocks(s: State, id: nat, net: Delivery)
    requires LocksOk(s) && AtStoring(s, id) && !net.LostRequest? && Later(s, StoreNext(s, id, net))
    ensures LocksOk(StoreNext(s, id, net))
  {
    OldLocksStay(s, StoreNext(s, id, net));
  }

  lemma OutcomeStored(s: State, id: nat, net: Delivery)
    requires RecordsOk(s) && AtStoring(s, id) && !net.LostRequest? && Later(s, StoreNext(s, id, net))
    requires FlightOk(s, id)
    ensures RecordsOk(StoreNext(s, id, net))
  {
    var s', k := StoreNext(s, id, net), s.flights[id].key;
    forall j | j in s'.authors
      ensures j in s'.data && RecordOk(s', j)
    {
      if j != k {
        assert RecordOk(s, j);
        OldRecordStays(s, s', j);
      } else {
        SnapshotKeepsRoute(s.flights[id].admission.req, s.flights[id].pc.outcome);
      }
    }
  }

  lemma StoreKeepsCore(s: State, id: nat, net: Delivery)
    requires Core(s) && AtStoring(s, id)
    ensures Core(StoreNext(s, id, net))
  {
    StoreShape(s, id, net);
    StorerMoves(s, id, net);
    if !net.LostRequest? {
      OutcomeStoredLocks(s, id, net);
      OutcomeStored(s, id, net);
    }
    StepKeepsCore(s, StoreNext(s, id, net), id);
  }

  lemma CrashKeepsCore(s: State, id: nat)
    requires Core(s) && id in s.flights && !IsFinal(s.flights[id].pc)
    ensures Core(s.(flights := Moved(s, id, Crashed, 0, 0)))
  {
    var s' := s.(flights := Moved(s, id, Crashed, 0, 0));
    assert FlightOk(s, id);
    assert FlightOk(s', id);
    StepKeepsCore(s, s', id);
  }

  lemma ForeignKeepsCore(s: State, data: Store)
    requires Core(s)
    requires forall k | k in s.authors && k in s.data :: k in data && data[k] == s.data[k]
    ensures Core(s.(data := data))
  {
    var s' := s.(data := data);
    OldLocksStay(s, s');
    forall k | k in s'.authors
      ensures k in s'.data && RecordOk(s', k)
    {
      assert RecordOk(s, k);
      OldRecordStays(s, s', k);
    }
    forall i | i in s'.flights ensures FlightOk(s', i) { OldFlightStays(s, s', i); }
  }

  lemma ArriveNextKeepsCore(s: State, id: nat, http: HttpRequest)
    requires Core(s) && id !in s.flights
    ensures Core(Next(s, Arrive(id, http)))
  {
    ArrivedIsFresh(http);
    ArriveKeepsCore(s, id, Arrived(http));
  }

  lemma TickNextKeepsCore(s: State, elapsed: nat)
    requires Core(s)
    ensures Core(Next(s, Tick(elapsed)))
  {
    TickKeepsCore(s, elapsed);
    assert Next(s, Tick(elapsed)) == s.(now := s.now + elapsed);
  }

  lemma CrashNextKeepsCore(s: State, id: nat)
    requires Core(s) && id in s.flights && !IsFinal(s.flights[id].pc)
    ensures Core(Next(s, Crash(id)))
  {
    CrashKeepsCore(s, id);
    assert Next(s, Crash(id)) == s.(flights := Moved(s, id, Crashed, 0, 0));
  }

  lemma ArrivedIsFresh(http: HttpRequest)
    ensures var f := Arrived(http);
            f.commands == f.runs == 0 && WorkOk(f) && (BeforeLock(f.pc) || f.pc.Refused?)
  {
  }

  lemma CommandNextKeepsCore(s: State, e: Event)
    requires Core(s) && Enabled(s, e)
    requires (e.DoRead? && ReadIsSound(s, e.id, e.net)) || e.DoLock? || e.DoStore? || e.Finish?
    ensures Core(Next(s, e))
  {
    match e
    case Finish(id, outcome) => FinishKeepsCore(s, id, outcome);
    case DoRead(id, net) => ReadKeepsCore(s, id, net);
    case DoLock(id, net) => LockKeepsCore(s, id, net);
    case DoStore(id, net) => StoreKeepsCore(s, id, net);
  }

  lemma ForeignNextKeepsCore(s: State, e: Event)
    requires Inv(s) && IsForeign(e)
    ensures Core(Next(s, e))
  {
    forall k | k in s.authors && k in s.data
      ensures k in Next(s, e).data && Next(s, e).data[k] == s.data[k]
    {
      ForeignFrame(s, e, k);
    }
    ForeignFrame(s, e, "");
    ForeignKeepsCore(s, Next(s, e).data);
  }

  lemma OwnNextKeepsCore(s: State, e: Event)
    requires Core(s) && Enabled(s, e) && !IsForeign(e)
    requires e.DoRead? ==> ReadIsSound(s, e.id, e.net)
    ensures Core(Next(s, e))
  {
    match e
    case Tick(elapsed) => TickNextKeepsCore(s, elapsed);
    case Arrive(id, http) => ArriveNextKeepsCore(s, id, http);
    case Crash(id) => CrashNextKeepsCore(s, id);
    case _ => CommandNextKeepsCore(s, e);
  }

  lemma NextKeepsInv(s: State, e: Event)
    requires Inv(s)
    ensures Inv(Next(s, e))
  {
    NextKeepsKeys(s, e);
    if IsForeign(e) {
      ForeignNextKeepsCore(s, e);
    } else if Enabled(s, e) {
      if e.DoRead? {
        ReadFindsItsAuthor(s, e.id, e.net);
      }
      OwnNextKeepsCore(s, e);
    }
  }

  /** Every reachable state satisfies the invariant. */
  lemma {:induction false} RunKeepsInv(es: seq<Event>)
    ensures Inv(Run(es))
    decreases |es|
  {
    if es != [] {
      RunKeepsInv(es[..|es| - 1]);
      NextKeepsInv(Run(es[..|es| - 1]), es[|es| - 1]);
    }
  }

  /** The parts of the invariant, one at a time. */
  lemma RunKeepsLocks(es: seq<Event>)
    ensures LocksOk(Run(es))
  {
    RunKeepsInv(es);
  }

  lemma RunKeepsRecord(es: seq<Event>, k: string)
    requires k in Run(es).data && Keys.IsIdempotencyKey(k)
    ensures k in Run(es).authors && RecordOk(Run(es), k)
  {
    RunKeepsInv(es);
  }

  lemma RunKeepsFlight(es: seq<Event>, id: nat)
    requires id in Run(es).flights
    ensures FlightOk(Run(es), id)
  {
    RunKeepsInv(es);
  }

  lemma RunReadsSoundly(es: seq<Event>, id: nat, net: Delivery)
    requires At(Run(es), id, Pc.Reading)
    ensures ReadIsSound(Run(es), id, net)
  {
    RunKeepsInv(es);
    ReadFindsItsAuthor(Run(es), id, net);
  }

  lemma RunKeepsKeys(es: seq<Event>, id: nat)
    requires id in Run(es).flights && Run(es).flights[id].admission.Guarded?
    ensures Run(es).flights[id].key == KeyOf(Run(es).flights[id].admission.req)
  {
    RunKeepsInv(es);
  }
}
