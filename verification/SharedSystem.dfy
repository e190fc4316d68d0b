/** The whole server side as one machine: any number of protected requests at any
    stage, rate-limit calls and cached queries, all on one store with one clock.
    Every sequence of events is a run; an event that cannot happen changes nothing. */
module SharedSystem {
  import opened Prelude
  import opened RedisStore
  import opened Idempotency
  import opened Interceptor
  import Keys
  import Throttler

  datatype Event =
    | Tick(elapsed: nat)
    | Arrive(id: nat, http: HttpRequest)
    | DoRead(id: nat, net: Delivery)
    | DoLock(id: nat, net: Delivery)
    | Finish(id: nat, outcome: Outcome)
    | DoStore(id: nat, net: Delivery)
    | Crash(id: nat)
    | Hit(tracker: string, ttl: int, limit: int, blockDuration: int)
    | CacheWrite(query: Keys.CachedQuery, entry: Option<Entry>)

  /** A request in the server: its key in the store, where it stands, the commands it
      has sent and the handler runs it has had. */
  datatype Flight = Flight(admission: Admission, key: string, pc: Pc, commands: nat, runs: nat)

  /** One successful taking of a lock. */
  datatype Lock = Lock(id: nat, key: string, time: int)

  /** The store, the clock and the requests; then the history, which no step reads:
      locks in the order they were taken, handler outcomes, who wrote the record now
      under each key, and whose record a request replayed. */
  datatype State = State(
    data: Store,
    now: int,
    flights: map<nat, Flight>,
    locks: seq<Lock>,
    outcomes: map<nat, Outcome>,
    authors: map<string, nat>,
    sources: map<nat, nat>)

  const START := State(map[], 0, map[], [], map[], map[], map[])

  function Enter(a: Admission): Pc {
    match a
    case Bypass => Bypassing
    case Malformed => Refused(BadKey)
    case Guarded(_) => Pc.Reading
  }

  function StoreKey(a: Admission): string {
    if a.Guarded? then KeyOf(a.req) else ""
  }

  predicate IsFinal(pc: Pc) {
    pc.Answered? || pc.Replayed? || pc.Refused? || pc.Crashed?
  }

  predicate At(s: State, id: nat, pc: Pc) {
    id in s.flights && s.flights[id].admission.Guarded? && s.flights[id].pc == pc
  }

  predicate AtRunning(s: State, id: nat) {
    id in s.flights && s.flights[id].admission.Guarded? && s.flights[id].pc.Running?
  }

  predicate AtStoring(s: State, id: nat) {
    id in s.flights && s.flights[id].admission.Guarded? && s.flights[id].pc.Storing?
  }

  predicate AtBypass(s: State, id: nat) {
    id in s.flights && s.flights[id].pc.Bypassing?
  }

  predicate Enabled(s: State, e: Event) {
    match e
    case Tick(_) => true
    case Arrive(id, _) => id !in s.flights
    case DoRead(id, _) => At(s, id, Pc.Reading)
    case DoLock(id, _) => At(s, id, Missed)
    case Finish(id, _) => AtRunning(s, id) || AtBypass(s, id)
    case DoStore(id, _) => AtStoring(s, id)
    case Crash(id) => id in s.flights && !IsFinal(s.flights[id].pc)
    case Hit(tracker, _, _, _) => Keys.ColonFree(tracker)
    case CacheWrite(_, _) => true
  }

  function Moved(s: State, id: nat, pc: Pc, commands: nat, runs: nat): map<nat, Flight>
    requires id in s.flights
  {
    var f := s.flights[id];
    s.flights[id := Flight(f.admission, f.key, pc, f.commands + commands, f.runs + runs)]
  }

  function ReadNext(s: State, id: nat, net: Delivery): State
    requires At(s, id, Pc.Reading)
  {
    var f := s.flights[id];
    var pc := ReadStep(f.key, f.admission.req, s.data, s.now, net);
    var s' := s.(flights := Moved(s, id, pc, 1, 0));
    if pc.Replayed? && f.key in s.authors
    then s'.(sources := s.sources[id := s.authors[f.key]])
    else s'
  }

  function LockNext(s: State, id: nat, net: Delivery): State
    requires At(s, id, Missed)
  {
    var f := s.flights[id];
    var (data, pc) := LockStep(f.key, f.admission.req, s.data, s.now, net);
    var s' := s.(data := data, flights := Moved(s, id, pc, 1, 0));
    if Takes(s, id, net)
    then s'.(locks := s.locks + [Lock(id, f.key, s.now)], authors := s.authors[f.key := id])
    else s'
  }

  /** The attempt reaches the server and finds the key free. */
  predicate Takes(s: State, id: nat, net: Delivery)
    requires id in s.flights
  {
    !net.LostRequest? && !Live(s.data, s.now, s.flights[id].key)
  }

  function FinishNext(s: State, id: nat, outcome: Outcome): State
    requires AtRunning(s, id) || AtBypass(s, id)
  {
    var pc := s.flights[id].pc;
    var pc' := if pc.Running? then Storing(pc.since, outcome) else Answered(outcome);
    s.(flights := Moved(s, id, pc', 0, 1), outcomes := s.outcomes[id := outcome])
  }

  function StoreNext(s: State, id: nat, net: Delivery): State
    requires AtStoring(s, id)
  {
    var f := s.flights[id];
    var (data, pc) := StoreStep(f.key, f.admission.req, f.pc.outcome, s.data, s.now, net);
    var s' := s.(data := data, flights := Moved(s, id, pc, 1, 0));
    if net.LostRequest? then s' else s'.(authors := s.authors[f.key := id])
  }

  function Arrived(http: HttpRequest): Flight {
    Flight(Admit(http), StoreKey(Admit(http)), Enter(Admit(http)), 0, 0)
  }

  function Next(s: State, e: Event): State {
    if !Enabled(s, e) then s
    else
      match e
      case Tick(elapsed) => s.(now := s.now + elapsed)
      case Arrive(id, http) => s.(flights := s.flights[id := Arrived(http)])
      case DoRead(id, net) => ReadNext(s, id, net)
      case DoLock(id, net) => LockNext(s, id, net)
      case Finish(id, outcome) => FinishNext(s, id, outcome)
      case DoStore(id, net) => StoreNext(s, id, net)
      case Crash(id) => s.(flights := Moved(s, id, Crashed, 0, 0))
      case Hit(tracker, ttl, limit, blockDuration) =>
        s.(data := Throttler.Script(s.data, s.now, tracker, ttl, limit, blockDuration).0)
      case CacheWrite(query, entry) =>
        s.(data := match entry
                   case None => s.data - {Keys.CacheId(query)}
                   case Some(e) => s.data[Keys.CacheId(query) := e])
  }

  /** The state a run ends in. */
  function Run(es: seq<Event>): State {
    if es == [] then START else Next(Run(es[..|es| - 1]), es[|es| - 1])
  }

  /** The events that concern idempotency keys; the others leave those keys alone. */
  predicate IsForeign(e: Event) {
    e.Hit? || e.CacheWrite?
  }

  predicate SameEntry(data: Store, data': Store, k: string) {
    (k in data <==> k in data') && (k in data ==> data[k] == data'[k])
  }

  lemma HitFrame(s: State, e: Event, k: string)
    requires e.Hit? && Keys.IsIdempotencyKey(k)
    ensures SameEntry(s.data, Next(s, e).data, k)
  {
    Keys.KeySpacesAreDisjoint("", "", e.tracker, Keys.UserInfo(""));
    Throttler.ScriptFrame(s.data, s.now, e.tracker, e.ttl, e.limit, e.blockDuration, k);
  }

  lemma CacheWriteFrame(s: State, e: Event, k: string)
    requires e.CacheWrite? && Keys.IsIdempotencyKey(k)
    ensures SameEntry(s.data, Next(s, e).data, k)
  {
    Keys.KeySpacesAreDisjoint("", "", "", e.query);
  }

  lemma ForeignMovesDataOnly(s: State, e: Event)
    requires IsForeign(e)
    ensures Next(s, e) == s.(data := Next(s, e).data)
  {
  }

  /** What the query cache writes stands under its id, and what it removes is gone. */
  lemma CacheTrafficLands(s: State, q: Keys.CachedQuery, entry: Entry)
    ensures var id, data := Keys.CacheId(q), Next(s, CacheWrite(q, Some(entry))).data;
            id in data && data[id] == entry
    ensures Keys.CacheId(q) !in Next(s, CacheWrite(q, None)).data
  {
  }

  /** The rate limiter and the query cache touch no idempotency key and nothing else of
      the machine. */
  lemma ForeignFrame(s: State, e: Event, k: string)
    requires IsForeign(e)
    ensures Next(s, e) == s.(data := Next(s, e).data)
    ensures Keys.IsIdempotencyKey(k) ==> SameEntry(s.data, Next(s, e).data, k)
  {
    ForeignMovesDataOnly(s, e);
    if Keys.IsIdempotencyKey(k) {
      if e.Hit? { HitFrame(s, e, k); } else { CacheWriteFrame(s, e, k); }
    }
  }

  lemma RunSnoc(es: seq<Event>, e: Event)
    ensures Run(es + [e]) == Next(Run(es), e)
  {
    assert (es + [e])[..|es|] == es;
  }

  lemma ClockAdvances(s: State, e: Event)
    ensures s.now <= Next(s, e).now
  {
  }

  // ---- One passage of the interceptor is a request's own steps ----

  /** The request takes its lock, or fails to, and if it holds it runs its handler. */
  function LockAndRun(s: State, id: nat, net: Delivery, o: Outcome): State {
    Next(Next(s, DoLock(id, net)), Finish(id, o))
  }

  /** Request `id` goes on in `t` where it stood in `s`, after a wait. */
  predicate GoesOn(s: State, t: State, id: nat, w: Wait) {
    && id in s.flights && id in t.flights && t.flights[id] == s.flights[id]
    && t.data == w.data && t.now == s.now + w.elapsed
  }

  lemma ReadPart(s: State, id: nat, net: Delivery)
    requires At(s, id, Pc.Reading)
    ensures var f, read := s.flights[id], Next(s, DoRead(id, net));
            && read.data == s.data && read.now == s.now && id in read.flights
            && read.flights[id].admission == f.admission && read.flights[id].key == f.key
            && read.flights[id].pc == ReadStep(f.key, f.admission.req, s.data, s.now, net)
  {
    assert Next(s, DoRead(id, net)) == ReadNext(s, id, net);
  }

  lemma LockPart(s: State, id: nat, net: Delivery, o: Outcome)
    requires At(s, id, Missed)
    ensures var f, ran := s.flights[id], LockAndRun(s, id, net, o);
            var (data, pc) := LockStep(f.key, f.admission.req, s.data, s.now, net);
            && ran.data == data && ran.now == s.now && id in ran.flights
            && ran.flights[id].admission == f.admission && ran.flights[id].key == f.key
            && ran.flights[id].pc == if pc.Running? then Storing(pc.since, o) else pc
  {
    var f, locked := s.flights[id], Next(s, DoLock(id, net));
    assert locked == LockNext(s, id, net);
    var (data, pc) := LockStep(f.key, f.admission.req, s.data, s.now, net);
    assert locked.flights[id].pc == pc && locked.flights[id].admission == f.admission;
    if pc.Running? {
      assert Next(locked, Finish(id, o)) == FinishNext(locked, id, o);
    } else {
      assert Next(locked, Finish(id, o)) == locked;
    }
  }

  lemma StorePart(s: State, id: nat, net: Delivery)
    requires AtStoring(s, id)
    ensures var f, stored := s.flights[id], Next(s, DoStore(id, net));
            && id in stored.flights
            && (stored.data, stored.flights[id].pc)
            == StoreStep(f.key, f.admission.req, f.pc.outcome, s.data, s.now, net)
  {
    assert Next(s, DoStore(id, net)) == StoreNext(s, id, net);
  }

  /** The interceptor's passage ends, for each place it can end in, as the machine's
      steps of one request do, wherever other requests fit their steps in between. */
  lemma PassageIsItsSteps(s: State, id: nat, req: Request, w: Surroundings, mid: State, late: State)
    requires At(s, id, Pc.Reading) && s.flights[id].admission == Guarded(req) && s.flights[id].key == KeyOf(req)
    requires GoesOn(Next(s, DoRead(id, w.onRead)), mid, id, w.beforeLock)
    requires GoesOn(LockAndRun(mid, id, w.onLock, w.outcome), late, id, w.beforeStore)
    ensures var read, ran := Next(s, DoRead(id, w.onRead)), LockAndRun(mid, id, w.onLock, w.outcome);
            var stored := Next(late, DoStore(id, w.onStore));
            var end := if !At(read, id, Missed) then read else if !AtStoring(ran, id) then ran else stored;
            id in end.flights && (end.data, end.flights[id].pc) == Passage(Guarded(req), s.data, s.now, w)
  {
    ReadPart(s, id, w.onRead);
    if At(Next(s, DoRead(id, w.onRead)), id, Missed) {
      LockPart(mid, id, w.onLock, w.outcome);
      if AtStoring(LockAndRun(mid, id, w.onLock, w.outcome), id) {
        StorePart(late, id, w.onStore);
      }
    }
  }
}
