/** One request's passage through the Idempotency-Key interceptor, cut at the points
    where it waits: read, take the lock, run the handler, store the outcome. */
module Interceptor {
  import opened Prelude
  import opened Json
  import opened Failures
  import opened RedisStore
  import opened Idempotency
  import Keys

  datatype Header = NoHeader | One(value: string) | Many(values: seq<string>)

  /** What the interceptor looks at in an HTTP request. */
  datatype HttpRequest = HttpRequest(
    skip: bool,
    method_: string,
    path: string,
    idempotencyKey: Header,
    authenticatedUser: Header)

  /** A request the protocol protects. */
  datatype Request = Request(user: string, key: string, method_: string, path: string)

  /** How a request enters: straight to the handler, refused, or protected. */
  datatype Admission = Bypass | Malformed | Guarded(req: Request)

  /** How a handler ends. */
  datatype Outcome = Succeeded(statusCode: int, body: Js) | Raised(err: Error)

  /** What the client receives. */
  datatype Reply = Sent(body: Js) | Failed(failure: Failure)

  /** Why a request is turned away without its handler running. */
  datatype Why = BadKey | Conflict | Busy | StoreDown

  /** Where a request stands.  `Answered` ends with its own handler's outcome,
      `Replayed` with the record of another, `Refused` with neither. */
  datatype Pc =
    | Bypassing
    | Reading
    | Missed
    | Running(since: int)
    | Storing(since: int, outcome: Outcome)
    | Answered(result: Outcome)
    | Replayed(record: IdempotencyRecord)
    | Refused(why: Why)
    | Crashed

  function First(h: Header): Option<string> {
    match h
    case NoHeader => None
    case One(v) => Some(v)
    case Many(vs) => if vs == [] then None else Some(vs[0])
  }

  predicate IsSafe(method_: string) {
    method_ in {"GET", "HEAD", "OPTIONS", "TRACE"}
  }

  function Admit(http: HttpRequest): Admission {
    var key, user := First(http.idempotencyKey), First(http.authenticatedUser);
    if http.skip || IsSafe(http.method_) || key.None? then Bypass
    else if !Keys.IsUuidV4(key.value) then Malformed
    else if user.None? then Bypass
    else Guarded(Request(user.value, key.value, http.method_, http.path))
  }

  function KeyOf(req: Request): string {
    Keys.BuildKey(req.user, req.key)
  }

  /** The error thrown for a refusal. */
  function RefusalError(why: Why): Error {
    match why
    case BadKey => HttpError(400, WithMessage("Idempotency-Key must be a valid UUID v4."))
    case Conflict => HttpError(400, WithMessage("Idempotency-Key was already used for a different request."))
    case Busy => DomainError(IDEMPOTENCY_IN_PROGRESS, "A request with the same Idempotency-Key is in progress.")
    case StoreDown => OtherError("The store did not answer.")
  }

  /** The reply the executing request gives its own client. */
  function LiveReply(o: Outcome): Reply {
    match o
    case Succeeded(_, body) => Sent(Wire(body))
    case Raised(err) => Failed(Render(err))
  }

  /** The record kept for an outcome. */
  function Snapshot(req: Request, o: Outcome): IdempotencyRecord {
    match o
    case Succeeded(statusCode, body) => CompletedRecord(req.method_, req.path, statusCode, body)
    case Raised(err) =>
      var f := ToFailure(err);
      FailedRecord(req.method_, req.path, f.code, f.message)
  }

  /** The reply made from a completed record. */
  function RecordReply(r: IdempotencyRecord): Reply {
    if r.failed then
      Failed(Render(ReplayError(Failure(
        if r.errorCode.Some? then r.errorCode.value else 0,
        if r.message.Some? then r.message.value else ""))))
    else Sent(Wire(r.responseBody))
  }

  /** What a finished request sent to its client. */
  function ReplyOf(pc: Pc): Option<Reply> {
    match pc
    case Answered(o) => Some(LiveReply(o))
    case Replayed(r) => Some(RecordReply(r))
    case Refused(why) => Some(Failed(Render(RefusalError(why))))
    case _ => None
  }

  /** What the interceptor does with the answer to its read. */
  function OnReading(req: Request, r: Result<Idempotency.Reading, Unreachable>): Pc {
    match r
    case Err(_) => Refused(StoreDown)
    case Ok(Missing) => Missed
    case Ok(Foreign) => Refused(Conflict)
    case Ok(Found(record)) =>
      if record.method_ != req.method_ || record.path != req.path then Refused(Conflict)
      else if record.state.Pending? then Refused(Busy)
      else Replayed(record)
  }

  /** What it does with the answer to its attempt to take the lock. */
  function OnLock(now: int, r: Result<bool, Unreachable>): Pc {
    match r
    case Err(_) => Refused(StoreDown)
    case Ok(acquired) => if acquired then Running(now) else Refused(Busy)
  }

  /** A stored outcome replays as the reply the executor gave; only the message of an
      error left to the catch-all filter differs, and even then the code agrees. */
  lemma ReplayMatchesLive(req: Request, o: Outcome)
    ensures RecordReply(Snapshot(req, o)) == LiveReply(o) <==> !(o.Raised? && o.err.OtherError?)
    ensures o.Succeeded? ==> RecordReply(Snapshot(req, o)).Sent?
    ensures o.Raised? ==> RecordReply(Snapshot(req, o)).Failed?
    ensures o.Raised? ==> RecordReply(Snapshot(req, o)).failure.code == LiveReply(o).failure.code
  {
    match o
    case Succeeded(_, body) => WireIsIdempotent(body);
    case Raised(err) => ReplayRendersLikeLive(err);
  }

  /** The read of a request under its key `k`, as a function of the store it meets. */
  function ReadStep(k: string, req: Request, s: Store, now: int, net: Delivery): Pc {
    OnReading(req, if net.Delivered? then Ok(Parse(Read(s, now, k))) else Err(Unreachable))
  }

  function LockStep(k: string, req: Request, s: Store, now: int, net: Delivery): (Store, Pc) {
    (Locked(s, now, k, PendingRecord(req.method_, req.path), net),
     OnLock(now, if net.Delivered? then Ok(!Live(s, now, k)) else Err(Unreachable)))
  }

  function StoreStep(k: string, req: Request, o: Outcome, s: Store, now: int, net: Delivery): (Store, Pc) {
    (Stored(s, now, k, Snapshot(req, o), net), Answered(o))
  }

  /** What other clients leave on the server while this request waits, and how long
      the wait is. */
  datatype Wait = Wait(data: Store, elapsed: nat)

  /** Everything outside the interceptor that one passage depends on: the network at
      each store command, the two waits, and the handler's outcome. */
  datatype Surroundings = Surroundings(
    onRead: Delivery,
    beforeLock: Wait,
    onLock: Delivery,
    outcome: Outcome,
    beforeStore: Wait,
    onStore: Delivery)

  /** One passage from end to end: the store it leaves, and where it ends. */
  function Passage(a: Admission, s: Store, now: int, w: Surroundings): (Store, Pc) {
    match a
    case Bypass => (s, Answered(w.outcome))
    case Malformed => (s, Refused(BadKey))
    case Guarded(req) =>
      var read := ReadStep(KeyOf(req), req, s, now, w.onRead);
      if !read.Missed? then (s, read)
      else
        var now' := now + w.beforeLock.elapsed;
        var (s', pc) := LockStep(KeyOf(req), req, w.beforeLock.data, now', w.onLock);
        if !pc.Running? then (s', pc)
        else StoreStep(KeyOf(req), req, w.outcome, w.beforeStore.data, now' + w.beforeStore.elapsed, w.onStore)
  }

  class IdempotencyKeyInterceptor {
    const service: IdempotencyService

    constructor (service: IdempotencyService)
      ensures this.service == service
    {
      this.service := service;
    }

    /** Runs one request from end to end on the shared server, whatever other clients
        do to it meanwhile.  Returns where it ends and whether its handler ran; the
        response holds the failure if there is one, and `body` the success. */
    method Intercept(http: HttpRequest, w: Surroundings, res: Response)
        returns (ran: bool, pc: Pc, body: Js)
      requires res.status == 200 && res.headers == map[] && res.body == None
      modifies service.redis, res
      ensures (service.redis.data, pc)
           == Passage(Admit(http), old(service.redis.data), old(service.redis.clock), w)
      ensures ReplyOf(pc) == Some(if res.body.Some? then Failed(res.body.value) else Sent(body))
      ensures ran <==> pc.Answered?
      ensures res.status == 200
      ensures res.headers == if pc == Refused(Busy) then map["Retry-After" := "5"] else map[]
      ensures (http.skip || http.method_ == "GET" || http.method_ == "HEAD" || http.method_ == "OPTIONS"
               || http.method_ == "TRACE") ==> ran && service.redis.data == old(service.redis.data)
      ensures (http.idempotencyKey.One? && http.authenticatedUser.One? && Keys.IsUuidV4(http.idempotencyKey.value)
               && !http.skip && http.method_ != "GET" && http.method_ != "HEAD" && http.method_ != "OPTIONS"
               && http.method_ != "TRACE"
               && Live(old(service.redis.data), old(service.redis.clock),
                       "idempotency:" + http.authenticatedUser.value + ":" + http.idempotencyKey.value))
              ==> !ran && service.redis.data == old(service.redis.data)
    {
      ran, body := false, Undefined;
      var key := First(http.idempotencyKey);
      if http.skip || IsSafe(http.method_) || key.None? {
        ran, pc := true, Answered(w.outcome);
        body := Deliver(w.outcome, res);
        return;
      }
      if !Keys.IsUuidV4(key.value) {
        pc := Refused(BadKey);
        Catch(RefusalError(BadKey), res);
        return;
      }
      var user := First(http.authenticatedUser);
      if user.None? {
        ran, pc := true, Answered(w.outcome);
        body := Deliver(w.outcome, res);
        return;
      }
      ran, pc, body := Protect(Request(user.value, key.value, http.method_, http.path), w, res);
    }

    /** The part of the passage that talks to the store. */
    method Protect(req: Request, w: Surroundings, res: Response)
        returns (ran: bool, pc: Pc, body: Js)
      requires res.status == 200 && res.headers == map[] && res.body == None
      modifies service.redis, res
      ensures (service.redis.data, pc)
           == Passage(Guarded(req), old(service.redis.data), old(service.redis.clock), w)
      ensures ReplyOf(pc) == Some(if res.body.Some? then Failed(res.body.value) else Sent(body))
      ensures ran <==> pc.Answered?
      ensures res.status == 200
      ensures res.headers == if pc == Refused(Busy) then map["Retry-After" := "5"] else map[]
    {
      ran, body := false, Undefined;
      var reading := service.Get(req.user, req.key, w.onRead);
      if reading.Err? {
        pc := Refused(StoreDown);
        Catch(RefusalError(StoreDown), res);
        return;
      }
      if !reading.value.Missing? {
        pc, body := Answer(req, reading.value, res);
        return;
      }
      service.redis.data, service.redis.clock := w.beforeLock.data, service.redis.clock + w.beforeLock.elapsed;
      var acquired := service.SetPending(req.user, req.key, req.method_, req.path, w.onLock);
      if acquired.Err? {
        pc := Refused(StoreDown);
        Catch(RefusalError(StoreDown), res);
        return;
      }
      if !acquired.value {
        pc := Refused(Busy);
        res.SetHeader("Retry-After", "5");
        Catch(RefusalError(Busy), res);
        return;
      }
      service.redis.data, service.redis.clock := w.beforeStore.data, service.redis.clock + w.beforeStore.elapsed;
      ran, pc := true, Answered(w.outcome);
      Keep(req, w.outcome, w.onStore);
      body := Deliver(w.outcome, res);
    }

    /** Stores an outcome; a store that does not answer is ignored. */
    method Keep(req: Request, o: Outcome, net: Delivery)
      modifies service.redis`data
      ensures service.redis.data
           == Stored(old(service.redis.data), service.redis.clock, KeyOf(req), Snapshot(req, o), net)
    {
      match o {
        case Succeeded(statusCode, result) =>
          var _ := service.SetCompleted(req.user, req.key, req.method_, req.path, statusCode, result, net);
        case Raised(err) =>
          var f := ToFailure(err);
          var _ := service.SetCompletedFailure(req.user, req.key, req.method_, req.path, f.code, f.message, net);
      }
    }

    /** Sends a handler's outcome: the body, or the error through the filters. */
    method Deliver(o: Outcome, res: Response) returns (body: Js)
      requires res.status == 200 && res.body == None
      modifies res`status, res`body
      ensures res.status == 200
      ensures LiveReply(o) == if res.body.Some? then Failed(res.body.value) else Sent(body)
    {
      match o {
        case Succeeded(_, result) =>
          body := Wire(result);
        case Raised(err) =>
          body := Undefined;
          Catch(err, res);
      }
    }

    /** Answers a request whose key holds something. */
    method Answer(req: Request, reading: Idempotency.Reading, res: Response) returns (pc: Pc, body: Js)
      requires !reading.Missing?
      requires res.status == 200 && res.headers == map[] && res.body == None
      modifies res
      ensures pc == OnReading(req, Ok(reading))
      ensures ReplyOf(pc) == Some(if res.body.Some? then Failed(res.body.value) else Sent(body))
      ensures res.status == 200
      ensures res.headers == if pc == Refused(Busy) then map["Retry-After" := "5"] else map[]
    {
      body := Undefined;
      if reading.Foreign? || reading.record.method_ != req.method_ || reading.record.path != req.path {
        pc := Refused(Conflict);
        Catch(RefusalError(Conflict), res);
        return;
      }
      var record := reading.record;
      if record.state.Pending? {
        pc := Refused(Busy);
        res.SetHeader("Retry-After", "5");
        Catch(RefusalError(Busy), res);
      } else if record.failed {
        pc := Replayed(record);
        Catch(ReplayError(Failure(
          if record.errorCode.Some? then record.errorCode.value else 0,
          if record.message.Some? then record.message.value else "")), res);
      } else {
        pc, body := Replayed(record), Wire(record.responseBody);
      }
    }
  }
}
