/** What becomes of HTTP requests and their retries, told from the requests' own fields. */
module Retries {
  import opened Prelude
  import opened Json
  import opened Failures
  import opened RedisStore
  import opened Idempotency
  import opened Interceptor
  import Keys

  predicate Carries(h: Header, v: string) {
    h == One(v) || (h.Many? && |h.values| > 0 && h.values[0] == v)
  }

  predicate IsAbsent(h: Header) {
    h == NoHeader || h == Many([])
  }

  /** A write by a known user under a well-formed key. */
  predicate IsProtected(http: HttpRequest, user: string, key: string) {
    && !http.skip
    && http.method_ != "GET" && http.method_ != "HEAD" && http.method_ != "OPTIONS" && http.method_ != "TRACE"
    && Carries(http.idempotencyKey, key) && Keys.IsUuidV4(key)
    && Carries(http.authenticatedUser, user)
  }

  /** Marked routes, reads, requests without a key, and strangers with a good key: the
      handler runs and the store is not touched. */
  lemma UnprotectedRequestsBypass(http: HttpRequest, key: string, s: Store, now: int, w: Surroundings)
    requires
      || http.skip
      || http.method_ == "GET" || http.method_ == "HEAD" || http.method_ == "OPTIONS" || http.method_ == "TRACE"
      || IsAbsent(http.idempotencyKey)
      || (Carries(http.idempotencyKey, key) && Keys.IsUuidV4(key) && IsAbsent(http.authenticatedUser))
    ensures Passage(Admit(http), s, now, w) == (s, Answered(w.outcome))
  {
  }

  /** A key of another form is refused as a bad request, whoever sends it. */
  lemma MalformedKeysAreRefused(http: HttpRequest, key: string, s: Store, now: int, w: Surroundings)
    requires !http.skip
    requires http.method_ != "GET" && http.method_ != "HEAD" && http.method_ != "OPTIONS" && http.method_ != "TRACE"
    requires Carries(http.idempotencyKey, key) && !Keys.IsUuidV4(key)
    ensures Passage(Admit(http), s, now, w).0 == s
    ensures ReplyOf(Passage(Admit(http), s, now, w).1)
         == Some(Failed(Failure(90001, "Idempotency-Key must be a valid UUID v4.")))
  {
  }

  /** The store key of a protected request. */
  function StoreKey(user: string, key: string): string {
    "idempotency:" + user + ":" + key
  }

  lemma ProtectedIsGuarded(http: HttpRequest, user: string, key: string)
    requires IsProtected(http, user, key)
    ensures Admit(http) == Guarded(Request(user, key, http.method_, http.path))
    ensures KeyOf(Admit(http).req) == StoreKey(user, key)
  {
  }

  /** When the handler of a request that ran is done and its outcome is written. */
  function Finished(now: int, w: Surroundings): int {
    now + w.beforeLock.elapsed + w.beforeStore.elapsed
  }

  /** The network delivers everything. */
  predicate IsDelivered(w: Surroundings) {
    w.onRead.Delivered? && w.onLock.Delivered? && w.onStore.Delivered?
  }

  /** A delivered request that ran leaves its outcome for a day. */
  lemma RunIsRemembered(http: HttpRequest, user: string, key: string, s: Store, now: int, w: Surroundings)
    requires IsProtected(http, user, key) && IsDelivered(w)
    requires Passage(Admit(http), s, now, w).1.Answered?
    ensures var (s', pc) := Passage(Admit(http), s, now, w);
            var k := StoreKey(user, key);
            && pc == Answered(w.outcome) && k in s'
            && s'[k] == Entry(Record(Snapshot(Request(user, key, http.method_, http.path), w.outcome)),
                              Some(Finished(now, w) + 86_400_000))
  {
    ProtectedIsGuarded(http, user, key);
  }

  /** The same request again, on a store that still has what the first one left: for a day
      its handler does not run and the client is told what the first was told, up to the
      message of an unexpected error; from then on it runs again. */
  lemma RetryIsReplayed(http: HttpRequest, user: string, key: string, s: Store, now: int, w: Surroundings,
                        again: Store, later: int, w': Surroundings)
    requires IsProtected(http, user, key) && IsDelivered(w) && IsDelivered(w')
    requires Passage(Admit(http), s, now, w).1.Answered?
    requires var k, s' := StoreKey(user, key), Passage(Admit(http), s, now, w).0;
             k in again && k in s' && again[k] == s'[k]
             && k in w'.beforeLock.data && w'.beforeLock.data[k] == s'[k]
    ensures var first, retry := Passage(Admit(http), s, now, w), Passage(Admit(http), again, later, w');
            && (retry.1 == Answered(w'.outcome) <==> Finished(now, w) + 86_400_000 <= later)
            && (later < Finished(now, w) + 86_400_000 ==>
                  && retry.0 == again && retry.1.Replayed?
                  && (!(w.outcome.Raised? && w.outcome.err.OtherError?) ==> ReplyOf(retry.1) == ReplyOf(first.1)))
  {
    RunIsRemembered(http, user, key, s, now, w);
    ProtectedIsGuarded(http, user, key);
    ReplayMatchesLive(Admit(http).req, w.outcome);
  }

  /** Another request under the same key within the day: refused as a bad request. */
  lemma ReuseIsRefused(http: HttpRequest, other: HttpRequest, user: string, key: string, s: Store, now: int,
                       w: Surroundings, again: Store, later: int, w': Surroundings)
    requires IsProtected(http, user, key) && IsProtected(other, user, key) && IsDelivered(w) && IsDelivered(w')
    requires other.method_ != http.method_ || other.path != http.path
    requires Passage(Admit(http), s, now, w).1.Answered? && later < Finished(now, w) + 86_400_000
    requires var k, s' := StoreKey(user, key), Passage(Admit(http), s, now, w).0;
             k in again && k in s' && again[k] == s'[k]
    ensures var (s', pc) := Passage(Admit(other), again, later, w');
            s' == again
            && ReplyOf(pc) == Some(Failed(Failure(90001, "Idempotency-Key was already used for a different request.")))
  {
    RunIsRemembered(http, user, key, s, now, w);
    ProtectedIsGuarded(http, user, key);
    ProtectedIsGuarded(other, user, key);
  }

  /** While the first still runs, for a day from its lock: the same request is told that it
      is in progress, and does not run. */
  lemma RetryInProgress(http: HttpRequest, user: string, key: string, now: int, again: Store, later: int,
                        w: Surroundings)
    requires IsProtected(http, user, key) && IsDelivered(w) && later < now + 86_400_000
    requires var k := StoreKey(user, key);
             var locked := LockStep(k, Request(user, key, http.method_, http.path), map[], now, Delivered);
             locked.1 == Running(now) && k in again && k in locked.0 && again[k] == locked.0[k]
    ensures var (s', pc) := Passage(Admit(http), again, later, w);
            s' == again && pc == Refused(Busy)
            && ReplyOf(pc).Some? && ReplyOf(pc).value.Failed? && ReplyOf(pc).value.failure.code == 90009
  {
    ProtectedIsGuarded(http, user, key);
  }

  /** A protected request whose key is free runs, and its client is told its outcome; what
      is plain JSON arrives as the handler returned it. */
  lemma FreeKeyRuns(http: HttpRequest, user: string, key: string, s: Store, now: int, w: Surroundings)
    requires IsProtected(http, user, key) && IsDelivered(w)
    requires !Live(s, now, StoreKey(user, key))
    requires !Live(w.beforeLock.data, now + w.beforeLock.elapsed, StoreKey(user, key))
    ensures var pc := Passage(Admit(http), s, now, w).1;
            && pc == Answered(w.outcome)
            && (w.outcome.Succeeded? && IsPlain(w.outcome.body) ==> ReplyOf(pc) == Some(Sent(w.outcome.body)))
            && (w.outcome.Raised? ==> ReplyOf(pc) == Some(Failed(Render(w.outcome.err))))
  {
    ProtectedIsGuarded(http, user, key);
    if w.outcome.Succeeded? && IsPlain(w.outcome.body) { PlainSurvives(w.outcome.body); }
  }

  /** What the record of a finished request says, field by field. */
  lemma RememberedFields(req: Request, o: Outcome)
    ensures var r := Snapshot(req, o);
            && r.state == Completed && r.method_ == req.method_ && r.path == req.path
            && (o.Succeeded? ==> !r.failed && r.statusCode == Some(o.statusCode) && r.responseBody == Wire(o.body))
            && (o.Raised? ==>
                  r.failed && r.errorCode == Some(Render(o.err).code)
                  && (!o.err.OtherError? ==> r.message == Some(Render(o.err).message)))
  {
  }

  /** Whatever else may stand under the key, no such request runs over it: it is refused as
      one under a used key, and the store is left alone. */
  lemma ForeignValuesAreUsedKeys(http: HttpRequest, user: string, key: string, s: Store, now: int, w: Surroundings)
    requires IsProtected(http, user, key) && w.onRead.Delivered?
    requires Read(s, now, StoreKey(user, key)).Some? && !Read(s, now, StoreKey(user, key)).value.Record?
    ensures var (s', pc) := Passage(Admit(http), s, now, w);
            s' == s
            && ReplyOf(pc) == Some(Failed(Failure(90001, "Idempotency-Key was already used for a different request.")))
  {
    ProtectedIsGuarded(http, user, key);
  }

  // ---- When the store does not answer ----

  /** A store that does not answer the read, or the attempt to take the lock, fails the
      request as an unexpected error, and its handler does not run. */
  lemma OutagesFailTheRequest(http: HttpRequest, user: string, key: string, s: Store, now: int, w: Surroundings)
    requires IsProtected(http, user, key)
    requires !w.onRead.Delivered? || (Read(s, now, StoreKey(user, key)).None? && !w.onLock.Delivered?)
    ensures var pc := Passage(Admit(http), s, now, w).1;
            ReplyOf(pc) == Some(Failed(Failure(90006, "Internal Server Error!")))
  {
    ProtectedIsGuarded(http, user, key);
  }

  /** A lock whose answer was lost is held all the same: for a day the retry is told that the
      request is in progress.  A lock that never reached the store is not. */
  lemma LostLocks(http: HttpRequest, user: string, key: string, s: Store, now: int, w: Surroundings, k: string)
    requires IsProtected(http, user, key) && k == StoreKey(user, key) && w.onRead.Delivered?
    requires !Live(s, now, k) && !Live(w.beforeLock.data, now + w.beforeLock.elapsed, k) && !w.onLock.Delivered?
    ensures var s' := Passage(Admit(http), s, now, w).0;
            && (w.onLock.LostReply? ==>
                  k in s' && s'[k] == Entry(Record(PendingRecord(http.method_, http.path)),
                                            Some(now + w.beforeLock.elapsed + 86_400_000)))
            && (w.onLock.LostRequest? ==> s' == w.beforeLock.data)
  {
    ProtectedIsGuarded(http, user, key);
  }

  /** The client of a handler that ran is told its outcome even if storing it fails; what was
      stored although its answer was lost is remembered, what never reached the store is not. */
  lemma LostOutcomes(http: HttpRequest, user: string, key: string, s: Store, now: int, w: Surroundings)
    requires IsProtected(http, user, key) && Passage(Admit(http), s, now, w).1.Answered?
    ensures var (s', pc) := Passage(Admit(http), s, now, w);
            && ReplyOf(pc) == Some(LiveReply(w.outcome))
            && s' == if w.onStore.LostRequest? then w.beforeStore.data
                     else w.beforeStore.data[StoreKey(user, key) :=
                            Entry(Record(Snapshot(Request(user, key, http.method_, http.path), w.outcome)),
                                  Some(Finished(now, w) + 86_400_000))]
  {
    ProtectedIsGuarded(http, user, key);
  }
}
