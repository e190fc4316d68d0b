/** Why the refinement needs timely outcomes: a handler that outlives its lock writes
    over the outcome of the request that took the key after it. */
module LateOutcome {
  import opened Prelude
  import opened RedisStore
  import opened Idempotency
  import opened Interceptor
  import opened SharedSystem
  import MemoRefinement

  /** Request 1 takes the lock and stalls. */
  function Stalled(http: HttpRequest): seq<Event> {
    [Arrive(1, http), DoRead(1, Delivered), DoLock(1, Delivered), Tick(TTL)]
  }

  /** Request 2, the same call a day later, runs to its end. */
  function Second(http: HttpRequest, b: Outcome): seq<Event> {
    [Arrive(2, http), DoRead(2, Delivered), DoLock(2, Delivered), Finish(2, b), DoStore(2, Delivered)]
  }

  /** Request 1 wakes up and stores its outcome; then request 3 asks. */
  function Late(http: HttpRequest, a: Outcome): seq<Event> {
    [Finish(1, a), DoStore(1, Delivered), Arrive(3, http), DoRead(3, Delivered)]
  }

  /** The end of a run that goes on from a state. */
  function From(s: State, es: seq<Event>): State
    decreases |es|
  {
    if es == [] then s else From(Next(s, es[0]), es[1..])
  }

  lemma {:induction false} RunGoesOn(es: seq<Event>, fs: seq<Event>)
    ensures Run(es + fs) == From(Run(es), fs)
    decreases |fs|
  {
    if fs == [] {
      assert es + fs == es;
    } else {
      assert es + fs == (es + [fs[0]]) + fs[1..];
      RunSnoc(es, fs[0]);
      RunGoesOn(es + [fs[0]], fs[1..]);
    }
  }

  /** The store after request 1 stalls for a day. */
  function AfterStall(a: Admission, k: string): State
    requires a.Guarded?
  {
    State(map[k := Entry(Record(PendingRecord(a.req.method_, a.req.path)), Some(TTL))], TTL,
          map[1 := Flight(a, k, Running(0), 2, 0)], [Lock(1, k, 0)], map[], map[k := 1], map[])
  }

  /** The store after request 2 has stored and answered `b`. */
  function AfterSecond(a: Admission, k: string, b: Outcome): State
    requires a.Guarded?
  {
    State(map[k := Entry(Record(Snapshot(a.req, b)), Some(TTL + TTL))], TTL,
          map[1 := Flight(a, k, Running(0), 2, 0), 2 := Flight(a, k, Answered(b), 3, 1)],
          [Lock(1, k, 0), Lock(2, k, TTL)], map[2 := b], map[k := 2], map[])
  }

  lemma OneStep(s: State, es: seq<Event>)
    requires es != []
    ensures From(s, es) == From(Next(s, es[0]), es[1..])
  {
  }

  lemma FourSteps(s: State, es: seq<Event>)
    requires |es| == 4
    ensures From(s, es) == Next(Next(Next(Next(s, es[0]), es[1]), es[2]), es[3])
  {
    OneStep(s, es);
    OneStep(Next(s, es[0]), es[1..]);
    OneStep(Next(Next(s, es[0]), es[1]), es[1..][1..]);
  }

  lemma StallRuns(http: HttpRequest)
    requires Admit(http).Guarded?
    ensures From(START, Stalled(http)) == AfterStall(Admit(http), StoreKey(Admit(http)))
  {
    var a, k := Admit(http), StoreKey(Admit(http));
    var s1 := Next(START, Arrive(1, http));
    assert s1 == START.(flights := map[1 := Flight(a, k, Pc.Reading, 0, 0)]);
    var s2 := Next(s1, DoRead(1, Delivered));
    assert s2 == START.(flights := map[1 := Flight(a, k, Missed, 1, 0)]);
    var s3 := Next(s2, DoLock(1, Delivered));
    assert s3 == AfterStall(a, k).(now := 0);
    FourSteps(START, Stalled(http));
  }

  /** The store while request 2 runs its handler. */
  function DuringSecond(a: Admission, k: string): State
    requires a.Guarded?
  {
    State(map[k := Entry(Record(PendingRecord(a.req.method_, a.req.path)), Some(TTL + TTL))], TTL,
          map[1 := Flight(a, k, Running(0), 2, 0), 2 := Flight(a, k, Running(TTL), 2, 0)],
          [Lock(1, k, 0), Lock(2, k, TTL)], map[], map[k := 2], map[])
  }

  lemma SecondLocks(http: HttpRequest)
    requires Admit(http).Guarded?
    ensures var a, k := Admit(http), StoreKey(Admit(http));
            Next(Next(Next(AfterStall(a, k), Arrive(2, http)), DoRead(2, Delivered)), DoLock(2, Delivered))
            == DuringSecond(a, k)
  {
    var a, k := Admit(http), StoreKey(Admit(http));
    var s0 := AfterStall(a, k);
    var s1 := Next(s0, Arrive(2, http));
    assert s1 == s0.(flights := s0.flights[2 := Flight(a, k, Pc.Reading, 0, 0)]);
    var s2 := Next(s1, DoRead(2, Delivered));
    assert s2 == s0.(flights := s0.flights[2 := Flight(a, k, Missed, 1, 0)]);
    assert Next(s2, DoLock(2, Delivered)) == LockNext(s2, 2, Delivered);
  }

  lemma SecondFinishes(a: Admission, k: string, b: Outcome)
    requires a.Guarded?
    ensures Next(Next(DuringSecond(a, k), Finish(2, b)), DoStore(2, Delivered)) == AfterSecond(a, k, b)
  {
    var s := Next(DuringSecond(a, k), Finish(2, b));
    assert AtStoring(s, 2) && s.flights[2].pc.outcome == b;
    assert Next(s, DoStore(2, Delivered)) == StoreNext(s, 2, Delivered);
  }

  lemma SecondRuns(http: HttpRequest, b: Outcome)
    requires Admit(http).Guarded?
    ensures From(AfterStall(Admit(http), StoreKey(Admit(http))), Second(http, b))
         == AfterSecond(Admit(http), StoreKey(Admit(http)), b)
  {
    var s0 := AfterStall(Admit(http), StoreKey(Admit(http)));
    SecondLocks(http);
    SecondFinishes(Admit(http), StoreKey(Admit(http)), b);
    OneStep(s0, Second(http, b));
    FourSteps(Next(s0, Arrive(2, http)), Second(http, b)[1..]);
  }

  /** The store after request 1's outcome `a` has landed on top of `b`. */
  function AfterLate(adm: Admission, k: string, a: Outcome, b: Outcome): State
    requires adm.Guarded?
  {
    State(map[k := Entry(Record(Snapshot(adm.req, a)), Some(TTL + TTL))], TTL,
          map[1 := Flight(adm, k, Answered(a), 3, 1), 2 := Flight(adm, k, Answered(b), 3, 1)],
          [Lock(1, k, 0), Lock(2, k, TTL)], map[1 := a, 2 := b], map[k := 1], map[])
  }

  /** The store once request 1's handler is over. */
  function BeforeLate(adm: Admission, k: string, a: Outcome, b: Outcome): State
    requires adm.Guarded?
  {
    var s := AfterSecond(adm, k, b);
    s.(flights := s.flights[1 := Flight(adm, k, Storing(0, a), 2, 1)], outcomes := s.outcomes[1 := a])
  }

  lemma LateFinishes(adm: Admission, k: string, a: Outcome, b: Outcome)
    requires adm.Guarded?
    ensures Next(AfterSecond(adm, k, b), Finish(1, a)) == BeforeLate(adm, k, a, b)
  {
    var s := AfterSecond(adm, k, b);
    assert s.flights[1] == Flight(adm, k, Running(0), 2, 0);
    assert Next(s, Finish(1, a)) == FinishNext(s, 1, a);
  }

  lemma StoringShape(s: State, f: Flight, o: Outcome)
    requires 1 in s.flights && s.flights[1] == f && f.admission.Guarded? && f.pc == Storing(0, o)
    ensures Next(s, DoStore(1, Delivered))
         == s.(data := Write(s.data, s.now, f.key, Record(Snapshot(f.admission.req, o)), TTL),
               flights := s.flights[1 := Flight(f.admission, f.key, Answered(o), f.commands + 1, f.runs)],
               authors := s.authors[f.key := 1])
  {
    assert Next(s, DoStore(1, Delivered)) == StoreNext(s, 1, Delivered);
  }

  lemma LateStores(adm: Admission, k: string, a: Outcome, b: Outcome)
    requires adm.Guarded?
    ensures Next(BeforeLate(adm, k, a, b), DoStore(1, Delivered)) == AfterLate(adm, k, a, b)
  {
    var s, f := BeforeLate(adm, k, a, b), Flight(adm, k, Storing(0, a), 2, 1);
    StoringShape(s, f, a);
    assert s.flights[1 := Flight(adm, k, Answered(a), 3, 1)] == AfterLate(adm, k, a, b).flights;
    assert s.authors[k := 1] == map[k := 1];
  }

  /** Request 3 is answered with the outcome of request 1, although the latest lock was
      request 2's and request 2's client was told `b`. */
  lemma ThirdReads(http: HttpRequest, a: Outcome, b: Outcome)
    requires Admit(http).Guarded?
    ensures var s0 := AfterLate(Admit(http), StoreKey(Admit(http)), a, b);
            var s := Next(Next(s0, Arrive(3, http)), DoRead(3, Delivered));
            && s.locks == s0.locks
            && 2 in s.flights && s.flights[2] == s0.flights[2]
            && 3 in s.flights && s.flights[3].pc == Replayed(Snapshot(Admit(http).req, a))
  {
    var adm, k := Admit(http), StoreKey(Admit(http));
    var s := Next(AfterLate(adm, k, a, b), Arrive(3, http));
    assert s.flights[3] == Flight(adm, k, Pc.Reading, 0, 0);
    assert Next(s, DoRead(3, Delivered)) == ReadNext(s, 3, Delivered);
  }

  /** For any protected call and any two outcomes there is a run in which the latest
      holder's client is told `b` and the next caller is told `a`. */
  lemma LateOutcomeWins(http: HttpRequest, a: Outcome, b: Outcome)
    requires Admit(http).Guarded?
    ensures var s := Run(Stalled(http) + Second(http, b) + Late(http, a));
            && MemoRefinement.LastOwner(s.locks, StoreKey(Admit(http))) == Some(2)
            && 2 in s.flights && s.flights[2].pc == Answered(b)
            && 3 in s.flights && s.flights[3].pc == Replayed(Snapshot(Admit(http).req, a))
  {
    assert [] + Stalled(http) == Stalled(http);
    RunGoesOn([], Stalled(http));
    RunGoesOn(Stalled(http), Second(http, b));
    RunGoesOn(Stalled(http) + Second(http, b), Late(http, a));
    StallRuns(http);
    SecondRuns(http, b);
    FourSteps(AfterSecond(Admit(http), StoreKey(Admit(http)), b), Late(http, a));
    LateFinishes(Admit(http), StoreKey(Admit(http)), a, b);
    LateStores(Admit(http), StoreKey(Admit(http)), a, b);
    ThirdReads(http, a, b);
  }
}
