/** What the protocol promises its clients, over every run and with no assumption on
    timing: how often a handler can run, where a replay comes from, and that neither
    a request nor a lock lasts forever. */
module IdempotencyGuarantees {
  import opened Prelude
  import opened RedisStore
  import opened Idempotency
  import opened Interceptor
  import opened SharedSystem
  import opened IdempotencySafety
  import Keys

  /** Locks taken on `k` at a time from `a` to `b`. */
  function LocksWithin(locks: seq<Lock>, k: string, a: int, b: int): nat {
    if locks == [] then 0
    else
      var l := locks[|locks| - 1];
      LocksWithin(locks[..|locks| - 1], k, a, b) + if l.key == k && a <= l.time <= b then 1 else 0
  }

  /** The n-th lock in a span comes at least n - 1 lifetimes after the span begins. */
  lemma {:induction false} LocksTakeTime(locks: seq<Lock>, k: string, a: int, b: int) returns (last: nat)
    requires Spaced(locks) && LocksWithin(locks, k, a, b) > 0
    ensures last < |locks| && locks[last].key == k && a <= locks[last].time <= b
    ensures a + (LocksWithin(locks, k, a, b) - 1) * TTL <= locks[last].time
  {
    var n := |locks| - 1;
    var before := locks[..n];
    var l := locks[n];
    if l.key == k && a <= l.time <= b {
      last := n;
      if LocksWithin(before, k, a, b) > 0 {
        var i := LocksTakeTime(before, k, a, b);
        assert before[i] == locks[i];
        assert locks[i].time + TTL <= locks[n].time;
      }
    } else {
      last := LocksTakeTime(before, k, a, b);
      assert before[last] == locks[last];
    }
  }

  lemma SpanHoldsFewLocks(locks: seq<Lock>, k: string, a: int, b: int)
    requires Spaced(locks) && a <= b
    ensures LocksWithin(locks, k, a, b) <= (b - a) / TTL + 1
  {
    if LocksWithin(locks, k, a, b) > 0 {
      var last := LocksTakeTime(locks, k, a, b);
    }
  }

  /** Requests whose handler ran under a lock on `k` taken from `a` to `b`. */
  ghost function Executors(s: State, locks: seq<Lock>, k: string, a: int, b: int): set<nat> {
    set l | l in locks && l.key == k && a <= l.time <= b && l.id in s.outcomes :: l.id
  }

  lemma {:induction false} ExecutorsAreLocks(s: State, locks: seq<Lock>, k: string, a: int, b: int)
    ensures |Executors(s, locks, k, a, b)| <= LocksWithin(locks, k, a, b)
  {
    if locks == [] {
      assert Executors(s, locks, k, a, b) == {};
    } else {
      var n := |locks| - 1;
      var before, l := locks[..n], locks[n];
      ExecutorsAreLocks(s, before, k, a, b);
      assert locks == before + [l];
      var here := if l.key == k && a <= l.time <= b && l.id in s.outcomes then {l.id} else {};
      assert Executors(s, locks, k, a, b) == Executors(s, before, k, a, b) + here;
    }
  }

  /** At most one lock, and at most one handler run under it, per lifetime: any span of
      length L sees at most L / TTL + 1 of them, in every run, with crashes, failed
      writes and late completions. */
  lemma AtMostOncePerLifetime(es: seq<Event>, k: string, a: int, b: int)
    requires a <= b
    ensures LocksWithin(Run(es).locks, k, a, b) <= (b - a) / TTL + 1
    ensures |Executors(Run(es), Run(es).locks, k, a, b)| <= (b - a) / TTL + 1
  {
    RunKeepsLocks(es);
    SpanHoldsFewLocks(Run(es).locks, k, a, b);
    ExecutorsAreLocks(Run(es), Run(es).locks, k, a, b);
  }

  /** Any two locks on one key, in any run, are a lifetime apart. */
  lemma LocksAreSpaced(es: seq<Event>, i: nat, j: nat)
    requires i < j < |Run(es).locks| && Run(es).locks[i].key == Run(es).locks[j].key
    ensures Run(es).locks[i].time + TTL <= Run(es).locks[j].time
  {
    RunKeepsLocks(es);
  }

  /** A handler that ran for a protected request ran under that request's own lock, and
      no request ever takes two. */
  lemma HandlersRunUnderLocks(es: seq<Event>, id: nat)
    requires id in Run(es).outcomes && id in Run(es).flights && Run(es).flights[id].admission.Guarded?
    ensures exists t :: Lock(id, KeyOf(Run(es).flights[id].admission.req), t) in Run(es).locks
    ensures forall l, l' | l in Run(es).locks && l' in Run(es).locks && l.id == id == l'.id :: l == l'
  {
    RunKeepsLocks(es);
    RunKeepsFlight(es, id);
    RunKeepsKeys(es, id);
  }

  /** Provenance.  A request about to be answered from a record gets the outcome of a
      handler run that is already over, of another request by the same user with the
      same key, method and path; and the reply is that run's own reply, up to the
      message of an error left to the catch-all filter. */
  lemma ReplaysAreEarned(es: seq<Event>, id: nat, net: Delivery)
    requires At(Run(es), id, Pc.Reading)
    requires Run(es + [DoRead(id, net)]).flights[id].pc.Replayed?
    ensures var s, s' := Run(es), Run(es + [DoRead(id, net)]);
            exists src ::
              && src in s.outcomes && src in s.flights && src != id
              && s.flights[src].admission == s.flights[id].admission
              && s'.flights[id].pc == Replayed(Snapshot(s.flights[id].admission.req, s.outcomes[src]))
              && (!(s.outcomes[src].Raised? && s.outcomes[src].err.OtherError?) ==>
                    ReplyOf(s'.flights[id].pc) == Some(LiveReply(s.outcomes[src])))
  {
    RunSnoc(es, DoRead(id, net));
    RunReadsSoundly(es, id, net);
    var s := Run(es);
    var src := s.authors[s.flights[id].key];
    ReplayMatchesLive(s.flights[id].admission.req, s.outcomes[src]);
  }

  /** A request that ran its handler answers with that outcome, whatever happened to
      the write that stores it. */
  lemma ExecutorsAreTransparent(es: seq<Event>, id: nat)
    requires id in Run(es).flights && Run(es).flights[id].pc.Answered?
    ensures id in Run(es).outcomes
    ensures ReplyOf(Run(es).flights[id].pc) == Some(LiveReply(Run(es).outcomes[id]))
  {
    RunKeepsFlight(es, id);
  }

  /** A completed record is marked failed exactly when the handler it came from raised. */
  lemma SuccessIsNeverStoredAsFailure(es: seq<Event>, k: string)
    requires k in Run(es).data && Keys.IsIdempotencyKey(k)
    ensures Run(es).data[k].value.Record? && k in Run(es).authors
    ensures var r := Run(es).data[k].value.record;
            r.state.Completed? ==>
              && Run(es).authors[k] in Run(es).outcomes
              && (r.failed <==> Run(es).outcomes[Run(es).authors[k]].Raised?)
  {
    RunKeepsRecord(es, k);
    var s := Run(es);
    var a := s.authors[k];
    if s.data[k].value.record.state.Completed? {
      SnapshotKeepsRoute(s.flights[a].admission.req, s.outcomes[a]);
    }
  }

  /** No immortal lock: a key nobody writes for a lifetime is free at the end of it. */
  lemma LocksExpire(es: seq<Event>, k: string)
    requires Keys.IsIdempotencyKey(k)
    ensures !Live(Run(es).data, Run(es).now + TTL, k)
  {
    if k in Run(es).data {
      RunKeepsRecord(es, k);
    }
  }

  /** Steps a request has left. */
  function Remaining(pc: Pc): nat {
    match pc
    case Reading => 4
    case Missed => 3
    case Running(_) => 2
    case Storing(_, _) => 1
    case Bypassing => 1
    case _ => 0
  }

  predicate IsStepOf(e: Event, id: nat) {
    (e.DoRead? || e.DoLock? || e.Finish? || e.DoStore? || e.Crash?) && e.id == id
  }

  /** Steps of request `id` that took effect during a run. */
  function StepsTaken(es: seq<Event>, id: nat): nat {
    if es == [] then 0
    else
      var before, e := es[..|es| - 1], es[|es| - 1];
      StepsTaken(before, id) + if IsStepOf(e, id) && Enabled(Run(before), e) then 1 else 0
  }

  lemma OwnStepUsesUpRemaining(s: State, e: Event, id: nat)
    requires id in s.flights && IsStepOf(e, id) && Enabled(s, e)
    ensures id in Next(s, e).flights
    ensures Remaining(Next(s, e).flights[id].pc) < Remaining(s.flights[id].pc)
  {
  }

  lemma OtherStepsLeaveIt(s: State, e: Event, id: nat)
    requires id in s.flights && !(IsStepOf(e, id) && Enabled(s, e))
    ensures id in Next(s, e).flights && Next(s, e).flights[id] == s.flights[id]
  {
    if IsForeign(e) {
      ForeignFrame(s, e, "");
    }
  }

  /** Every request is over after at most four steps, having sent at most three
      commands and run its handler at most once. */
  lemma {:induction false} WorkIsBounded(es: seq<Event>, id: nat)
    ensures StepsTaken(es, id) <= 4
    ensures id in Run(es).flights ==>
      && StepsTaken(es, id) + Remaining(Run(es).flights[id].pc) <= 4
      && Run(es).flights[id].commands <= 3 && Run(es).flights[id].runs <= 1
    ensures id !in Run(es).flights ==> StepsTaken(es, id) == 0
    decreases |es|
  {
    if es != [] {
      var before, e := es[..|es| - 1], es[|es| - 1];
      WorkIsBounded(before, id);
      if id in Run(before).flights {
        if IsStepOf(e, id) && Enabled(Run(before), e) {
          OwnStepUsesUpRemaining(Run(before), e, id);
        } else {
          OtherStepsLeaveIt(Run(before), e, id);
        }
      }
      if id in Run(es).flights {
        RunKeepsFlight(es, id);
      }
    }
  }

  // ---- Crashes ----

  /** A crash ends a request where it stands and touches nothing else. */
  lemma CrashesEndRequests(s: State, id: nat)
    requires id in s.flights && !IsFinal(s.flights[id].pc)
    ensures var f := s.flights[id];
            var crashed := Flight(f.admission, f.key, Crashed, f.commands, f.runs);
            Next(s, Crash(id)) == s.(flights := s.flights[id := crashed])
  {
  }

  /** A request that is over, by a crash or by an answer, stays as it is for good. */
  lemma {:induction false} FinishedRequestsStay(es: seq<Event>, fs: seq<Event>, id: nat)
    requires id in Run(es).flights && IsFinal(Run(es).flights[id].pc)
    ensures id in Run(es + fs).flights && Run(es + fs).flights[id] == Run(es).flights[id]
    decreases |fs|
  {
    if fs == [] {
      assert es + fs == es;
    } else {
      var before, e := fs[..|fs| - 1], fs[|fs| - 1];
      assert es + fs == (es + before) + [e];
      RunSnoc(es + before, e);
      FinishedRequestsStay(es, before, id);
      OtherStepsLeaveIt(Run(es + before), e, id);
    }
  }

  /** A lock holds its key for its whole lifetime, whatever becomes of its request. */
  lemma LocksHold(es: seq<Event>, l: Lock)
    requires l in Run(es).locks && Run(es).now < l.time + TTL
    ensures Live(Run(es).data, Run(es).now, l.key)
  {
    RunKeepsLocks(es);
    assert LockOk(Run(es), l);
  }
}
