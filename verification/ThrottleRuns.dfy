/** The rate limiter over whole runs of the shared server: how many calls of one
    tracker can pass, and how long a refusal lasts. */
module ThrottleRuns {
  import opened Prelude
  import opened RedisStore
  import opened SharedSystem
  import opened Throttler
  import IdempotencySafety
  import Interceptor
  import Keys

  datatype Rate = Rate(ttl: int, limit: int, blockDuration: int)

  /** A counted call: when, in which life of the counter, and the count it reached. */
  datatype Call = Call(time: int, life: nat, hits: int)

  /** What happened to one tracker: when each life of its counter began, and its
      counted calls in order. */
  datatype Log = Log(starts: seq<int>, calls: seq<Call>)

  predicate IsHitOn(e: Event, tracker: string) {
    e.Hit? && e.tracker == tracker
  }

  predicate SameRate(es: seq<Event>, tracker: string, rate: Rate) {
    forall e | e in es && IsHitOn(e, tracker) :: Rate(e.ttl, e.limit, e.blockDuration) == rate
  }

  /** The answer a call gets in a state. */
  function AnswerOf(s: State, e: Event): Answer
    requires e.Hit?
  {
    Script(s.data, s.now, e.tracker, e.ttl, e.limit, e.blockDuration).1
  }

  predicate BlockedOn(data: Store, now: int, block: string) {
    PttlOf(data, now, block) > 0
  }

  predicate CountsOn(data: Store, now: int, counter: string, block: string) {
    !BlockedOn(data, now, block) && Increased(data, now, counter).Some?
  }

  /** A counted call joins the log, and opens a new life when it finds no counter. */
  function Noted(log: Log, data: Store, now: int, counter: string, block: string): Log {
    if !CountsOn(data, now, counter, block) then log
    else
      var starts := if Live(data, now, counter) then log.starts else log.starts + [now];
      Log(starts, log.calls + [Call(now, if |starts| > 0 then |starts| - 1 else 0,
                                    Increased(data, now, counter).value)])
  }

  function NotedEvent(log: Log, s: State, e: Event, tracker: string): Log {
    if !IsHitOn(e, tracker) then log
    else Noted(log, s.data, s.now, Keys.CounterKey(tracker), Keys.BlockKey(tracker))
  }

  function Observe(es: seq<Event>, tracker: string): Log {
    if es == [] then Log([], [])
    else NotedEvent(Observe(es[..|es| - 1], tracker), Run(es[..|es| - 1]), es[|es| - 1], tracker)
  }

  /** The event lets a call of the tracker through at a time in [a, b). */
  predicate Admits(s: State, e: Event, tracker: string, a: int, b: int) {
    IsHitOn(e, tracker) && a <= s.now < b && AnswerOf(s, e).Answer? && !AnswerOf(s, e).blocked
  }

  function Admitted(es: seq<Event>, tracker: string, a: int, b: int): nat {
    if es == [] then 0
    else
      var before := es[..|es| - 1];
      Admitted(before, tracker, a, b) + if Admits(Run(before), es[|es| - 1], tracker, a, b) then 1 else 0
  }

  // ---- One event, seen from one tracker ----

  lemma TrackersAreApart(a: string, b: string)
    requires Keys.ColonFree(a) && Keys.ColonFree(b) && a != b
    ensures Keys.CounterKey(a) != Keys.CounterKey(b) && Keys.BlockKey(a) != Keys.BlockKey(b)
    ensures Keys.CounterKey(a) != Keys.BlockKey(b) && Keys.BlockKey(a) != Keys.CounterKey(b)
  {
    Keys.ThrottleKeysAreInjective(a, b);
    Keys.CounterMeetsBlock(a, b);
    Keys.CounterMeetsBlock(b, a);
  }

  /** Only its own calls touch a tracker's two keys. */
  lemma OthersLeaveTracker(s: State, e: Event, tracker: string)
    requires Keys.ColonFree(tracker) && !IsHitOn(e, tracker)
    requires OwnKeysOnly(s)
    ensures SameEntry(s.data, Next(s, e).data, Keys.CounterKey(tracker))
    ensures SameEntry(s.data, Next(s, e).data, Keys.BlockKey(tracker))
  {
    if !IsForeign(e) {
      IdempotencySafety.DataFootprint(s, e);
      Keys.KeySpacesAreDisjoint("", "", tracker, Keys.UserInfo(""));
    } else if e.CacheWrite? {
      Keys.KeySpacesAreDisjoint("", "", tracker, e.query);
    } else {
      OtherTrackersLeave(s, e, tracker);
    }
  }

  lemma OtherTrackersLeave(s: State, e: Event, tracker: string)
    requires Keys.ColonFree(tracker) && e.Hit? && e.tracker != tracker
    ensures SameEntry(s.data, Next(s, e).data, Keys.CounterKey(tracker))
    ensures SameEntry(s.data, Next(s, e).data, Keys.BlockKey(tracker))
  {
    if Enabled(s, e) {
      TrackersAreApart(tracker, e.tracker);
      ScriptFrame(s.data, s.now, e.tracker, e.ttl, e.limit, e.blockDuration, Keys.CounterKey(tracker));
      ScriptFrame(s.data, s.now, e.tracker, e.ttl, e.limit, e.blockDuration, Keys.BlockKey(tracker));
    }
  }

  /** Protected requests write under idempotency keys only. */
  predicate OwnKeysOnly(s: State) {
    forall id | id in s.flights && s.flights[id].admission.Guarded? :: Keys.IsIdempotencyKey(s.flights[id].key)
  }

  lemma RunOwnsItsKeys(es: seq<Event>)
    ensures OwnKeysOnly(Run(es))
  {
    IdempotencySafety.RunKeepsInv(es);
    forall req: Interceptor.Request
      ensures Keys.IsIdempotencyKey(Interceptor.KeyOf(req))
    {
      IdempotencySafety.KeyOfIsIdempotencyKey(req);
    }
  }

  // ---- The invariant of one tracker ----

  /** Lives do not overlap, each call falls inside its life, the first call of a life
      opens it, and calls are counted one by one. */
  ghost predicate LogOk(log: Log, rate: Rate) {
    && (forall i | 0 <= i < |log.starts| - 1 :: log.starts[i] + rate.ttl <= log.starts[i + 1])
    && (forall c | c in log.calls :: CallOk(log.starts, c, rate))
    && (forall i | 0 <= i < |log.calls| - 1 :: Follows(log.calls[i], log.calls[i + 1]))
    && (|log.starts| > 0 <==> |log.calls| > 0)
    && (|log.calls| > 0 ==> log.calls[0] == Call(log.starts[0], 0, 1))
    && (|log.calls| > 0 ==> Latest(log).life == |log.starts| - 1)
  }

  ghost predicate CallOk(starts: seq<int>, c: Call, rate: Rate) {
    && c.life < |starts|
    && 1 <= c.hits
    && starts[c.life] <= c.time < starts[c.life] + rate.ttl
    && (c.hits == 1 ==> c.time == starts[c.life])
  }

  predicate Follows(c: Call, d: Call) {
    c.time <= d.time
    && ((d.life == c.life && d.hits == c.hits + 1) || (d.life == c.life + 1 && d.hits == 1))
  }

  function Latest(log: Log): Call
    requires |log.calls| > 0
  {
    log.calls[|log.calls| - 1]
  }

  /** The counter holds the latest count and dies with its life; the block was set by
      the latest counted call, which went over the limit. */
  ghost predicate Sound(data: Store, now: int, counter: string, block: string, log: Log, rate: Rate) {
    && LogOk(log, rate)
    && (|log.calls| > 0 ==> Latest(log).time <= now)
    && (Live(data, now, counter) ==>
          && |log.calls| > 0
          && data[counter] == Entry(Number(Latest(log).hits), Some(log.starts[|log.starts| - 1] + rate.ttl)))
    && (!Live(data, now, counter) && |log.starts| > 0 ==> log.starts[|log.starts| - 1] + rate.ttl <= now)
    && (Live(data, now, block) ==> |log.calls| > 0 && rate.limit < Latest(log).hits)
    && (|log.calls| > 0 && rate.limit < Latest(log).hits && now < Latest(log).time + rate.blockDuration ==>
          Live(data, now, block))
    && (Live(data, now, block) ==> data[block].expiry == Some(Latest(log).time + rate.blockDuration))
  }

  lemma TimeKeepsSound(data: Store, now: int, later: int, counter: string, block: string, log: Log, rate: Rate)
    requires Sound(data, now, counter, block, log, rate) && now <= later
    ensures Sound(data, later, counter, block, log, rate)
  {
  }

  lemma FrameKeepsSound(data: Store, data': Store, now: int, counter: string, block: string, log: Log, rate: Rate)
    requires Sound(data, now, counter, block, log, rate)
    requires SameEntry(data, data', counter) && SameEntry(data, data', block)
    ensures Sound(data', now, counter, block, log, rate)
  {
  }

  /** Noting a counted call keeps the log well formed. */
  lemma NotedKeepsLog(data: Store, now: int, counter: string, block: string, log: Log, rate: Rate)
    requires Sound(data, now, counter, block, log, rate) && rate.ttl > 0
    ensures LogOk(Noted(log, data, now, counter, block), rate)
    ensures CountsOn(data, now, counter, block) ==>
      var log' := Noted(log, data, now, counter, block);
      && |log'.calls| > 0 && Latest(log').time == now
      && Latest(log').hits == Increased(data, now, counter).value
  {
    if CountsOn(data, now, counter, block) {
      var log' := Noted(log, data, now, counter, block);
      if |log.calls| > 0 {
        assert Latest(log) in log.calls && CallOk(log.starts, Latest(log), rate);
      }
      forall c | c in log'.calls
        ensures CallOk(log'.starts, c, rate)
      {
        if c in log.calls { assert CallOk(log.starts, c, rate); }
      }
    }
  }

  /** A call at the tracker's own rate keeps the invariant. */
  lemma ScriptKeepsSound(data: Store, now: int, counter: string, block: string, log: Log, rate: Rate)
    requires Sound(data, now, counter, block, log, rate) && rate.ttl > 0 && counter != block
    ensures Sound(ScriptOn(data, now, counter, block, rate.ttl, rate.limit, rate.blockDuration).0, now,
                  counter, block, Noted(log, data, now, counter, block), rate)
  {
    NotedKeepsLog(data, now, counter, block, log, rate);
  }

  lemma SameRateBefore(es: seq<Event>, tracker: string, rate: Rate)
    requires SameRate(es, tracker, rate) && es != []
    ensures SameRate(es[..|es| - 1], tracker, rate)
    ensures var e := es[|es| - 1]; IsHitOn(e, tracker) ==> Rate(e.ttl, e.limit, e.blockDuration) == rate
  {
    assert es[|es| - 1] in es;
  }

  lemma {:induction false} RunKeepsSound(es: seq<Event>, tracker: string, rate: Rate)
    requires Keys.ColonFree(tracker) && SameRate(es, tracker, rate) && rate.ttl > 0
    ensures Sound(Run(es).data, Run(es).now, Keys.CounterKey(tracker), Keys.BlockKey(tracker),
                  Observe(es, tracker), rate)
    decreases |es|
  {
    if es != [] {
      var before, e := es[..|es| - 1], es[|es| - 1];
      SameRateBefore(es, tracker, rate);
      RunKeepsSound(before, tracker, rate);
      EventKeepsSound(before, e, tracker, rate);
    }
  }

  lemma EventKeepsSound(es: seq<Event>, e: Event, tracker: string, rate: Rate)
    requires Keys.ColonFree(tracker) && rate.ttl > 0
    requires IsHitOn(e, tracker) ==> Rate(e.ttl, e.limit, e.blockDuration) == rate
    requires Sound(Run(es).data, Run(es).now, Keys.CounterKey(tracker), Keys.BlockKey(tracker),
                   Observe(es, tracker), rate)
    ensures Sound(Next(Run(es), e).data, Next(Run(es), e).now, Keys.CounterKey(tracker), Keys.BlockKey(tracker),
                  NotedEvent(Observe(es, tracker), Run(es), e, tracker), rate)
  {
    var s, log := Run(es), Observe(es, tracker);
    var counter, block := Keys.CounterKey(tracker), Keys.BlockKey(tracker);
    Keys.CounterMeetsBlock(tracker, tracker);
    if IsHitOn(e, tracker) {
      ScriptKeepsSound(s.data, s.now, counter, block, log, rate);
    } else {
      RunOwnsItsKeys(es);
      OthersLeaveTracker(s, e, tracker);
      FrameKeepsSound(s.data, Next(s, e).data, s.now, counter, block, log, rate);
      ClockAdvances(s, e);
      TimeKeepsSound(Next(s, e).data, s.now, Next(s, e).now, counter, block, log, rate);
    }
  }

  // ---- Counting what passes ----

  predicate Passes(c: Call, limit: int, a: int, b: int) {
    c.hits <= limit && a <= c.time < b
  }

  function Passing(calls: seq<Call>, limit: int, a: int, b: int): nat {
    if calls == [] then 0
    else
      Passing(calls[..|calls| - 1], limit, a, b) + if Passes(calls[|calls| - 1], limit, a, b) then 1 else 0
  }

  /** A call is let through exactly when it is counted within the limit. */
  lemma {:induction false} AdmittedCallsPass(es: seq<Event>, tracker: string, rate: Rate, a: int, b: int)
    requires SameRate(es, tracker, rate)
    requires Keys.ColonFree(tracker)
    ensures Admitted(es, tracker, a, b) == Passing(Observe(es, tracker).calls, rate.limit, a, b)
    decreases |es|
  {
    if es != [] {
      var before, e := es[..|es| - 1], es[|es| - 1];
      SameRateBefore(es, tracker, rate);
      AdmittedCallsPass(before, tracker, rate, a, b);
      EventAdmits(Run(before), e, tracker, rate, Observe(before, tracker), a, b);
    }
  }

  lemma EventAdmits(s: State, e: Event, tracker: string, rate: Rate, log: Log, a: int, b: int)
    requires IsHitOn(e, tracker) ==> Rate(e.ttl, e.limit, e.blockDuration) == rate
    ensures Passing(NotedEvent(log, s, e, tracker).calls, rate.limit, a, b)
         == Passing(log.calls, rate.limit, a, b) + if Admits(s, e, tracker, a, b) then 1 else 0
  {
    if IsHitOn(e, tracker) {
      ScriptAdmits(s.data, s.now, Keys.CounterKey(tracker), Keys.BlockKey(tracker), rate, log, a, b);
    }
  }

  lemma ScriptAdmits(data: Store, now: int, counter: string, block: string, rate: Rate, log: Log, a: int, b: int)
    ensures var answer := ScriptOn(data, now, counter, block, rate.ttl, rate.limit, rate.blockDuration).1;
            Passing(Noted(log, data, now, counter, block).calls, rate.limit, a, b)
            == Passing(log.calls, rate.limit, a, b)
             + if a <= now < b && answer.Answer? && !answer.blocked then 1 else 0
  {
    if CountsOn(data, now, counter, block) {
      var calls := Noted(log, data, now, counter, block).calls;
      assert calls[..|calls| - 1] == log.calls;
    }
  }

  /** Rank of a passing call among all that the limit allows, life after life. */
  function Rank(c: Call, limit: int): int {
    c.life * limit + c.hits
  }

  lemma RankGrows(c: Call, d: Call, limit: int)
    requires limit >= 1 && 1 <= c.hits <= limit && 1 <= d.hits
    requires c.life < d.life || (c.life == d.life && c.hits < d.hits)
    ensures Rank(c, limit) < Rank(d, limit)
  {
    if c.life < d.life {
      assert (c.life + 1) * limit <= d.life * limit;
    }
  }

  /** Calls are in order of life, and of count within a life. */
  lemma {:induction false} CallsAreOrdered(log: Log, rate: Rate, i: nat, j: nat)
    requires LogOk(log, rate) && i < j < |log.calls|
    ensures log.calls[i].life < log.calls[j].life
         || (log.calls[i].life == log.calls[j].life && log.calls[i].hits < log.calls[j].hits)
    decreases j
  {
    assert Follows(log.calls[j - 1], log.calls[j]);
    if i < j - 1 {
      CallsAreOrdered(log, rate, i, j - 1);
    }
  }

  /** Lives begin at least a window apart. */
  lemma {:induction false} LivesAreApart(log: Log, rate: Rate, i: nat, j: nat)
    requires LogOk(log, rate) && i <= j < |log.starts|
    ensures log.starts[i] + (j - i) * rate.ttl <= log.starts[j]
    decreases j
  {
    if i < j {
      LivesAreApart(log, rate, i, j - 1);
      assert (j - i) * rate.ttl == (j - 1 - i) * rate.ttl + rate.ttl;
    }
  }

  /** The passing calls of a span fit between the ranks of its first and last. */
  lemma {:induction false} PassingFitsRanks(log: Log, rate: Rate, n: nat, a: int, b: int)
      returns (first: nat, last: nat)
    requires LogOk(log, rate) && rate.limit >= 1 && n <= |log.calls|
    requires Passing(log.calls[..n], rate.limit, a, b) > 0
    ensures first <= last < n
    ensures Passes(log.calls[first], rate.limit, a, b) && Passes(log.calls[last], rate.limit, a, b)
    ensures Passing(log.calls[..n], rate.limit, a, b) - 1
         <= Rank(log.calls[last], rate.limit) - Rank(log.calls[first], rate.limit)
    decreases n
  {
    var calls := log.calls[..n];
    assert calls[..n - 1] == log.calls[..n - 1];
    if Passing(log.calls[..n - 1], rate.limit, a, b) == 0 {
      first, last := n - 1, n - 1;
    } else {
      first, last := PassingFitsRanks(log, rate, n - 1, a, b);
      if Passes(calls[n - 1], rate.limit, a, b) {
        CallsAreOrdered(log, rate, last, n - 1);
        assert CallOk(log.starts, log.calls[last], rate) && CallOk(log.starts, log.calls[n - 1], rate);
        RankGrows(log.calls[last], log.calls[n - 1], rate.limit);
        last := n - 1;
      }
    }
  }

  /** Two passing calls less than k windows apart are at most k lives apart, and fewer
      when the earlier one opens its life. */
  lemma LivesInSpan(log: Log, rate: Rate, c: Call, d: Call, k: nat, a: int)
    requires LogOk(log, rate) && rate.ttl > 0 && c in log.calls && d in log.calls && c.life <= d.life
    requires a <= c.time && d.time < a + k * rate.ttl
    ensures d.life - c.life <= k
    ensures c.hits == 1 ==> d.life - c.life < k
  {
    assert CallOk(log.starts, c, rate) && CallOk(log.starts, d, rate);
    LivesAreApart(log, rate, c.life, d.life);
    var lives := d.life - c.life;
    assert (k + 1) * rate.ttl == k * rate.ttl + rate.ttl;
    FewerWindows(lives, k + 1, rate.ttl);
    if c.hits == 1 {
      FewerWindows(lives, k, rate.ttl);
    }
  }

  lemma FewerWindows(x: int, y: int, ttl: int)
    requires ttl > 0 && x * ttl < y * ttl
    ensures x < y
  {
  }

  lemma SpanBound(first: Call, last: Call, limit: int, k: nat)
    requires limit >= 1 && 1 <= first.hits <= limit && 1 <= last.hits <= limit
    requires 0 <= last.life - first.life <= k
    requires first.hits == 1 ==> last.life - first.life < k
    ensures Rank(last, limit) - Rank(first, limit) + 1 <= (k + 1) * limit - 1
  {
    var lives := last.life - first.life;
    assert last.life * limit == first.life * limit + lives * limit;
    if first.hits == 1 {
      assert lives * limit <= (k - 1) * limit;
      assert (k + 1) * limit == (k - 1) * limit + 2 * limit;
    } else {
      assert lives * limit <= k * limit;
      assert (k + 1) * limit == k * limit + limit;
    }
  }

  /** Fixed-window burst bound.  In any run, any span of k windows lets at most
      (k + 1) * limit - 1 calls of one tracker through. */
  lemma BurstBound(es: seq<Event>, tracker: string, rate: Rate, a: int, k: nat)
    requires Keys.ColonFree(tracker) && SameRate(es, tracker, rate) && rate.ttl > 0
    ensures Admitted(es, tracker, a, a + k * rate.ttl) <= if rate.limit < 1 then 0 else (k + 1) * rate.limit - 1
  {
    var log, b := Observe(es, tracker), a + k * rate.ttl;
    RunKeepsSound(es, tracker, rate);
    AdmittedCallsPass(es, tracker, rate, a, b);
    LogBound(log, rate, a, k);
  }

  lemma LogBound(log: Log, rate: Rate, a: int, k: nat)
    requires LogOk(log, rate) && rate.ttl > 0
    ensures Passing(log.calls, rate.limit, a, a + k * rate.ttl)
         <= if rate.limit < 1 then 0 else (k + 1) * rate.limit - 1
  {
    var b := a + k * rate.ttl;
    if rate.limit < 1 {
      NothingPasses(log, rate, |log.calls|, a, b);
      assert log.calls[..|log.calls|] == log.calls;
    } else if Passing(log.calls, rate.limit, a, b) > 0 {
      assert log.calls[..|log.calls|] == log.calls;
      var i, j := PassingFitsRanks(log, rate, |log.calls|, a, b);
      var first, last := log.calls[i], log.calls[j];
      assert CallOk(log.starts, first, rate) && CallOk(log.starts, last, rate);
      if i < j {
        CallsAreOrdered(log, rate, i, j);
      }
      LivesInSpan(log, rate, first, last, k, a);
      SpanBound(first, last, rate.limit, k);
    } else {
      assert (k + 1) * rate.limit >= 1;
    }
  }

  lemma {:induction false} NothingPasses(log: Log, rate: Rate, n: nat, a: int, b: int)
    requires LogOk(log, rate) && rate.limit < 1 && n <= |log.calls|
    ensures Passing(log.calls[..n], rate.limit, a, b) == 0
    decreases n
  {
    if n > 0 {
      NothingPasses(log, rate, n - 1, a, b);
      assert log.calls[..n][..n - 1] == log.calls[..n - 1];
      assert CallOk(log.starts, log.calls[n - 1], rate);
    }
  }

  // ---- Blocks ----

  /** No event shortens, lengthens or lifts a live block. */
  lemma EventKeepsBlock(es: seq<Event>, e: Event, tracker: string)
    requires Keys.ColonFree(tracker) && BlockedOn(Run(es).data, Run(es).now, Keys.BlockKey(tracker))
    ensures SameEntry(Run(es).data, Next(Run(es), e).data, Keys.BlockKey(tracker))
  {
    if !IsHitOn(e, tracker) {
      RunOwnsItsKeys(es);
      OthersLeaveTracker(Run(es), e, tracker);
    }
  }

  /** The tracker is blocked until exactly `end`. */
  predicate BlockedUntil(s: State, tracker: string, end: int) {
    Keys.BlockKey(tracker) in s.data && s.data[Keys.BlockKey(tracker)].expiry == Some(end)
  }

  lemma {:induction false} BlockLasts(es: seq<Event>, fs: seq<Event>, tracker: string, end: int)
    requires Keys.ColonFree(tracker) && BlockedUntil(Run(es), tracker, end)
    requires Run(es + fs).now < end
    ensures BlockedUntil(Run(es + fs), tracker, end)
    decreases |fs|
  {
    if fs == [] {
      assert es + fs == es;
    } else {
      var before, e := fs[..|fs| - 1], fs[|fs| - 1];
      assert es + fs == (es + before) + [e];
      RunSnoc(es + before, e);
      ClockAdvances(Run(es + before), e);
      BlockLasts(es, before, tracker, end);
      EventKeepsBlock(es + before, e, tracker);
    }
  }

  /** A refusal leaves a block until the moment it announces. */
  lemma RefusalBlocks(s: State, e: Event)
    requires e.Hit? && Keys.ColonFree(e.tracker) && AnswerOf(s, e).Answer? && AnswerOf(s, e).blocked
    ensures AnswerOf(s, e).timeToBlockExpire > 0
    ensures BlockedUntil(Next(s, e), e.tracker, s.now + AnswerOf(s, e).timeToBlockExpire)
  {
  }

  /** Block exactness.  A refused call is told how long its block lasts, and through any
      events until that moment every call of the tracker, at whatever rate, is refused,
      is told the same moment, and leaves the store as it was. */
  lemma RefusalIsExact(es: seq<Event>, e: Event, fs: seq<Event>, f: Event)
    requires e.Hit? && f.Hit? && f.tracker == e.tracker && Keys.ColonFree(e.tracker)
    requires AnswerOf(Run(es), e).Answer? && AnswerOf(Run(es), e).blocked
    requires Run(es + [e] + fs).now < Run(es).now + AnswerOf(Run(es), e).timeToBlockExpire
    ensures var s, s' := Run(es), Run(es + [e] + fs);
            && AnswerOf(s', f).Answer? && AnswerOf(s', f).blocked
            && s'.now + AnswerOf(s', f).timeToBlockExpire == s.now + AnswerOf(s, e).timeToBlockExpire
            && Next(s', f) == s'
  {
    var end := Run(es).now + AnswerOf(Run(es), e).timeToBlockExpire;
    RunSnoc(es, e);
    RefusalBlocks(Run(es), e);
    BlockLasts(es + [e], fs, e.tracker, end);
  }

  /** When the advertised moment comes, in whole seconds, the block is over; and one
      second earlier every call was still refused. */
  lemma WaitEndsTheBlock(es: seq<Event>, e: Event, fs: seq<Event>)
    requires e.Hit? && Keys.ColonFree(e.tracker)
    requires AnswerOf(Run(es), e).Answer? && AnswerOf(Run(es), e).blocked
    requires Run(es + [e] + fs).now == Run(es).now + 1000 * (MsToSeconds(AnswerOf(Run(es), e).timeToBlockExpire) - 1)
    ensures var s, end := Run(es + [e] + fs), Keys.BlockKey(e.tracker);
            && Live(s.data, s.now, end)
            && !Live(s.data, s.now + 1000, end)
  {
    var s := Run(es);
    RunSnoc(es, e);
    RefusalBlocks(s, e);
    SecondsAreTight(AnswerOf(s, e).timeToBlockExpire);
    BlockLasts(es + [e], fs, e.tracker, s.now + AnswerOf(s, e).timeToBlockExpire);
  }

  /** The latest count stands for as many counted calls of one life. */
  ghost predicate LatestCountIsWhole(log: Log)
    requires |log.calls| > 0
  {
    forall i | |log.calls| - Latest(log).hits <= i < |log.calls| ::
      0 <= i && log.calls[i].life == Latest(log).life
  }

  /** No call is refused without cause: the latest counted call went over the limit, no
      longer ago than a block lasts, and as many calls as it reports, more than the
      limit, were counted in its one life. */
  lemma RefusalHasCause(es: seq<Event>, tracker: string, rate: Rate)
    requires Keys.ColonFree(tracker) && SameRate(es, tracker, rate) && rate.ttl > 0
    requires AnswerOf(Run(es), Hit(tracker, rate.ttl, rate.limit, rate.blockDuration)).Answer?
    requires AnswerOf(Run(es), Hit(tracker, rate.ttl, rate.limit, rate.blockDuration)).blocked
    ensures var e := Hit(tracker, rate.ttl, rate.limit, rate.blockDuration);
            var log := Observe(es + [e], tracker);
            && |log.calls| > 0 && rate.limit < Latest(log).hits
            && Latest(log).time <= Run(es).now < Latest(log).time + rate.blockDuration
            && AnswerOf(Run(es), e).hits >= rate.limit
            && LatestCountIsWhole(log)
  {
    var e := Hit(tracker, rate.ttl, rate.limit, rate.blockDuration);
    assert (es + [e])[..|es|] == es;
    RunKeepsSound(es, tracker, rate);
    var s, log := Run(es), Observe(es, tracker);
    RefusedCall(s.data, s.now, Keys.CounterKey(tracker), Keys.BlockKey(tracker), log, rate);
    var log' := Observe(es + [e], tracker);
    NotedKeepsLog(s.data, s.now, Keys.CounterKey(tracker), Keys.BlockKey(tracker), log, rate);
    CountsAreHonest(log', rate, |log'.calls| - 1);
  }

  lemma RefusedCall(data: Store, now: int, counter: string, block: string, log: Log, rate: Rate)
    requires Sound(data, now, counter, block, log, rate) && rate.ttl > 0
    requires ScriptOn(data, now, counter, block, rate.ttl, rate.limit, rate.blockDuration).1.Answer?
    requires ScriptOn(data, now, counter, block, rate.ttl, rate.limit, rate.blockDuration).1.blocked
    ensures var log' := Noted(log, data, now, counter, block);
            && |log'.calls| > 0 && rate.limit < Latest(log').hits
            && Latest(log').time <= now < Latest(log').time + rate.blockDuration
    ensures ScriptOn(data, now, counter, block, rate.ttl, rate.limit, rate.blockDuration).1.hits >= rate.limit
  {
    NotedKeepsLog(data, now, counter, block, log, rate);
  }

  /** A count of n stands for n calls: the n counted calls up to it share its life. */
  lemma {:induction false} CountsAreHonest(log: Log, rate: Rate, j: nat)
    requires LogOk(log, rate) && j < |log.calls|
    ensures log.calls[j].hits <= j + 1
    ensures forall i | j - log.calls[j].hits < i <= j :: log.calls[i].life == log.calls[j].life
    decreases j
  {
    assert log.calls[j] in log.calls && CallOk(log.starts, log.calls[j], rate);
    if j > 0 {
      assert Follows(log.calls[j - 1], log.calls[j]);
      CountsAreHonest(log, rate, j - 1);
      assert log.calls[j - 1] in log.calls && CallOk(log.starts, log.calls[j - 1], rate);
    }
  }

  /** After any run the counter of a tracker is gone or carries an expiry and the number
      of calls counted in its life; and while it lives under a block it is over the limit. */
  lemma CounterIsHonest(es: seq<Event>, tracker: string, rate: Rate)
    requires Keys.ColonFree(tracker) && SameRate(es, tracker, rate) && rate.ttl > 0
    requires Live(Run(es).data, Run(es).now, Keys.CounterKey(tracker))
    ensures var s, log, k := Run(es), Observe(es, tracker), Keys.CounterKey(tracker);
            && |log.calls| > 0 && |log.starts| > 0
            && s.data[k] == Entry(Number(Latest(log).hits), Some(log.starts[|log.starts| - 1] + rate.ttl))
            && (BlockedOn(s.data, s.now, Keys.BlockKey(tracker)) ==> rate.limit < s.data[k].value.n)
            && LatestCountIsWhole(log)
  {
    RunKeepsSound(es, tracker, rate);
    LiveCounter(Run(es).data, Run(es).now, Keys.CounterKey(tracker), Keys.BlockKey(tracker),
                Observe(es, tracker), rate);
  }

  lemma LiveCounter(data: Store, now: int, counter: string, block: string, log: Log, rate: Rate)
    requires Sound(data, now, counter, block, log, rate) && Live(data, now, counter)
    ensures |log.calls| > 0 && |log.starts| > 0
    ensures data[counter] == Entry(Number(Latest(log).hits), Some(log.starts[|log.starts| - 1] + rate.ttl))
    ensures BlockedOn(data, now, block) ==> rate.limit < data[counter].value.n
    ensures LatestCountIsWhole(log)
  {
    CountsAreHonest(log, rate, |log.calls| - 1);
  }

  /** With blocks at least as long as windows the counter never passes limit + 1. */
  lemma {:induction false} LongBlocksStopTheCounter(es: seq<Event>, tracker: string, rate: Rate)
    requires Keys.ColonFree(tracker) && SameRate(es, tracker, rate) && rate.ttl > 0
    requires rate.limit >= 0 && rate.ttl <= rate.blockDuration
    ensures forall c | c in Observe(es, tracker).calls :: c.hits <= rate.limit + 1
    decreases |es|
  {
    if es != [] {
      var before, e := es[..|es| - 1], es[|es| - 1];
      SameRateBefore(es, tracker, rate);
      LongBlocksStopTheCounter(before, tracker, rate);
      RunKeepsSound(before, tracker, rate);
      var s, log := Run(before), Observe(before, tracker);
      if IsHitOn(e, tracker) && CountsOn(s.data, s.now, Keys.CounterKey(tracker), Keys.BlockKey(tracker)) {
        NextCount(s.data, s.now, Keys.CounterKey(tracker), Keys.BlockKey(tracker), log, rate);
      }
    }
  }

  lemma NextCount(data: Store, now: int, counter: string, block: string, log: Log, rate: Rate)
    requires Sound(data, now, counter, block, log, rate) && rate.ttl > 0
    requires rate.limit >= 0 && rate.ttl <= rate.blockDuration
    requires CountsOn(data, now, counter, block)
    requires forall c | c in log.calls :: c.hits <= rate.limit + 1
    ensures forall c | c in Noted(log, data, now, counter, block).calls :: c.hits <= rate.limit + 1
  {
    if Live(data, now, counter) {
      assert Latest(log) in log.calls && CallOk(log.starts, Latest(log), rate);
    }
  }

  // ---- What an answer says ----

  /** Counted calls of one life. */
  function CallsOf(calls: seq<Call>, life: nat): nat {
    if calls == [] then 0
    else CallsOf(calls[..|calls| - 1], life) + if calls[|calls| - 1].life == life then 1 else 0
  }

  /** A count is the number of counted calls of its life so far. */
  lemma {:induction false} CountIsExact(log: Log, rate: Rate, n: nat, life: nat)
    requires LogOk(log, rate) && 0 < n <= |log.calls| && log.calls[n - 1].life <= life
    ensures CallsOf(log.calls[..n], life) == if life == log.calls[n - 1].life then log.calls[n - 1].hits else 0
    decreases n
  {
    assert log.calls[..n][..n - 1] == log.calls[..n - 1];
    assert log.calls[n - 1] in log.calls && CallOk(log.starts, log.calls[n - 1], rate);
    if n > 1 {
      assert Follows(log.calls[n - 2], log.calls[n - 1]);
      CountIsExact(log, rate, n - 1, life);
    }
  }

  /** What is left of the latest life of the counter. */
  function LifeLeft(log: Log, now: int, rate: Rate): int
    requires |log.starts| > 0
  {
    log.starts[|log.starts| - 1] + rate.ttl - now
  }

  /** An answer tells the truth about the log it leaves. */
  ghost predicate IsHonest(a: Answer, counted: bool, live: bool, log: Log, now: int, rate: Rate)
    requires a.Answer? && |log.calls| > 0 && |log.starts| > 0
  {
    if counted then
      && a.hits == Latest(log).hits == CallsOf(log.calls, Latest(log).life) && Latest(log).time == now
      && a.timeToExpire == LifeLeft(log, now, rate)
      && (a.blocked <==> rate.limit < a.hits)
      && a.timeToBlockExpire == if a.blocked then rate.blockDuration else 0
    else
      && a.blocked && a.timeToBlockExpire == Latest(log).time + rate.blockDuration - now
      && a.hits == (if live then Latest(log).hits else rate.limit)
      && a.timeToExpire == if live then LifeLeft(log, now, rate) else a.timeToBlockExpire
  }

  /** What the script answers here, and leaves, fits the log it makes of this one. */
  ghost predicate AnswersHonestly(data: Store, now: int, counter: string, block: string, log: Log, rate: Rate) {
    var (data', a) := ScriptOn(data, now, counter, block, rate.ttl, rate.limit, rate.blockDuration);
    var log', counted := Noted(log, data, now, counter, block), !BlockedOn(data, now, block);
    a.Answer? ==>
      && |log'.calls| > 0 && |log'.starts| > 0
      && IsHonest(a, counted, Live(data, now, counter), log', now, rate)
      && (counted ==> a.timeToExpire > 0 && Live(data', now + a.timeToExpire - 1, counter)
                      && !Live(data', now + a.timeToExpire, counter))
  }

  lemma LatestIsExact(log: Log, rate: Rate)
    requires LogOk(log, rate) && |log.calls| > 0
    ensures Latest(log).hits == CallsOf(log.calls, Latest(log).life)
    ensures |log.starts| > 0 && Latest(log).time < log.starts[|log.starts| - 1] + rate.ttl
  {
    CountIsExact(log, rate, |log.calls|, Latest(log).life);
    assert log.calls[..|log.calls|] == log.calls;
    assert Latest(log) in log.calls && CallOk(log.starts, Latest(log), rate);
  }

  lemma RefusalIsHonest(data: Store, now: int, counter: string, block: string, log: Log, rate: Rate)
    requires Sound(data, now, counter, block, log, rate) && BlockedOn(data, now, block)
    ensures AnswersHonestly(data, now, counter, block, log, rate)
  {
  }

  lemma CountIsHonest(data: Store, now: int, counter: string, block: string, log: Log, rate: Rate)
    requires Sound(data, now, counter, block, log, rate) && rate.ttl > 0 && counter != block
    requires CountsOn(data, now, counter, block)
    ensures AnswersHonestly(data, now, counter, block, log, rate)
  {
    NotedKeepsLog(data, now, counter, block, log, rate);
    LatestIsExact(Noted(log, data, now, counter, block), rate);
  }

  lemma ScriptIsHonest(data: Store, now: int, counter: string, block: string, log: Log, rate: Rate)
    requires Sound(data, now, counter, block, log, rate) && rate.ttl > 0 && counter != block
    ensures AnswersHonestly(data, now, counter, block, log, rate)
  {
    if BlockedOn(data, now, block) {
      RefusalIsHonest(data, now, counter, block, log, rate);
    } else if CountsOn(data, now, counter, block) {
      CountIsHonest(data, now, counter, block, log, rate);
    }
  }

  lemma OneMoreNote(es: seq<Event>, tracker: string, rate: Rate)
    ensures Observe(es + [HitAt(tracker, rate)], tracker)
         == Noted(Observe(es, tracker), Run(es).data, Run(es).now, Keys.CounterKey(tracker), Keys.BlockKey(tracker))
  {
    assert (es + [HitAt(tracker, rate)])[..|es|] == es;
  }

  lemma HitIsScript(s: State, tracker: string, rate: Rate)
    requires Keys.ColonFree(tracker)
    ensures (Next(s, HitAt(tracker, rate)).data, AnswerOf(s, HitAt(tracker, rate)))
         == ScriptOn(s.data, s.now, Keys.CounterKey(tracker), Keys.BlockKey(tracker), rate.ttl, rate.limit,
                     rate.blockDuration)
  {
  }

  /** One more call: what it answers, what it leaves, and what it adds to the log. */
  lemma OneMoreHit(es: seq<Event>, tracker: string, rate: Rate)
    requires Keys.ColonFree(tracker)
    ensures var s, counter, block := Run(es), Keys.CounterKey(tracker), Keys.BlockKey(tracker);
            && (Run(es + [HitAt(tracker, rate)]).data, AnswerOf(s, HitAt(tracker, rate)))
               == ScriptOn(s.data, s.now, counter, block, rate.ttl, rate.limit, rate.blockDuration)
            && Observe(es + [HitAt(tracker, rate)], tracker)
               == Noted(Observe(es, tracker), s.data, s.now, counter, block)
  {
    OneMoreNote(es, tracker, rate);
    HitIsScript(Run(es), tracker, rate);
    RunSnoc(es, HitAt(tracker, rate));
  }

  /** Answers are honest, after every run.  A counted call, let through or not, is told the
      number of counted calls of its life and exactly what is left of that life, at the end
      of which the counter is gone and a millisecond before which it is there; it is refused
      if and only if that number passes the limit.  A call refused by an earlier block is
      told what is left of that block, and the count and the rest of the counter's life if
      it lives on. */
  lemma AnswersAreHonest(es: seq<Event>, tracker: string, rate: Rate)
    requires Keys.ColonFree(tracker) && SameRate(es, tracker, rate) && rate.ttl > 0
    ensures AnswersHonestly(Run(es).data, Run(es).now, Keys.CounterKey(tracker), Keys.BlockKey(tracker),
                            Observe(es, tracker), rate)
  {
    RunKeepsSound(es, tracker, rate);
    Keys.CounterMeetsBlock(tracker, tracker);
    ScriptIsHonest(Run(es).data, Run(es).now, Keys.CounterKey(tracker), Keys.BlockKey(tracker),
                   Observe(es, tracker), rate);
  }

  // ---- The bound is met ----

  function HitAt(tracker: string, rate: Rate): Event {
    Hit(tracker, rate.ttl, rate.limit, rate.blockDuration)
  }

  /** No block, and `n` calls counted in a life that ends at `end`. */
  predicate Stands(data: Store, now: int, counter: string, block: string, n: nat, end: int) {
    && !Live(data, now, block)
    && if n == 0 then !Live(data, now, counter)
       else Live(data, now, counter) && data[counter] == Entry(Number(n), Some(end))
  }

  /** A run in which the tracker's calls stand so at `now`, with `count` of them let
      through in [a, b), all at one rate. */
  ghost predicate Stage(es: seq<Event>, tracker: string, rate: Rate, n: nat, end: int, now: int,
                        count: int, a: int, b: int) {
    && Stands(Run(es).data, Run(es).now, Keys.CounterKey(tracker), Keys.BlockKey(tracker), n, end)
    && Run(es).now == now
    && Admitted(es, tracker, a, b) == count
    && SameRate(es, tracker, rate)
  }

  lemma OneHit(data: Store, now: int, counter: string, block: string, rate: Rate, n: nat, end: int)
    requires counter != block && rate.ttl > 0 && n < rate.limit
    requires Stands(data, now, counter, block, n, end) && (n == 0 ==> end == now + rate.ttl)
    ensures var (data', answer) := ScriptOn(data, now, counter, block, rate.ttl, rate.limit, rate.blockDuration);
            Stands(data', now, counter, block, n + 1, end) && answer.Answer? && !answer.blocked
  {
  }

  /** A call with allowance left passes and uses one of it. */
  lemma HitStage(es: seq<Event>, tracker: string, rate: Rate, n: nat, end: int, now: int, count: int, a: int, b: int)
      returns (fs: seq<Event>)
    requires Keys.ColonFree(tracker) && rate.ttl > 0 && n < rate.limit
    requires Stage(es, tracker, rate, n, end, now, count, a, b) && (n == 0 ==> end == now + rate.ttl)
    ensures Stage(fs, tracker, rate, n + 1, end, now, if a <= now < b then count + 1 else count, a, b)
  {
    fs := es + [HitAt(tracker, rate)];
    assert fs[..|es|] == es;
    Keys.CounterMeetsBlock(tracker, tracker);
    OneHit(Run(es).data, now, Keys.CounterKey(tracker), Keys.BlockKey(tracker), rate, n, end);
  }

  /** A wait either stays within the life or ends it. */
  lemma WaitStage(es: seq<Event>, d: nat, tracker: string, rate: Rate, n: nat, end: int, now: int, count: int,
                  a: int, b: int)
      returns (fs: seq<Event>)
    requires Stage(es, tracker, rate, n, end, now, count, a, b) && n > 0
    ensures Stage(fs, tracker, rate, if now + d < end then n else 0, end, now + d, count, a, b)
  {
    fs := es + [Tick(d)];
    assert fs[..|es|] == es;
  }

  lemma {:induction false} ManyHits(es: seq<Event>, m: nat, tracker: string, rate: Rate, n: nat, end: int, now: int,
                                    count: int, a: int, b: int)
      returns (fs: seq<Event>)
    requires Keys.ColonFree(tracker) && rate.ttl > 0 && n + m <= rate.limit && a <= now < b
    requires Stage(es, tracker, rate, n, end, now, count, a, b) && (n == 0 ==> end == now + rate.ttl)
    ensures Stage(fs, tracker, rate, n + m, end, now, count + m, a, b)
    decreases m
  {
    fs := es;
    if m > 0 {
      fs := HitStage(es, tracker, rate, n, end, now, count, a, b);
      fs := ManyHits(fs, m - 1, tracker, rate, n + 1, end, now, count + 1, a, b);
    }
  }

  /** An ended life gives way to one that would end later. */
  lemma NextLife(es: seq<Event>, tracker: string, rate: Rate, end: int, end': int, now: int, count: int, a: int, b: int)
    requires Stage(es, tracker, rate, 0, end, now, count, a, b)
    ensures Stage(es, tracker, rate, 0, end', now, count, a, b)
  {
  }

  /** Whole lives one after another, each with its whole allowance used at its start. */
  lemma {:induction false} ManyLives(es: seq<Event>, m: nat, tracker: string, rate: Rate, now: int, count: int,
                                     a: int, b: int)
      returns (fs: seq<Event>)
    requires Keys.ColonFree(tracker) && rate.ttl > 0 && rate.limit > 0
    requires a <= now && (m > 0 ==> now + (m - 1) * rate.ttl < b)
    requires Stage(es, tracker, rate, 0, now + rate.ttl, now, count, a, b)
    ensures SameRate(fs, tracker, rate) && Admitted(fs, tracker, a, b) == count + m * rate.limit
    decreases m
  {
    fs := es;
    if m > 0 {
      var end := now + rate.ttl;
      assert (m - 1) * rate.ttl >= 0;
      fs := ManyHits(es, rate.limit, tracker, rate, 0, end, now, count, a, b);
      fs := WaitStage(fs, rate.ttl, tracker, rate, rate.limit, end, now, count + rate.limit, a, b);
      NextLife(fs, tracker, rate, end, end + rate.ttl, end, count + rate.limit, a, b);
      assert end + (m - 2) * rate.ttl == now + (m - 1) * rate.ttl;
      fs := ManyLives(fs, m - 1, tracker, rate, end, count + rate.limit, a, b);
      assert rate.limit + (m - 1) * rate.limit == m * rate.limit;
    }
  }

  /** The burst bound is tight: for every window of more than a millisecond, every limit
      and every number of windows, some run lets as many calls through as the bound
      allows.  One call opens a life; just before it ends the rest of its allowance is
      used, and then the whole allowance of every life that follows, at its start. */
  lemma BurstBoundIsMet(tracker: string, rate: Rate, k: nat) returns (es: seq<Event>)
    requires Keys.ColonFree(tracker) && rate.ttl > 1 && rate.limit > 0 && k > 0
    ensures SameRate(es, tracker, rate)
    ensures Admitted(es, tracker, rate.ttl - 1, rate.ttl - 1 + k * rate.ttl) == (k + 1) * rate.limit - 1
  {
    var ttl, a, b := rate.ttl, rate.ttl - 1, rate.ttl - 1 + k * rate.ttl;
    assert ttl + (k - 1) * ttl == k * ttl && k * ttl >= ttl;
    es := [];
    es := HitStage(es, tracker, rate, 0, ttl, 0, 0, a, b);
    es := WaitStage(es, ttl - 1, tracker, rate, 1, ttl, 0, 0, a, b);
    es := ManyHits(es, rate.limit - 1, tracker, rate, 1, ttl, ttl - 1, 0, a, b);
    es := WaitStage(es, 1, tracker, rate, rate.limit, ttl, ttl - 1, rate.limit - 1, a, b);
    NextLife(es, tracker, rate, ttl, ttl + ttl, ttl, rate.limit - 1, a, b);
    es := ManyLives(es, k, tracker, rate, ttl, rate.limit - 1, a, b);
    assert rate.limit - 1 + k * rate.limit == (k + 1) * rate.limit - 1;
  }
}
