/** The fixed-window rate limiter: one atomic script over a counter and a block key. */
module Throttler {
  import opened Prelude
  import opened RedisStore
  import Keys

  /** What the script answers, in milliseconds; an error is an aborted script, whose
      earlier writes stay. */
  datatype Answer =
    | Answer(hits: int, timeToExpire: int, blocked: bool, timeToBlockExpire: int)
    | Aborted

  /** The record handed to the guard, in seconds. */
  datatype ThrottleRecord = ThrottleRecord(
    totalHits: int,
    timeToExpire: int,
    isBlocked: bool,
    timeToBlockExpire: int)

  function NumberOr(v: Option<Value>, fallback: int): int {
    if v.Some? && v.value.Number? then v.value.n else fallback
  }

  /** The counter after a counted call, with an expiry for certain. */
  function Counted(s: Store, now: int, counter: string, ttl: int): Store {
    var s' := AfterIncr(s, now, counter);
    if PttlOf(s', now, counter) <= 0 then AfterPExpire(s', now, counter, ttl) else s'
  }

  /** The script as a function of the store it finds, on its two keys. */
  function ScriptOn(s: Store, now: int, counter: string, block: string, ttl: int, limit: int, blockDuration: int)
      : (Store, Answer) {
    var blockPttl := PttlOf(s, now, block);
    if blockPttl > 0 then
      var pttl := PttlOf(s, now, counter);
      (s, Answer(NumberOr(Read(s, now, counter), limit), if pttl < 0 then blockPttl else pttl, true, blockPttl))
    else if Increased(s, now, counter).None? then (s, Aborted)
    else
      var hits := Increased(s, now, counter).value;
      var pttl := PttlOf(AfterIncr(s, now, counter), now, counter);
      var s' := Counted(s, now, counter, ttl);
      var timeToExpire := if pttl <= 0 then ttl else pttl;
      if hits <= limit then (s', Answer(hits, timeToExpire, false, 0))
      else if blockDuration <= 0 then (s', Aborted)
      else (Write(s', now, block, Number(1), blockDuration), Answer(hits, timeToExpire, true, blockDuration))
  }

  function Script(s: Store, now: int, key: string, ttl: int, limit: int, blockDuration: int): (Store, Answer) {
    ScriptOn(s, now, Keys.CounterKey(key), Keys.BlockKey(key), ttl, limit, blockDuration)
  }

  function MsToSeconds(ms: int): int {
    if ms > 0 then (ms + 999) / 1000 else 0
  }

  /** The least number of seconds that covers the milliseconds; none if there are none. */
  lemma SecondsAreTight(ms: int)
    ensures ms > 0 ==> 1000 * (MsToSeconds(ms) - 1) < ms <= 1000 * MsToSeconds(ms)
    ensures ms <= 0 ==> MsToSeconds(ms) == 0
  {
  }

  class RedisThrottlerStorage {
    const redis: RedisClient

    constructor (redis: RedisClient)
      ensures this.redis == redis
    {
      this.redis := redis;
    }

    method IncrementScript(key: string, ttl: int, limit: int, blockDuration: int) returns (a: Answer)
      modifies redis`data
      ensures (redis.data, a) == Script(old(redis.data), redis.clock, key, ttl, limit, blockDuration)
    {
      var counter, block := Keys.CounterKey(key), Keys.BlockKey(key);
      var blockPttl := redis.Pttl(block);
      if blockPttl > 0 {
        var v := redis.Get(counter);
        var hits := NumberOr(v, limit);
        var pttl := redis.Pttl(counter);
        if pttl < 0 {
          pttl := blockPttl;
        }
        return Answer(hits, pttl, true, blockPttl);
      }
      var totalHits := redis.Incr(counter);
      if totalHits.None? {
        return Aborted;
      }
      var timeToExpire := redis.Pttl(counter);
      if timeToExpire <= 0 {
        redis.PExpire(counter, ttl);
        timeToExpire := ttl;
      }
      var isBlocked, timeToBlockExpire := false, 0;
      if totalHits.value > limit {
        isBlocked := true;
        var ok := redis.SetPx(block, Number(1), blockDuration);
        if !ok {
          return Aborted;
        }
        timeToBlockExpire := blockDuration;
      }
      return Answer(totalHits.value, timeToExpire, isBlocked, timeToBlockExpire);
    }

    method Increment(key: string, ttl: int, limit: int, blockDuration: int) returns (r: Option<ThrottleRecord>)
      modifies redis`data
      ensures var end := Script(old(redis.data), redis.clock, key, ttl, limit, blockDuration);
              && redis.data == end.0
              && r == if end.1.Aborted? then None
                      else Some(ThrottleRecord(end.1.hits, MsToSeconds(end.1.timeToExpire), end.1.blocked,
                                               MsToSeconds(end.1.timeToBlockExpire)))
    {
      var a := IncrementScript(key, ttl, limit, blockDuration);
      match a {
        case Aborted =>
          r := None;
        case Answer(hits, timeToExpire, blocked, timeToBlockExpire) =>
          var expire, blockExpire := MsToSeconds(timeToExpire), MsToSeconds(timeToBlockExpire);
          r := Some(ThrottleRecord(hits, expire, blocked, blockExpire));
      }
    }
  }

  /** One call writes no key but its own two. */
  lemma ScriptFrame(s: Store, now: int, key: string, ttl: int, limit: int, blockDuration: int, k: string)
    requires k != Keys.CounterKey(key) && k != Keys.BlockKey(key)
    ensures var s' := Script(s, now, key, ttl, limit, blockDuration).0;
            (k in s <==> k in s') && (k in s ==> s[k] == s'[k])
  {
  }

  /** After a counted call the counter has an expiry, whatever it was before, unless
      the window length deletes it on the spot. */
  lemma NoImmortalCounter(s: Store, now: int, key: string, ttl: int, limit: int, blockDuration: int)
    requires Keys.ColonFree(key)
    requires PttlOf(s, now, Keys.BlockKey(key)) <= 0
    requires Increased(s, now, Keys.CounterKey(key)).Some?
    ensures var s' := Script(s, now, key, ttl, limit, blockDuration).0;
            if ttl <= 0 && PttlOf(s, now, Keys.CounterKey(key)) < 0 then Keys.CounterKey(key) !in s'
            else Live(s', now, Keys.CounterKey(key)) && s'[Keys.CounterKey(key)].expiry.Some?
  {
    Keys.CounterMeetsBlock(key, key);
  }

  /** A refused client that waits the advertised seconds finds this block expired;
      one second less still falls inside it. */
  lemma AdvertisedWaitIsTight(s: Store, now: int, key: string, ttl: int, limit: int, blockDuration: int)
    requires Script(s, now, key, ttl, limit, blockDuration).1.Answer?
    requires Script(s, now, key, ttl, limit, blockDuration).1.blocked
    ensures var (s', a) := Script(s, now, key, ttl, limit, blockDuration);
            var wait := 1000 * MsToSeconds(a.timeToBlockExpire);
            && wait > 0
            && !Live(s', now + wait, Keys.BlockKey(key))
            && Live(s', now + wait - 1000, Keys.BlockKey(key))
  {
    var ms := Script(s, now, key, ttl, limit, blockDuration).1.timeToBlockExpire;
    assert ms > 0;
    assert 1000 * ((ms + 999) / 1000) == ms + 999 - (ms + 999) % 1000;
  }
}
