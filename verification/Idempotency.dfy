/** The store of idempotency records: one record per user and key, kept for a day. */
module Idempotency {
  import opened Prelude
  import opened Json
  import opened RedisStore
  import Keys

  const TTL_SECONDS := 86400
  const TTL := 1000 * TTL_SECONDS

  /** What the network does with one command: it runs and is answered, it never
      reaches the server, or it runs and the answer is lost. */
  datatype Delivery = Delivered | LostRequest | LostReply

  /** The only error a caller of the service sees: the store did not answer. */
  datatype Unreachable = Unreachable

  /** What reading a key finds.  A value that is not a record parses to something
      without a method and a path. */
  datatype Reading = Missing | Found(record: IdempotencyRecord) | Foreign

  function PendingRecord(method_: string, path: string): IdempotencyRecord {
    IdempotencyRecord(Pending, method_, path, None, Undefined, false, None, None)
  }

  function CompletedRecord(method_: string, path: string, statusCode: int, body: Js): IdempotencyRecord {
    IdempotencyRecord(Completed, method_, path, Some(statusCode), Wire(body), false, None, None)
  }

  function FailedRecord(method_: string, path: string, errorCode: int, message: string): IdempotencyRecord {
    IdempotencyRecord(Completed, method_, path, None, Undefined, true, Some(errorCode), Some(message))
  }

  function Parse(v: Option<Value>): Reading {
    match v
    case None => Missing
    case Some(Record(r)) => Found(r)
    case Some(_) => Foreign
  }

  /** The store after a command that writes `record` without a condition. */
  function Stored(s: Store, now: int, k: string, record: IdempotencyRecord, net: Delivery): Store {
    if net.LostRequest? then s else Write(s, now, k, Record(record), TTL)
  }

  /** The store after an attempt to take the lock. */
  function Locked(s: Store, now: int, k: string, record: IdempotencyRecord, net: Delivery): Store {
    if net.LostRequest? then s else WriteIfAbsent(s, now, k, Record(record), TTL)
  }

  class IdempotencyService {
    const redis: RedisClient

    constructor (redis: RedisClient)
      ensures this.redis == redis
    {
      this.redis := redis;
    }

    method Get(userId: string, key: string, net: Delivery) returns (r: Result<Reading, Unreachable>)
      ensures r == if net.Delivered?
                   then Ok(Parse(Read(redis.data, redis.clock, Keys.BuildKey(userId, key))))
                   else Err(Unreachable)
    {
      if !net.Delivered? {
        return Err(Unreachable);
      }
      var raw := redis.Get(Keys.BuildKey(userId, key));
      if raw.None? {
        return Ok(Missing);
      }
      return Ok(match raw.value case Record(record) => Found(record) case _ => Foreign);
    }

    /** True exactly when the key was free and this call took it. */
    method SetPending(userId: string, key: string, method_: string, path: string, net: Delivery)
        returns (r: Result<bool, Unreachable>)
      modifies redis`data
      ensures redis.data == Locked(old(redis.data), redis.clock, Keys.BuildKey(userId, key),
                                   PendingRecord(method_, path), net)
      ensures r == if net.Delivered?
                   then Ok(!Live(old(redis.data), redis.clock, Keys.BuildKey(userId, key)))
                   else Err(Unreachable)
    {
      if net.LostRequest? {
        return Err(Unreachable);
      }
      var record := PendingRecord(method_, path);
      var acquired := redis.SetNxEx(Keys.BuildKey(userId, key), Record(record), TTL_SECONDS);
      r := if net.LostReply? then Err(Unreachable) else Ok(acquired);
    }

    method SetCompleted(userId: string, key: string, method_: string, path: string, statusCode: int, body: Js,
                        net: Delivery)
        returns (r: Result<(), Unreachable>)
      modifies redis`data
      ensures redis.data == Stored(old(redis.data), redis.clock, Keys.BuildKey(userId, key),
                                   CompletedRecord(method_, path, statusCode, body), net)
      ensures r.Ok? <==> net.Delivered?
    {
      if net.LostRequest? {
        return Err(Unreachable);
      }
      var record := CompletedRecord(method_, path, statusCode, body);
      var _ := redis.SetPx(Keys.BuildKey(userId, key), Record(record), 1000 * TTL_SECONDS);
      r := if net.LostReply? then Err(Unreachable) else Ok(());
    }

    method SetCompletedFailure(userId: string, key: string, method_: string, path: string, errorCode: int,
                               message: string, net: Delivery)
        returns (r: Result<(), Unreachable>)
      modifies redis`data
      ensures redis.data == Stored(old(redis.data), redis.clock, Keys.BuildKey(userId, key),
                                   FailedRecord(method_, path, errorCode, message), net)
      ensures r.Ok? <==> net.Delivered?
    {
      if net.LostRequest? {
        return Err(Unreachable);
      }
      var record := FailedRecord(method_, path, errorCode, message);
      var _ := redis.SetPx(Keys.BuildKey(userId, key), Record(record), 1000 * TTL_SECONDS);
      r := if net.LostReply? then Err(Unreachable) else Ok(());
    }
  }
}
