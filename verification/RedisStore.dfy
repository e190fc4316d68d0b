/** The shared key-value store: values, expiry in integer milliseconds, and the
    commands the application issues. */
module RedisStore {
  import opened Prelude
  import opened Json

  datatype RecordState = Pending | Completed

  /** The JSON record kept under an idempotency key. */
  datatype IdempotencyRecord = IdempotencyRecord(
    state: RecordState,
    method_: string,
    path: string,
    statusCode: Option<int>,
    responseBody: Js,
    failed: bool,
    errorCode: Option<int>,
    message: Option<string>)

  /** A stored value: a record, a number, or rows of a cached query. */
  datatype Value =
    | Record(record: IdempotencyRecord)
    | Number(n: int)
    | Rows(text: string)

  /** `expiry == None` is a key without a time to live. */
  datatype Entry = Entry(value: Value, expiry: Option<int>)

  type Store = map<string, Entry>

  predicate Live(s: Store, now: int, k: string) {
    k in s && (s[k].expiry.Some? ==> now < s[k].expiry.value)
  }

  /** GET */
  function Read(s: Store, now: int, k: string): Option<Value> {
    if Live(s, now, k) then Some(s[k].value) else None
  }

  /** PTTL: -2 for a missing key, -1 for a key that never expires. */
  function PttlOf(s: Store, now: int, k: string): int {
    if !Live(s, now, k) then -2
    else if s[k].expiry.None? then -1
    else s[k].expiry.value - now
  }

  /** SET with an expiry of `ms` milliseconds. */
  function Write(s: Store, now: int, k: string, v: Value, ms: int): Store {
    s[k := Entry(v, Some(now + ms))]
  }

  /** SET NX with an expiry: writes only when the key is not live. */
  function WriteIfAbsent(s: Store, now: int, k: string, v: Value, ms: int): Store {
    if Live(s, now, k) then s else Write(s, now, k, v, ms)
  }

  /** INCR: None when the live value is not a number.  A live key keeps its expiry. */
  function Increased(s: Store, now: int, k: string): Option<int> {
    if !Live(s, now, k) then Some(1)
    else if s[k].value.Number? then Some(s[k].value.n + 1)
    else None
  }

  function AfterIncr(s: Store, now: int, k: string): Store {
    var n := Increased(s, now, k);
    if n.None? then s
    else s[k := Entry(Number(n.value), if Live(s, now, k) then s[k].expiry else None)]
  }

  /** PEXPIRE: a time that is not positive deletes the key. */
  function AfterPExpire(s: Store, now: int, k: string, ms: int): Store {
    if !Live(s, now, k) then s
    else if ms <= 0 then s - {k}
    else s[k := s[k].(expiry := Some(now + ms))]
  }

  /** The client connection: the server's data and the server's clock. */
  class RedisClient {
    var data: Store
    var clock: int

    constructor (data: Store, clock: int)
      ensures this.data == data && this.clock == clock
    {
      this.data, this.clock := data, clock;
    }

    method Get(k: string) returns (v: Option<Value>)
      ensures v == Read(data, clock, k)
    {
      if k in data && (data[k].expiry.Some? ==> clock < data[k].expiry.value) {
        v := Some(data[k].value);
      } else {
        v := None;
      }
    }

    method Pttl(k: string) returns (ms: int)
      ensures ms == PttlOf(data, clock, k)
    {
      if !Live(data, clock, k) {
        ms := -2;
      } else if data[k].expiry.None? {
        ms := -1;
      } else {
        ms := data[k].expiry.value - clock;
      }
    }

    /** SET k v PX ms; refused by the server when ms is not positive. */
    method SetPx(k: string, v: Value, ms: int) returns (ok: bool)
      modifies this`data
      ensures ok == (ms > 0)
      ensures data == if ok then Write(old(data), clock, k, v, ms) else old(data)
    {
      ok := ms > 0;
      if ok {
        data := data[k := Entry(v, Some(clock + ms))];
      }
    }

    method SetNxEx(k: string, v: Value, seconds: int) returns (ok: bool)
      requires seconds > 0
      modifies this`data
      ensures ok == !Live(old(data), clock, k)
      ensures data == WriteIfAbsent(old(data), clock, k, v, 1000 * seconds)
    {
      ok := !Live(data, clock, k);
      if ok {
        data := data[k := Entry(v, Some(clock + 1000 * seconds))];
      }
    }

    method Incr(k: string) returns (n: Option<int>)
      modifies this`data
      ensures n == Increased(old(data), clock, k)
      ensures data == AfterIncr(old(data), clock, k)
    {
      if !Live(data, clock, k) {
        n := Some(1);
        data := data[k := Entry(Number(1), None)];
      } else if data[k].value.Number? {
        n := Some(data[k].value.n + 1);
        data := data[k := Entry(Number(n.value), data[k].expiry)];
      } else {
        n := None;
      }
    }

    method PExpire(k: string, ms: int)
      modifies this`data
      ensures data == AfterPExpire(old(data), clock, k, ms)
    {
      if Live(data, clock, k) {
        if ms <= 0 {
          data := data - {k};
        } else {
          data := data[k := data[k].(expiry := Some(clock + ms))];
        }
      }
    }
  }
}
