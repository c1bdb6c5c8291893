/**
 * Reading and writing the cache (`set_cache`, `get_cache`) and the
 * cache-aside decorator `unified_safe_cache`. The Redis server is a map from
 * key to stored entry; each backend command may fail, and the outcome of
 * connecting (should `get_redis` have to) is an input of every call.
 */
module CacheOps {
  import opened Wrappers
  import opened Values
  import opened Keys
  import opened Connection

  /** Which family of exception a Redis command raised. */
  datatype Fault =
    | Transient   // TimeoutError or ConnectionError
    | Rejected    // any other RedisError

  /** Exceptions a call can end with. */
  datatype Error =
    | Backend(fault: Fault)
    | Malformed           // json.loads rejected the stored text (ValueError)
    | AppError(name: string)   // raised by the wrapped function itself

  /** A Python call either returns a value or raises. */
  datatype Outcome<T> = Returned(value: T) | Raised(error: Error)

  /**
   * What the server holds under a key: a JSON document, or, written by
   * someone else, the empty string or other text that is not JSON.
   */
  datatype Payload = Doc(json: Json) | Blank | Unparsable

  /** A stored entry; `ex` is the expiry passed to SET, recorded and not enforced. */
  datatype Entry = Entry(payload: Payload, ex: Option<int>)

  /** The outcomes of the backend for one cache operation. */
  datatype Link = Link(ping: Ping, fault: Option<Fault>)

  /** The connection manager's state together with the server's key space. */
  datatype World = World(conn: ConnState, store: map<string, Entry>)

  datatype Reply<T> = Reply(world: World, out: T)

  /** The entry a successful `set_cache(key, value, ttl)` leaves. */
  function Written(value: Value, ttl: Option<int>): Entry
    requires Serializable(value)
  {
    Entry(Doc(Encode(value).value), ttl)
  }

  /**
   * `set_cache(key, value, ttl)`. A missing TTL is only logged. Nothing is
   * written without a client, when the value cannot be encoded (the
   * TypeError is caught) or when SET fails (caught); nothing is raised.
   */
  function SetCacheSpec(w: World, env: RedisEnv, key: string, value: Value, ttl: Option<int>, link: Link): (r: World)
    ensures r.conn == GetRedisSpec(w.conn, env, link.ping).state
    ensures forall k :: k != key ==> (k in r.store <==> k in w.store) && (k in w.store ==> r.store[k] == w.store[k])
    ensures GetRedisSpec(w.conn, env, link.ping).client.None? || !Serializable(value) || link.fault.Some?
            ==> r.store == w.store
    ensures GetRedisSpec(w.conn, env, link.ping).client.Some? && Serializable(value) && link.fault.None?
            ==> key in r.store && r.store[key] == Written(value, ttl)
  {
    var g := GetRedisSpec(w.conn, env, link.ping);
    if g.client.None? then World(g.state, w.store)
    else
      match Encode(value)
      case Err(_) => World(g.state, w.store)
      case Ok(j) =>
        if link.fault.Some? then World(g.state, w.store)
        else World(g.state, w.store[key := Entry(Doc(j), ttl)])
  }

  /**
   * `get_cache(key)`. None without a client, on a failed GET, for an
   * absent key or an empty value; otherwise the decoded document. Text that is not JSON makes
   * json.loads raise, and `get_cache` does not catch that.
   */
  function GetCacheSpec(w: World, env: RedisEnv, key: string, link: Link): (r: Reply<Outcome<Value>>)
    ensures r.world == World(GetRedisSpec(w.conn, env, link.ping).state, w.store)
    ensures GetRedisSpec(w.conn, env, link.ping).client.None? || link.fault.Some? || key !in w.store
            || w.store[key].payload.Blank?
            ==> r.out == Returned(Null)
    ensures r.out.Raised? <==> GetRedisSpec(w.conn, env, link.ping).client.Some? && link.fault.None?
                               && key in w.store && w.store[key].payload.Unparsable?
    ensures r.out.Raised? ==> r.out.error == Malformed
    ensures GetRedisSpec(w.conn, env, link.ping).client.Some? && link.fault.None?
            && key in w.store && w.store[key].payload.Doc?
            ==> r.out == Returned(Decode(w.store[key].payload.json))
    ensures r.out.Returned? && r.out.value != Null
            ==> key in w.store && w.store[key].payload.Doc? && r.out.value == Decode(w.store[key].payload.json)
  {
    var g := GetRedisSpec(w.conn, env, link.ping);
    var w' := World(g.state, w.store);
    if g.client.None? || link.fault.Some? || key !in w.store then Reply(w', Returned(Null))
    else
      match w.store[key].payload
      case Doc(j) => Reply(w', Returned(Decode(j)))
      case Blank => Reply(w', Returned(Null))
      case Unparsable => Reply(w', Raised(Malformed))
  }

  /** A write that reached the server is read back as the value's plain form. */
  lemma WriteThenRead(w: World, env: RedisEnv, key: string, value: Value, ttl: Option<int>, write: Link, read: Link)
    requires Consistent(w.conn)
    requires GetRedisSpec(w.conn, env, write.ping).client.Some? && write.fault.None? && read.fault.None?
    requires Serializable(value)
    ensures GetCacheSpec(SetCacheSpec(w, env, key, value, ttl, write), env, key, read).out == Returned(Plain(value))
  {
    var w1 := SetCacheSpec(w, env, key, value, ttl, write);
    DecodeEncode(value);
    assert !w1.conn.unavailable && w1.conn.client.Some?;
  }

  // ---------------------------------------------------------------------
  // The cache-aside decorator

  /** A call of the wrapped function: positional arguments and keyword arguments, as text. */
  datatype Call = Call(args: seq<string>, kwargs: seq<(string, string)>)

  /** The key the wrapper uses: no argument is skipped. */
  function CallKey(name: string, prefix: string, call: Call): string {
    GenerateCacheKey(name, call.args, call.kwargs, [], [], prefix)
  }

  /** The new world, what the wrapper returns, and whether it ran the wrapped function. */
  datatype MemoReply = MemoReply(world: World, out: Outcome<Value>, produced: bool)

  /**
   * One call of the function `unified_safe_cache(expire, prefix)` returns
   * for `producer`: read (any exception is a miss), return a non-None hit,
   * else run the producer and store its result unless it is empty.
   */
  function MemoizedSpec(w: World, env: RedisEnv, name: string, prefix: string, expire: int,
                        producer: Call -> Outcome<Value>, call: Call, read: Link, write: Link): (r: MemoReply)
    ensures !r.produced ==> r.out.Returned? && r.out.value != Null && r.world.store == w.store
    ensures r.produced ==> r.out == producer(call)
    ensures r.out.Raised? ==> r.produced
    ensures r.world.store != w.store ==>
      r.produced && producer(call).Returned? && !IsEmptyData(producer(call).value)
      && Serializable(producer(call).value)
      && r.world.store == w.store[CallKey(name, prefix, call) := Written(producer(call).value, Some(expire))]
  {
    var key := CallKey(name, prefix, call);
    var got := GetCacheSpec(w, env, key, read);
    var cached := if got.out.Returned? then got.out.value else Null;
    if cached != Null then MemoReply(got.world, Returned(cached), false)
    else
      match producer(call)
      case Raised(e) => MemoReply(got.world, Raised(e), true)
      case Returned(result) =>
        var w' := if IsEmptyData(result) then got.world
                  else SetCacheSpec(got.world, env, key, result, Some(expire), write);
        MemoReply(w', Returned(result), true)
  }

  /** On a hit the wrapped function is not run, the cached value is returned and nothing is written. */
  lemma HitSkipsProducer(w: World, env: RedisEnv, name: string, prefix: string, expire: int,
                         producer: Call -> Outcome<Value>, call: Call, read: Link, write: Link)
    requires var got := GetCacheSpec(w, env, CallKey(name, prefix, call), read).out;
             got.Returned? && got.value != Null
    ensures var r := MemoizedSpec(w, env, name, prefix, expire, producer, call, read, write);
            !r.produced && r.out == GetCacheSpec(w, env, CallKey(name, prefix, call), read).out
            && r.world.store == w.store
  {
  }

  /**
   * On a miss the wrapped function runs exactly once and its outcome is
   * returned whatever the backend did; an empty result is never stored.
   */
  lemma MissRunsProducerOnce(w: World, env: RedisEnv, name: string, prefix: string, expire: int,
                             producer: Call -> Outcome<Value>, call: Call, read: Link, write: Link)
    requires var got := GetCacheSpec(w, env, CallKey(name, prefix, call), read).out;
             got.Raised? || got.value == Null
    ensures var r := MemoizedSpec(w, env, name, prefix, expire, producer, call, read, write);
            r.produced && r.out == producer(call)
            && (producer(call).Raised? || IsEmptyData(producer(call).value) ==> r.world.store == w.store)
  {
  }

  /** Results that are empty never reach the cache, whatever the backend does. */
  lemma EmptyResultNeverStored(w: World, env: RedisEnv, name: string, prefix: string, expire: int,
                               producer: Call -> Outcome<Value>, call: Call, read: Link, write: Link)
    requires producer(call).Returned? && IsEmptyData(producer(call).value)
    ensures MemoizedSpec(w, env, name, prefix, expire, producer, call, read, write).world.store == w.store
  {
  }

  /** Without a server every call runs the wrapped function, returns its outcome and writes nothing. */
  lemma DegradedMode(w: World, env: RedisEnv, name: string, prefix: string, expire: int,
                     producer: Call -> Outcome<Value>, call: Call, read: Link, write: Link)
    requires w.conn.unavailable
    ensures var r := MemoizedSpec(w, env, name, prefix, expire, producer, call, read, write);
            r.produced && r.out == producer(call) && r.world == w
  {
  }

  /**
   * Two calls with the same arguments: when the first ran the function and
   * could store its non-empty, encodable result, the second does not run
   * it and returns the result's plain form.
   */
  lemma SecondCallHits(w: World, env: RedisEnv, name: string, prefix: string, expire: int,
                       producer: Call -> Outcome<Value>, call: Call,
                       read1: Link, write1: Link, read2: Link, write2: Link)
    requires Consistent(w.conn)
    requires GetRedisSpec(w.conn, env, read1.ping).client.Some?
    requires write1.fault.None? && read2.fault.None?
    requires producer(call).Returned? && !IsEmptyData(producer(call).value) && Serializable(producer(call).value)
    requires MemoizedSpec(w, env, name, prefix, expire, producer, call, read1, write1).produced
    ensures var r1 := MemoizedSpec(w, env, name, prefix, expire, producer, call, read1, write1);
            var r2 := MemoizedSpec(r1.world, env, name, prefix, expire, producer, call, read2, write2);
            !r2.produced && r2.out == Returned(Plain(producer(call).value))
  {
    var v := producer(call).value;
    var key := CallKey(name, prefix, call);
    var got := GetCacheSpec(w, env, key, read1);
    assert got.world.conn.client.Some? && !got.world.conn.unavailable;
    WriteThenRead(got.world, env, key, v, Some(expire), write1, read2);
    assert Plain(v) != Null;
  }

  /** For plain JSON results the second call returns exactly what the first did. */
  lemma SecondCallSameValue(w: World, env: RedisEnv, name: string, prefix: string, expire: int,
                            producer: Call -> Outcome<Value>, call: Call,
                            read1: Link, write1: Link, read2: Link, write2: Link)
    requires Consistent(w.conn)
    requires GetRedisSpec(w.conn, env, read1.ping).client.Some?
    requires write1.fault.None? && read2.fault.None?
    requires producer(call).Returned? && !IsEmptyData(producer(call).value) && PlainJson(producer(call).value)
    requires MemoizedSpec(w, env, name, prefix, expire, producer, call, read1, write1).produced
    ensures var r1 := MemoizedSpec(w, env, name, prefix, expire, producer, call, read1, write1);
            var r2 := MemoizedSpec(r1.world, env, name, prefix, expire, producer, call, read2, write2);
            !r2.produced && r2.out == r1.out
  {
    var v := producer(call).value;
    PlainJsonSerializable(v);
    SecondCallHits(w, env, name, prefix, expire, producer, call, read1, write1, read2, write2);
    PlainJsonFixed(v);
    var r1 := MemoizedSpec(w, env, name, prefix, expire, producer, call, read1, write1);
    var r2 := MemoizedSpec(r1.world, env, name, prefix, expire, producer, call, read2, write2);
    assert r1.out == Returned(v);
    assert r2.out == Returned(Plain(v)) == Returned(v);
  }

  /** An empty tuple is not empty data: it is stored, and the next call returns an empty list from the cache. */
  lemma EmptyTupleComesBackAsList(w: World, env: RedisEnv, name: string, prefix: string, expire: int,
                                  producer: Call -> Outcome<Value>, call: Call,
                                  read1: Link, write1: Link, read2: Link, write2: Link)
    requires Consistent(w.conn)
    requires GetRedisSpec(w.conn, env, read1.ping).client.Some?
    requires write1.fault.None? && read2.fault.None?
    requires producer(call) == Returned(Tuple([]))
    requires MemoizedSpec(w, env, name, prefix, expire, producer, call, read1, write1).produced
    ensures var r1 := MemoizedSpec(w, env, name, prefix, expire, producer, call, read1, write1);
            var r2 := MemoizedSpec(r1.world, env, name, prefix, expire, producer, call, read2, write2);
            !r2.produced && r2.out == Returned(List([]))
  {
    SecondCallHits(w, env, name, prefix, expire, producer, call, read1, write1, read2, write2);
    assert Plain(Tuple([])) == List([]);
  }

  // ---------------------------------------------------------------------
  // The imperative layer

  /** The Redis server's key space. */
  class Server {
    var store: map<string, Entry>

    constructor ()
      ensures store == map[]
    {
      store := map[];
    }
  }

  /** `set_cache(key, value, ttl)`. */
  method SetCache(cache: Cache, server: Server, key: string, value: Value, ttl: Option<int>, link: Link)
    requires cache.Valid()
    modifies cache, server
    ensures cache.Valid()
    ensures World(cache.State(), server.store)
         == SetCacheSpec(old(World(cache.State(), server.store)), cache.env, key, value, ttl, link)
  {
    // a missing or zero TTL is only logged
    var client := cache.GetRedis(link.ping);
    if client.None? {
      return;
    }
    var encoded := Encode(value);
    if encoded.Err? {
      return;   // TypeError from serialize_datetime, caught and logged
    }
    if link.fault.Some? {
      return;   // SET failed, caught and logged
    }
    server.store := server.store[key := Entry(Doc(encoded.value), ttl)];
  }

  /** `get_cache(key)`. */
  method GetCache(cache: Cache, server: Server, key: string, link: Link) returns (out: Outcome<Value>)
    requires cache.Valid()
    modifies cache
    ensures cache.Valid()
    ensures Reply(World(cache.State(), server.store), out)
         == GetCacheSpec(old(World(cache.State(), server.store)), cache.env, key, link)
  {
    var client := cache.GetRedis(link.ping);
    if client.None? {
      return Returned(Null);
    }
    if link.fault.Some? || key !in server.store {
      return Returned(Null);   // a failed GET is caught; an absent key reads as None
    }
    match server.store[key].payload {
      case Doc(j) => out := Returned(Decode(j));
      case Blank => out := Returned(Null);   // an empty value is falsy
      case Unparsable => out := Raised(Malformed);
    }
  }

  /** The function `unified_safe_cache(expire, prefix)` makes of `producer`. */
  class Memoized {
    const name: string
    const prefix: string
    const expire: int
    const producer: Call -> Outcome<Value>
    /** How many times the wrapped function has run. */
    ghost var calls: nat

    constructor (name: string, producer: Call -> Outcome<Value>, expire: int, prefix: string)
      ensures this.name == name && this.producer == producer
      ensures this.expire == expire && this.prefix == prefix && calls == 0
    {
      this.name, this.producer, this.expire, this.prefix := name, producer, expire, prefix;
      calls := 0;
    }

    /** One call of the wrapper. */
    method Invoke(cache: Cache, server: Server, call: Call, read: Link, write: Link) returns (out: Outcome<Value>)
      requires cache.Valid()
      modifies this, cache, server
      ensures cache.Valid()
      ensures var r := MemoizedSpec(old(World(cache.State(), server.store)), cache.env, name, prefix, expire,
                                    producer, call, read, write);
              World(cache.State(), server.store) == r.world && out == r.out
              && calls == old(calls) + (if r.produced then 1 else 0)
    {
      var key := GenerateCacheKey(name, call.args, call.kwargs, [], [], prefix);
      var cached := Null;
      var got := GetCache(cache, server, key, read);
      if got.Returned? {
        cached := got.value;
      }   // an exception is logged and treated as a miss
      if cached != Null {
        return Returned(cached);
      }
      calls := calls + 1;
      var result := producer(call);
      if result.Raised? {
        return result;
      }
      if !IsEmptyData(result.value) {
        SetCache(cache, server, key, result.value, Some(expire), write);
      }
      return result;
    }
  }
}
