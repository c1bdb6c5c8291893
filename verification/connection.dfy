/**
 * The connection manager: class `Cache` with its class-level state
 * (`_instance`, `_cache_client`, `_cache_client_unavailable`), the Redis URL
 * it connects to, and `get_redis`' lazy, once-only initialisation.
 * `Redis.from_url` and `ping` are foreign: their joint outcome is an input.
 */
module Connection {
  import opened Wrappers
  import opened Strings

  /** The process environment variables `_initialize_redis` reads; None when unset. */
  datatype RedisEnv = RedisEnv(host: Option<string>, port: Option<string>, password: Option<string>, db: Option<string>)

  const DEFAULT_HOST: string := "localhost"
  const DEFAULT_PORT: string := "6379"
  const DEFAULT_DB: string := "0"

  function Host(env: RedisEnv): string { env.host.GetOr(DEFAULT_HOST) }
  function Port(env: RedisEnv): string { env.port.GetOr(DEFAULT_PORT) }
  function Password(env: RedisEnv): string { env.password.GetOr("") }
  function Db(env: RedisEnv): string { env.db.GetOr(DEFAULT_DB) }

  /** The URL `_initialize_redis` passes to `Redis.from_url`. */
  function RedisUrl(env: RedisEnv): (url: string)
    ensures StartsWith(url, "redis://")
  {
    var tail := Host(env) + ":" + Port(env) + "/" + Db(env);
    var url := if Password(env) != "" then "redis://:" + Password(env) + "@" + tail else "redis://" + tail;
    assert url[..8] == "redis://";
    url
  }

  /** With nothing set, the client connects to the local default server. */
  lemma DefaultUrl()
    ensures RedisUrl(RedisEnv(None, None, None, None)) == "redis://localhost:6379/0"
  {
  }

  /**
   * The URL carries an authentication part exactly when a non-empty password
   * is set (an empty REDIS_PASSWORD counts as none), provided host, port and
   * database contain no `@`.
   */
  lemma UrlAuthIffPassword(env: RedisEnv)
    requires '@' !in Host(env) && '@' !in Port(env) && '@' !in Db(env)
    ensures ('@' in RedisUrl(env)) <==> Password(env) != ""
    ensures Password(env) != "" ==> StartsWith(RedisUrl(env), "redis://:" + Password(env) + "@")
  {
    var tail := Host(env) + ":" + Port(env) + "/" + Db(env);
    assert '@' !in tail by {
      assert forall c :: c in tail ==> c in Host(env) || c == ':' || c in Port(env) || c == '/' || c in Db(env);
    }
    var url := RedisUrl(env);
    if Password(env) != "" {
      var head := "redis://:" + Password(env) + "@";
      assert url == head + tail;
      assert url[|head| - 1] == '@';
      StartsWithAppend(head, tail, head);
    } else {
      assert url == "redis://" + tail;
      assert forall c :: c in url ==> c in "redis://" || c in tail;
    }
  }

  /** An opaque live client: the URL it was made from and an identity. */
  datatype Connection = Connection(url: string, id: nat)

  /** What `Redis.from_url(...)` followed by `ping()` does. */
  datatype Ping =
    | PingOk(id: nat)   // a truthy pong: the new client is kept
    | PingFalse         // a falsy pong
    | ConnectError      // RedisError, TimeoutError or ConnectionError raised

  /** The class-level state of `Cache`. */
  datatype ConnState = ConnState(instance: bool, client: Option<Connection>, unavailable: bool)

  /** The state when the module is first imported. */
  const START: ConnState := ConnState(false, None, false)

  /** The manager never holds a client while it is marked unavailable. */
  predicate Consistent(s: ConnState) {
    s.unavailable ==> s.client.None?
  }

  /** Neither connected nor given up: the next `get_redis` initialises. */
  predicate NeedsInit(s: ConnState) {
    !s.unavailable && s.client.None?
  }

  /** `Cache.__new__`: the first construction creates the instance and clears the unavailable flag. */
  function ConstructSpec(s: ConnState): (r: ConnState)
    ensures r.instance && r.client == s.client
    ensures r.unavailable == (s.instance && s.unavailable)
  {
    if !s.instance then s.(instance := true, unavailable := false) else s
  }

  /** `Cache._initialize_redis`: keep a client that answered the ping, otherwise give up for good. */
  function InitializeSpec(s: ConnState, env: RedisEnv, ping: Ping): (r: ConnState)
    ensures r.instance == s.instance
    ensures r.client.Some? <==> ping.PingOk?
    ensures ping.PingOk? ==> r.client == Some(Connection(RedisUrl(env), ping.id)) && r.unavailable == s.unavailable
    ensures !ping.PingOk? ==> r.unavailable
  {
    match ping
    case PingOk(id) => s.(client := Some(Connection(RedisUrl(env), id)))
    case PingFalse => s.(client := None, unavailable := true)
    case ConnectError => s.(unavailable := true, client := None)
  }

  /** The new state after `get_redis` and the client it returns. */
  datatype Got = Got(state: ConnState, client: Option<Connection>)

  /** `Cache.get_redis`, read sequentially (the lock only serialises the initialisation). */
  function GetRedisSpec(s: ConnState, env: RedisEnv, ping: Ping): (g: Got)
    ensures s.unavailable ==> g == Got(s, None)
    ensures !s.unavailable && s.client.Some? ==> g == Got(s, s.client)
    ensures NeedsInit(s) ==> g.state == InitializeSpec(s, env, ping)
    ensures Consistent(s) ==> Consistent(g.state) && !NeedsInit(g.state) && g.client == g.state.client
  {
    if s.unavailable then Got(s, None)
    else if s.client.Some? then Got(s, s.client)
    else
      var s' := InitializeSpec(s, env, ping);
      Got(s', s'.client)
  }

  // ---------------------------------------------------------------------
  // Many calls in a row

  /** The clients returned by consecutive `get_redis` calls, with the given ping outcomes. */
  function Results(s: ConnState, env: RedisEnv, pings: seq<Ping>): (r: seq<Option<Connection>>)
    ensures |r| == |pings|
    decreases |pings|
  {
    if pings == [] then []
    else
      var g := GetRedisSpec(s, env, pings[0]);
      [g.client] + Results(g.state, env, pings[1..])
  }

  /** The manager's state after consecutive `get_redis` calls with the given ping outcomes. */
  function After(s: ConnState, env: RedisEnv, pings: seq<Ping>): ConnState
    decreases |pings|
  {
    if pings == [] then s else After(GetRedisSpec(s, env, pings[0]).state, env, pings[1..])
  }

  /** The `i`-th call returns what `get_redis` returns in the state the earlier calls left. */
  lemma {:induction false} ResultsAreSuccessiveCalls(s: ConnState, env: RedisEnv, pings: seq<Ping>)
    ensures forall i :: 0 <= i < |pings| ==>
      Results(s, env, pings)[i] == GetRedisSpec(After(s, env, pings[..i]), env, pings[i]).client
    decreases |pings|
  {
    if pings != [] {
      var g := GetRedisSpec(s, env, pings[0]);
      ResultsAreSuccessiveCalls(g.state, env, pings[1..]);
      forall i | 0 < i < |pings|
        ensures Results(s, env, pings)[i] == GetRedisSpec(After(s, env, pings[..i]), env, pings[i]).client
      {
        assert pings[..i][1..] == pings[1..][..i - 1];
        assert pings[1..][i - 1] == pings[i];
      }
      assert pings[..0] == [];
    }
  }

  /** How many of those calls ran `_initialize_redis`. */
  function InitCount(s: ConnState, env: RedisEnv, pings: seq<Ping>): nat
    decreases |pings|
  {
    if pings == [] then 0
    else (if NeedsInit(s) then 1 else 0) + InitCount(GetRedisSpec(s, env, pings[0]).state, env, pings[1..])
  }

  /** Once settled (connected or given up), no call initialises again. */
  lemma {:induction false} SettledNeverInitialises(s: ConnState, env: RedisEnv, pings: seq<Ping>)
    requires Consistent(s) && !NeedsInit(s)
    ensures InitCount(s, env, pings) == 0
    decreases |pings|
  {
    if pings != [] {
      SettledNeverInitialises(GetRedisSpec(s, env, pings[0]).state, env, pings[1..]);
    }
  }

  /** However many calls follow, initialisation runs at most once. */
  lemma AtMostOneInitialisation(s: ConnState, env: RedisEnv, pings: seq<Ping>)
    requires Consistent(s)
    ensures InitCount(s, env, pings) <= 1
    ensures InitCount(s, env, pings) == 1 <==> NeedsInit(s) && pings != []
  {
    if pings != [] {
      SettledNeverInitialises(GetRedisSpec(s, env, pings[0]).state, env, pings[1..]);
    }
  }

  /** After a failure every call returns None without trying again. */
  lemma {:induction false} NoRetryAfterFailure(s: ConnState, env: RedisEnv, pings: seq<Ping>)
    requires s.unavailable
    ensures InitCount(s, env, pings) == 0
    ensures forall i :: 0 <= i < |pings| ==> Results(s, env, pings)[i] == None
    decreases |pings|
  {
    if pings != [] {
      NoRetryAfterFailure(s, env, pings[1..]);
    }
  }

  /** Once connected, every call returns that same client. */
  lemma {:induction false} SameClientOnceConnected(s: ConnState, env: RedisEnv, pings: seq<Ping>)
    requires !s.unavailable && s.client.Some?
    ensures InitCount(s, env, pings) == 0
    ensures forall i :: 0 <= i < |pings| ==> Results(s, env, pings)[i] == s.client
    decreases |pings|
  {
    if pings != [] {
      SameClientOnceConnected(s, env, pings[1..]);
    }
  }

  /**
   * A first `Cache()` after a failed `get_redis` clears the unavailable flag,
   * so the next `get_redis` initialises again.
   */
  lemma FirstConstructionReenablesInit(env: RedisEnv)
    ensures var failed := GetRedisSpec(START, env, ConnectError).state;
            failed.unavailable && NeedsInit(ConstructSpec(failed))
  {
  }

  /** Every step keeps the manager consistent. */
  lemma StepsKeepConsistent(s: ConnState, env: RedisEnv, ping: Ping)
    requires Consistent(s)
    ensures Consistent(ConstructSpec(s))
    ensures Consistent(GetRedisSpec(s, env, ping).state)
  {
  }

  // ---------------------------------------------------------------------
  // The class

  /** The process-wide `Cache` class; one object stands for its class-level fields. */
  class Cache {
    const env: RedisEnv
    var instance: bool
    var client: Option<Connection>
    var unavailable: bool
    ghost var initAttempts: nat

    function State(): ConnState
      reads this
    {
      ConnState(instance, client, unavailable)
    }

    ghost predicate Valid()
      reads this
    {
      Consistent(State())
    }

    /** The class as first defined: no instance, no client, not marked unavailable. */
    constructor (env: RedisEnv)
      ensures this.env == env && State() == START && Valid() && initAttempts == 0
    {
      this.env := env;
      instance, client, unavailable := false, None, false;
      initAttempts := 0;
    }

    /** `Cache()`, i.e. `Cache.__new__`. */
    method New()
      requires Valid()
      modifies this
      ensures Valid()
      ensures State() == ConstructSpec(old(State())) && initAttempts == old(initAttempts)
    {
      if !instance {
        instance := true;
        unavailable := false;
      }
    }

    /** `Cache._initialize_redis`, with `ping` the outcome of connecting. */
    method InitializeRedis(ping: Ping)
      modifies this
      ensures State() == InitializeSpec(old(State()), env, ping)
      ensures initAttempts == old(initAttempts) + 1
    {
      initAttempts := initAttempts + 1;
      var url := RedisUrl(env);
      match ping {
        case PingOk(id) =>
          client := Some(Connection(url, id));
        case PingFalse =>
          client := None;
          unavailable := true;
        case ConnectError =>
          unavailable := true;
          client := None;
      }
    }

    /** `Cache.get_redis`; `ping` is used only if an initialisation runs. */
    method GetRedis(ping: Ping) returns (c: Option<Connection>)
      requires Valid()
      modifies this
      ensures Valid()
      ensures Got(State(), c) == GetRedisSpec(old(State()), env, ping)
      ensures initAttempts == old(initAttempts) + (if NeedsInit(old(State())) then 1 else 0)
    {
      if unavailable {
        return None;
      }
      if client.None? {
        // the lock is taken here; the state is checked again under it
        if client.None? && !unavailable {
          InitializeRedis(ping);
        }
      }
      return client;
    }
  }
}
