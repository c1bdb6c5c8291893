/**
 * Pattern invalidation: `clear_pattern`, `clear_cache_by_pattern` and
 * `clear_all_cache`. The server's answers to the successive
 * `SCAN cursor MATCH glob` commands are an input: each names the keys the
 * cursor step visited (the glob filter is applied here, as the server
 * does), the next cursor and the outcome of executing the pipeline of
 * deletes, or is a failure of the scan itself.
 */
module Invalidation {
  import opened Strings
  import opened Glob
  import opened Keys
  import opened Connection
  import opened CacheOps
  import opened Values
  import opened Wrappers

  /**
   * One answer to SCAN. `exec` is the failure, if any, of the pipeline's
   * `execute` that follows; it is consulted only when the batch matched
   * keys, since the pipeline is executed only then.
   */
  datatype ScanReply =
    | Batch(cursor: nat, visited: seq<string>, exec: Option<Fault>)
    | ScanFault(fault: Fault)

  /** The glob `clear_pattern` scans for. */
  function PatternGlob(prefix: string, pattern: string): (glob: string)
    ensures '*' !in prefix && '*' !in pattern ==>
      forall k :: Match(glob, k) <==> StartsWith(k, prefix) && Contains(k[|prefix|..], pattern)
  {
    var glob := prefix + "*" + pattern + "*";
    if '*' !in prefix && '*' !in pattern then InfixGlobAll(prefix, pattern); glob else glob
  }

  function Elems(keys: seq<string>): set<string> {
    set k | k in keys
  }

  /** The visited keys the glob matches, in order: what SCAN ... MATCH returns. */
  function Matching(glob: string, visited: seq<string>): (keys: seq<string>)
    ensures forall k :: k in keys <==> k in visited && Match(glob, k)
    decreases |visited|
  {
    if visited == [] then []
    else (if Match(glob, visited[0]) then [visited[0]] else []) + Matching(glob, visited[1..])
  }

  /** The exception one step of the loop raises: from the scan, or from executing a non-empty pipeline. */
  function FaultOf(glob: string, r: ScanReply): Option<Fault> {
    if r.ScanFault? then Some(r.fault)
    else if Matching(glob, r.visited) != [] then r.exec
    else None
  }

  /** A step whose deletes take effect: a batch with no exception. */
  predicate Applied(glob: string, r: ScanReply) {
    r.Batch? && FaultOf(glob, r).None?
  }

  /** An answer after which the loop ends: an exception, or cursor 0. */
  predicate Terminal(glob: string, r: ScanReply) {
    FaultOf(glob, r).Some? || r.cursor == 0
  }

  /** How many SCAN commands `clear_pattern` issues. */
  function Consumed(glob: string, replies: seq<ScanReply>): (n: nat)
    ensures n <= |replies|
    decreases |replies|
  {
    if replies == [] then 0
    else if Terminal(glob, replies[0]) then 1
    else 1 + Consumed(glob, replies[1..])
  }

  /** The keys matched in the batches, among the answers the loop consumes, whose deletes take effect. */
  function Deleted(glob: string, replies: seq<ScanReply>): set<string> {
    set j, k | 0 <= j < Consumed(glob, replies) && Applied(glob, replies[j]) && k in replies[j].visited && Match(glob, k) :: k
  }

  /** The key space and the outcome after `clear_pattern`. */
  datatype Cleared = Cleared(store: map<string, Entry>, out: Outcome<()>)

  /**
   * `clear_pattern`: scan, delete the returned keys in one pipeline, stop
   * at cursor 0. A timeout or connection error, of the scan or of the
   * pipeline, ends it quietly; any other Redis error is re-raised. Batches
   * deleted before a failure stay deleted; a pipeline that fails deletes
   * nothing.
   */
  function ClearSpec(store: map<string, Entry>, glob: string, replies: seq<ScanReply>): (r: Cleared)
    ensures r.store.Keys <= store.Keys
    ensures forall k :: k in r.store ==> r.store[k] == store[k]
    ensures r.out.Raised? ==> r.out.error == Backend(Rejected)
    decreases |replies|
  {
    if replies == [] then Cleared(store, Returned(()))
    else
      match replies[0]
      case ScanFault(Transient) => Cleared(store, Returned(()))
      case ScanFault(Rejected) => Cleared(store, Raised(Backend(Rejected)))
      case Batch(cursor, visited, exec) =>
        var keys := Matching(glob, visited);
        if keys != [] && exec == Some(Transient) then Cleared(store, Returned(()))
        else if keys != [] && exec == Some(Rejected) then Cleared(store, Raised(Backend(Rejected)))
        else
          var rest := store - Elems(keys);
          if cursor == 0 then Cleared(rest, Returned(())) else ClearSpec(rest, glob, replies[1..])
  }

  // ---------------------------------------------------------------------
  // Properties

  /** At least one SCAN is issued, and the loop stops at the first answer with cursor 0 or a failure. */
  lemma {:induction false} StopsAtFirstTerminal(glob: string, replies: seq<ScanReply>)
    ensures replies != [] ==> Consumed(glob, replies) >= 1
    ensures forall j :: 0 <= j < Consumed(glob, replies) - 1 ==> !Terminal(glob, replies[j])
    ensures Consumed(glob, replies) == |replies| || Terminal(glob, replies[Consumed(glob, replies) - 1])
    decreases |replies|
  {
    if replies != [] && !Terminal(glob, replies[0]) {
      StopsAtFirstTerminal(glob, replies[1..]);
    }
  }

  lemma DeletedStep(glob: string, replies: seq<ScanReply>)
    requires replies != [] && !Terminal(glob, replies[0])
    ensures Deleted(glob, replies) == Elems(Matching(glob, replies[0].visited)) + Deleted(glob, replies[1..])
  {
    var first := Elems(Matching(glob, replies[0].visited));
    forall k | k in Deleted(glob, replies)
      ensures k in first + Deleted(glob, replies[1..])
    {
      var j :| 0 <= j < Consumed(glob, replies) && Applied(glob, replies[j]) && k in replies[j].visited && Match(glob, k);
      if j > 0 {
        assert replies[1..][j - 1] == replies[j];
      }
    }
    forall k | k in Deleted(glob, replies[1..])
      ensures k in Deleted(glob, replies)
    {
      var j :| 0 <= j < Consumed(glob, replies[1..]) && Applied(glob, replies[1..][j]) && k in replies[1..][j].visited && Match(glob, k);
      assert replies[j + 1] == replies[1..][j];
    }
  }

  /**
   * `clear_pattern` deletes exactly the matched keys of the batches it
   * consumes whose pipeline succeeds, changes no other entry, and raises
   * exactly when the step it stops at fails with a non-transient Redis error.
   */
  lemma {:induction false} ClearDeletesExactly(store: map<string, Entry>, glob: string, replies: seq<ScanReply>)
    ensures ClearSpec(store, glob, replies).store == store - Deleted(glob, replies)
    ensures ClearSpec(store, glob, replies).out.Raised?
        <==> Consumed(glob, replies) >= 1 && FaultOf(glob, replies[Consumed(glob, replies) - 1]) == Some(Rejected)
    ensures ClearSpec(store, glob, replies).out.Raised? ==> ClearSpec(store, glob, replies).out.error == Backend(Rejected)
    decreases |replies|
  {
    if replies == [] {
      assert Deleted(glob, replies) == {};
    } else if FaultOf(glob, replies[0]).Some? {
      FailingStep(store, glob, replies);
      assert store - {} == store;
    } else {
      var first := Elems(Matching(glob, replies[0].visited));
      if replies[0].cursor == 0 {
        LastStep(store, glob, replies);
      } else {
        ClearDeletesExactly(store - first, glob, replies[1..]);
        DeletedStep(glob, replies);
        assert store - first - Deleted(glob, replies[1..]) == store - (first + Deleted(glob, replies[1..]));
      }
    }
  }

  /** A step that fails ends the loop with nothing of its batch deleted. */
  lemma FailingStep(store: map<string, Entry>, glob: string, replies: seq<ScanReply>)
    requires replies != [] && FaultOf(glob, replies[0]).Some?
    ensures Consumed(glob, replies) == 1 && Deleted(glob, replies) == {}
    ensures ClearSpec(store, glob, replies)
         == Cleared(store, if FaultOf(glob, replies[0]) == Some(Rejected) then Raised(Backend(Rejected)) else Returned(()))
  {
    match replies[0]
    case ScanFault(_) =>
    case Batch(cursor, visited, exec) =>
      assert Matching(glob, visited) != [] && exec.Some?;
      match exec.value {
        case Transient =>
        case Rejected =>
      }
  }

  /** A batch with cursor 0 whose pipeline succeeds deletes its matched keys and ends the loop. */
  lemma LastStep(store: map<string, Entry>, glob: string, replies: seq<ScanReply>)
    requires replies != [] && Applied(glob, replies[0]) && replies[0].cursor == 0
    ensures Consumed(glob, replies) == 1
    ensures ClearSpec(store, glob, replies) == Cleared(store - Deleted(glob, replies), Returned(()))
  {
    var first := Elems(Matching(glob, replies[0].visited));
    assert Deleted(glob, replies) == first by {
      forall k | k in Deleted(glob, replies) ensures k in first {}
      forall k | k in first ensures k in Deleted(glob, replies) {
        assert Applied(glob, replies[0]) && k in replies[0].visited && Match(glob, k);
      }
    }
  }

  /** Keys the glob does not match keep their entries. */
  lemma Selective(store: map<string, Entry>, glob: string, replies: seq<ScanReply>, k: string)
    requires k in store && !Match(glob, k)
    ensures k in ClearSpec(store, glob, replies).store
    ensures ClearSpec(store, glob, replies).store[k] == store[k]
  {
    ClearDeletesExactly(store, glob, replies);
  }

  lemma InfixGlobAll(prefix: string, pattern: string)
    requires '*' !in prefix && '*' !in pattern
    ensures forall k :: Match(prefix + "*" + pattern + "*", k) <==> StartsWith(k, prefix) && Contains(k[|prefix|..], pattern)
  {
    forall k ensures Match(prefix + "*" + pattern + "*", k) <==> StartsWith(k, prefix) && Contains(k[|prefix|..], pattern) {
      InfixGlob(prefix, pattern, k);
    }
  }

  /** The glob matches the keys that start with the prefix and contain the pattern after it. */
  lemma InfixGlob(prefix: string, pattern: string, k: string)
    requires '*' !in prefix && '*' !in pattern
    ensures Match(prefix + "*" + pattern + "*", k) <==> StartsWith(k, prefix) && Contains(k[|prefix|..], pattern)
  {
    assert prefix + "*" + pattern + "*" == prefix + ("*" + pattern + "*");
    MatchLiteralHead(prefix, "*" + pattern + "*", k);
    if StartsWith(k, prefix) {
      MatchInfix(pattern, k[|prefix|..]);
    }
  }

  /** The pattern `*` under the default prefix matches every key that starts with `cache`. */
  lemma ClearAllGlob(k: string)
    ensures Match(PatternGlob(DEFAULT_PREFIX, "*"), k) <==> StartsWith(k, DEFAULT_PREFIX)
  {
    assert PatternGlob(DEFAULT_PREFIX, "*") == DEFAULT_PREFIX + seq(3, _ => '*');
    MatchLiteralHead(DEFAULT_PREFIX, seq(3, _ => '*'), k);
    if StartsWith(k, DEFAULT_PREFIX) {
      StarsMatchAll(3, k[|DEFAULT_PREFIX|..]);
    }
  }

  /** Of `prefix:a:1`, `prefix:b:2` and `other:a:3`, pattern `a` under prefix `prefix` removes only the first. */
  lemma SelectivityExample(e1: Entry, e2: Entry, e3: Entry)
    ensures var store := map["prefix:a:1" := e1, "prefix:b:2" := e2, "other:a:3" := e3];
            var replies := [Batch(0, ["prefix:a:1", "prefix:b:2", "other:a:3"], None)];
            ClearSpec(store, PatternGlob("prefix", "a"), replies)
              == Cleared(map["prefix:b:2" := e2, "other:a:3" := e3], Returned(()))
  {
    ExampleMatches();
    SelectiveBatch(PatternGlob("prefix", "a"), e1, e2, e3);
  }

  lemma SelectiveBatch(glob: string, e1: Entry, e2: Entry, e3: Entry)
    requires Match(glob, "prefix:a:1") && !Match(glob, "prefix:b:2") && !Match(glob, "other:a:3")
    ensures var store := map["prefix:a:1" := e1, "prefix:b:2" := e2, "other:a:3" := e3];
            var replies := [Batch(0, ["prefix:a:1", "prefix:b:2", "other:a:3"], None)];
            ClearSpec(store, glob, replies) == Cleared(map["prefix:b:2" := e2, "other:a:3" := e3], Returned(()))
  {
    MatchingFirstOnly(glob, "prefix:a:1", "prefix:b:2", "other:a:3");
    var store := map["prefix:a:1" := e1, "prefix:b:2" := e2, "other:a:3" := e3];
    assert Elems(["prefix:a:1"]) == {"prefix:a:1"};
    assert store - {"prefix:a:1"} == map["prefix:b:2" := e2, "other:a:3" := e3];
  }

  lemma MatchingFirstOnly(glob: string, a: string, b: string, c: string)
    requires Match(glob, a) && !Match(glob, b) && !Match(glob, c)
    ensures Matching(glob, [a, b, c]) == [a]
  {
    assert [c][1..] == [];
    assert Matching(glob, [c]) == [];
    assert [b, c][1..] == [c];
    assert Matching(glob, [b, c]) == [];
    assert [a, b, c][1..] == [b, c];
  }

  lemma ExampleMatches()
    ensures Match(PatternGlob("prefix", "a"), "prefix:a:1")
    ensures !Match(PatternGlob("prefix", "a"), "prefix:b:2")
    ensures !Match(PatternGlob("prefix", "a"), "other:a:3")
  {
    InfixGlob("prefix", "a", "prefix:a:1");
    InfixGlob("prefix", "a", "prefix:b:2");
    InfixGlob("prefix", "a", "other:a:3");
    assert "prefix:a:1"[6..] == ":a:1";
    assert StartsWith(":a:1"[1..], "a");
    assert "prefix:b:2"[6..] == ":b:2";
    assert 'a' !in ":b:2";
    if Contains(":b:2", "a") {
      ContainsHead(":b:2", "a");
    }
    assert "other:a:3"[..6] != "prefix";
  }

  /** A pipeline that fails deletes nothing of its batch and ends the loop, raising only a non-transient error. */
  lemma FailedPipelineDeletesNothing(store: map<string, Entry>, glob: string, cursor: nat, visited: seq<string>,
                                     fault: Fault, rest: seq<ScanReply>)
    requires Matching(glob, visited) != []
    ensures var c := ClearSpec(store, glob, [Batch(cursor, visited, Some(fault))] + rest);
            c.store == store && (c.out.Raised? <==> fault == Rejected)
  {
    assert ([Batch(cursor, visited, Some(fault))] + rest)[0] == Batch(cursor, visited, Some(fault));
  }

  // ---------------------------------------------------------------------
  // Through the connection manager

  /** `clear_cache_by_pattern(pattern, prefix)`: nothing happens without a client. */
  function ClearByPatternSpec(w: World, env: RedisEnv, pattern: string, prefix: string, ping: Ping,
                              replies: seq<ScanReply>): (r: Reply<Outcome<()>>)
    ensures r.world.conn == GetRedisSpec(w.conn, env, ping).state
    ensures GetRedisSpec(w.conn, env, ping).client.None? ==> r == Reply(r.world, Returned(())) && r.world.store == w.store
    ensures GetRedisSpec(w.conn, env, ping).client.Some? ==>
      var c := ClearSpec(w.store, PatternGlob(prefix, pattern), replies);
      r.world.store == c.store && r.out == c.out
  {
    var g := GetRedisSpec(w.conn, env, ping);
    if g.client.None? then Reply(World(g.state, w.store), Returned(()))
    else
      var c := ClearSpec(w.store, PatternGlob(prefix, pattern), replies);
      Reply(World(g.state, c.store), c.out)
  }

  /** `clear_all_cache()`: pattern `*` under the default prefix. */
  function ClearAllSpec(w: World, env: RedisEnv, ping: Ping, replies: seq<ScanReply>): (r: Reply<Outcome<()>>)
    ensures r.world.conn == GetRedisSpec(w.conn, env, ping).state
    ensures r.world.store.Keys <= w.store.Keys
    ensures forall k :: k in w.store && !StartsWith(k, DEFAULT_PREFIX) ==> k in r.world.store && r.world.store[k] == w.store[k]
    ensures GetRedisSpec(w.conn, env, ping).client.None? ==> r == Reply(World(GetRedisSpec(w.conn, env, ping).state, w.store), Returned(()))
    ensures GetRedisSpec(w.conn, env, ping).client.Some? ==>
      var c := ClearSpec(w.store, PatternGlob(DEFAULT_PREFIX, "*"), replies);
      r.world.store == c.store && r.out == c.out
  {
    var g := GetRedisSpec(w.conn, env, ping);
    ClearAllKeepsOthers(w.store, replies);
    if g.client.None? then Reply(World(g.state, w.store), Returned(()))
    else ClearByPatternSpec(World(g.state, w.store), env, "*", DEFAULT_PREFIX, ping, replies)
  }

  /** Clearing with the glob of `clear_all_cache` keeps every key that does not start with `cache`. */
  lemma ClearAllKeepsOthers(store: map<string, Entry>, replies: seq<ScanReply>)
    ensures var c := ClearSpec(store, PatternGlob(DEFAULT_PREFIX, "*"), replies);
      forall k :: k in store && !StartsWith(k, DEFAULT_PREFIX) ==> k in c.store && c.store[k] == store[k]
  {
    forall k | k in store && !StartsWith(k, DEFAULT_PREFIX) {
      ClearAllGlob(k);
    }
  }

  /** Every key of `keys` is visited by a batch the loop consumes, and no consumed step fails. */
  predicate Covers(glob: string, replies: seq<ScanReply>, keys: set<string>) {
    && (forall j :: 0 <= j < Consumed(glob, replies) ==> Applied(glob, replies[j]))
    && (forall k :: k in keys ==> exists j :: 0 <= j < Consumed(glob, replies) && replies[j].Batch? && k in replies[j].visited)
  }

  /**
   * When the scan visits every key without failing, `clear_all_cache`
   * leaves no key starting with `cache`, so every key the decorator uses
   * with its default prefix then reads as a miss.
   */
  lemma ClearAllEmptiesNamespace(w: World, env: RedisEnv, ping: Ping, replies: seq<ScanReply>,
                                 name: string, call: Call, read: Link)
    requires Consistent(w.conn)
    requires GetRedisSpec(w.conn, env, ping).client.Some?
    requires Covers(PatternGlob(DEFAULT_PREFIX, "*"), replies, w.store.Keys)
    ensures var r := ClearAllSpec(w, env, ping, replies);
            r.out == Returned(())
            && (forall k :: k in r.world.store ==> !StartsWith(k, DEFAULT_PREFIX))
            && GetCacheSpec(r.world, env, CallKey(name, DEFAULT_PREFIX, call), read).out == Returned(Null)
  {
    var glob := PatternGlob(DEFAULT_PREFIX, "*");
    ClearDeletesExactly(w.store, glob, replies);
    var g := GetRedisSpec(w.conn, env, ping);
    assert GetRedisSpec(g.state, env, ping) == g;
    var r := ClearAllSpec(w, env, ping, replies);
    assert r == Reply(World(g.state, ClearSpec(w.store, glob, replies).store), ClearSpec(w.store, glob, replies).out);
    StopsAtFirstTerminal(glob, replies);
    if Consumed(glob, replies) >= 1 {
      assert Applied(glob, replies[Consumed(glob, replies) - 1]);
    }
    assert !ClearSpec(w.store, glob, replies).out.Raised?;
    assert r.out.Returned?;
    var u: () := r.out.value;
    assert u == ();
    assert r.out == Returned(());
    forall k | k in r.world.store
      ensures !StartsWith(k, DEFAULT_PREFIX)
    {
      ClearAllGlob(k);
      var j :| 0 <= j < Consumed(glob, replies) && replies[j].Batch? && k in replies[j].visited;
      assert Applied(glob, replies[j]);
      assert Match(glob, k) ==> k in Deleted(glob, replies);
    }
    var key := CallKey(name, DEFAULT_PREFIX, call);
    assert StartsWith(key, DEFAULT_PREFIX) by {
      assert key[..|DEFAULT_PREFIX|] == (DEFAULT_PREFIX + ":" + name + ":")[..|DEFAULT_PREFIX|];
    }
  }

  // ---------------------------------------------------------------------
  // The imperative layer

  /** `clear_pattern(cache_client, pattern, prefix)`. */
  method ClearPattern(server: Server, pattern: string, prefix: string, replies: seq<ScanReply>) returns (out: Outcome<()>)
    modifies server
    ensures Cleared(server.store, out) == ClearSpec(old(server.store), PatternGlob(prefix, pattern), replies)
  {
    var glob := PatternGlob(prefix, pattern);
    var i := 0;
    while i < |replies|
      invariant 0 <= i <= |replies|
      invariant ClearSpec(server.store, glob, replies[i..]) == ClearSpec(old(server.store), glob, replies)
      decreases |replies| - i
    {
      assert replies[i..][0] == replies[i] && replies[i..][1..] == replies[i + 1..];
      match replies[i] {
        case ScanFault(Transient) =>
          return Returned(());   // logged and swallowed
        case ScanFault(Rejected) =>
          return Raised(Backend(Rejected));   // logged and re-raised
        case Batch(cursor, visited, exec) =>
          var keys := Matching(glob, visited);
          if keys != [] {
            // every key is queued on the pipeline, which is then executed
            match exec {
              case Some(Transient) =>
                return Returned(());   // logged and swallowed
              case Some(Rejected) =>
                return Raised(Backend(Rejected));   // logged and re-raised
              case None =>
            }
            server.store := server.store - Elems(keys);
          } else {
            assert server.store - Elems(keys) == server.store;
          }
          if cursor == 0 {
            return Returned(());
          }
      }
      i := i + 1;
    }
    return Returned(());
  }

  /** `clear_cache_by_pattern(pattern, prefix)`. */
  method ClearCacheByPattern(cache: Cache, server: Server, pattern: string, prefix: string, ping: Ping,
                             replies: seq<ScanReply>) returns (out: Outcome<()>)
    requires cache.Valid()
    modifies cache, server
    ensures cache.Valid()
    ensures Reply(World(cache.State(), server.store), out)
         == ClearByPatternSpec(old(World(cache.State(), server.store)), cache.env, pattern, prefix, ping, replies)
  {
    var client := cache.GetRedis(ping);
    if client.None? {
      return Returned(());
    }
    out := ClearPattern(server, pattern, prefix, replies);
  }

  /** `clear_all_cache()`. */
  method ClearAllCache(cache: Cache, server: Server, ping: Ping, replies: seq<ScanReply>) returns (out: Outcome<()>)
    requires cache.Valid()
    modifies cache, server
    ensures cache.Valid()
    ensures Reply(World(cache.State(), server.store), out)
         == ClearAllSpec(old(World(cache.State(), server.store)), cache.env, ping, replies)
  {
    var client := cache.GetRedis(ping);
    if client.None? {
      return Returned(());
    }
    out := ClearCacheByPattern(cache, server, "*", DEFAULT_PREFIX, ping, replies);
  }
}
