# Redis cache-aside layer and MongoDB connection helpers, in Dafny

This project models the caching layer of a FastAPI service
(`src/utils/cache.py`) and its MongoDB connection helpers
(`src/db/mongo_client.py`), and proves properties of the model.

The cache layer has these parts:

- **Connection manager.** The `Cache` class keeps a process-wide Redis
  client. It is built lazily by `get_redis`. One failed connection attempt
  marks Redis unavailable, and the service then runs uncached.
- **Key builders.** `generate_cache_key` builds keys for memoised function
  calls. `custom_key_builder` builds keys for request-scoped caching.
- **Codec.** `set_cache` and `get_cache` write and read JSON documents.
  Dates and datetimes are written as ISO text by the `serialize_datetime`
  hook. `_is_empty_data` decides which results are not worth storing.
- **Decorator.** `unified_safe_cache` is the cache-aside decorator: read,
  on a miss compute, store a non-empty result. Cache failures never reach
  the caller.
- **Invalidation.** `clear_pattern`, `clear_cache_by_pattern` and
  `clear_all_cache` scan for keys matching `{prefix}*{pattern}*` and
  delete them batch by batch.

The MongoDB part has these pieces:

- `should_enable_tls`, an ordered decision rule.
- The options `create_mongo_client` passes to the driver.
- `encode_mongo_password`.
- The `Database` holder of a class-level client.
- The `handle_db_errors` decorator.

Layout, one module per file:

- `wrappers.dfy`: `Option` and `Result`.
- `strings.dfy`: prefix, substring, `join`, `split` and `lower` on text.
- `glob.dfy`: Redis `MATCH` globs with `*`.
- `values.dfy`: Python values, JSON trees, the codec and `_is_empty_data`.
- `keys.dfy`: both key builders.
- `connection.dfy`: the Redis URL and the `Cache` class.
- `cache_ops.dfy`: `set_cache`, `get_cache` and the decorator.
- `invalidation.dfy`: the clearing functions.
- `mongo.dfy`: the MongoDB helpers.

The Redis operations are written twice:

- As a specification function over a `World`. A `World` is the connection
  manager's state plus the server's key space. Lemmas about several calls
  are stated over these functions.
- As a method that updates fields in place: of `Cache` (the connection
  manager), of `Memoized` (the decorated function), or a method taking the
  `Server` object, which holds the key space and has no methods of its own.
  Its postcondition says that the new state and its result are what the
  specification function gives for the old state.

The `Database` holder of the MongoDB part has no specification function.
Each of its methods states its new fields and its result directly.

Redis and the driver are foreign code. What they do in one call is an
input:

- the outcome of `Redis.from_url(...)` plus `ping()` (`Ping`);
- whether a command failed, and with which family of exception (`Link`,
  `Fault`);
- the successive answers to `SCAN`, each with the outcome of executing the pipeline of deletes that follows it (`ScanReply`).

Environment variables are values: `RedisEnv` holds the Redis settings, and
`APP_ENV` is an `Option<string>` argument.

Where the names of the code's helpers promise more than the code does, the
model follows the code:

- A datetime does not come back as a datetime, although the reader passes
  `deserialize_datetime` as its `object_hook`. That hook only ever receives
  decoded objects, never texts, so ISO texts are read back as texts
  (`Values.HookNeverFires`, `Values.DateTimeReadsBackAsText`).
- An ObjectId is not turned into text, although `CustomJSONEncoder` exists
  to do that. The writer never uses it,
  so encoding an ObjectId raises `TypeError`, and `set_cache` swallows it
  (`Values.ObjectIdRaises`).
- An empty tuple is not empty data. It is stored, and it comes back from
  the cache as an empty list (`CacheOps.EmptyTupleComesBackAsList`).
- Distinct calls can share a key, because argument texts may contain `:`
  (`Keys.KeysCanCollide`).
- `clear_all_cache` scans `cache***`. That clears every key starting with
  `cache`, not only the decorator's keys (`Invalidation.ClearAllGlob`).

## Model

| member | source | states |
|---|---|---|
| Values.SerializeDatetime | src/utils/cache.py:118-123 | the hook succeeds exactly for dates and datetimes, giving their ISO text; anything else raises `TypeError` |
| Values.DeserializeDatetime | src/utils/cache.py:133-139 | a text the ISO parser accepts becomes a datetime holding the parser's ISO text; a text it rejects is returned unchanged, and so is every value that is not a text |
| Values.HookNeverFires | src/utils/cache.py:167 | reading with `object_hook=deserialize_datetime` gives the same value as reading without a hook, because the hook is applied only to decoded objects |
| Values.Encode | src/utils/cache.py:150 | `json.dumps(v, default=serialize_datetime)` succeeds exactly when no ObjectId or other foreign object occurs anywhere in `v` |
| Values.Decode | src/utils/cache.py:167 | a decoded document is plain JSON: None, bools, ints, texts, lists and dicts only, never a tuple, date or datetime |
| Values.DecodeEncode | src/utils/cache.py:150-167 | reading back an encoded value gives its plain form: tuples become lists, dates and datetimes become their ISO text |
| Values.RoundTrip | src/utils/cache.py:150-167 | values made only of None, bools, ints, texts, lists and dicts encode without error and decode to themselves |
| Values.DateTimeReadsBackAsText | src/utils/cache.py:133-139 | a datetime is written as its ISO text and read back as that text, not as a datetime |
| Values.ObjectIdRaises | src/utils/cache.py:126-130 | an ObjectId, alone or inside a dict, makes encoding raise `TypeError`, because the ObjectId encoder is never used |
| Values.IsEmptyData | src/utils/cache.py:208-222 | `_is_empty_data` holds exactly for None, `[]`, `{}` and `""` |
| Values.FalsyIsNotEmpty | src/utils/cache.py:218-222 | `0`, `False` and `()` are not empty data, although Python treats them as false |
| Keys.GenerateCacheKey | src/utils/cache.py:89-115 | a call key always starts with `prefix:name:` |
| Keys.CustomKeyBuilder | src/utils/cache.py:83-86 | a request key always starts with `namespace:path:` |
| Keys.SkippedArgumentsIrrelevant | src/utils/cache.py:104-108 | values at skipped positions or under skipped names never affect the key |
| Keys.KeptArgumentMatters | src/utils/cache.py:107-113 | giving one kept positional argument a different text gives a different key |
| Keys.KeptKeywordMatters | src/utils/cache.py:108-113 | giving one kept keyword argument a different value gives a different key |
| Keys.EmptyCallKey | src/utils/cache.py:110-114 | with no arguments the separators remain: `cache:f::` |
| Keys.KeysCanCollide | src/utils/cache.py:110-114 | an argument containing `:` gives the same key as two arguments: `f("a:b")` and `f("a", "b")` collide |
| Keys.CallKeyFields | src/utils/cache.py:107-114 | split at `:`, a call key reads back as prefix, name, the kept positional arguments (one empty field when none is kept) and the kept keyword names and values (one empty field when none is kept), in order, when no part contains `:` |
| Keys.RequestKeyFields | src/utils/cache.py:83-86 | split at `:`, a request key reads back as namespace, path and the query parameters' names and values in the collection's order, when no part contains `:` |
| Keys.KeptArgs | src/utils/cache.py:107 | the kept positional arguments are at most as many as the given ones, and each is one of them |
| Keys.KeptArgsComplete | src/utils/cache.py:107 | every argument at a position not skipped is kept |
| Keys.KeptArgsAround | src/utils/cache.py:107 | an argument at a position not skipped stays between the kept arguments before it and those after it, so the filter keeps the call's order |
| Keys.KeptKwargs | src/utils/cache.py:108 | each kept keyword argument is one of the given pairs, and its name is not skipped |
| Keys.KeptKwargsComplete | src/utils/cache.py:108 | every given pair whose name is not skipped is kept |
| Keys.KeptKwargsAround | src/utils/cache.py:108 | a pair whose name is not skipped stays between the kept pairs before it and those after it, so the filter keeps the order of `kwargs.items()` |
| Keys.KeptArgsNoSkip | src/utils/cache.py:104-107 | with no positions to skip, every positional argument is kept |
| Keys.KeptKwargsNoSkip | src/utils/cache.py:105-108 | with no names to skip, every keyword argument is kept |
| Keys.KeyWithoutSkips | src/utils/cache.py:181 | the decorator, which passes no skips, keys a call by `prefix:name:`, all positional arguments joined by `:`, `:`, and all `name:value` pairs joined by `:` |
| Connection.RedisUrl | src/utils/cache.py:30-37 | the URL always has the `redis://` scheme |
| Connection.DefaultUrl | src/utils/cache.py:30-37 | with no variable set the URL is `redis://localhost:6379/0` |
| Connection.UrlAuthIffPassword | src/utils/cache.py:34-37 | when host, port and database number hold no `@`, the URL has an authentication part `redis://:{password}@` exactly when a non-empty password is set |
| Connection.ConstructSpec | src/utils/cache.py:22-26 | the first construction creates the instance and clears the unavailable flag; later ones change nothing |
| Connection.InitializeSpec | src/utils/cache.py:29-61 | a client is kept exactly when the ping succeeds, and it is built from the configured URL; a falsy ping or a connection error leaves no client and marks Redis unavailable |
| Connection.GetRedisSpec | src/utils/cache.py:64-71 | unavailable gives None with no change; a held client is returned with no change; initialisation runs only when neither holds; afterwards the manager is settled and returns the client it holds |
| Connection.SettledNeverInitialises | src/utils/cache.py:64-71 | once connected or given up, no later call initialises |
| Connection.AtMostOneInitialisation | src/utils/cache.py:65-70 | over any number of calls initialisation runs at most once, and exactly once when it was needed |
| Connection.NoRetryAfterFailure | src/utils/cache.py:65-66 | after a failure every call returns None and none tries to connect |
| Connection.ResultsAreSuccessiveCalls | src/utils/cache.py:64-71 | the client returned by each call of a sequence is what `get_redis` returns in the state left by the calls before it |
| Connection.SameClientOnceConnected | src/utils/cache.py:67-71 | once connected every call returns the same client without initialising |
| Connection.FirstConstructionReenablesInit | src/utils/cache.py:22-26 | a first `Cache()` after a failed connection clears the flag, so the next `get_redis` tries again |
| Connection.StepsKeepConsistent | src/utils/cache.py:22-71 | no step leaves a client stored while Redis is marked unavailable |
| Connection.Cache.constructor | src/utils/cache.py:16-19 | the class starts with no instance, no client and the unavailable flag clear |
| Connection.Cache.New | src/utils/cache.py:22-26 | `Cache()` updates the class state as `ConstructSpec` says |
| Connection.Cache.InitializeRedis | src/utils/cache.py:29-61 | the class state becomes `InitializeSpec` of the old one, and one more attempt is counted |
| Connection.Cache.GetRedis | src/utils/cache.py:64-71 | the new state and the returned client are `GetRedisSpec` of the old state, and an attempt is counted exactly when one was needed |
| CacheOps.SetCacheSpec | src/utils/cache.py:142-155 | other keys never change; nothing is written without a client, for a value that cannot be encoded, or when SET fails; otherwise the key holds the encoded value with the given expiry |
| CacheOps.GetCacheSpec | src/utils/cache.py:158-174 | the key space never changes; None without a client, on a failed GET, for an absent key or an empty value; it raises exactly for a non-empty value that is not JSON; a stored document is returned decoded |
| CacheOps.WriteThenRead | src/utils/cache.py:142-174 | a write that reached the server is read back as the value's plain form |
| CacheOps.HitSkipsProducer | src/utils/cache.py:183-189 | on a non-None cached value the wrapper returns it, does not run the function and writes nothing |
| CacheOps.MissRunsProducerOnce | src/utils/cache.py:191-201 | on a miss or a failed read the function runs once and its outcome is returned; if it raised or returned empty data nothing is written |
| CacheOps.EmptyResultNeverStored | src/utils/cache.py:193-199 | empty results never reach the cache |
| CacheOps.DegradedMode | src/utils/cache.py:177-201 | with Redis unavailable every call runs the function, returns its outcome and changes nothing |
| CacheOps.SecondCallHits | src/utils/cache.py:180-201 | after a call that stored an encodable, non-empty result, the same call is served from the cache with the result's plain form |
| CacheOps.SecondCallSameValue | src/utils/cache.py:180-201 | for plain JSON results the cached call returns exactly what the first call returned |
| CacheOps.EmptyTupleComesBackAsList | src/utils/cache.py:208-222 | an empty tuple is stored and the next call returns an empty list from the cache |
| CacheOps.SetCache | src/utils/cache.py:142-155 | the new manager state and key space are `SetCacheSpec` of the old ones |
| CacheOps.GetCache | src/utils/cache.py:158-174 | the result and the new manager state are `GetCacheSpec` of the old ones, and the key space is unchanged |
| CacheOps.MemoizedSpec | src/utils/cache.py:177-201 | the function does not run only when a non-None value is cached, which is then returned with the key space unchanged; otherwise the function's outcome is returned; an exception reaches the caller only from the function; the key space changes only by storing a non-empty, encodable result under the call's key with the decorator's expiry |
| CacheOps.Memoized.constructor | src/utils/cache.py:177-181 | the decorated function keeps its name, expiry, prefix and wrapped function, with no call counted |
| CacheOps.Memoized.Invoke | src/utils/cache.py:180-201 | the result and the new state are those of `MemoizedSpec`, and the wrapped function's call counter grows exactly when it ran |
| Invalidation.Matching | src/utils/cache.py:271 | a key is returned by SCAN exactly when the cursor step visited it and the glob matches it |
| Invalidation.PatternGlob | src/utils/cache.py:266 | when neither prefix nor pattern holds `*`, the glob `{prefix}*{pattern}*` matches exactly the keys that start with the prefix and contain the pattern after it |
| Invalidation.ClearAllGlob | src/utils/cache.py:285-291 | the glob of `clear_all_cache` matches exactly the keys starting with `cache` |
| Invalidation.ClearSpec | src/utils/cache.py:264-282 | keys are only removed, never added or changed, and the only exception raised is a non-transient Redis error, of the scan or of the pipeline |
| Invalidation.StopsAtFirstTerminal | src/utils/cache.py:270-277 | at least one SCAN is issued, and the loop stops at the first step that returns cursor 0 or fails, in the scan or in executing the pipeline |
| Invalidation.ClearDeletesExactly | src/utils/cache.py:264-282 | the keys deleted are exactly the matched keys of the consumed batches whose pipeline succeeded, earlier batches stay deleted after a failure, and it raises exactly when the step it stops at fails with a non-transient Redis error |
| Invalidation.FailedPipelineDeletesNothing | src/utils/cache.py:272-282 | a batch with matches whose `execute` fails deletes none of them and ends the loop, re-raising only a non-transient error |
| Invalidation.Selective | src/utils/cache.py:266-274 | a key the glob does not match keeps its entry |
| Invalidation.SelectivityExample | src/utils/cache.py:264-282 | of `prefix:a:1`, `prefix:b:2` and `other:a:3`, pattern `a` under prefix `prefix` removes only the first |
| Invalidation.ClearByPatternSpec | src/utils/cache.py:255-261 | without a client nothing is deleted and nothing is raised; with one, the key space and the outcome are those of `clear_pattern` with the glob `{prefix}*{pattern}*` |
| Invalidation.ClearAllSpec | src/utils/cache.py:285-291 | without a client nothing changes and nothing is raised; with one, the key space and the outcome are those of `clear_pattern` with the glob `cache***` (a re-raised non-transient error, a quiet stop on a transient one, exactly the matched keys of the applied batches deleted); keys are only removed, and every key not starting with `cache` keeps its entry |
| Invalidation.ClearAllEmptiesNamespace | src/utils/cache.py:285-291 | when the scan visits every key without failing, no key starting with `cache` remains, so every decorator key with the default prefix then misses |
| Invalidation.ClearPattern | src/utils/cache.py:264-282 | the loop leaves the key space and the outcome that `ClearSpec` gives for the old key space |
| Invalidation.ClearCacheByPattern | src/utils/cache.py:255-261 | the new state and outcome are `ClearByPatternSpec` of the old state |
| Invalidation.ClearAllCache | src/utils/cache.py:285-291 | the new state and outcome are `ClearAllSpec` of the old state |
| Mongo.ShouldEnableTls | src/db/mongo_client.py:41-53 | TLS is enabled only outside the `local` environment and for hosts not under `.svc.cluster.local`; there an SRV URI always gets TLS, and any other URI loses it only through `ssl=false` or `tls=false` |
| Mongo.TlsDecisionOrder | src/db/mongo_client.py:41-53 | `APP_ENV` equal to `local` in any case disables TLS; then a `.svc.cluster.local` host disables it; then an SRV URI enables it; otherwise TLS is on exactly when neither `ssl=false` nor `tls=false` occurs |
| Mongo.LocalInAnyCase | src/db/mongo_client.py:45-46 | `LOCAL` and `Local` disable TLS for every URI |
| Mongo.SrvOverridesTlsFalse | src/db/mongo_client.py:49-52 | an SRV URI containing `tls=false` still gets TLS |
| Mongo.FlagsAreCaseSensitive | src/db/mongo_client.py:51-53 | `TLS=FALSE` does not disable TLS |
| Mongo.EncodeMongoPassword | src/db/mongo_client.py:36-38 | the encoded password holds only letters, digits and `_.-~+%`, so it cannot end the user-info part of a URI |
| Mongo.PasswordRoundTrip | src/db/mongo_client.py:36-38 | percent-decoding the encoded password gives back its UTF-8 bytes |
| Mongo.EncodingInjective | src/db/mongo_client.py:36-38 | passwords with different UTF-8 bytes have different encodings |
| Mongo.EncodeExample | src/db/mongo_client.py:36-38 | `a@b c` is encoded as `a%40b+c` |
| Mongo.BaseOptions | src/db/mongo_client.py:60-71 | the fixed options never include a CA file |
| Mongo.ClientArgs | src/db/mongo_client.py:58-74 | the CA file option is present exactly when TLS is enabled, and every other option is the fixed set with the given timeout |
| Mongo.CreateMongoClient | src/db/mongo_client.py:56-76 | a new, open client for the URI with those options |
| Mongo.Database.constructor | src/db/mongo_client.py:96 | the holder starts without a client |
| Mongo.Database.InitClient | src/db/mongo_client.py:99-103 | with a client present nothing changes; otherwise a new open client for the URI, made with the default timeout, is stored |
| Mongo.Database.Client | src/db/mongo_client.py:106-110 | `RuntimeError` exactly when no client is stored, else the stored client |
| Mongo.Database.GetDatabase | src/db/mongo_client.py:113-117 | `RuntimeError` exactly when no client is stored, else the named database of the stored client |
| Mongo.Database.GetCollection | src/db/mongo_client.py:120-122 | `RuntimeError` exactly when no client is stored, else the named collection of that database |
| Mongo.Database.CloseClient | src/db/mongo_client.py:125-130 | afterwards no client is stored, and a client that was stored has been closed |
| Mongo.Reinitialise | src/db/mongo_client.py:99-130 | closing and initialising again closes the old client and stores a fresh one for the new URI |
| Mongo.HandleDbErrors | src/db/mongo_client.py:15-33 | the wrapped function returns what the original returns, the default wherever it raises an `Exception`, and lets only non-`Exception` errors through unchanged |

## Left out

- Redis client calls (`Redis.from_url`, `ping`, `get`, `set`, `scan`, `pipeline`, `execute`) are foreign. Their effect in one call is an input: a `Ping`, a `Link` fault, or a list of `ScanReply` answers.
- `asyncio.Lock` and async scheduling are not modelled. `get_redis` is read sequentially; its second check under the lock is kept.
- Which Python exception class reaches which `except` clause depends on the redis library. The model has two kinds: `Transient` (timeout or connection error) and `Rejected` (any other `RedisError`).
- Values.Decode: a `Dict` is a sequence of members and may repeat a name. Decoding keeps every member, where `json.loads` keeps only the last value for a repeated name. The codec itself only writes dicts with distinct names.
- Values.DeserializeDatetime: `datetime.fromisoformat` is a parameter. It is given only as a partial function from text to the canonical ISO text of the datetime it accepts.
- JSON text, `datetime.isoformat` and `datetime.fromisoformat` are not modelled. The codec works on JSON trees, and a date or datetime carries its ISO text. Floats and dicts with non-text keys are left out.
- Function arguments are modelled by the text `str()` gives for them; `str()` itself is not modelled. Keyword arguments and query parameters are sequences of (name, text) pairs in the collection's order. Starlette's handling of repeated query parameters is not modelled.
- CacheOps.SetCacheSpec: the expiry is recorded with the entry but not enforced. A zero or negative expiry, which the Redis server rejects, is covered only through the `Link` fault input.
- CacheOps.SetCacheSpec: a SET that fails leaves the key as it was. A partially applied write is not modelled.
- `Redis.from_url` raising `ValueError` for a malformed URL is not modelled. That error is not among the ones `_initialize_redis` catches.
- Glob metacharacters other than `*` (`?`, `[...]`, `\`) are treated as literal characters.
- Invalidation.ClearSpec: a pipeline whose `execute` fails is taken to have deleted nothing, as a failed MULTI/EXEC transaction does; a connection lost after the server applied it is not modelled. If the supplied answers run out, the loop ends, just as Redis ends a full iteration with cursor 0.
- Mongo.ShouldEnableTls: lowering `APP_ENV` handles ASCII letters only; Python's full Unicode case mapping is not modelled.
- Mongo.EncodeMongoPassword: checked against a reference percent-decoder to bytes, not against `urllib.parse.unquote_plus`. UTF-8 decoding back to text is not modelled.
- `MongoClient` and `certifi.where()` are foreign. A client records the URI and options it was made with, and the CA bundle path is a parameter.
- Logging is not modelled.
- `get_cache_backend`, `CustomRedisBackend`, `init_cache` and `FastAPICache` are not part of this model. They only glue the cache to FastAPI's own caching, with the same codec.
- Other files of the service are not part of this model: HTTP routes, the agent factory, the example tool, settings and tests.
