/**
 * The MongoDB connection helpers: the TLS decision rule, the client
 * options `create_mongo_client` builds, the `Database` class-level client
 * holder and the `handle_db_errors` decorator. `MongoClient` itself is
 * foreign: a client here records the URI and options it was made with.
 */
module Mongo {
  import opened Wrappers
  import opened Strings

  /**
   * `should_enable_tls(mongo_uri)`, with `appEnv` the APP_ENV variable
   * (None when unset). The checks run in order; the first that applies decides.
   */
  function ShouldEnableTls(appEnv: Option<string>, uri: string): (tls: bool)
    ensures tls ==> Lower(appEnv.GetOr("")) != "local" && !Contains(uri, ".svc.cluster.local")
    ensures !tls && StartsWith(uri, "mongodb+srv://") ==>
      Lower(appEnv.GetOr("")) == "local" || Contains(uri, ".svc.cluster.local")
    ensures !tls && Lower(appEnv.GetOr("")) != "local" && !Contains(uri, ".svc.cluster.local") ==>
      Contains(uri, "ssl=false") || Contains(uri, "tls=false")
  {
    if Lower(appEnv.GetOr("")) == "local" then false
    else if Contains(uri, ".svc.cluster.local") then false
    else if StartsWith(uri, "mongodb+srv://") then true
    else if Contains(uri, "ssl=false") || Contains(uri, "tls=false") then false
    else true
  }

  /** The order of the rule: environment first, then cluster-local hosts, then SRV URIs, then the URI flags. */
  lemma TlsDecisionOrder(appEnv: Option<string>, uri: string)
    ensures Lower(appEnv.GetOr("")) == "local" ==> !ShouldEnableTls(appEnv, uri)
    ensures Lower(appEnv.GetOr("")) != "local" && Contains(uri, ".svc.cluster.local")
            ==> !ShouldEnableTls(appEnv, uri)
    ensures Lower(appEnv.GetOr("")) != "local" && !Contains(uri, ".svc.cluster.local") && StartsWith(uri, "mongodb+srv://")
            ==> ShouldEnableTls(appEnv, uri)
    ensures Lower(appEnv.GetOr("")) != "local" && !Contains(uri, ".svc.cluster.local") && !StartsWith(uri, "mongodb+srv://")
            ==> (ShouldEnableTls(appEnv, uri) <==> !Contains(uri, "ssl=false") && !Contains(uri, "tls=false"))
  {
  }

  /** The environment name is compared case-insensitively. */
  lemma LocalInAnyCase(uri: string)
    ensures !ShouldEnableTls(Some("LOCAL"), uri) && !ShouldEnableTls(Some("Local"), uri)
  {
    assert Lower("LOCAL") == "local";
    assert Lower("Local") == "local";
  }

  /** An SRV URI gets TLS even when it says `tls=false`. */
  lemma SrvOverridesTlsFalse()
    ensures ShouldEnableTls(None, "mongodb+srv://db.example.com/?tls=false")
  {
    SrvNotClusterLocal("mongodb+srv://db.example.com/?tls=false");
    TlsDecisionOrder(None, "mongodb+srv://db.example.com/?tls=false");
    assert Lower("") == "";
  }

  /** The example SRV URI is not cluster-local. */
  lemma SrvNotClusterLocal(uri: string)
    requires uri == "mongodb+srv://db.example.com/?tls=false"
    ensures !Contains(uri, ".svc.cluster.local") && StartsWith(uri, "mongodb+srv://")
  {
    Absent(uri, ".svc.cluster.local", 7);
    assert uri[..14] == "mongodb+srv://";
  }

  /** The flags are matched case-sensitively: `TLS=FALSE` does not turn TLS off. */
  lemma FlagsAreCaseSensitive(uri: string)
    requires uri == "mongodb://h/?TLS=FALSE"
    ensures ShouldEnableTls(None, uri)
  {
    PlainHost(uri);
    UpperCaseFlagOnly(uri);
    TlsDecisionOrder(None, uri);
    assert Lower("") == "";
  }

  /** The example URI is neither cluster-local nor SRV. */
  lemma PlainHost(uri: string)
    requires uri == "mongodb://h/?TLS=FALSE"
    ensures !Contains(uri, ".svc.cluster.local") && !StartsWith(uri, "mongodb+srv://")
  {
    Absent(uri, ".svc.cluster.local", 7);
    assert uri[7] != "mongodb+srv://"[7];
  }

  /** The example URI holds no lower-case flag. */
  lemma UpperCaseFlagOnly(uri: string)
    requires uri == "mongodb://h/?TLS=FALSE"
    ensures !Contains(uri, "ssl=false") && !Contains(uri, "tls=false")
  {
    Absent(uri, "ssl=false", 0);
    Absent(uri, "tls=false", 0);
  }

  /** A text lacking one character of `sub` does not contain `sub`. */
  lemma Absent(s: string, sub: string, k: nat)
    requires k < |sub| && sub[k] !in s
    ensures !Contains(s, sub)
  {
    if Contains(s, sub) {
      ContainsChar(s, sub, k);
    }
  }

  /** Every character of a contained text occurs in the containing text. */
  lemma {:induction false} ContainsChar(s: string, sub: string, k: nat)
    requires k < |sub| && Contains(s, sub)
    ensures sub[k] in s
    decreases |s|
  {
    if StartsWith(s, sub) {
      assert s[k] == sub[k];
    } else {
      ContainsChar(s[1..], sub, k);
    }
  }

  // ---------------------------------------------------------------------
  // encode_mongo_password: `quote_plus` over the UTF-8 bytes of the password

  newtype byte = x: int | 0 <= x < 256

  /** The UTF-8 encoding of one Unicode scalar value. */
  function Utf8Char(c: char): (bs: seq<byte>)
    ensures 1 <= |bs| <= 4
    ensures (c as int < 0x80) <==> |bs| == 1
  {
    var cp := c as int;
    if cp < 0x80 then [cp as byte]
    else if cp < 0x800 then [(0xC0 + cp / 0x40) as byte, (0x80 + cp % 0x40) as byte]
    else if cp < 0x1_0000 then
      [(0xE0 + cp / 0x1000) as byte, (0x80 + (cp / 0x40) % 0x40) as byte, (0x80 + cp % 0x40) as byte]
    else
      [(0xF0 + cp / 0x4_0000) as byte, (0x80 + (cp / 0x1000) % 0x40) as byte,
       (0x80 + (cp / 0x40) % 0x40) as byte, (0x80 + cp % 0x40) as byte]
  }

  /** `s.encode("utf-8")`. */
  function Utf8(s: string): seq<byte> {
    if s == [] then [] else Utf8Char(s[0]) + Utf8(s[1..])
  }

  /** The bytes `quote` never escapes: ASCII letters, digits and `_.-~`. */
  predicate AlwaysSafe(b: byte) {
    (b as int >= 'A' as int && b as int <= 'Z' as int) || (b as int >= 'a' as int && b as int <= 'z' as int)
    || (b as int >= '0' as int && b as int <= '9' as int)
    || b as int == '_' as int || b as int == '.' as int || b as int == '-' as int || b as int == '~' as int
  }

  const HEX_DIGITS: string := "0123456789ABCDEF"

  /** How `quote_plus` writes one byte: space as `+`, safe bytes as themselves, the rest as `%XX`. */
  function QuoteByte(b: byte): string {
    if b == 0x20 then "+"
    else if AlwaysSafe(b) then [b as int as char]
    else ['%', HEX_DIGITS[b as int / 16], HEX_DIGITS[b as int % 16]]
  }

  function QuoteBytes(bs: seq<byte>): string {
    if bs == [] then "" else QuoteByte(bs[0]) + QuoteBytes(bs[1..])
  }

  /** A character that can appear in the user-info part of a URI without ending it. */
  predicate UriSafe(c: char) {
    ('A' <= c <= 'Z') || ('a' <= c <= 'z') || ('0' <= c <= '9') || c in "_.-~+%"
  }

  /** `encode_mongo_password(password)`, i.e. `quote_plus(password)`. */
  function EncodeMongoPassword(password: string): (r: string)
    ensures forall i :: 0 <= i < |r| ==> UriSafe(r[i])
  {
    QuotedIsUriSafe(Utf8(password));
    QuoteBytes(Utf8(password))
  }

  lemma {:induction false} QuotedIsUriSafe(bs: seq<byte>)
    ensures forall i :: 0 <= i < |QuoteBytes(bs)| ==> UriSafe(QuoteBytes(bs)[i])
  {
    if bs != [] {
      QuotedIsUriSafe(bs[1..]);
      var q, rest := QuoteByte(bs[0]), QuoteBytes(bs[1..]);
      assert QuoteBytes(bs) == q + rest;
      forall i | 0 <= i < |q| ensures UriSafe(q[i]) {
        var b := bs[0];
        if b != 0x20 && !AlwaysSafe(b) && i > 0 {
          assert q[i] in HEX_DIGITS;
        }
      }
    }
  }

  /** The value of a hexadecimal digit as `quote` writes it (upper case), if it is one. */
  function HexValue(c: char): Option<int> {
    if '0' <= c <= '9' then Some(c as int - '0' as int)
    else if 'A' <= c <= 'F' then Some(c as int - 'A' as int + 10)
    else None
  }

  /**
   * A reference decoder for the output of `quote_plus`: `+` is a space,
   * `%XX` a byte, a safe character itself; anything else is rejected.
   */
  function UnquoteBytes(t: string): Option<seq<byte>>
    decreases |t|
  {
    if t == [] then Some([])
    else if t[0] == '+' then PrependByte(0x20, UnquoteBytes(t[1..]))
    else if t[0] == '%' then
      if |t| < 3 || HexValue(t[1]).None? || HexValue(t[2]).None? then None
      else PrependByte((HexValue(t[1]).value * 16 + HexValue(t[2]).value) as byte, UnquoteBytes(t[3..]))
    else if t[0] as int < 0x80 && AlwaysSafe(t[0] as int as byte) then
      PrependByte(t[0] as int as byte, UnquoteBytes(t[1..]))
    else None
  }

  function PrependByte(b: byte, rest: Option<seq<byte>>): Option<seq<byte>> {
    if rest.None? then None else Some([b] + rest.value)
  }

  lemma HexDigitValue(n: int)
    requires 0 <= n < 16
    ensures HexValue(HEX_DIGITS[n]) == Some(n)
  {
  }

  lemma UnquoteQuoteByte(b: byte, rest: string)
    ensures UnquoteBytes(QuoteByte(b) + rest) == PrependByte(b, UnquoteBytes(rest))
  {
    var q := QuoteByte(b);
    if b == 0x20 {
      assert (q + rest)[1..] == rest;
    } else if AlwaysSafe(b) {
      assert (q + rest)[1..] == rest;
    } else {
      HexDigitValue(b as int / 16);
      HexDigitValue(b as int % 16);
      assert (q + rest)[3..] == rest;
    }
  }

  /** Decoding the quoted bytes gives the bytes back: `quote_plus` loses nothing. */
  lemma {:induction false} UnquoteQuote(bs: seq<byte>)
    ensures UnquoteBytes(QuoteBytes(bs)) == Some(bs)
  {
    if bs != [] {
      UnquoteQuote(bs[1..]);
      UnquoteQuoteByte(bs[0], QuoteBytes(bs[1..]));
      assert [bs[0]] + bs[1..] == bs;
    }
  }

  /** Reserved characters are escaped and a space becomes `+`. */
  lemma EncodeExample()
    ensures EncodeMongoPassword("a@b c") == "a%40b+c"
  {
    assert Utf8("a@b c") == [97, 64, 98, 32, 99];
  }

  /** The encoded password decodes to the UTF-8 bytes of the password. */
  lemma PasswordRoundTrip(password: string)
    ensures UnquoteBytes(EncodeMongoPassword(password)) == Some(Utf8(password))
  {
    UnquoteQuote(Utf8(password));
  }

  /** Passwords with different UTF-8 bytes never share an encoding. */
  lemma EncodingInjective(p: string, q: string)
    requires EncodeMongoPassword(p) == EncodeMongoPassword(q)
    ensures Utf8(p) == Utf8(q)
  {
    PasswordRoundTrip(p);
    PasswordRoundTrip(q);
  }

  // ---------------------------------------------------------------------
  // Client options

  /** An option value passed to `MongoClient`. */
  datatype OptionValue = ServerApi(version: string) | IntOpt(i: int) | BoolOpt(b: bool) | StrOpt(s: string)

  const DEFAULT_TIMEOUT: int := 60000
  const CA_FILE_KEY: string := "tlsCAFile"

  /** The options `create_mongo_client` always passes. */
  function BaseOptions(timeout: int): (opts: map<string, OptionValue>)
    ensures CA_FILE_KEY !in opts
  {
    map[
      "server_api" := ServerApi("1"),
      "serverSelectionTimeoutMS" := IntOpt(timeout),
      "connectTimeoutMS" := IntOpt(timeout),
      "socketTimeoutMS" := IntOpt(timeout),
      "retryWrites" := BoolOpt(true),
      "maxPoolSize" := IntOpt(50),
      "minPoolSize" := IntOpt(5),
      "waitQueueTimeoutMS" := IntOpt(10000),
      "maxIdleTimeMS" := IntOpt(300000),
      "uuidRepresentation" := StrOpt("standard")
    ]
  }

  /**
   * The `client_args` of `create_mongo_client`: the base options, plus the CA
   * bundle path `caFile` exactly when TLS is enabled.
   */
  method ClientArgs(uri: string, appEnv: Option<string>, timeout: int, caFile: string)
    returns (args: map<string, OptionValue>)
    ensures CA_FILE_KEY in args <==> ShouldEnableTls(appEnv, uri)
    ensures CA_FILE_KEY in args ==> args[CA_FILE_KEY] == StrOpt(caFile)
    ensures args - {CA_FILE_KEY} == BaseOptions(timeout)
  {
    var enableTls := ShouldEnableTls(appEnv, uri);
    args := BaseOptions(timeout);
    if enableTls {
      args := args[CA_FILE_KEY := StrOpt(caFile)];
    }
    assert BaseOptions(timeout) - {CA_FILE_KEY} == BaseOptions(timeout);
  }

  /** A MongoDB client: the URI and options it was created with, and whether it was closed. */
  class MongoClient {
    const uri: string
    const options: map<string, OptionValue>
    var closed: bool

    constructor (uri: string, options: map<string, OptionValue>)
      ensures this.uri == uri && this.options == options && !closed
    {
      this.uri, this.options := uri, options;
      closed := false;
    }

    method Close()
      modifies this
      ensures closed
    {
      closed := true;
    }
  }

  /** `create_mongo_client(mongo_uri, timeout)`; `caFile` stands for `certifi.where()`. */
  method CreateMongoClient(uri: string, appEnv: Option<string>, timeout: int, caFile: string)
    returns (client: MongoClient)
    ensures fresh(client) && client.uri == uri && !client.closed
    ensures CA_FILE_KEY in client.options <==> ShouldEnableTls(appEnv, uri)
    ensures client.options - {CA_FILE_KEY} == BaseOptions(timeout)
  {
    var args := ClientArgs(uri, appEnv, timeout, caFile);
    client := new MongoClient(uri, args);
  }

  // ---------------------------------------------------------------------
  // The Database holder

  /** The `RuntimeError` raised when no client has been initialised. */
  datatype DbError = NotInitialized

  /** A database and a collection reached through a client. */
  datatype DatabaseRef = DatabaseRef(client: MongoClient, name: string)
  datatype CollectionRef = CollectionRef(db: DatabaseRef, name: string)

  /** The `Database` class; one object stands for its class-level `_client`. */
  class Database {
    const appEnv: Option<string>
    const caFile: string
    var client: MongoClient?

    constructor (appEnv: Option<string>, caFile: string)
      ensures this.appEnv == appEnv && this.caFile == caFile && client == null
    {
      this.appEnv, this.caFile := appEnv, caFile;
      client := null;
    }

    /** `Database.init_client(mongo_uri)`: creates a client only when none is held. */
    method InitClient(uri: string)
      modifies this
      ensures old(client) != null ==> client == old(client)
      ensures old(client) == null ==>
        client != null && fresh(client) && client.uri == uri && !client.closed
        && (CA_FILE_KEY in client.options <==> ShouldEnableTls(appEnv, uri))
        && client.options - {CA_FILE_KEY} == BaseOptions(DEFAULT_TIMEOUT)
    {
      if client == null {
        client := CreateMongoClient(uri, appEnv, DEFAULT_TIMEOUT, caFile);
      }
    }

    /** `Database.client()`. */
    method Client() returns (r: Result<MongoClient, DbError>)
      ensures r.Err? <==> client == null
      ensures r.Ok? ==> r.value == client
    {
      if client == null {
        return Err(NotInitialized);
      }
      return Ok(client);
    }

    /** `Database.get_database(db_name)`. */
    method GetDatabase(name: string) returns (r: Result<DatabaseRef, DbError>)
      ensures r.Err? <==> client == null
      ensures r.Ok? ==> r.value == DatabaseRef(client, name)
    {
      if client == null {
        return Err(NotInitialized);
      }
      return Ok(DatabaseRef(client, name));
    }

    /** `Database.get_collection(collection_name, db_name)`. */
    method GetCollection(name: string, dbName: string) returns (r: Result<CollectionRef, DbError>)
      ensures r.Err? <==> client == null
      ensures r.Ok? ==> r.value == CollectionRef(DatabaseRef(client, dbName), name)
    {
      var db := GetDatabase(dbName);
      if db.Err? {
        return Err(db.error);
      }
      return Ok(CollectionRef(db.value, name));
    }

    /** `Database.close_client()`: closes and forgets the client, if any. */
    method CloseClient()
      modifies this, client
      ensures client == null
      ensures old(client) != null ==> old(client).closed
    {
      if client != null {
        client.Close();
        client := null;
      }
    }
  }

  /** Closing and initialising again yields a new client for the new URI. */
  method Reinitialise(db: Database, uri: string)
    requires db.client != null
    modifies db, db.client
    ensures old(db.client).closed
    ensures db.client != null && fresh(db.client) && db.client.uri == uri && !db.client.closed
  {
    db.CloseClient();
    db.InitClient(uri);
  }

  // ---------------------------------------------------------------------
  // handle_db_errors

  /** A raised Python exception: its class, and whether it derives from `Exception` (not just `BaseException`). */
  datatype PyException = PyException(className: string, isException: bool)

  /**
   * `handle_db_errors(default_return)(f)`: the wrapped function returns what
   * `f` returns, and `default` wherever `f` raises an `Exception`;
   * `BaseException`s that are not `Exception`s still propagate.
   */
  function HandleDbErrors<A(!new), T>(default: T, f: A -> Result<T, PyException>): (g: A -> Result<T, PyException>)
    ensures forall a :: f(a).Ok? ==> g(a) == f(a)
    ensures forall a :: f(a).Err? && f(a).error.isException ==> g(a) == Ok(default)
    ensures forall a :: g(a).Err? ==> g(a) == f(a) && !g(a).error.isException
  {
    a => match f(a)
         case Ok(v) => Ok(v)
         case Err(e) => if e.isException then Ok(default) else Err(e)
  }
}
