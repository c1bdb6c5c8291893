/**
 * The two cache-key builders: `generate_cache_key` for memoised function
 * calls and `custom_key_builder` for request-scoped caching. Arguments are
 * modelled by their `str()` text; keyword arguments and query parameters
 * by their (name, text) pairs in the collection's order.
 */
module Keys {
  import opened Strings

  const DEFAULT_PREFIX: string := "cache"

  /** A request's identity: its URL path and its query parameters as `items()` yields them. */
  datatype Request = Request(path: string, query: seq<(string, string)>)

  /** The positional arguments, numbered from `offset`, whose index is not in `skip`. */
  function KeptArgs(args: seq<string>, skip: seq<int>, offset: int): (kept: seq<string>)
    ensures |kept| <= |args|
    ensures forall a :: a in kept ==> a in args
    decreases |args|
  {
    if args == [] then []
    else (if offset in skip then [] else [args[0]]) + KeptArgs(args[1..], skip, offset + 1)
  }

  /** The keyword arguments whose name is not in `skip`, in their order. */
  function KeptKwargs(kwargs: seq<(string, string)>, skip: seq<string>): (kept: seq<(string, string)>)
    ensures forall p :: p in kept ==> p in kwargs && p.0 !in skip
    decreases |kwargs|
  {
    if kwargs == [] then []
    else (if kwargs[0].0 in skip then [] else [kwargs[0]]) + KeptKwargs(kwargs[1..], skip)
  }

  /** Each pair rendered as `name:value`. */
  function Pairs(kv: seq<(string, string)>): (r: seq<string>)
    ensures |r| == |kv|
  {
    seq(|kv|, i requires 0 <= i < |kv| => kv[i].0 + ":" + kv[i].1)
  }

  /** `generate_cache_key(func, args, kwargs, skip_args, skip_kwargs, prefix)`. */
  function GenerateCacheKey(name: string, args: seq<string>, kwargs: seq<(string, string)>,
                            skipArgs: seq<int>, skipKwargs: seq<string>, prefix: string): (key: string)
    ensures StartsWith(key, prefix + ":" + name + ":")
  {
    var head := prefix + ":" + name + ":";
    var key := head + Join(KeptArgs(args, skipArgs, 0), ':') + ":" + Join(Pairs(KeptKwargs(kwargs, skipKwargs)), ':');
    assert key == head + (Join(KeptArgs(args, skipArgs, 0), ':') + ":" + Join(Pairs(KeptKwargs(kwargs, skipKwargs)), ':'));
    StartsWithAppend(head, Join(KeptArgs(args, skipArgs, 0), ':') + ":" + Join(Pairs(KeptKwargs(kwargs, skipKwargs)), ':'), head);
    key
  }

  /** `custom_key_builder(func, namespace, request)`. */
  function CustomKeyBuilder(namespace: string, request: Request): (key: string)
    ensures StartsWith(key, namespace + ":" + request.path + ":")
  {
    var head := namespace + ":" + request.path + ":";
    StartsWithAppend(head, Join(Pairs(request.query), ':'), head);
    head + Join(Pairs(request.query), ':')
  }

  // ---------------------------------------------------------------------
  // Properties

  lemma {:induction false} KeptArgsAppend(a: seq<string>, b: seq<string>, skip: seq<int>, offset: int)
    ensures KeptArgs(a + b, skip, offset) == KeptArgs(a, skip, offset) + KeptArgs(b, skip, offset + |a|)
    decreases |a|
  {
    if a != [] {
      assert (a + b)[1..] == a[1..] + b;
      KeptArgsAppend(a[1..], b, skip, offset + 1);
    } else {
      assert a + b == b;
    }
  }

  /** Every argument at a position not skipped is kept. */
  lemma {:induction false} KeptArgsComplete(args: seq<string>, skip: seq<int>, offset: int)
    ensures forall i :: 0 <= i < |args| && offset + i !in skip ==> args[i] in KeptArgs(args, skip, offset)
    decreases |args|
  {
    if args != [] {
      KeptArgsComplete(args[1..], skip, offset + 1);
      forall i | 1 <= i < |args| && offset + i !in skip
        ensures args[i] in KeptArgs(args, skip, offset)
      {
        assert args[i] == args[1..][i - 1];
      }
    }
  }

  /** Every pair whose name is not skipped is kept. */
  lemma {:induction false} KeptKwargsComplete(kwargs: seq<(string, string)>, skip: seq<string>)
    ensures forall p :: p in kwargs && p.0 !in skip ==> p in KeptKwargs(kwargs, skip)
    decreases |kwargs|
  {
    if kwargs != [] {
      KeptKwargsComplete(kwargs[1..], skip);
      forall p | p in kwargs && p.0 !in skip
        ensures p in KeptKwargs(kwargs, skip)
      {
        if p != kwargs[0] {
          assert p in kwargs[1..];
        }
      }
    }
  }

  /** An argument at a position not skipped is kept between the kept arguments before and after it. */
  lemma KeptArgsAround(before: seq<string>, x: string, after: seq<string>, skip: seq<int>, offset: int)
    requires offset + |before| !in skip
    ensures KeptArgs(before + [x] + after, skip, offset)
         == KeptArgs(before, skip, offset) + [x] + KeptArgs(after, skip, offset + |before| + 1)
  {
    KeptArgsAppend(before + [x], after, skip, offset);
    KeptArgsAppend(before, [x], skip, offset);
    assert KeptArgs([x], skip, offset + |before|) == [x];
  }

  /** Arguments at skipped positions do not influence which arguments are kept. */
  lemma {:induction false} KeptArgsIgnoreSkipped(args: seq<string>, args': seq<string>, skip: seq<int>, offset: int)
    requires |args| == |args'|
    requires forall i :: 0 <= i < |args| && offset + i !in skip ==> args[i] == args'[i]
    ensures KeptArgs(args, skip, offset) == KeptArgs(args', skip, offset)
    decreases |args|
  {
    if args != [] {
      KeptArgsIgnoreSkipped(args[1..], args'[1..], skip, offset + 1);
    }
  }

  /** Keyword arguments with skipped names do not influence which are kept. */
  lemma {:induction false} KeptKwargsIgnoreSkipped(kwargs: seq<(string, string)>, kwargs': seq<(string, string)>, skip: seq<string>)
    requires |kwargs| == |kwargs'|
    requires forall i :: 0 <= i < |kwargs| ==> kwargs[i].0 == kwargs'[i].0
    requires forall i :: 0 <= i < |kwargs| && kwargs[i].0 !in skip ==> kwargs[i].1 == kwargs'[i].1
    ensures KeptKwargs(kwargs, skip) == KeptKwargs(kwargs', skip)
    decreases |kwargs|
  {
    if kwargs != [] {
      KeptKwargsIgnoreSkipped(kwargs[1..], kwargs'[1..], skip);
    }
  }

  /** Values at skipped indices or under skipped names never affect the key. */
  lemma SkippedArgumentsIrrelevant(name: string, args: seq<string>, args': seq<string>,
                                   kwargs: seq<(string, string)>, kwargs': seq<(string, string)>,
                                   skipArgs: seq<int>, skipKwargs: seq<string>, prefix: string)
    requires |args| == |args'|
    requires forall i :: 0 <= i < |args| && i !in skipArgs ==> args[i] == args'[i]
    requires |kwargs| == |kwargs'|
    requires forall i :: 0 <= i < |kwargs| ==> kwargs[i].0 == kwargs'[i].0
    requires forall i :: 0 <= i < |kwargs| && kwargs[i].0 !in skipKwargs ==> kwargs[i].1 == kwargs'[i].1
    ensures GenerateCacheKey(name, args, kwargs, skipArgs, skipKwargs, prefix)
         == GenerateCacheKey(name, args', kwargs', skipArgs, skipKwargs, prefix)
  {
    KeptArgsIgnoreSkipped(args, args', skipArgs, 0);
    KeptKwargsIgnoreSkipped(kwargs, kwargs', skipKwargs);
  }

  /** Changing one kept positional argument to a different text changes the key. */
  lemma KeptArgumentMatters(name: string, args: seq<string>, i: nat, text: string,
                            kwargs: seq<(string, string)>, skipArgs: seq<int>, skipKwargs: seq<string>, prefix: string)
    requires i < |args| && i !in skipArgs && args[i] != text
    ensures GenerateCacheKey(name, args, kwargs, skipArgs, skipKwargs, prefix)
         != GenerateCacheKey(name, args[i := text], kwargs, skipArgs, skipKwargs, prefix)
  {
    var args' := args[i := text];
    KeptArgsDiffer(args, i, text, skipArgs);
    var head := prefix + ":" + name + ":";
    var tail := ":" + Join(Pairs(KeptKwargs(kwargs, skipKwargs)), ':');
    var j, j' := Join(KeptArgs(args, skipArgs, 0), ':'), Join(KeptArgs(args', skipArgs, 0), ':');
    assert GenerateCacheKey(name, args, kwargs, skipArgs, skipKwargs, prefix) == head + j + tail;
    assert GenerateCacheKey(name, args', kwargs, skipArgs, skipKwargs, prefix) == head + j' + tail;
    if head + j + tail == head + j' + tail {
      CancelAround(head, j, j', tail);
    }
  }

  lemma KeptArgsDiffer(args: seq<string>, i: nat, text: string, skip: seq<int>)
    requires i < |args| && i !in skip && args[i] != text
    ensures Join(KeptArgs(args, skip, 0), ':') != Join(KeptArgs(args[i := text], skip, 0), ':')
  {
    var before, after := args[..i], args[i + 1..];
    assert args == before + [args[i]] + after;
    assert args[i := text] == before + [text] + after;
    KeptArgsAround(before, args[i], after, skip, 0);
    KeptArgsAround(before, text, after, skip, 0);
    JoinSensitive(KeptArgs(before, skip, 0), args[i], text, KeptArgs(after, skip, i + 1), ':');
  }

  lemma {:induction false} KeptKwargsAppend(a: seq<(string, string)>, b: seq<(string, string)>, skip: seq<string>)
    ensures KeptKwargs(a + b, skip) == KeptKwargs(a, skip) + KeptKwargs(b, skip)
    decreases |a|
  {
    if a != [] {
      assert (a + b)[1..] == a[1..] + b;
      var head := if a[0].0 in skip then [] else [a[0]];
      assert KeptKwargs(a + b, skip) == head + KeptKwargs(a[1..] + b, skip);
      KeptKwargsAppend(a[1..], b, skip);
      assert KeptKwargs(a, skip) == head + KeptKwargs(a[1..], skip);
    } else {
      assert a + b == b;
    }
  }

  lemma KeptKwargsAround(before: seq<(string, string)>, p: (string, string), after: seq<(string, string)>,
                          skip: seq<string>)
    requires p.0 !in skip
    ensures KeptKwargs(before + [p] + after, skip) == KeptKwargs(before, skip) + [p] + KeptKwargs(after, skip)
  {
    KeptKwargsAppend(before + [p], after, skip);
    KeptKwargsAppend(before, [p], skip);
    assert KeptKwargs([p], skip) == [p];
  }

  lemma PairsAround(a: seq<(string, string)>, p: (string, string), b: seq<(string, string)>)
    ensures Pairs(a + [p] + b) == Pairs(a) + [p.0 + ":" + p.1] + Pairs(b)
  {
  }

  /** A call key is its head, through the positional arguments, followed by the joined keyword pairs. */
  lemma KeyTail(name: string, args: seq<string>, kwargs: seq<(string, string)>,
                skipArgs: seq<int>, skipKwargs: seq<string>, prefix: string)
    ensures GenerateCacheKey(name, args, kwargs, skipArgs, skipKwargs, prefix)
         == (prefix + ":" + name + ":" + Join(KeptArgs(args, skipArgs, 0), ':') + ":")
            + Join(Pairs(KeptKwargs(kwargs, skipKwargs)), ':')
  {
  }

  /** Changing the value of one kept keyword argument to a different text changes the key. */
  lemma KeptKeywordMatters(name: string, args: seq<string>, before: seq<(string, string)>, kw: string,
                           value: string, value': string, after: seq<(string, string)>,
                           skipArgs: seq<int>, skipKwargs: seq<string>, prefix: string)
    requires kw !in skipKwargs && value != value'
    ensures GenerateCacheKey(name, args, before + [(kw, value)] + after, skipArgs, skipKwargs, prefix)
         != GenerateCacheKey(name, args, before + [(kw, value')] + after, skipArgs, skipKwargs, prefix)
  {
    var kwargs, kwargs' := before + [(kw, value)] + after, before + [(kw, value')] + after;
    KeptKwargsDiffer(before, kw, value, value', after, skipKwargs);
    KeyTail(name, args, kwargs, skipArgs, skipKwargs, prefix);
    KeyTail(name, args, kwargs', skipArgs, skipKwargs, prefix);
    var head := prefix + ":" + name + ":" + Join(KeptArgs(args, skipArgs, 0), ':') + ":";
    var j, j' := Join(Pairs(KeptKwargs(kwargs, skipKwargs)), ':'), Join(Pairs(KeptKwargs(kwargs', skipKwargs)), ':');
    assert (head + j)[|head|..] == j;
    assert (head + j')[|head|..] == j';
  }

  lemma KeptKwargsDiffer(before: seq<(string, string)>, kw: string, value: string, value': string,
                         after: seq<(string, string)>, skip: seq<string>)
    requires kw !in skip && value != value'
    ensures Join(Pairs(KeptKwargs(before + [(kw, value)] + after, skip)), ':')
         != Join(Pairs(KeptKwargs(before + [(kw, value')] + after, skip)), ':')
  {
    var a, b := KeptKwargs(before, skip), KeptKwargs(after, skip);
    KeptKwargsAround(before, (kw, value), after, skip);
    KeptKwargsAround(before, (kw, value'), after, skip);
    PairsAround(a, (kw, value), b);
    PairsAround(a, (kw, value'), b);
    var x, y := kw + ":" + value, kw + ":" + value';
    assert x != y by {
      if x == y {
        CancelAround(kw + ":", value, value', "");
      }
    }
    JoinSensitive(Pairs(a), x, y, Pairs(b), ':');
  }

  /** With no index skipped every positional argument is kept, in order. */
  lemma {:induction false} KeptArgsNoSkip(args: seq<string>, offset: int)
    ensures KeptArgs(args, [], offset) == args
    decreases |args|
  {
    if args != [] {
      KeptArgsNoSkip(args[1..], offset + 1);
      assert [args[0]] + args[1..] == args;
    }
  }

  /** With no name skipped every keyword argument is kept, in order. */
  lemma {:induction false} KeptKwargsNoSkip(kwargs: seq<(string, string)>)
    ensures KeptKwargs(kwargs, []) == kwargs
    decreases |kwargs|
  {
    if kwargs != [] {
      KeptKwargsNoSkip(kwargs[1..]);
      assert [kwargs[0]] + kwargs[1..] == kwargs;
    }
  }

  /** Without skip lists the key is `prefix:name:` then all arguments, then all `name:value` pairs. */
  lemma KeyWithoutSkips(name: string, args: seq<string>, kwargs: seq<(string, string)>, prefix: string)
    ensures GenerateCacheKey(name, args, kwargs, [], [], prefix)
         == prefix + ":" + name + ":" + Join(args, ':') + ":" + Join(Pairs(kwargs), ':')
  {
    KeptArgsNoSkip(args, 0);
    KeptKwargsNoSkip(kwargs);
  }

  /** With nothing kept, the separators remain: `cache:f::`. */
  lemma EmptyCallKey()
    ensures GenerateCacheKey("f", [], [], [], [], DEFAULT_PREFIX) == "cache:f::"
  {
  }

  /** Distinct calls can share a key, because argument texts may contain the separator. */
  lemma KeysCanCollide()
    ensures GenerateCacheKey("f", ["a:b"], [], [], [], DEFAULT_PREFIX)
         == GenerateCacheKey("f", ["a", "b"], [], [], [], DEFAULT_PREFIX)
  {
  }

  lemma {:induction false} KeptArgsSepFree(args: seq<string>, skip: seq<int>, offset: int)
    requires SepFree(args, ':')
    ensures SepFree(KeptArgs(args, skip, offset), ':')
    decreases |args|
  {
    if args != [] {
      KeptArgsSepFree(args[1..], skip, offset + 1);
    }
  }

  /** The pieces a request key splits into: namespace, path, then name and value of each parameter in order. */
  function Fields(kv: seq<(string, string)>): (r: seq<string>)
    ensures |r| == 2 * |kv|
  {
    if kv == [] then [] else [kv[0].0, kv[0].1] + Fields(kv[1..])
  }

  lemma {:induction false} JoinPairs(kv: seq<(string, string)>)
    requires kv != []
    ensures Join(Pairs(kv), ':') == Join(Fields(kv), ':')
    decreases |kv|
  {
    var first := kv[0].0 + ":" + kv[0].1;
    JoinAppend([kv[0].0], [kv[0].1], ':');
    assert Join([kv[0].0, kv[0].1], ':') == first;
    if |kv| > 1 {
      JoinPairs(kv[1..]);
      assert Pairs(kv) == [first] + Pairs(kv[1..]);
      JoinAppend([first], Pairs(kv[1..]), ':');
      assert Fields(kv) == [kv[0].0, kv[0].1] + Fields(kv[1..]);
      JoinAppend([kv[0].0, kv[0].1], Fields(kv[1..]), ':');
    } else {
      assert Pairs(kv) == [first];
      assert Fields(kv) == [kv[0].0, kv[0].1];
    }
  }

  lemma {:induction false} FieldsSepFree(kv: seq<(string, string)>)
    requires forall i :: 0 <= i < |kv| ==> ':' !in kv[i].0 && ':' !in kv[i].1
    ensures SepFree(Fields(kv), ':')
    decreases |kv|
  {
    if kv != [] {
      FieldsSepFree(kv[1..]);
    }
  }

  /**
   * A request key reads back, split at `:`, as the namespace, the path and
   * the query parameters' names and values in the collection's order (an
   * empty last field when there are none), provided no part contains `:`.
   */
  lemma RequestKeyFields(namespace: string, request: Request)
    requires ':' !in namespace && ':' !in request.path
    requires forall i :: 0 <= i < |request.query| ==> ':' !in request.query[i].0 && ':' !in request.query[i].1
    ensures Split(CustomKeyBuilder(namespace, request), ':')
         == [namespace, request.path] + (if request.query == [] then [""] else Fields(request.query))
  {
    var q := request.query;
    var rest := if q == [] then [""] else Fields(q);
    var parts := [namespace, request.path] + rest;
    if q != [] {
      JoinPairs(q);
      FieldsSepFree(q);
    }
    assert Join(Pairs(q), ':') == Join(rest, ':');
    JoinAppend([namespace], [request.path], ':');
    JoinAppend([namespace, request.path], rest, ':');
    assert Join([namespace, request.path], ':') == namespace + ":" + request.path;
    assert CustomKeyBuilder(namespace, request) == Join(parts, ':');
    assert SepFree(parts, ':');
    SplitJoin(parts, ':');
  }

  lemma JoinKeyParts(prefix: string, name: string, a: seq<string>, b: seq<string>)
    requires a != [] && b != []
    ensures Join([prefix, name] + a + b, ':') == prefix + ":" + name + ":" + Join(a, ':') + ":" + Join(b, ':')
  {
    JoinAppend([prefix], [name], ':');
    JoinAppend([prefix, name], a, ':');
    JoinAppend([prefix, name] + a, b, ':');
    assert Join([prefix, name], ':') == prefix + ":" + name;
  }

  /**
   * A call key reads back, split at `:`, as the prefix, the function name,
   * the kept positional arguments and the kept keyword names and values, in
   * order (an empty field for each kind with nothing kept), provided none of
   * them contains `:`.
   */
  lemma CallKeyFields(name: string, args: seq<string>, kwargs: seq<(string, string)>,
                      skipArgs: seq<int>, skipKwargs: seq<string>, prefix: string)
    requires ':' !in prefix && ':' !in name && SepFree(args, ':')
    requires forall i :: 0 <= i < |kwargs| ==> ':' !in kwargs[i].0 && ':' !in kwargs[i].1
    ensures var kept, kw := KeptArgs(args, skipArgs, 0), KeptKwargs(kwargs, skipKwargs);
      Split(GenerateCacheKey(name, args, kwargs, skipArgs, skipKwargs, prefix), ':')
      == [prefix, name] + (if kept == [] then [""] else kept) + (if kw == [] then [""] else Fields(kw))
  {
    var kept := KeptArgs(args, skipArgs, 0);
    var kw := KeptKwargs(kwargs, skipKwargs);
    var a := if kept == [] then [""] else kept;
    var b := if kw == [] then [""] else Fields(kw);
    KeptArgsSepFree(args, skipArgs, 0);
    forall i | 0 <= i < |kw| ensures ':' !in kw[i].0 && ':' !in kw[i].1 {
      assert kw[i] in kwargs;
    }
    if kw != [] {
      FieldsSepFree(kw);
      JoinPairs(kw);
    }
    assert Join(kept, ':') == Join(a, ':');
    assert Join(Pairs(kw), ':') == Join(b, ':');
    var parts := [prefix, name] + a + b;
    JoinKeyParts(prefix, name, a, b);
    assert GenerateCacheKey(name, args, kwargs, skipArgs, skipKwargs, prefix) == Join(parts, ':');
    assert SepFree(parts, ':');
    SplitJoin(parts, ':');
  }
}
