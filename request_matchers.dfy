/**
 * `createRequestMatcher`: the memoised registration of one `RequestMatcher`
 * service per distinct (path, host, methods, ips, attributes) tuple.
 *
 * The extension and two of the plugin factories each carry a copy of this
 * algorithm with a memo of their own; `RequestMatcherMemo` is one such memo,
 * and the extension owns one instance of it.
 */
module RequestMatchers {
  import opened Wrappers
  import opened Services
  import opened Containers

  /** The memo key: the 5-tuple with the HTTP methods upper-cased. */
  function MatcherKeyOf(
    path: Option<string>, host: Option<string>, methods: seq<string>,
    ips: Option<seq<string>>, attributes: seq<(string, string)>): (k: MatcherKey)
    ensures k.path == path && k.host == host && k.ips == ips && k.attributes == attributes
    ensures |k.methods| == |methods|
    ensures forall i :: 0 <= i < |methods| ==> k.methods[i] == Upper(methods[i])
  {
    // `if ($methods)`: an empty list is left as it is, which is what upper-casing it gives too
    MatcherKey(path, host, if methods == [] then methods else UpperAll(methods), ips, attributes)
  }

  /** Method lists that agree up to ASCII case give the same key, and so the same service. */
  lemma MethodsCaseInsensitive(
    path: Option<string>, host: Option<string>, methods1: seq<string>, methods2: seq<string>,
    ips: Option<seq<string>>, attributes: seq<(string, string)>)
    requires |methods1| == |methods2|
    requires forall i :: 0 <= i < |methods1| ==> Upper(methods1[i]) == Upper(methods2[i])
    ensures MatcherKeyOf(path, host, methods1, ips, attributes) == MatcherKeyOf(path, host, methods2, ips, attributes)
  {
    var k1 := MatcherKeyOf(path, host, methods1, ips, attributes);
    var k2 := MatcherKeyOf(path, host, methods2, ips, attributes);
    assert k1.methods == k2.methods;
  }

  /** Tuples that differ in anything but the case of a method name give different services. */
  lemma DistinctTuplesDistinctIds(
    path1: Option<string>, host1: Option<string>, methods1: seq<string>, ips1: Option<seq<string>>, attributes1: seq<(string, string)>,
    path2: Option<string>, host2: Option<string>, methods2: seq<string>, ips2: Option<seq<string>>, attributes2: seq<(string, string)>)
    requires path1 != path2 || host1 != host2 || ips1 != ips2 || attributes1 != attributes2 || UpperAll(methods1) != UpperAll(methods2)
    ensures RequestMatcherRef(MatcherKeyOf(path1, host1, methods1, ips1, attributes1))
         != RequestMatcherRef(MatcherKeyOf(path2, host2, methods2, ips2, attributes2))
  {
    var k1 := MatcherKeyOf(path1, host1, methods1, ips1, attributes1);
    var k2 := MatcherKeyOf(path2, host2, methods2, ips2, attributes2);
    assert k1.methods == UpperAll(methods1);
    assert k2.methods == UpperAll(methods2);
  }

  function OptionalString(s: Option<string>): MatcherArg
  {
    if s.Some? then StringArg(s.value) else NullArg
  }

  /** The constructor arguments before trimming: the key's five components, in order. */
  function Arguments(k: MatcherKey): (args: seq<MatcherArg>)
    ensures |args| == 5
  {
    [OptionalString(k.path), OptionalString(k.host), ListArg(k.methods),
     if k.ips.Some? then ListArg(k.ips.value) else NullArg,
     AttributesArg(k.attributes)]
  }

  /** PHP's `!$value` on an argument: null, '', '0' and empty arrays are falsy. */
  predicate Falsy(a: MatcherArg)
  {
    match a
    case NullArg => true
    case StringArg(s) => s == "" || s == "0"
    case ListArg(items) => items == []
    case AttributesArg(attributes) => attributes == []
  }

  /**
   * `r` is `args` with its trailing falsy entries popped: a prefix of
   * `args`, ending in a truthy entry unless empty, and followed in `args`
   * only by falsy entries.
   */
  predicate TrimmedOf(r: seq<MatcherArg>, args: seq<MatcherArg>)
  {
    && r <= args
    && (r == [] || !Falsy(r[|r| - 1]))
    && forall i :: |r| <= i < |args| ==> Falsy(args[i])
  }

  /** There is exactly one way to trim an argument list. */
  lemma TrimmedOfUnique(r1: seq<MatcherArg>, r2: seq<MatcherArg>, args: seq<MatcherArg>)
    requires TrimmedOf(r1, args) && TrimmedOf(r2, args)
    ensures r1 == r2
  {
    // the last kept entry of each is truthy, so it lies within the other's kept prefix
    assert r1 == [] || r1[|r1| - 1] == args[|r1| - 1];
    assert r2 == [] || r2[|r2| - 1] == args[|r2| - 1];
  }

  /** The `while (count($arguments) > 0 && !end($arguments)) array_pop($arguments)` loop. */
  method TrimArguments(args: seq<MatcherArg>) returns (r: seq<MatcherArg>)
    ensures TrimmedOf(r, args)
  {
    r := args;
    while |r| > 0 && Falsy(r[|r| - 1])
      invariant r <= args
      invariant forall i :: |r| <= i < |args| ==> Falsy(args[i])
      decreases |r|
    {
      r := r[..|r| - 1];
    }
  }

  /** Every truthy argument is kept: trimming only ever removes falsy ones. */
  lemma TrimKeepsTruthy(r: seq<MatcherArg>, args: seq<MatcherArg>, i: nat)
    requires TrimmedOf(r, args)
    requires i < |args| && !Falsy(args[i])
    ensures i < |r| && r[i] == args[i]
  {
  }

  /**
   * A copy of the request-matcher memo (`$this->requestMatchers`). Service
   * ids are `RequestMatcherRef(key)`, standing for the md5 and sha1 of the
   * serialised key, which are taken to be injective.
   */
  class RequestMatcherMemo {
    var requestMatchers: map<MatcherKey, Ref>

    /** Every memoised id is the one derived from its key. */
    ghost predicate Valid()
      reads this
    {
      forall k :: k in requestMatchers ==> requestMatchers[k] == RequestMatcherRef(k)
    }

    constructor()
      ensures requestMatchers == map[] && Valid()
    {
      requestMatchers := map[];
    }

    /**
     * `createRequestMatcher($container, $path, $host, $methods, $ip, $attributes)`.
     * A tuple seen before returns its memoised id and registers nothing; a
     * new one registers a `RequestMatcher` with the trimmed arguments.
     */
    method CreateRequestMatcher(
      container: Container, path: Option<string>, host: Option<string>, methods: seq<string>,
      ips: Option<seq<string>>, attributes: seq<(string, string)>)
      returns (id: Ref, container': Container)
      requires Valid()
      modifies this
      ensures Valid()
      ensures id == RequestMatcherRef(MatcherKeyOf(path, host, methods, ips, attributes))
      ensures MatcherKeyOf(path, host, methods, ips, attributes) in requestMatchers
      ensures MatcherKeyOf(path, host, methods, ips, attributes) in old(requestMatchers) ==>
        requestMatchers == old(requestMatchers) && container' == container
      ensures MatcherKeyOf(path, host, methods, ips, attributes) !in old(requestMatchers) ==>
        && requestMatchers == old(requestMatchers)[MatcherKeyOf(path, host, methods, ips, attributes) := id]
        && id in container' && container' == container[id := container'[id]]
        && container'[id].RequestMatcherDef?
        && TrimmedOf(container'[id].arguments, Arguments(MatcherKeyOf(path, host, methods, ips, attributes)))
    {
      var key := MatcherKeyOf(path, host, methods, ips, attributes);
      id := RequestMatcherRef(key);
      if key in requestMatchers {
        return requestMatchers[key], container;
      }
      var arguments := TrimArguments(Arguments(key));
      container' := container[id := RequestMatcherDef(arguments)];
      requestMatchers := requestMatchers[key := id];
    }
  }
}
