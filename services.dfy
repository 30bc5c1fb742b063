/**
 * The vocabulary the security bundle uses to name services: service
 * references, the request-matcher tuple, the errors the build raises, and
 * PHP's ASCII case conversions.
 */
module Services {
  import opened Wrappers

  /** The five values a request matcher is built from: path, host, methods, ip(s), attributes (`null` is `None`). */
  datatype MatcherKey = MatcherKey(
    path: Option<string>,
    host: Option<string>,
    methods: seq<string>,
    ips: Option<seq<string>>,
    attributes: seq<(string, string)>)

  /**
   * A service id. Most ids are plain strings; two families are kept
   * structural:
   *  - `'security.request_matcher.'.md5(serialize(t)).sha1(serialize(t))`
   *    is `RequestMatcherRef(t)`: the hash is treated as injective;
   *  - `'security.context_listener.'.N` is `ContextListenerRef(N)`: the
   *    decimal rendering of N is abstracted to N itself.
   */
  datatype Ref =
    | Id(name: string)
    | RequestMatcherRef(key: MatcherKey)
    | ContextListenerRef(n: nat)

  /** One constructor argument of a `RequestMatcher` service. */
  datatype MatcherArg =
    | NullArg
    | StringArg(s: string)
    | ListArg(items: seq<string>)
    | AttributesArg(attributes: seq<(string, string)>)

  /** Why a build aborts. */
  datatype BuildError =
    | NotAnArray(factoryKey: string)           // TypeError: fromTuple(array) called with null
    | NoAuthenticationListener(firewall: string)
    | UnableToCreateUserProvider(provider: string)

  /** `strtoupper` / `strtolower` on one character (ASCII letters only). */
  function UpperChar(c: char): char
  {
    if 'a' <= c <= 'z' then (c as int - 32) as char else c
  }

  function LowerChar(c: char): char
  {
    if 'A' <= c <= 'Z' then (c as int + 32) as char else c
  }

  function Upper(s: string): (r: string)
    ensures |r| == |s|
    ensures forall i :: 0 <= i < |s| ==> r[i] == UpperChar(s[i])
  {
    if s == [] then [] else [UpperChar(s[0])] + Upper(s[1..])
  }

  function Lower(s: string): (r: string)
    ensures |r| == |s|
    ensures forall i :: 0 <= i < |s| ==> r[i] == LowerChar(s[i])
  {
    if s == [] then [] else [LowerChar(s[0])] + Lower(s[1..])
  }

  /** Upper-cases every HTTP method name (`array_map('strtoupper', $methods)`). */
  function UpperAll(methods: seq<string>): (r: seq<string>)
    ensures |r| == |methods|
    ensures forall i :: 0 <= i < |methods| ==> r[i] == Upper(methods[i])
  {
    if methods == [] then [] else [Upper(methods[0])] + UpperAll(methods[1..])
  }

  /** Upper-casing twice is upper-casing once. */
  lemma UpperAllIdempotent(methods: seq<string>)
    ensures UpperAll(UpperAll(methods)) == UpperAll(methods)
  {
    forall i | 0 <= i < |methods|
      ensures UpperAll(UpperAll(methods))[i] == UpperAll(methods)[i]
    {
      var m := methods[i];
      assert forall k :: 0 <= k < |m| ==> UpperChar(UpperChar(m[k])) == UpperChar(m[k]);
      assert Upper(Upper(m)) == Upper(m);
    }
  }
}
