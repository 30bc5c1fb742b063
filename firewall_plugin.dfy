/**
 * `FirewallPlugin`: the positions a firewall plugin can occupy, the record a
 * plugin factory's `create` is normalised into, and `sortFactories`, the
 * stable bucket sort that fixes the order in which plugins run.
 */
module FirewallPlugins {
  import opened Wrappers
  import opened Services

  // The position strings, exactly as declared (the typo in MATCH_REQUEST included).
  const POSITION_MATCH_REQUEST: string := "match_reuqest"
  const POSITION_PRE_AUTHENTICATION: string := "pre_auth"
  const POSITION_AUTHENTICATION_FORM: string := "form"
  const POSITION_AUTHENTICATION_HTTP: string := "http"
  const POSITION_AUTHENTICATION_REMEMBER_ME: string := "remember_me"
  const POSITION_AUTHENTICATION_ANON: string := "anon"
  const POSITION_POST_AUTHENTICATION: string := "post_authentication"
  const POSITION_PRE_AUTHORIZATION: string := "pre_authorization"
  const POSITION_AUTHORIZATION_DEFAULT_RBAC: string := "default_rbac"
  const POSITION_POST_AUTHORIZATION: string := "post_authorization"

  /** The nine positions `sortFactories` knows, in pipeline order. */
  const ORDER: seq<string> := [
    POSITION_PRE_AUTHENTICATION,
    POSITION_AUTHENTICATION_FORM,
    POSITION_AUTHENTICATION_HTTP,
    POSITION_AUTHENTICATION_REMEMBER_ME,
    POSITION_AUTHENTICATION_ANON,
    POSITION_POST_AUTHENTICATION,
    POSITION_PRE_AUTHORIZATION,
    POSITION_AUTHORIZATION_DEFAULT_RBAC,
    POSITION_POST_AUTHORIZATION
  ]

  /** No position occurs twice in ORDER, and the request-matching position is not among them. */
  lemma OrderIsDistinct()
    ensures forall i, j :: 0 <= i < j < |ORDER| ==> ORDER[i] != ORDER[j]
    ensures POSITION_MATCH_REQUEST !in ORDER
  {
  }

  /** Index of a known position in ORDER. */
  function Rank(p: string): (r: nat)
    requires p in ORDER
    ensures r < |ORDER| && ORDER[r] == p
  {
    IndexIn(ORDER, p)
  }

  function IndexIn(s: seq<string>, p: string): (i: nat)
    requires p in s
    ensures i < |s| && s[i] == p
  {
    if s[0] == p then 0 else 1 + IndexIn(s[1..], p)
  }

  /** Growing the known prefix of ORDER by one adds exactly one new position. */
  lemma OrderPrefix(n: nat)
    requires 0 < n <= |ORDER|
    ensures forall p :: p in ORDER[..n] <==> p in ORDER[..n - 1] || p == ORDER[n - 1]
    ensures ORDER[n - 1] !in ORDER[..n - 1]
  {
    assert ORDER[..n] == ORDER[..n - 1] + [ORDER[n - 1]];
    OrderIsDistinct();
  }

  lemma RankOf(i: nat)
    requires i < |ORDER|
    ensures Rank(ORDER[i]) == i
  {
    OrderIsDistinct();
  }

  // ---------------------------------------------------------------------
  // The plugin record and the two shapes `create` may return
  // ---------------------------------------------------------------------

  /** What one activated plugin contributes: a listener, maybe a provider, maybe an entry point. */
  datatype FirewallPlugin = FirewallPlugin(
    listenerId: Ref,
    authenticationProviderId: Option<string>,
    authenticationEntryPoint: Option<string>)

  /** `new FirewallPlugin($listenerId, $authenticationProviderId = null, $authenticationEntryPoint = null)` */
  function NewFirewallPlugin(
    listenerId: Ref,
    authenticationProviderId: Option<string> := None,
    authenticationEntryPoint: Option<string> := None): FirewallPlugin
  {
    FirewallPlugin(listenerId, authenticationProviderId, authenticationEntryPoint)
  }

  /** The constructor leaves provider id and entry point null unless given. */
  lemma ConstructorDefaults(listenerId: Ref)
    ensures NewFirewallPlugin(listenerId).listenerId == listenerId
    ensures NewFirewallPlugin(listenerId).authenticationProviderId == None
    ensures NewFirewallPlugin(listenerId).authenticationEntryPoint == None
  {
  }

  /** The value a factory's `create` returns: a plugin object, a `[providerId, listenerId, entryPoint]` array, or nothing (`null`). */
  datatype CreateResult =
    | PluginResult(plugin: FirewallPlugin)
    | TupleResult(providerId: Option<string>, listenerId: Ref, entryPoint: Option<string>)
    | NullResult

  /** `fromTuple([$provider, $listener, $entryPoint])`: note the argument order of the constructor. */
  function FromTuple(providerId: Option<string>, listenerId: Ref, entryPoint: Option<string>): FirewallPlugin
  {
    NewFirewallPlugin(listenerId, providerId, entryPoint)
  }

  /** The array `create` would return for a plugin. */
  function ToTuple(p: FirewallPlugin): (Option<string>, Ref, Option<string>)
  {
    (p.authenticationProviderId, p.listenerId, p.authenticationEntryPoint)
  }

  /** `fromTuple` reads slot 0 as the provider, slot 1 as the listener and slot 2 as the entry point, and loses nothing. */
  lemma FromTupleRoundTrip(p: FirewallPlugin, providerId: Option<string>, listenerId: Ref, entryPoint: Option<string>)
    ensures FromTuple(ToTuple(p).0, ToTuple(p).1, ToTuple(p).2) == p
    ensures ToTuple(FromTuple(providerId, listenerId, entryPoint)) == (providerId, listenerId, entryPoint)
  {
  }

  /**
   * `normalize`: a plugin object is returned as it is, an array goes through
   * `fromTuple`. Anything else reaches `fromTuple(array $tuple)` and fails
   * with a TypeError; `factoryKey` names the factory in that error.
   */
  function Normalize(returnValue: CreateResult, factoryKey: string): (r: Result<FirewallPlugin, BuildError>)
    ensures returnValue.PluginResult? ==> r == Ok(returnValue.plugin)
    ensures returnValue.TupleResult? ==>
      r.Ok? && ToTuple(r.value) == (returnValue.providerId, returnValue.listenerId, returnValue.entryPoint)
    ensures returnValue.NullResult? <==> r.Err?
  {
    match returnValue
    case PluginResult(p) => Ok(p)
    case TupleResult(providerId, listenerId, entryPoint) => Ok(FromTuple(providerId, listenerId, entryPoint))
    case NullResult => Err(NotAnArray(factoryKey))
  }

  // ---------------------------------------------------------------------
  // sortFactories
  // ---------------------------------------------------------------------

  /** A PHP array keyed by string, in insertion order: a sequence of (key, value) entries. */
  predicate UniqueKeys<F>(m: seq<(string, F)>)
  {
    forall i, j :: 0 <= i < j < |m| ==> m[i].0 != m[j].0
  }

  predicate HasKey<F>(m: seq<(string, F)>, k: string)
  {
    exists i :: 0 <= i < |m| && m[i].0 == k
  }

  function Values<F>(m: seq<(string, F)>): (r: seq<F>)
    ensures |r| == |m|
    ensures forall i :: 0 <= i < |m| ==> r[i] == m[i].1
  {
    if m == [] then [] else [m[0].1] + Values(m[1..])
  }

  lemma ValuesSnoc<F>(m: seq<(string, F)>, e: (string, F))
    ensures Values(m + [e]) == Values(m) + [e.1]
  {
    assert forall i :: 0 <= i < |m| ==> (m + [e])[i] == m[i];
  }

  /** `$m[$k] = $v`: overwrite the value in the slot of an existing key, or append a new entry. */
  function Put<F>(m: seq<(string, F)>, k: string, v: F): (r: seq<(string, F)>)
    ensures !HasKey(m, k) ==> r == m + [(k, v)]
    ensures HasKey(m, k) ==> |r| == |m|
  {
    if HasKey(m, k) then seq(|m|, i requires 0 <= i < |m| => if m[i].0 == k then (k, v) else m[i])
    else m + [(k, v)]
  }

  /**
   * Assigning keeps the keys unique, makes `k` present and no other key
   * appear, and introduces no entry but `(k, v)`. Assigning to a key that is
   * already present keeps every slot where it was: the value lands in the
   * slot where `k` was first assigned and no other entry moves or changes.
   */
  lemma PutFacts<F>(m: seq<(string, F)>, k: string, v: F)
    ensures UniqueKeys(m) ==> UniqueKeys(Put(m, k, v))
    ensures HasKey(Put(m, k, v), k)
    ensures forall k' :: HasKey(Put(m, k, v), k') <==> HasKey(m, k') || k' == k
    ensures forall i :: 0 <= i < |Put(m, k, v)| ==> Put(m, k, v)[i] in m || Put(m, k, v)[i] == (k, v)
    ensures HasKey(m, k) ==> forall i :: 0 <= i < |m| ==>
      && Put(m, k, v)[i].0 == m[i].0
      && (m[i].0 == k ==> Put(m, k, v)[i].1 == v)
      && (m[i].0 != k ==> Put(m, k, v)[i] == m[i])
  {
    var r := Put(m, k, v);
    if HasKey(m, k) {
      assert forall i :: 0 <= i < |m| ==> r[i].0 == m[i].0;
    } else {
      assert r[|m|].0 == k;
      assert forall i :: 0 <= i < |m| ==> r[i] == m[i];
    }
  }

  /** The factories of `fs` whose position is `p`, in their order in `fs`. */
  function Bucket<F>(fs: seq<F>, pos: F -> string, p: string): (r: seq<F>)
    ensures |r| <= |fs|
    ensures forall f :: f in r ==> f in fs && pos(f) == p
  {
    if fs == [] then []
    else Bucket(fs[..|fs| - 1], pos, p) + (if pos(fs[|fs| - 1]) == p then [fs[|fs| - 1]] else [])
  }

  /** The buckets of the first `n` positions of ORDER, one after the other. */
  function BucketsUpTo<F>(fs: seq<F>, pos: F -> string, n: nat): (r: seq<F>)
    requires n <= |ORDER|
    ensures forall f :: f in r ==> f in fs && pos(f) in ORDER[..n]
  {
    if n == 0 then [] else BucketsUpTo(fs, pos, n - 1) + Bucket(fs, pos, ORDER[n - 1])
  }

  /** The stable bucket sort by position: every bucket of ORDER in turn. */
  function Bucketed<F>(fs: seq<F>, pos: F -> string): seq<F>
  {
    BucketsUpTo(fs, pos, |ORDER|)
  }

  /** Assign every factory of `s`, in turn, to `m` under its key. */
  function KeyedInto<F>(m: seq<(string, F)>, s: seq<F>, key: F -> string): (r: seq<(string, F)>)
  {
    if s == [] then m else Put(KeyedInto(m, s[..|s| - 1], key), key(s[|s| - 1]), s[|s| - 1])
  }

  /** What `sortFactories` returns: the bucket-sorted factories, keyed by `getKey()`. */
  function SortedFactories<F>(fs: seq<F>, pos: F -> string, key: F -> string): seq<(string, F)>
  {
    KeyedInto([], Bucketed(fs, pos), key)
  }

  /**
   * `sortFactories`: for each position of ORDER, each factory of that
   * position is assigned, in input order, to `$map[$factory->getKey()]`.
   */
  method SortFactories<F>(factories: seq<F>, pos: F -> string, key: F -> string)
    returns (sorted: seq<(string, F)>)
    ensures sorted == SortedFactories(factories, pos, key)
  {
    sorted := [];
    for o := 0 to |ORDER|
      invariant sorted == KeyedInto([], BucketsUpTo(factories, pos, o), key)
    {
      var position := ORDER[o];
      PartialBucket(factories, 0, o, pos, key);
      for j := 0 to |factories|
        invariant sorted == KeyedInto([], PartialSort(factories, pos, o, j), key)
      {
        var factory := factories[j];
        PartialBucket(factories, j, o, pos, key);
        if pos(factory) == position {
          sorted := Put(sorted, key(factory), factory);
        }
      }
      PartialBucket(factories, |factories|, o, pos, key);
    }
  }

  /** The order `sortFactories` has assigned after the first `j` factories of position `ORDER[o]`. */
  function PartialSort<F>(fs: seq<F>, pos: F -> string, o: nat, j: nat): seq<F>
    requires o < |ORDER| && j <= |fs|
  {
    BucketsUpTo(fs, pos, o) + Bucket(fs[..j], pos, ORDER[o])
  }

  /** How one step of the inner loop of `sortFactories` extends the partial order. */
  lemma PartialBucket<F>(fs: seq<F>, j: nat, o: nat, pos: F -> string, key: F -> string)
    requires o < |ORDER| && j <= |fs|
    ensures j == 0 ==> PartialSort(fs, pos, o, j) == BucketsUpTo(fs, pos, o)
    ensures j == |fs| ==> PartialSort(fs, pos, o, j) == BucketsUpTo(fs, pos, o + 1)
    ensures j < |fs| ==> (KeyedInto([], PartialSort(fs, pos, o, j + 1), key) ==
      if pos(fs[j]) == ORDER[o] then Put(KeyedInto([], PartialSort(fs, pos, o, j), key), key(fs[j]), fs[j])
      else KeyedInto([], PartialSort(fs, pos, o, j), key))
  {
    assert fs[..|fs|] == fs;
    assert fs[..0] == [];
    if j < |fs| {
      BucketSnoc(fs, j, pos, ORDER[o]);
      var done := PartialSort(fs, pos, o, j);
      if pos(fs[j]) == ORDER[o] {
        assert PartialSort(fs, pos, o, j + 1) == done + [fs[j]];
        KeyedIntoSnoc([], done, fs[j], key);
      } else {
        assert PartialSort(fs, pos, o, j + 1) == done;
      }
    }
  }

  lemma BucketSnoc<F>(fs: seq<F>, j: nat, pos: F -> string, p: string)
    requires j < |fs|
    ensures Bucket(fs[..j + 1], pos, p)
      == Bucket(fs[..j], pos, p) + (if pos(fs[j]) == p then [fs[j]] else [])
  {
    assert fs[..j + 1][..j] == fs[..j];
  }

  lemma KeyedIntoSnoc<F>(m: seq<(string, F)>, s: seq<F>, f: F, key: F -> string)
    ensures KeyedInto(m, s + [f], key) == Put(KeyedInto(m, s, key), key(f), f)
  {
    assert (s + [f])[..|s|] == s;
  }

  // ---------------------------------------------------------------------
  // What sortFactories promises
  // ---------------------------------------------------------------------

  /** Every entry of `m` is stored under its own factory's key. */
  predicate KeyedBy<F>(m: seq<(string, F)>, key: F -> string)
  {
    forall i :: 0 <= i < |m| ==> key(m[i].1) == m[i].0
  }

  /** No two factories of `s` share a key (the registration the bundle expects). */
  predicate DistinctKeys<F>(s: seq<F>, key: F -> string)
  {
    forall i, j :: 0 <= i < j < |s| ==> key(s[i]) != key(s[j])
  }

  lemma {:induction false} KeyedIntoFacts<F>(m: seq<(string, F)>, s: seq<F>, key: F -> string)
    requires UniqueKeys(m) && KeyedBy(m, key)
    ensures UniqueKeys(KeyedInto(m, s, key)) && KeyedBy(KeyedInto(m, s, key), key)
    ensures |KeyedInto(m, s, key)| <= |m| + |s|
    ensures forall i :: 0 <= i < |KeyedInto(m, s, key)| ==>
      KeyedInto(m, s, key)[i] in m || KeyedInto(m, s, key)[i].1 in s
    ensures forall k :: HasKey(KeyedInto(m, s, key), k) <==>
      HasKey(m, k) || exists f :: f in s && key(f) == k
  {
    if s != [] {
      var s', f := s[..|s| - 1], s[|s| - 1];
      assert s == s' + [f];
      KeyedIntoFacts(m, s', key);
      var r' := KeyedInto(m, s', key);
      var r := Put(r', key(f), f);
      PutFacts(r', key(f), f);
      assert r == KeyedInto(m, s, key);
      forall k
        ensures HasKey(r, k) <==> HasKey(m, k) || exists g :: g in s && key(g) == k
      {
        if HasKey(r, k) && !HasKey(m, k) && k != key(f) {
          var g :| g in s' && key(g) == k;
          assert g in s;
        }
        if exists g :: g in s && key(g) == k {
          var g :| g in s && key(g) == k;
          if g != f { assert g in s'; }
        }
      }
      forall i | 0 <= i < |r|
        ensures r[i] in m || r[i].1 in s
      {
        if r[i] in r' {
          var i' :| 0 <= i' < |r'| && r'[i'] == r[i];
        }
      }
    }
  }

  /** Dropping the last factory keeps the keys distinct, and the last key is not among the others. */
  lemma DistinctKeysInit<F>(s: seq<F>, key: F -> string)
    requires s != [] && DistinctKeys(s, key)
    ensures DistinctKeys(s[..|s| - 1], key)
    ensures forall g :: g in s[..|s| - 1] ==> key(g) != key(s[|s| - 1])
  {
    var s' := s[..|s| - 1];
    assert forall i :: 0 <= i < |s'| ==> s'[i] == s[i];
    forall g | g in s'
      ensures key(g) != key(s[|s| - 1])
    {
      var i :| 0 <= i < |s'| && s'[i] == g;
    }
  }

  /** Keying one more factory under a fresh key appends it. */
  lemma KeyedIntoFresh<F>(m: seq<(string, F)>, s: seq<F>, f: F, key: F -> string)
    requires Values(KeyedInto(m, s, key)) == Values(m) + s
    requires !HasKey(KeyedInto(m, s, key), key(f))
    ensures Values(KeyedInto(m, s + [f], key)) == Values(m) + (s + [f])
  {
    var r := KeyedInto(m, s, key);
    KeyedIntoSnoc(m, s, f, key);
    assert KeyedInto(m, s + [f], key) == r + [(key(f), f)];
    ValuesSnoc(r, (key(f), f));
  }

  lemma {:induction false} KeyedIntoAppends<F>(m: seq<(string, F)>, s: seq<F>, key: F -> string)
    requires UniqueKeys(m) && KeyedBy(m, key) && DistinctKeys(s, key)
    requires forall f :: f in s ==> !HasKey(m, key(f))
    ensures Values(KeyedInto(m, s, key)) == Values(m) + s
  {
    if s != [] {
      var s', f := s[..|s| - 1], s[|s| - 1];
      assert s == s' + [f];
      DistinctKeysInit(s, key);
      KeyedIntoAppends(m, s', key);
      KeyedIntoFacts(m, s', key);
      assert !HasKey(KeyedInto(m, s', key), key(f));
      KeyedIntoFresh(m, s', f, key);
    }
  }

  /** Every factory with a known position, in ORDER[..n], in input order. */
  function Known<F>(fs: seq<F>, pos: F -> string, n: nat): (r: seq<F>)
    requires n <= |ORDER|
    ensures |r| <= |fs|
  {
    if fs == [] then []
    else Known(fs[..|fs| - 1], pos, n) + (if pos(fs[|fs| - 1]) in ORDER[..n] then [fs[|fs| - 1]] else [])
  }

  lemma {:induction false} KnownSplit<F>(fs: seq<F>, pos: F -> string, n: nat)
    requires 0 < n <= |ORDER|
    ensures |Known(fs, pos, n)| == |Known(fs, pos, n - 1)| + |Bucket(fs, pos, ORDER[n - 1])|
  {
    if fs != [] {
      KnownSplit(fs[..|fs| - 1], pos, n);
      OrderPrefix(n);
    }
  }

  /** The buckets together hold exactly as many factories as have a known position. */
  lemma {:induction false} BucketsUpToLength<F>(fs: seq<F>, pos: F -> string, n: nat)
    requires n <= |ORDER|
    ensures |BucketsUpTo(fs, pos, n)| == |Known(fs, pos, n)|
  {
    if n == 0 {
      KnownNone(fs, pos);
    } else {
      BucketsUpToLength(fs, pos, n - 1);
      KnownSplit(fs, pos, n);
    }
  }

  lemma {:induction false} KnownNone<F>(fs: seq<F>, pos: F -> string)
    ensures Known(fs, pos, 0) == []
  {
    if fs != [] { KnownNone(fs[..|fs| - 1], pos); }
  }

  /**
   * sortFactories, for any input: keys are unique, each entry is stored
   * under its factory's key, every value is an input factory with one of the
   * nine known positions (so a factory at POSITION_MATCH_REQUEST or any other
   * position is dropped), the result is never larger than the input, and a
   * key is present exactly when some factory with a known position has it.
   */
  lemma SortFactoriesWellFormed<F>(fs: seq<F>, pos: F -> string, key: F -> string)
    ensures UniqueKeys(SortedFactories(fs, pos, key))
    ensures KeyedBy(SortedFactories(fs, pos, key), key)
    ensures forall i :: 0 <= i < |SortedFactories(fs, pos, key)| ==>
      SortedFactories(fs, pos, key)[i].1 in fs && pos(SortedFactories(fs, pos, key)[i].1) in ORDER
    ensures |SortedFactories(fs, pos, key)| <= |fs|
    ensures forall k :: HasKey(SortedFactories(fs, pos, key), k) <==>
      exists f :: f in fs && pos(f) in ORDER && key(f) == k
  {
    var b := Bucketed(fs, pos);
    KeyedIntoFacts([], b, key);
    BucketsUpToLength(fs, pos, |ORDER|);
    assert ORDER[..|ORDER|] == ORDER;
    forall f | f in fs && pos(f) in ORDER
      ensures f in b
    {
      BucketHolds(fs, pos, f);
      BucketsUpToHolds(fs, pos, |ORDER|, Rank(pos(f)), f);
    }
  }

  lemma {:induction false} BucketHolds<F>(fs: seq<F>, pos: F -> string, f: F)
    requires f in fs
    ensures f in Bucket(fs, pos, pos(f))
  {
    if fs[|fs| - 1] != f {
      var i :| 0 <= i < |fs| && fs[i] == f;
      assert fs[..|fs| - 1][i] == f;
      BucketHolds(fs[..|fs| - 1], pos, f);
    }
  }

  lemma {:induction false} BucketsUpToHolds<F>(fs: seq<F>, pos: F -> string, n: nat, o: nat, f: F)
    requires o < n <= |ORDER|
    requires f in Bucket(fs, pos, ORDER[o])
    ensures f in BucketsUpTo(fs, pos, n)
  {
    if o < n - 1 { BucketsUpToHolds(fs, pos, n - 1, o, f); }
  }

  // ----- with distinct keys: a stable sort by position -----

  lemma {:induction false} BucketDistinct<F>(fs: seq<F>, pos: F -> string, key: F -> string, p: string)
    requires DistinctKeys(fs, key)
    ensures DistinctKeys(Bucket(fs, pos, p), key)
  {
    if fs != [] {
      var fs', f := fs[..|fs| - 1], fs[|fs| - 1];
      assert DistinctKeys(fs', key);
      BucketDistinct(fs', pos, key, p);
      forall g | g in Bucket(fs', pos, p)
        ensures key(g) != key(f)
      {
        var i :| 0 <= i < |fs'| && fs'[i] == g;
        assert fs[i] == g;
      }
    }
  }

  lemma {:induction false} BucketsDistinct<F>(fs: seq<F>, pos: F -> string, key: F -> string, n: nat)
    requires n <= |ORDER| && DistinctKeys(fs, key)
    ensures DistinctKeys(BucketsUpTo(fs, pos, n), key)
  {
    if n > 0 {
      BucketsDistinct(fs, pos, key, n - 1);
      BucketDistinct(fs, pos, key, ORDER[n - 1]);
      var a, b := BucketsUpTo(fs, pos, n - 1), Bucket(fs, pos, ORDER[n - 1]);
      OrderIsDistinct();
      forall x, y | x in a && y in b
        ensures key(x) != key(y)
      {
        assert pos(x) in ORDER[..n - 1] && pos(y) == ORDER[n - 1];
        var i :| 0 <= i < |fs| && fs[i] == x;
        var j :| 0 <= j < |fs| && fs[j] == y;
        assert i != j;
      }
      forall i, j | 0 <= i < j < |a + b|
        ensures key((a + b)[i]) != key((a + b)[j])
      {
        if j < |a| || |a| <= i {
        } else {
          assert (a + b)[i] in a && (a + b)[j] in b;
        }
      }
    }
  }

  /** With distinct keys, the values of sortFactories are exactly the bucket-sorted factories. */
  lemma SortedValues<F>(fs: seq<F>, pos: F -> string, key: F -> string)
    requires DistinctKeys(fs, key)
    ensures Values(SortedFactories(fs, pos, key)) == Bucketed(fs, pos)
  {
    BucketsDistinct(fs, pos, key, |ORDER|);
    KeyedIntoAppends([], Bucketed(fs, pos), key);
  }

  lemma {:induction false} BucketsOrdered<F>(fs: seq<F>, pos: F -> string, n: nat)
    requires n <= |ORDER|
    ensures forall i, j :: 0 <= i < j < |BucketsUpTo(fs, pos, n)| ==>
      Rank(pos(BucketsUpTo(fs, pos, n)[i])) <= Rank(pos(BucketsUpTo(fs, pos, n)[j]))
    ensures forall f :: f in BucketsUpTo(fs, pos, n) ==> Rank(pos(f)) < n
  {
    if n > 0 {
      BucketsOrdered(fs, pos, n - 1);
      RankOf(n - 1);
      var a, b := BucketsUpTo(fs, pos, n - 1), Bucket(fs, pos, ORDER[n - 1]);
      forall f | f in a
        ensures Rank(pos(f)) < n - 1
      {
        var i :| 0 <= i < n - 1 && ORDER[..n - 1][i] == pos(f);
        RankOf(i);
      }
      assert forall f :: f in b ==> Rank(pos(f)) == n - 1;
      forall i, j | 0 <= i < j < |a + b|
        ensures Rank(pos((a + b)[i])) <= Rank(pos((a + b)[j]))
      {
        if i < |a| && |a| <= j {
          assert (a + b)[i] in a && (a + b)[j] in b;
        } else if |a| <= i {
          assert (a + b)[i] in b && (a + b)[j] in b;
        }
      }
      forall f | f in a + b
        ensures Rank(pos(f)) < n
      {
      }
    }
  }

  /**
   * Order: with distinct keys, the positions of sortFactories' values never
   * go backwards in ORDER.
   */
  lemma SortedPositionsNonDecreasing<F>(fs: seq<F>, pos: F -> string, key: F -> string)
    requires DistinctKeys(fs, key)
    ensures forall i, j :: 0 <= i < j < |SortedFactories(fs, pos, key)| ==>
      var a, b := SortedFactories(fs, pos, key)[i].1, SortedFactories(fs, pos, key)[j].1;
      pos(a) in ORDER && pos(b) in ORDER && Rank(pos(a)) <= Rank(pos(b))
  {
    SortedValues(fs, pos, key);
    SortFactoriesWellFormed(fs, pos, key);
    BucketsOrdered(fs, pos, |ORDER|);
    var s := SortedFactories(fs, pos, key);
    forall i, j | 0 <= i < j < |s|
      ensures pos(s[i].1) in ORDER && pos(s[j].1) in ORDER && Rank(pos(s[i].1)) <= Rank(pos(s[j].1))
    {
      assert s[i].1 == Bucketed(fs, pos)[i] && s[j].1 == Bucketed(fs, pos)[j];
    }
  }

  lemma {:induction false} BucketAppend<F>(a: seq<F>, b: seq<F>, pos: F -> string, p: string)
    ensures Bucket(a + b, pos, p) == Bucket(a, pos, p) + Bucket(b, pos, p)
  {
    if b != [] {
      var b', f := b[..|b| - 1], b[|b| - 1];
      assert (a + b)[..|a + b| - 1] == a + b';
      BucketAppend(a, b', pos, p);
    } else {
      assert a + b == a;
    }
  }

  lemma {:induction false} BucketOfBucket<F>(fs: seq<F>, pos: F -> string, q: string, p: string)
    ensures Bucket(Bucket(fs, pos, q), pos, p) == if p == q then Bucket(fs, pos, q) else []
  {
    if fs != [] {
      var fs', f := fs[..|fs| - 1], fs[|fs| - 1];
      BucketOfBucket(fs', pos, q, p);
      var tail := if pos(f) == q then [f] else [];
      BucketAppend(Bucket(fs', pos, q), tail, pos, p);
      if pos(f) == q {
        assert tail[..0] == [];
      }
    }
  }

  lemma {:induction false} BucketOfBuckets<F>(fs: seq<F>, pos: F -> string, n: nat, p: string)
    requires n <= |ORDER|
    ensures Bucket(BucketsUpTo(fs, pos, n), pos, p) == if p in ORDER[..n] then Bucket(fs, pos, p) else []
  {
    if n == 0 {
      assert ORDER[..0] == [];
    } else {
      BucketOfBuckets(fs, pos, n - 1, p);
      BucketOfBucketsStep(fs, pos, n, p);
    }
  }

  lemma BucketOfBucketsStep<F>(fs: seq<F>, pos: F -> string, n: nat, p: string)
    requires 0 < n <= |ORDER|
    requires Bucket(BucketsUpTo(fs, pos, n - 1), pos, p) == if p in ORDER[..n - 1] then Bucket(fs, pos, p) else []
    ensures Bucket(BucketsUpTo(fs, pos, n), pos, p) == if p in ORDER[..n] then Bucket(fs, pos, p) else []
  {
    OrderPrefix(n);
    if p == ORDER[n - 1] {
      NewBucketStep(fs, pos, n);
    } else {
      OldBucketStep(fs, pos, n, p);
    }
  }

  /** The last bucket added holds, of its own position, exactly that position's factories. */
  lemma NewBucketStep<F>(fs: seq<F>, pos: F -> string, n: nat)
    requires 0 < n <= |ORDER|
    requires Bucket(BucketsUpTo(fs, pos, n - 1), pos, ORDER[n - 1]) ==
      if ORDER[n - 1] in ORDER[..n - 1] then Bucket(fs, pos, ORDER[n - 1]) else []
    requires ORDER[n - 1] !in ORDER[..n - 1]
    ensures Bucket(BucketsUpTo(fs, pos, n), pos, ORDER[n - 1]) == Bucket(fs, pos, ORDER[n - 1])
  {
    var a, q := BucketsUpTo(fs, pos, n - 1), ORDER[n - 1];
    BucketAppend(a, Bucket(fs, pos, q), pos, q);
    BucketOfBucket(fs, pos, q, q);
    assert [] + Bucket(fs, pos, q) == Bucket(fs, pos, q);
  }

  /** ... and nothing of any other position. */
  lemma OldBucketStep<F>(fs: seq<F>, pos: F -> string, n: nat, p: string)
    requires 0 < n <= |ORDER| && p != ORDER[n - 1]
    ensures Bucket(BucketsUpTo(fs, pos, n), pos, p) == Bucket(BucketsUpTo(fs, pos, n - 1), pos, p)
  {
    var a, q := BucketsUpTo(fs, pos, n - 1), ORDER[n - 1];
    BucketAppend(a, Bucket(fs, pos, q), pos, p);
    BucketOfBucket(fs, pos, q, p);
    assert Bucket(a, pos, p) + [] == Bucket(a, pos, p);
  }

  /**
   * Stability: with distinct keys, the factories of any one known position
   * appear in sortFactories' values in exactly their input order, and the
   * factories of an unknown position do not appear at all.
   */
  lemma SortIsStable<F>(fs: seq<F>, pos: F -> string, key: F -> string, p: string)
    requires DistinctKeys(fs, key)
    ensures Bucket(Values(SortedFactories(fs, pos, key)), pos, p) ==
      if p in ORDER then Bucket(fs, pos, p) else []
  {
    SortedValues(fs, pos, key);
    BucketOfBuckets(fs, pos, |ORDER|, p);
    assert ORDER[..|ORDER|] == ORDER;
  }
}
