/**
 * `createListeners` as a left fold over the sorted plugin factories, with
 * independent definitions of what the fold accumulates: the listener of
 * every activated plugin in order, the last non-null entry point, and the
 * provider ids; and `array_unique`, which the authentication manager's
 * provider list goes through.
 */
module Listeners {
  import opened Wrappers
  import opened Services
  import opened Containers
  import opened Configuration
  import opened FirewallPlugins
  import opened Factories
  import opened UserProviders

  /** Factories `sortFactories` can return: every position is one of ORDER, so none is the request-matcher factory. */
  predicate Runnable(fs: seq<Factory>)
  {
    forall f :: f in fs ==> Position(f) in ORDER
  }

  lemma RunnableExcludesRequestMatcher(fs: seq<Factory>)
    requires Runnable(fs)
    ensures RequestMatcherPlugin !in fs
  {
    OrderIsDistinct();
  }

  /**
   * The array key a factory is configured under: its key with '-' replaced
   * by '_'. The bundle's own keys contain no '-' and are written out.
   */
  function PluginKey(f: Factory): string
  {
    match f
    case Generic(_, key, _, _, _) => Underscored(key)
    case _ => Key(f)
  }

  /** The written-out keys are exactly the underscored ones. */
  lemma PluginKeyUnderscored(f: Factory)
    ensures PluginKey(f) == Underscored(Key(f))
  {
    if !f.Generic? {
      UnderscoredWithoutDash(Key(f));
    }
  }

  /** A factory is activated for a firewall iff `isset($firewall[$key])`. */
  predicate Activates(f: Factory, firewall: FirewallSpec)
  {
    IsSet(firewall, PluginKey(f))
  }

  /** The activated factories, in order. */
  function Activated(fs: seq<Factory>, firewall: FirewallSpec): (r: seq<Factory>)
    ensures forall f :: f in r <==> f in fs && Activates(f, firewall)
  {
    if fs == [] then [] else (if Activates(fs[0], firewall) then [fs[0]] else []) + Activated(fs[1..], firewall)
  }

  // ---------------------------------------------------------------------
  // The fold
  // ---------------------------------------------------------------------

  /**
   * What the loop of `createListeners` carries: the listener references,
   * the running entry point, `$hasAuthenticationProvider`, the provider ids
   * appended to the by-reference list, the services registered, the
   * stateful factory's static counter, and the normalised plugins.
   */
  datatype Fold = Fold(
    listeners: seq<Ref>,
    entryPoint: Option<string>,
    hasProvider: bool,
    providers: seq<string>,
    definitions: seq<(Ref, Definition)>,
    count: nat,
    plugins: seq<FirewallPlugin>)

  /** The state before the first factory: the entry point starts at the configured one. */
  function Start(entryPoint: Option<string>, count: nat): Fold
  {
    Fold([], entryPoint, false, [], [], count, [])
  }

  /** The user provider handed to `create`: the factory's own `provider` option, or the firewall's default. */
  function UserProviderFor(config: PluginConfig, defaultProvider: Option<string>): Option<string>
  {
    if "provider" in config then Some(GetUserProviderId(config["provider"])) else defaultProvider
  }

  /** Take one normalised plugin into the fold. */
  function Absorb(acc: Fold, p: FirewallPlugin, c: Creation): Fold
  {
    Fold(
      acc.listeners + [p.listenerId],
      if p.authenticationEntryPoint.Some? then p.authenticationEntryPoint else acc.entryPoint,
      acc.hasProvider || p.authenticationProviderId.Some?,
      acc.providers + (if p.authenticationProviderId.Some? then [p.authenticationProviderId.value] else []),
      acc.definitions + c.definitions,
      c.count,
      acc.plugins + [p])
  }

  /** One iteration of the loop in `createListeners`. */
  function Step(f: Factory, id: string, firewall: FirewallSpec, defaultProvider: Option<string>, acc: Fold)
    : Result<Fold, BuildError>
    requires f != RequestMatcherPlugin
  {
    if !Activates(f, firewall) then Ok(acc)
    else
      var config := firewall.plugins[PluginKey(f)].value;
      var c := Create(f, id, config, UserProviderFor(config, defaultProvider), acc.entryPoint, acc.count);
      match Normalize(c.result, Key(f))
      case Err(e) => Err(e)
      case Ok(p) => Ok(Absorb(acc, p, c))
  }

  /** The loop of `createListeners` over the remaining factories `fs`, stopping at the first failure. */
  function RunFactories(fs: seq<Factory>, id: string, firewall: FirewallSpec, defaultProvider: Option<string>, acc: Fold)
    : Result<Fold, BuildError>
    requires RequestMatcherPlugin !in fs
    decreases |fs|
  {
    if fs == [] then Ok(acc)
    else match Step(fs[0], id, firewall, defaultProvider, acc)
      case Err(e) => Err(e)
      case Ok(next) => RunFactories(fs[1..], id, firewall, defaultProvider, next)
  }

  /** The fold over `fs[i..]` is one step on `fs[i]` followed by the fold over `fs[i + 1..]`. */
  lemma RunFactoriesAt(fs: seq<Factory>, i: nat, id: string, firewall: FirewallSpec, defaultProvider: Option<string>, acc: Fold)
    requires i < |fs| && RequestMatcherPlugin !in fs
    ensures Step(fs[i], id, firewall, defaultProvider, acc).Err? ==>
      RunFactories(fs[i..], id, firewall, defaultProvider, acc) == Err(Step(fs[i], id, firewall, defaultProvider, acc).error)
    ensures Step(fs[i], id, firewall, defaultProvider, acc).Ok? ==>
      RunFactories(fs[i..], id, firewall, defaultProvider, acc)
        == RunFactories(fs[i + 1..], id, firewall, defaultProvider, Step(fs[i], id, firewall, defaultProvider, acc).value)
  {
    assert fs[i..][0] == fs[i] && fs[i..][1..] == fs[i + 1..];
  }

  /**
   * `createListeners`: the fold from the configured entry point, then the
   * exception naming the firewall when no activated plugin returned a
   * provider id.
   */
  function CreateListeners(
    fs: seq<Factory>, id: string, firewall: FirewallSpec, defaultProvider: Option<string>,
    configuredEntryPoint: Option<string>, count: nat): Result<Fold, BuildError>
    requires RequestMatcherPlugin !in fs
  {
    match RunFactories(fs, id, firewall, defaultProvider, Start(configuredEntryPoint, count))
    case Err(e) => Err(e)
    case Ok(r) => if !r.hasProvider then Err(NoAuthenticationListener(id)) else Ok(r)
  }

  // ---------------------------------------------------------------------
  // What the fold accumulates, defined independently of it
  // ---------------------------------------------------------------------

  function ListenerIds(ps: seq<FirewallPlugin>): (r: seq<Ref>)
    ensures |r| == |ps|
    ensures forall i :: 0 <= i < |ps| ==> r[i] == ps[i].listenerId
  {
    if ps == [] then [] else ListenerIds(ps[..|ps| - 1]) + [ps[|ps| - 1].listenerId]
  }

  function EntryPoints(ps: seq<FirewallPlugin>): (r: seq<Option<string>>)
    ensures |r| == |ps|
    ensures forall i :: 0 <= i < |ps| ==> r[i] == ps[i].authenticationEntryPoint
  {
    if ps == [] then [] else EntryPoints(ps[..|ps| - 1]) + [ps[|ps| - 1].authenticationEntryPoint]
  }

  /** The provider ids of the plugins that have one, in order. */
  function ProviderIds(ps: seq<FirewallPlugin>): (r: seq<string>)
    ensures forall x :: x in r <==> exists i :: 0 <= i < |ps| && ps[i].authenticationProviderId == Some(x)
  {
    if ps == [] then []
    else
      var last := ps[|ps| - 1];
      var r := ProviderIds(ps[..|ps| - 1]) + (if last.authenticationProviderId.Some? then [last.authenticationProviderId.value] else []);
      assert forall i :: 0 <= i < |ps| - 1 ==> ps[..|ps| - 1][i] == ps[i];
      r
  }

  /** Some plugin returned a provider id. */
  predicate AnyProvider(ps: seq<FirewallPlugin>)
  {
    exists i :: 0 <= i < |ps| && ps[i].authenticationProviderId.Some?
  }

  /** The last non-null entry of `xs`, or `d` when there is none. */
  function LastSome(xs: seq<Option<string>>, d: Option<string>): Option<string>
  {
    if xs == [] then d
    else if xs[|xs| - 1].Some? then xs[|xs| - 1]
    else LastSome(xs[..|xs| - 1], d)
  }

  /** `xs[i]` is the non-null entry with the largest index. */
  predicate IsLastSome(xs: seq<Option<string>>, i: int)
  {
    0 <= i < |xs| && xs[i].Some? && forall j :: i < j < |xs| ==> xs[j].None?
  }

  /** `LastSome` is the entry with the largest index among the non-null ones, or `d` when all are null. */
  lemma {:induction false} LastSomeIsLast(xs: seq<Option<string>>, d: Option<string>)
    ensures (forall i :: 0 <= i < |xs| ==> xs[i].None?) ==> LastSome(xs, d) == d
    ensures forall i :: IsLastSome(xs, i) ==> LastSome(xs, d) == xs[i]
    decreases |xs|
  {
    if xs != [] && xs[|xs| - 1].None? {
      var init := xs[..|xs| - 1];
      LastSomeIsLast(init, d);
      assert forall i :: 0 <= i < |init| ==> init[i] == xs[i];
      forall i | IsLastSome(xs, i) ensures IsLastSome(init, i) {
        assert i < |init|;
      }
    }
  }

  /** The fold's state is what its plugins account for, starting from entry point `e0`. */
  predicate Accounts(acc: Fold, e0: Option<string>)
  {
    && acc.listeners == ListenerIds(acc.plugins)
    && acc.entryPoint == LastSome(EntryPoints(acc.plugins), e0)
    && acc.hasProvider == AnyProvider(acc.plugins)
    && acc.providers == ProviderIds(acc.plugins)
  }

  lemma AbsorbAccounts(acc: Fold, p: FirewallPlugin, c: Creation, e0: Option<string>)
    requires Accounts(acc, e0)
    ensures Accounts(Absorb(acc, p, c), e0)
  {
    PluginsSnoc(acc.plugins, p);
    AnyProviderSnoc(acc.plugins, p);
    var eps := EntryPoints(acc.plugins + [p]);
    assert eps[..|eps| - 1] == EntryPoints(acc.plugins);
  }

  /** The per-plugin views of `ps + [p]` extend those of `ps` by `p`'s own. */
  lemma PluginsSnoc(ps: seq<FirewallPlugin>, p: FirewallPlugin)
    ensures ListenerIds(ps + [p]) == ListenerIds(ps) + [p.listenerId]
    ensures EntryPoints(ps + [p]) == EntryPoints(ps) + [p.authenticationEntryPoint]
    ensures ProviderIds(ps + [p]) == ProviderIds(ps)
      + (if p.authenticationProviderId.Some? then [p.authenticationProviderId.value] else [])
  {
    assert (ps + [p])[..|ps|] == ps;
  }

  lemma AnyProviderSnoc(ps: seq<FirewallPlugin>, p: FirewallPlugin)
    ensures AnyProvider(ps + [p]) <==> AnyProvider(ps) || p.authenticationProviderId.Some?
  {
    var qs := ps + [p];
    if AnyProvider(ps) {
      var i :| 0 <= i < |ps| && ps[i].authenticationProviderId.Some?;
      assert qs[i] == ps[i];
    }
    if AnyProvider(qs) && !p.authenticationProviderId.Some? {
      var i :| 0 <= i < |qs| && qs[i].authenticationProviderId.Some?;
      assert i < |ps| && ps[i] == qs[i];
    }
    assert qs[|qs| - 1] == p;
  }

  /** The fold keeps its state accounted for, and takes in one plugin per activated factory. */
  lemma {:induction false} RunAccounts(
    fs: seq<Factory>, id: string, firewall: FirewallSpec, defaultProvider: Option<string>, acc: Fold, e0: Option<string>)
    requires RequestMatcherPlugin !in fs
    requires Accounts(acc, e0)
    ensures var r := RunFactories(fs, id, firewall, defaultProvider, acc);
      r.Ok? ==> (
        && Accounts(r.value, e0)
        && acc.plugins <= r.value.plugins
        && |r.value.plugins| == |acc.plugins| + |Activated(fs, firewall)|
        && acc.definitions <= r.value.definitions)
    decreases |fs|
  {
    if fs != [] {
      var s := Step(fs[0], id, firewall, defaultProvider, acc);
      if s.Ok? {
        StepAccounts(fs[0], id, firewall, defaultProvider, acc, e0);
        RunAccounts(fs[1..], id, firewall, defaultProvider, s.value, e0);
      }
    }
  }

  /** One step keeps the fold accounted for, and takes in one plugin exactly when the factory is activated. */
  lemma StepAccounts(f: Factory, id: string, firewall: FirewallSpec, defaultProvider: Option<string>, acc: Fold, e0: Option<string>)
    requires f != RequestMatcherPlugin
    requires Accounts(acc, e0)
    ensures var s := Step(f, id, firewall, defaultProvider, acc);
      s.Ok? ==> (
        && Accounts(s.value, e0)
        && acc.plugins <= s.value.plugins
        && |s.value.plugins| == |acc.plugins| + (if Activates(f, firewall) then 1 else 0)
        && acc.definitions <= s.value.definitions)
  {
    if Activates(f, firewall) {
      var config := firewall.plugins[PluginKey(f)].value;
      var c := Create(f, id, config, UserProviderFor(config, defaultProvider), acc.entryPoint, acc.count);
      if Normalize(c.result, Key(f)).Ok? {
        AbsorbAccounts(acc, Normalize(c.result, Key(f)).value, c, e0);
      }
    }
  }

  /** Only a factory whose `create` returns null can make the fold fail. */
  lemma {:induction false} RunFailsOnlyOnNull(
    fs: seq<Factory>, id: string, firewall: FirewallSpec, defaultProvider: Option<string>, acc: Fold)
    requires RequestMatcherPlugin !in fs
    ensures RunFactories(fs, id, firewall, defaultProvider, acc).Err? <==>
      AccessControlPlugin in fs && Activates(AccessControlPlugin, firewall)
    ensures RunFactories(fs, id, firewall, defaultProvider, acc).Err? ==>
      RunFactories(fs, id, firewall, defaultProvider, acc).error == NotAnArray("access_control")
    decreases |fs|
  {
    if fs != [] {
      var s := Step(fs[0], id, firewall, defaultProvider, acc);
      if s.Ok? {
        RunFailsOnlyOnNull(fs[1..], id, firewall, defaultProvider, s.value);
        assert fs == [fs[0]] + fs[1..];
      }
    }
  }

  /**
   * What `createListeners` returns: the listener of each activated plugin in
   * factory order, the last non-null entry point a plugin returned (the
   * configured one if none did), and the provider ids; it fails naming the
   * firewall exactly when the fold succeeds without any provider id.
   */
  lemma CreateListenersSpec(
    fs: seq<Factory>, id: string, firewall: FirewallSpec, defaultProvider: Option<string>,
    configuredEntryPoint: Option<string>, count: nat)
    requires RequestMatcherPlugin !in fs
    ensures var run := RunFactories(fs, id, firewall, defaultProvider, Start(configuredEntryPoint, count));
      var r := CreateListeners(fs, id, firewall, defaultProvider, configuredEntryPoint, count);
      && (r == Err(NoAuthenticationListener(id)) <==> run.Ok? && !AnyProvider(run.value.plugins))
      && (r.Ok? ==>
        && |r.value.plugins| == |Activated(fs, firewall)|
        && r.value.listeners == ListenerIds(r.value.plugins)
        && r.value.entryPoint == LastSome(EntryPoints(r.value.plugins), configuredEntryPoint)
        && r.value.providers == ProviderIds(r.value.plugins)
        && r.value.providers != [])
  {
    var run := RunFactories(fs, id, firewall, defaultProvider, Start(configuredEntryPoint, count));
    RunAccounts(fs, id, firewall, defaultProvider, Start(configuredEntryPoint, count), configuredEntryPoint);
    RunFailsOnlyOnNull(fs, id, firewall, defaultProvider, Start(configuredEntryPoint, count));
    if run.Ok? && AnyProvider(run.value.plugins) {
      var i :| 0 <= i < |run.value.plugins| && run.value.plugins[i].authenticationProviderId.Some?;
      assert run.value.plugins[i].authenticationProviderId.value in run.value.providers;
    }
  }

  /**
   * With the access-control factory registered, any firewall that has an
   * `access_control` entry (which every enabled firewall gets once global
   * rules exist) fails: its `create` returns null.
   */
  lemma AccessControlActivationFails(
    fs: seq<Factory>, id: string, firewall: FirewallSpec, defaultProvider: Option<string>,
    configuredEntryPoint: Option<string>, count: nat)
    requires RequestMatcherPlugin !in fs
    requires AccessControlPlugin in fs && IsSet(firewall, "access_control")
    ensures CreateListeners(fs, id, firewall, defaultProvider, configuredEntryPoint, count) == Err(NotAnArray("access_control"))
  {
    RunFailsOnlyOnNull(fs, id, firewall, defaultProvider, Start(configuredEntryPoint, count));
  }

  // ---------------------------------------------------------------------
  // Plugin keys and the anonymous flag
  // ---------------------------------------------------------------------

  /** The keys of the factories present in the firewall array (`array_key_exists`), in factory order. */
  function PluginKeys(fs: seq<Factory>, firewall: FirewallSpec): seq<string>
  {
    if fs == [] then []
    else
      var last := fs[|fs| - 1];
      PluginKeys(fs[..|fs| - 1], firewall) + (if KeyExists(firewall, PluginKey(last)) then [PluginKey(last)] else [])
  }

  /** A key is recorded exactly when some factory has it and the firewall array holds it. */
  lemma {:induction false} PluginKeysListed(fs: seq<Factory>, firewall: FirewallSpec, k: string)
    ensures k in PluginKeys(fs, firewall) <==> KeyExists(firewall, k) && exists f :: f in fs && PluginKey(f) == k
    decreases |fs|
  {
    if fs != [] {
      var init := fs[..|fs| - 1];
      PluginKeysListed(init, firewall, k);
      assert fs == init + [fs[|fs| - 1]];
    }
  }

  lemma PluginKeysSnoc(fs: seq<Factory>, i: nat, firewall: FirewallSpec)
    requires i < |fs|
    ensures PluginKeys(fs[..i + 1], firewall) ==
      PluginKeys(fs[..i], firewall) + (if KeyExists(firewall, PluginKey(fs[i])) then [PluginKey(fs[i])] else [])
  {
    assert fs[..i + 1][..i] == fs[..i];
  }

  /** Some registered factory sits at the anonymous position. */
  predicate AnyAnonymous(fs: seq<Factory>)
  {
    exists i :: 0 <= i < |fs| && Position(fs[i]) == POSITION_AUTHENTICATION_ANON
  }

  /**
   * The loop at the end of `createFirewall`: the plugin keys appended to
   * `$listenerKeys`, and `$allowsAnonymous`, which looks at every registered
   * factory and not at the firewall.
   */
  method RecordPluginKeys(fs: seq<Factory>, firewall: FirewallSpec, listenerKeys: seq<string>)
    returns (keys: seq<string>, allowsAnonymous: bool)
    ensures keys == listenerKeys + PluginKeys(fs, firewall)
    ensures allowsAnonymous == AnyAnonymous(fs)
  {
    keys := listenerKeys;
    allowsAnonymous := false;
    for i := 0 to |fs|
      invariant keys == listenerKeys + PluginKeys(fs[..i], firewall)
      invariant allowsAnonymous == AnyAnonymous(fs[..i])
    {
      if Position(fs[i]) == POSITION_AUTHENTICATION_ANON {
        allowsAnonymous := true;
      }
      var key := PluginKey(fs[i]);
      if KeyExists(firewall, key) {
        keys := keys + [key];
      }
      PluginKeysSnoc(fs, i, firewall);
      AnyAnonymousSnoc(fs, i);
    }
    assert fs[..|fs|] == fs;
  }

  lemma AnyAnonymousSnoc(fs: seq<Factory>, i: nat)
    requires i < |fs|
    ensures AnyAnonymous(fs[..i + 1]) == (AnyAnonymous(fs[..i]) || Position(fs[i]) == POSITION_AUTHENTICATION_ANON)
  {
    var s := fs[..i + 1];
    if AnyAnonymous(s) && Position(fs[i]) != POSITION_AUTHENTICATION_ANON {
      var j :| 0 <= j < |s| && Position(s[j]) == POSITION_AUTHENTICATION_ANON;
      assert fs[..i][j] == s[j];
    }
    if AnyAnonymous(fs[..i]) {
      var j :| 0 <= j < i && Position(fs[..i][j]) == POSITION_AUTHENTICATION_ANON;
      assert s[j] == fs[..i][j];
    }
    assert s[i] == fs[i];
  }

  /**
   * A factory key present with a null value counts as a plugin key
   * (`array_key_exists`) but does not activate the factory (`isset`).
   */
  lemma NullEntryListedButInactive(fs: seq<Factory>, firewall: FirewallSpec, f: Factory)
    requires f in fs && PluginKey(f) in firewall.plugins && firewall.plugins[PluginKey(f)].None?
    ensures PluginKey(f) in PluginKeys(fs, firewall)
    ensures f !in Activated(fs, firewall)
  {
    PluginKeysListed(fs, firewall, PluginKey(f));
  }

  // ---------------------------------------------------------------------
  // array_unique
  // ---------------------------------------------------------------------

  /** `array_values(array_unique($xs))`: the first occurrence of each value, in order. */
  function Unique(xs: seq<string>): (r: seq<string>)
    ensures forall x :: x in r <==> x in xs
  {
    if xs == [] then []
    else
      var u := Unique(xs[..|xs| - 1]);
      var last := xs[|xs| - 1];
      assert forall x :: x in xs <==> x in xs[..|xs| - 1] || x == last by {
        assert xs == xs[..|xs| - 1] + [last];
      }
      if last in u then u else u + [last]
  }

  predicate NoDuplicates(xs: seq<string>)
  {
    forall i, j :: 0 <= i < j < |xs| ==> xs[i] != xs[j]
  }

  /** The index of the first occurrence of `x` in `xs`. */
  function FirstIndex(xs: seq<string>, x: string): (i: nat)
    requires x in xs
    ensures i < |xs| && xs[i] == x && forall j :: 0 <= j < i ==> xs[j] != x
  {
    if xs[0] == x then 0 else 1 + FirstIndex(xs[1..], x)
  }

  lemma FirstIndexPrefix(xs: seq<string>, n: nat, x: string)
    requires n <= |xs| && x in xs[..n]
    ensures FirstIndex(xs[..n], x) == FirstIndex(xs, x)
  {
    var i := FirstIndex(xs[..n], x);
    var k := FirstIndex(xs, x);
    assert xs[..n][i] == xs[i];
    assert k <= i;
    assert xs[..n][k] == xs[k];
  }

  /** The values of `u`, all of which occur in `xs`, come in the order of their first occurrences there. */
  predicate InFirstOccurrenceOrder(u: seq<string>, xs: seq<string>)
  {
    forall i, j :: 0 <= i < j < |u| ==> u[i] in xs && u[j] in xs && FirstIndex(xs, u[i]) < FirstIndex(xs, u[j])
  }

  /** No value occurs twice, and values keep the order of their first occurrences in the input. */
  lemma {:induction false} UniqueKeepsFirstOccurrences(xs: seq<string>)
    ensures NoDuplicates(Unique(xs))
    ensures InFirstOccurrenceOrder(Unique(xs), xs)
    decreases |xs|
  {
    if xs != [] {
      var init := xs[..|xs| - 1];
      UniqueKeepsFirstOccurrences(init);
      UniqueStep(xs, init);
    }
  }

  /** The inductive step: `Unique(xs)` keeps its order when `xs`'s last value is appended, or ignored. */
  lemma UniqueStep(xs: seq<string>, init: seq<string>)
    requires xs != [] && init == xs[..|xs| - 1]
    requires NoDuplicates(Unique(init)) && InFirstOccurrenceOrder(Unique(init), init)
    ensures NoDuplicates(Unique(xs)) && InFirstOccurrenceOrder(Unique(xs), xs)
  {
    var u := Unique(init);
    FirstIndexesKept(xs, init, u);
    if xs[|xs| - 1] !in u {
      UniqueAppendFresh(xs, u);
    }
  }

  /** Values occurring before the last one have the same first occurrence in `xs` and in `init`. */
  lemma FirstIndexesKept(xs: seq<string>, init: seq<string>, u: seq<string>)
    requires xs != [] && init == xs[..|xs| - 1]
    requires forall x :: x in u ==> x in init
    requires InFirstOccurrenceOrder(u, init)
    ensures InFirstOccurrenceOrder(u, xs)
  {
    forall x | x in u ensures x in xs && FirstIndex(xs, x) == FirstIndex(init, x) {
      FirstIndexPrefix(xs, |xs| - 1, x);
    }
    OrderCarriesOver(u, init, xs);
  }

  /** The order of first occurrences carries over to a sequence where every value has the same first occurrence. */
  lemma OrderCarriesOver(u: seq<string>, init: seq<string>, xs: seq<string>)
    requires forall x :: x in u ==> x in init && x in xs && FirstIndex(xs, x) == FirstIndex(init, x)
    requires InFirstOccurrenceOrder(u, init)
    ensures InFirstOccurrenceOrder(u, xs)
  {
    forall i, j | 0 <= i < j < |u| ensures u[i] in xs && u[j] in xs && FirstIndex(xs, u[i]) < FirstIndex(xs, u[j]) {
      assert u[i] in u && u[j] in u;
    }
  }

  /** Appending the last value of `xs`, new to `u`, keeps `u` duplicate-free and in first-occurrence order. */
  lemma UniqueAppendFresh(xs: seq<string>, u: seq<string>)
    requires xs != [] && xs[|xs| - 1] !in u
    requires forall x :: x in u <==> x in xs[..|xs| - 1]
    requires NoDuplicates(u) && InFirstOccurrenceOrder(u, xs)
    ensures NoDuplicates(u + [xs[|xs| - 1]]) && InFirstOccurrenceOrder(u + [xs[|xs| - 1]], xs)
  {
    var last := xs[|xs| - 1];
    forall k | 0 <= k < |xs| - 1 ensures xs[k] != last {
      assert xs[k] == xs[..|xs| - 1][k];
    }
    assert FirstIndex(xs, last) == |xs| - 1;
    var r := u + [last];
    forall x | x in u ensures x in xs && FirstIndex(xs, x) < |xs| - 1 {
      var k :| 0 <= k < |xs| - 1 && xs[..|xs| - 1][k] == x;
      assert xs[k] == x;
    }
    forall i, j | 0 <= i < j < |r| ensures r[i] != r[j] && FirstIndex(xs, r[i]) < FirstIndex(xs, r[j]) {
      assert r[i] == u[i] && u[i] in u;
      if j < |u| {
        assert r[j] == u[j];
      }
    }
  }
}
