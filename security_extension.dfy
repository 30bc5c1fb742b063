/**
 * `SecurityExtension`: the object that, at container-build time, sorts the
 * registered plugin factories and assembles every firewall — its request
 * matcher, its ordered listener chain, its exception listener and its
 * `FirewallConfig` — together with the user providers, the authentication
 * manager's provider list and the access map.
 */
module SecurityExtensions {
  import opened Wrappers
  import opened Services
  import opened Containers
  import opened Configuration
  import opened FirewallPlugins
  import opened FirewallConfigs
  import opened Factories
  import opened RequestMatchers
  import opened UserProviders
  import opened Listeners
  import opened ExtensionHelpers

  /** One `registerListener` call on the logout URL generator. */
  datatype LogoutRegistration = LogoutRegistration(
    firewall: string, path: string, csrfTokenId: string, csrfParameter: string,
    csrfTokenGenerator: Option<Ref>, context: Option<string>)

  /** One `add` call on the access map. */
  datatype AccessMapEntry = AccessMapEntry(matcher: Ref, attributes: seq<AccessAttribute>, requiresChannel: Option<string>)

  /** What `createFirewall` returns: the matcher, the listener chain and the exception listener. */
  datatype FirewallResult = FirewallResult(matcher: Option<Ref>, listeners: seq<Ref>, exceptionListener: Option<Ref>)

  const CHANNEL_LISTENER: Ref := Id("security.channel_listener")
  const CONTEXT_LISTENER_PARENT: Ref := Id("security.context_listener")
  const FIREWALL_MAP: Ref := Id("security.firewall.map")
  const AUTHENTICATION_MANAGER: Ref := Id("security.authentication.manager")

  function ConfigId(name: string): string { "security.firewall.map.config." + name }
  function ContextId(name: string): string { "security.firewall.map.context." + name }
  function ExceptionListenerId(id: string): string { "security.exception_listener." + id }
  function UserCheckerId(id: string): string { "security.user_checker." + id }
  function LogoutListenerId(id: string): string { "security.logout_listener." + id }

  /** The per-firewall service ids never coincide: they differ at their tenth character. */
  lemma FirewallServiceIdsDistinct(id: string)
    ensures ConfigId(id) != ExceptionListenerId(id)
    ensures ConfigId(id) != UserCheckerId(id)
    ensures ExceptionListenerId(id) != UserCheckerId(id)
  {
    assert ConfigId(id)[9] == 'f';
    assert ExceptionListenerId(id)[9] == 'e';
    assert UserCheckerId(id)[9] == 'u';
  }

  function Refs(ids: seq<string>): (r: seq<Ref>)
    ensures |r| == |ids|
    ensures forall i :: 0 <= i < |ids| ==> r[i] == Id(ids[i])
  {
    if ids == [] then [] else [Id(ids[0])] + Refs(ids[1..])
  }

  // ---------------------------------------------------------------------
  // The context-listener memo
  // ---------------------------------------------------------------------

  /** Every memoised context listener is `security.context_listener.N` with N below the memo's size, and no two keys share one. */
  predicate ContextListenersNumbered(m: map<string, Ref>)
  {
    && (forall k :: k in m ==> m[k].ContextListenerRef? && m[k].n < |m|)
    && (forall k1, k2 :: k1 in m && k2 in m && k1 != k2 ==> m[k1] != m[k2])
  }

  /** The id `createContextListener` hands out for `key`. */
  function ContextListenerFor(m: map<string, Ref>, key: string): Ref
  {
    if key in m then m[key] else ContextListenerRef(|m|)
  }

  /**
   * The memo after one firewall's chain head: a stateful firewall's context
   * key is bound to the listener `createContextListener` hands out for it.
   */
  function ContextListenersAfter(m: map<string, Ref>, key: string, stateless: bool): map<string, Ref>
  {
    if stateless then m else m[key := ContextListenerFor(m, key)]
  }

  /**
   * One context listener per context key across firewalls: a later stateful
   * firewall with the same key gets the same listener, one with another key
   * a different listener.
   */
  lemma OneContextListenerPerKey(m: map<string, Ref>, key: string, other: string)
    requires ContextListenersNumbered(m)
    ensures ContextListenerFor(ContextListenersAfter(m, key, false), key) == ContextListenerFor(m, key)
    ensures other != key ==>
      ContextListenerFor(ContextListenersAfter(m, key, false), other) != ContextListenerFor(m, key)
    ensures ContextListenersNumbered(ContextListenersAfter(m, key, false))
  {
    if key !in m {
      NumberedExtend(m, key);
      var m' := m[key := ContextListenerRef(|m|)];
      if other != key && other !in m' {
        assert |m'| == |m| + 1;
      }
    }
  }

  /** Numbering a new key by the memo's size keeps the ids distinct. */
  lemma NumberedExtend(m: map<string, Ref>, key: string)
    requires ContextListenersNumbered(m) && key !in m
    ensures ContextListenersNumbered(m[key := ContextListenerRef(|m|)])
  {
    var m' := m[key := ContextListenerRef(|m|)];
    assert |m'| == |m| + 1;
  }

  /**
   * The two numbering schemes under `security.context_listener.` meet: the
   * second context key a build sees is numbered 1, the number the stateful
   * factory's pre-incremented counter gives its first listener.
   */
  lemma ContextListenerIdsCollide(first: string, second: string, id: string, config: PluginConfig)
    requires first != second
    ensures ContextListenerFor(map[first := ContextListenerRef(0)], second)
         == StatefulCreate(id, config, 0).result.plugin.listenerId
  {
  }

  // ---------------------------------------------------------------------
  // The pieces of createFirewall that compute without side effects
  // ---------------------------------------------------------------------

  /** The matcher a firewall gets: a named service, one built from pattern/host/methods, or none. */
  function ExpectedMatcher(firewall: FirewallSpec): Option<Ref>
  {
    if firewall.requestMatcher.Some? then Some(Id(firewall.requestMatcher.value))
    else if firewall.pattern.Some? || firewall.host.Some? then
      Some(RequestMatcherRef(MatcherKeyOf(firewall.pattern, firewall.host, firewall.methods, None, [])))
    else None
  }

  /**
   * The firewall's default user provider: its `provider` option, or else the
   * first registered provider. With no provider registered `reset` yields
   * `false`, and no error is raised; that is `None` here.
   */
  function DefaultProvider(firewall: FirewallSpec, providerIds: seq<string>): (r: Option<string>)
    ensures firewall.provider.Some? ==> r == Some(GetUserProviderId(firewall.provider.value))
    ensures firewall.provider.None? && providerIds != [] ==> r == Some(providerIds[0])
    ensures r.None? <==> firewall.provider.None? && providerIds == []
  {
    if firewall.provider.Some? then Some(GetUserProviderId(firewall.provider.value))
    else if providerIds == [] then None
    else Some(providerIds[0])
  }

  /** Once global access-control rules exist, every enabled firewall's array gets them under `access_control`. */
  function WithAccessControl(firewall: FirewallSpec, rules: seq<AccessRule>): FirewallSpec
  {
    if |rules| > 0 then firewall.(plugins := firewall.plugins["access_control" := Some(map[])]) else firewall
  }

  /**
   * What `createFirewall` appends to the build's provider list for one
   * firewall, with the stateful-listener count after it: nothing for a
   * disabled firewall, the providers of its listeners for an enabled one,
   * or the error that stops the build.
   */
  function FirewallContribution(
    fs: seq<Factory>, rules: seq<AccessRule>, name: string, firewall: FirewallSpec,
    providerIds: seq<string>, count: nat): Result<(seq<string>, nat), BuildError>
    requires Runnable(fs)
  {
    if !firewall.security then Ok(([], count))
    else
      RunnableExcludesRequestMatcher(fs);
      match Listeners.CreateListeners(
        fs, name, WithAccessControl(firewall, rules), DefaultProvider(firewall, providerIds), firewall.entryPoint, count)
      case Err(e) => Err(e)
      case Ok(built) => Ok((built.providers, built.count))
  }

  /**
   * The provider list `createFirewalls` collects: every firewall's
   * contribution in configuration order, the stateful-listener count
   * threaded from one firewall to the next; the first failure ends it.
   */
  function Contributions(
    fs: seq<Factory>, rules: seq<AccessRule>, firewalls: seq<(string, FirewallSpec)>,
    providerIds: seq<string>, count: nat): Result<seq<string>, BuildError>
    requires Runnable(fs)
    decreases |firewalls|
  {
    if firewalls == [] then Ok([])
    else
      match FirewallContribution(fs, rules, firewalls[0].0, firewalls[0].1, providerIds, count)
      case Err(e) => Err(e)
      case Ok(first) =>
        match Contributions(fs, rules, firewalls[1..], providerIds, first.1)
        case Err(e) => Err(e)
        case Ok(rest) => Ok(first.0 + rest)
  }

  /** The outcome `rest` after the providers already collected. */
  function ContributionsAfter(collected: seq<string>, rest: Result<seq<string>, BuildError>): Result<seq<string>, BuildError>
  {
    match rest
    case Err(e) => Err(e)
    case Ok(v) => Ok(collected + v)
  }

  /**
   * The authentication manager's provider list, `array_unique` of what the
   * firewalls contribute: every contributed provider, each once, in the
   * order of its first contribution.
   */
  lemma AuthenticationProviders(
    fs: seq<Factory>, rules: seq<AccessRule>, firewalls: seq<(string, FirewallSpec)>,
    providerIds: seq<string>, count: nat)
    requires Runnable(fs) && Contributions(fs, rules, firewalls, providerIds, count).Ok?
    ensures var contributed := Contributions(fs, rules, firewalls, providerIds, count).value;
      && (forall p :: p in Unique(contributed) <==> p in contributed)
      && NoDuplicates(Unique(contributed))
      && InFirstOccurrenceOrder(Unique(contributed), contributed)
  {
    UniqueKeepsFirstOccurrences(Contributions(fs, rules, firewalls, providerIds, count).value);
  }

  /** Collecting in two steps is collecting the concatenation. */
  lemma ContributionsAfterAppend(collected: seq<string>, contributed: seq<string>, rest: Result<seq<string>, BuildError>)
    ensures ContributionsAfter(collected, ContributionsAfter(contributed, rest))
         == ContributionsAfter(collected + contributed, rest)
    ensures ContributionsAfter([], rest) == rest
  {
    if rest.Ok? {
      assert collected + (contributed + rest.value) == (collected + contributed) + rest.value;
      assert [] + rest.value == rest.value;
    }
  }

  /** Unfolding `Contributions` at the `i`-th firewall. */
  lemma ContributionsStep(
    fs: seq<Factory>, rules: seq<AccessRule>, firewalls: seq<(string, FirewallSpec)>, i: nat,
    providerIds: seq<string>, count: nat)
    requires Runnable(fs) && i < |firewalls|
    ensures var c := FirewallContribution(fs, rules, firewalls[i].0, firewalls[i].1, providerIds, count);
      Contributions(fs, rules, firewalls[i..], providerIds, count)
        == if c.Err? then Err(c.error)
           else ContributionsAfter(c.value.0, Contributions(fs, rules, firewalls[i + 1..], providerIds, c.value.1))
  {
    assert firewalls[i..][1..] == firewalls[i + 1..];
  }

  /** The key the context listener is shared under: the `context` option, or else the firewall's own name. */
  function ListenerContextKey(id: string, firewall: FirewallSpec): string
  {
    if firewall.context.Some? then firewall.context.value else id
  }

  /** The context key recorded in the `FirewallConfig`: none for a stateless firewall. */
  function ContextKey(id: string, firewall: FirewallSpec): Option<string>
  {
    if firewall.stateless then None else Some(ListenerContextKey(id, firewall))
  }

  /** `$configuredEntryPoint ?: $defaultEntryPoint` */
  function ConfiguredOr(configured: Option<string>, accumulated: Option<string>): Option<string>
  {
    if Truthy(configured) then configured else accumulated
  }

  /** The handlers added to a logout listener: session, then cookie clearing, then the configured ones. */
  function LogoutHandlers(id: string, logout: LogoutSpec, stateless: bool): seq<Ref>
  {
    (if logout.invalidateSession && !stateless then [Id("security.logout.handler.session")] else [])
    + (if |logout.deleteCookies| > 0 then [Id("security.logout.handler.cookie_clearing." + id)] else [])
    + Refs(logout.handlers)
  }

  /** The services a logout configuration registers; the listener itself last. */
  function LogoutDefinitions(id: string, logout: LogoutSpec, stateless: bool): (defs: seq<(Ref, Definition)>)
    ensures |defs| > 0 && defs[|defs| - 1].0 == Id(LogoutListenerId(id))
  {
    var successHandler :=
      if logout.successHandler.Some? then Id(logout.successHandler.value)
      else Id("security.logout.success_handler." + id);
    (if logout.successHandler.None? then [(successHandler, LogoutSuccessHandlerDef(logout.target))] else [])
    + (if |logout.deleteCookies| > 0
       then [(Id("security.logout.handler.cookie_clearing." + id), CookieClearingHandlerDef(logout.deleteCookies))]
       else [])
    + [(Id(LogoutListenerId(id)), LogoutListenerDef(
          logout.csrfParameter, logout.csrfTokenId, logout.path, successHandler,
          if logout.csrfTokenGenerator.Some? then Some(Id(logout.csrfTokenGenerator.value)) else None,
          LogoutHandlers(id, logout, stateless)))]
  }

  /**
   * The logout listener gets the session handler only on a stateful firewall
   * that invalidates the session, the cookie handler only when cookies are
   * to be deleted, and then every configured handler in order.
   */
  lemma LogoutHandlerOrder(id: string, logout: LogoutSpec, stateless: bool)
    ensures var hs := LogoutHandlers(id, logout, stateless);
      var n := |hs| - |logout.handlers|;
      && n >= 0
      && hs[n..] == Refs(logout.handlers)
      && (Id("security.logout.handler.session") in hs[..n] <==> logout.invalidateSession && !stateless)
      && (Id("security.logout.handler.cookie_clearing." + id) in hs[..n] <==> |logout.deleteCookies| > 0)
      && n <= 2
  {
    var session := if logout.invalidateSession && !stateless then [Id("security.logout.handler.session")] else [];
    var cookie := if |logout.deleteCookies| > 0 then [Id("security.logout.handler.cookie_clearing." + id)] else [];
    var prefix := session + cookie;
    var hs := LogoutHandlers(id, logout, stateless);
    assert hs == prefix + Refs(logout.handlers);
    assert hs[..|prefix|] == prefix;
    assert hs[|prefix|..] == Refs(logout.handlers);
    SessionHandlerIsNotCookieHandler(id);
  }

  /** The session handler and a firewall's cookie-clearing handler are different services. */
  lemma SessionHandlerIsNotCookieHandler(id: string)
    ensures Id("security.logout.handler.session") != Id("security.logout.handler.cookie_clearing." + id)
  {
    assert "security.logout.handler.session"[24] == 's';
    assert ("security.logout.handler.cookie_clearing." + id)[24] == 'c';
  }

  /** The registration with the logout URL generator; the context is passed only for a stateful firewall that names one. */
  function LogoutRegistrationFor(id: string, firewall: FirewallSpec, logout: LogoutSpec): LogoutRegistration
  {
    LogoutRegistration(
      id, logout.path, logout.csrfTokenId, logout.csrfParameter,
      if logout.csrfTokenGenerator.Some? then Some(Id(logout.csrfTokenGenerator.value)) else None,
      if !firewall.stateless && firewall.context.Some? then firewall.context else None)
  }

  /** The listener chain of an enabled firewall: channel, context, logout, then the plugin listeners. */
  function ListenerChain(id: string, firewall: FirewallSpec, contextListener: Ref, pluginListeners: seq<Ref>): seq<Ref>
  {
    [CHANNEL_LISTENER]
    + (if !firewall.stateless then [contextListener] else [])
    + (if firewall.logout.Some? then [Id(LogoutListenerId(id))] else [])
    + pluginListeners
  }

  /**
   * The chain always starts with the channel listener and ends with the
   * plugin listeners in factory order; the context listener is in it iff
   * the firewall is stateful and the logout listener iff logout is
   * configured, in that order.
   */
  lemma ListenerChainOrder(id: string, firewall: FirewallSpec, contextListener: Ref, pluginListeners: seq<Ref>)
    ensures var chain := ListenerChain(id, firewall, contextListener, pluginListeners);
      var n := |chain| - |pluginListeners|;
      && 1 <= n <= 3
      && chain[0] == CHANNEL_LISTENER
      && chain[n..] == pluginListeners
      && (n == 1 <==> firewall.stateless && firewall.logout.None?)
      && (!firewall.stateless ==> chain[1] == contextListener)
      && (firewall.logout.Some? ==> chain[n - 1] == Id(LogoutListenerId(id)))
  {
    var chain := ListenerChain(id, firewall, contextListener, pluginListeners);
    var head := [CHANNEL_LISTENER]
      + (if !firewall.stateless then [contextListener] else [])
      + (if firewall.logout.Some? then [Id(LogoutListenerId(id))] else []);
    assert chain == head + pluginListeners;
    assert chain[|head|..] == pluginListeners;
  }

  /** The services one factory's `create` registers in the loop of `createListeners`; none when it is not activated. */
  function Contributed(f: Factory, id: string, firewall: FirewallSpec, defaultProvider: Option<string>, acc: Fold)
    : seq<(Ref, Definition)>
    requires f != RequestMatcherPlugin
  {
    if !Activates(f, firewall) then []
    else
      var config := firewall.plugins[PluginKey(f)].value;
      Create(f, id, config, UserProviderFor(config, defaultProvider), acc.entryPoint, acc.count).definitions
  }

  lemma ListenerChainAppend(id: string, firewall: FirewallSpec, contextListener: Ref, pluginListeners: seq<Ref>)
    ensures ListenerChain(id, firewall, contextListener, []) + pluginListeners
         == ListenerChain(id, firewall, contextListener, pluginListeners)
  {
    var head := [CHANNEL_LISTENER]
      + (if !firewall.stateless then [contextListener] else [])
      + (if firewall.logout.Some? then [Id(LogoutListenerId(id))] else []);
    assert ListenerChain(id, firewall, contextListener, []) == head;
  }

  /** The `FirewallConfig` of an enabled firewall. */
  function EnabledConfig(
    id: string, firewall: FirewallSpec, matcher: Option<Ref>, defaultProvider: Option<string>,
    entryPoint: Option<string>, pluginKeys: seq<string>, allowsAnonymous: bool): FirewallConfig
  {
    NewFirewallConfig(
      id, firewall.userChecker, matcher, true, firewall.stateless, defaultProvider,
      ContextKey(id, firewall), entryPoint, firewall.accessDeniedHandler, firewall.accessDeniedUrl,
      pluginKeys, allowsAnonymous)
  }

  /**
   * The services an enabled firewall leaves registered besides its
   * listeners: its `FirewallConfig`, its exception listener and the alias
   * of its user checker.
   */
  predicate EnabledServicesRegistered(
    c: Container, id: string, firewall: FirewallSpec, config: FirewallConfig, exceptionListener: Definition)
  {
    && Id(ConfigId(id)) in c && c[Id(ConfigId(id))] == FirewallConfigDef(config)
    && Id(ExceptionListenerId(id)) in c && c[Id(ExceptionListenerId(id))] == exceptionListener
    && Id(UserCheckerId(id)) in c && c[Id(UserCheckerId(id))] == AliasDef(firewall.userChecker)
  }

  // ---------------------------------------------------------------------
  // The access map
  // ---------------------------------------------------------------------

  /** The attributes an access rule requires: its roles, then its `allow_if` expression when truthy. */
  function AccessAttributes(rule: AccessRule): (r: seq<AccessAttribute>)
    ensures |r| == |rule.roles| + (if Truthy(rule.allowIf) then 1 else 0)
    ensures forall i :: 0 <= i < |rule.roles| ==> r[i] == RoleAttribute(rule.roles[i])
    ensures Truthy(rule.allowIf) ==> r[|rule.roles|] == ExpressionAttribute(rule.allowIf.value)
  {
    seq(|rule.roles|, i requires 0 <= i < |rule.roles| => RoleAttribute(rule.roles[i]))
    + (if Truthy(rule.allowIf) then [ExpressionAttribute(rule.allowIf.value)] else [])
  }

  /** The matcher tuple of an access rule: its path, host, methods and ips, without attributes. */
  function RuleKey(rule: AccessRule): MatcherKey
  {
    MatcherKeyOf(rule.path, rule.host, rule.methods, Some(rule.ips), [])
  }

  function AccessEntry(rule: AccessRule): AccessMapEntry
  {
    AccessMapEntry(RequestMatcherRef(RuleKey(rule)), AccessAttributes(rule), rule.requiresChannel)
  }

  /** The access-map entries of the rules, one per rule, in order. */
  function AccessEntries(rules: seq<AccessRule>): (r: seq<AccessMapEntry>)
    ensures |r| == |rules|
    ensures forall i :: 0 <= i < |rules| ==> r[i] == AccessEntry(rules[i])
  {
    if rules == [] then [] else AccessEntries(rules[..|rules| - 1]) + [AccessEntry(rules[|rules| - 1])]
  }

  /** Memoising one more rule's key, without forgetting any, keeps every earlier rule's key memoised. */
  lemma RuleKeysGrow(rules: seq<AccessRule>, i: nat, before: set<MatcherKey>, after: set<MatcherKey>)
    requires i < |rules|
    requires forall j :: 0 <= j < i ==> RuleKey(rules[j]) in before
    requires before <= after && RuleKey(rules[i]) in after
    ensures forall j :: 0 <= j <= i ==> RuleKey(rules[j]) in after
  {
  }

  lemma AccessEntriesSnoc(rules: seq<AccessRule>, i: nat)
    requires i < |rules|
    ensures AccessEntries(rules[..i + 1]) == AccessEntries(rules[..i]) + [AccessEntry(rules[i])]
  {
    assert rules[..i + 1][..i] == rules[..i];
  }

  /** `array_filter($configs)` is empty: every configuration array given to `load` is empty. */
  predicate AllEmpty(configs: seq<map<string, string>>)
  {
    forall i :: 0 <= i < |configs| ==> configs[i] == map[]
  }

  class SecurityExtension {
    var firewallPluginFactories: seq<Factory>
    var userProviderFactories: seq<string>
    var accessControlRules: seq<AccessRule>
    var contextListeners: map<string, Ref>
    /** StatefulAuthorizationPluginFactory's static `$count`: one counter for the whole process. */
    var statefulCount: nat
    var container: Container
    /** The `registerListener` calls made on the logout URL generator. */
    var logoutRegistrations: seq<LogoutRegistration>
    /** The `add` calls made on the access map. */
    var accessMap: seq<AccessMapEntry>
    const requestMatchers: RequestMatcherMemo

    ghost predicate Valid()
      reads this, requestMatchers
    {
      requestMatchers.Valid() && ContextListenersNumbered(contextListeners)
    }

    constructor(container: Container)
      ensures Valid()
      ensures firewallPluginFactories == [] && userProviderFactories == [] && accessControlRules == []
      ensures contextListeners == map[] && statefulCount == 0 && this.container == container
      ensures logoutRegistrations == [] && accessMap == [] && fresh(requestMatchers)
      ensures requestMatchers.requestMatchers == map[]
    {
      firewallPluginFactories := [];
      userProviderFactories := [];
      accessControlRules := [];
      contextListeners := map[];
      statefulCount := 0;
      this.container := container;
      logoutRegistrations := [];
      accessMap := [];
      requestMatchers := new RequestMatcherMemo();
    }

    /** `addFirewallPluginFactory($factory)` */
    method AddFirewallPluginFactory(factory: Factory)
      modifies this`firewallPluginFactories
      ensures firewallPluginFactories == old(firewallPluginFactories) + [factory]
    {
      firewallPluginFactories := firewallPluginFactories + [factory];
    }

    /** `addUserProviderFactory($factory)`, by the factory's key. */
    method AddUserProviderFactory(key: string)
      modifies this`userProviderFactories
      ensures userProviderFactories == old(userProviderFactories) + [key]
    {
      userProviderFactories := userProviderFactories + [key];
    }

    /**
     * `load($configs, $container)`: nothing happens unless some configuration
     * array is non-empty; otherwise the factories are sorted and the
     * processed configuration `config` is built, in the order of the source.
     */
    method Load(configs: seq<map<string, string>>, config: SecurityConfig) returns (r: Result<(), BuildError>)
      requires Valid()
      modifies this`firewallPluginFactories, this`accessControlRules, this`contextListeners, this`statefulCount,
        this`container, this`logoutRegistrations, this`accessMap, requestMatchers
      ensures Valid()
      ensures AllEmpty(configs) ==>
        && r.Ok? && firewallPluginFactories == old(firewallPluginFactories)
        && accessControlRules == old(accessControlRules) && container == old(container)
        && contextListeners == old(contextListeners) && statefulCount == old(statefulCount)
        && logoutRegistrations == old(logoutRegistrations) && accessMap == old(accessMap)
        && requestMatchers.requestMatchers == old(requestMatchers.requestMatchers)
      ensures !AllEmpty(configs) ==>
        && firewallPluginFactories == Values(SortedFactories(old(firewallPluginFactories), Position, Key))
        && Runnable(firewallPluginFactories)
        && accessControlRules == (if |config.accessControl| > 0 then config.accessControl else old(accessControlRules))
      ensures r.Ok? && !AllEmpty(configs) ==> accessMap == old(accessMap) + AccessEntries(config.accessControl)
    {
      if AllEmpty(configs) {
        return Ok(());
      }
      PrepareBuild(config);
      r := Build(config);
    }

    /** The first half of a non-empty `load`: sort the factories and record the global access-control rules. */
    method PrepareBuild(config: SecurityConfig)
      modifies this`firewallPluginFactories, this`accessControlRules
      ensures firewallPluginFactories == Values(SortedFactories(old(firewallPluginFactories), Position, Key))
      ensures Runnable(firewallPluginFactories)
      ensures accessControlRules == (if |config.accessControl| > 0 then config.accessControl else old(accessControlRules))
    {
      var sorted := SortFactories(firewallPluginFactories, Position, Key);
      SortFactoriesWellFormed(firewallPluginFactories, Position, Key);
      firewallPluginFactories := Values(sorted);
      if |config.accessControl| > 0 {
        accessControlRules := config.accessControl;
      }
    }

    /** The second half of a non-empty `load`: firewalls, access map and role hierarchy. */
    method Build(config: SecurityConfig) returns (r: Result<(), BuildError>)
      requires Valid() && Runnable(firewallPluginFactories)
      modifies this`contextListeners, this`statefulCount, this`container, this`logoutRegistrations, this`accessMap, requestMatchers
      ensures Valid()
      ensures r.Ok? ==> accessMap == old(accessMap) + AccessEntries(config.accessControl)
    {
      var built, _ := CreateFirewalls(config);
      if built.Err? {
        return Err(built.error);
      }
      CreateAccessMap(config.accessControl);
      container := CreateRoleHierarchy(container, config.roleHierarchy);
      r := Ok(());
    }

    /**
     * `createRequestMatcher`, through the extension's own memo.
     */
    method ResolveMatcher(firewall: FirewallSpec) returns (matcher: Option<Ref>)
      requires requestMatchers.Valid()
      modifies this`container, requestMatchers
      ensures requestMatchers.Valid()
      ensures matcher == ExpectedMatcher(firewall)
    {
      if firewall.requestMatcher.Some? {
        matcher := Some(Id(firewall.requestMatcher.value));
      } else if firewall.pattern.Some? || firewall.host.Some? {
        var ref;
        ref, container := requestMatchers.CreateRequestMatcher(container, firewall.pattern, firewall.host, firewall.methods, None, []);
        matcher := Some(ref);
      } else {
        matcher := None;
      }
    }

    /**
     * `createContextListener($container, $contextKey)`: one listener per
     * context key, numbered by how many there already are.
     */
    method CreateContextListener(contextKey: string) returns (id: Ref)
      requires ContextListenersNumbered(contextListeners)
      modifies this`contextListeners, this`container
      ensures ContextListenersNumbered(contextListeners)
      ensures id == ContextListenerFor(old(contextListeners), contextKey)
      ensures contextKey in old(contextListeners) ==> contextListeners == old(contextListeners) && container == old(container)
      ensures contextKey !in old(contextListeners) ==>
        && contextListeners == old(contextListeners)[contextKey := id]
        && container == old(container)[id := ContextListenerDef(contextKey)]
      ensures contextKey in contextListeners && contextListeners[contextKey] == id
      ensures contextListeners == ContextListenersAfter(old(contextListeners), contextKey, false)
      ensures forall k :: k in old(contextListeners) && k != contextKey ==> id != old(contextListeners)[k]
    {
      if contextKey in contextListeners {
        return contextListeners[contextKey];
      }
      id := ContextListenerRef(|contextListeners|);
      container := container[id := ContextListenerDef(contextKey)];
      NumberedExtend(contextListeners, contextKey);
      contextListeners := contextListeners[contextKey := id];
    }

    /**
     * One iteration of the loop in `createListeners`, for factory `f`: when
     * the firewall array sets the factory's key, call `create` (registering
     * its services and advancing the static counter), normalise its result
     * and take the plugin into the running state `acc`.
     */
    method ApplyFactory(f: Factory, id: string, firewall: FirewallSpec, defaultProvider: Option<string>, acc: Fold)
      returns (r: Result<Fold, BuildError>)
      requires f != RequestMatcherPlugin && acc.count == statefulCount
      modifies this`container, this`statefulCount
      ensures r == Step(f, id, firewall, defaultProvider, acc)
      ensures r.Ok? ==>
        && r.value.definitions == acc.definitions + Contributed(f, id, firewall, defaultProvider, acc)
        && container == Register(old(container), Contributed(f, id, firewall, defaultProvider, acc))
        && statefulCount == r.value.count
    {
      var key := PluginKey(f);
      if !IsSet(firewall, key) {
        return Ok(acc);
      }
      var config := firewall.plugins[key].value;
      var c := Create(f, id, config, UserProviderFor(config, defaultProvider), acc.entryPoint, statefulCount);
      container := Register(container, c.definitions);
      statefulCount := c.count;
      var plugin := Normalize(c.result, Key(f));
      if plugin.Err? {
        return Err(plugin.error);
      }
      var p := plugin.value;
      var entryPoint := acc.entryPoint;
      if p.authenticationEntryPoint.Some? {
        entryPoint := p.authenticationEntryPoint;
      }
      var hasProvider := acc.hasProvider;
      var providers := acc.providers;
      if p.authenticationProviderId.Some? {
        hasProvider := true;
        providers := providers + [p.authenticationProviderId.value];
      }
      r := Ok(Fold(acc.listeners + [p.listenerId], entryPoint, hasProvider, providers,
                   acc.definitions + c.definitions, c.count, acc.plugins + [p]));
      ghost var absorbed := Absorb(acc, p, c);
      assert absorbed.listeners == r.value.listeners && absorbed.providers == r.value.providers;
      assert absorbed.definitions == r.value.definitions && absorbed.plugins == r.value.plugins;
    }

    /**
     * `createListeners`: the loop over the sorted factories, carrying the
     * listeners, the running entry point, `$hasAuthenticationProvider` and
     * the provider ids appended to the by-reference list. It fails naming
     * the firewall when no activated plugin returned a provider id.
     */
    method CreateListeners(id: string, firewall: FirewallSpec, defaultProvider: Option<string>, configuredEntryPoint: Option<string>)
      returns (r: Result<(seq<Ref>, Option<string>), BuildError>, providers: seq<string>)
      requires RequestMatcherPlugin !in firewallPluginFactories
      modifies this`container, this`statefulCount
      ensures var spec := Listeners.CreateListeners(
          old(firewallPluginFactories), id, firewall, defaultProvider, configuredEntryPoint, old(statefulCount));
        && (r.Err? <==> spec.Err?)
        && (r.Err? ==> r.error == spec.error)
        && (r.Ok? ==>
          && r.value == (spec.value.listeners, spec.value.entryPoint)
          && providers == spec.value.providers
          && container == Register(old(container), spec.value.definitions)
          && statefulCount == spec.value.count)
    {
      var fs := firewallPluginFactories;
      var acc := Start(configuredEntryPoint, statefulCount);
      ghost var run := RunFactories(fs, id, firewall, defaultProvider, acc);
      var i := 0;
      while i < |fs|
        invariant 0 <= i <= |fs|
        invariant run == RunFactories(fs[i..], id, firewall, defaultProvider, acc)
        invariant container == Register(old(container), acc.definitions)
        invariant statefulCount == acc.count
      {
        RunFactoriesAt(fs, i, id, firewall, defaultProvider, acc);
        var next := ApplyFactory(fs[i], id, firewall, defaultProvider, acc);
        if next.Err? {
          return Err(next.error), acc.providers;
        }
        RegisterAppend(old(container), acc.definitions, Contributed(fs[i], id, firewall, defaultProvider, acc));
        acc := next.value;
        i := i + 1;
      }
      providers := acc.providers;
      if !acc.hasProvider {
        return Err(NoAuthenticationListener(id)), providers;
      }
      r := Ok((acc.listeners, acc.entryPoint));
    }

    /**
     * The head of an enabled firewall's listener chain: the channel
     * listener, the (shared) context listener unless stateless, and the
     * logout listener with its services and its registration with the
     * logout URL generator when logout is configured.
     */
    method CreateChainHead(id: string, firewall: FirewallSpec) returns (head: seq<Ref>, listenerKeys: seq<string>)
      requires ContextListenersNumbered(contextListeners)
      modifies this`contextListeners, this`container, this`logoutRegistrations
      ensures ContextListenersNumbered(contextListeners)
      ensures head == ListenerChain(id, firewall, ContextListenerFor(old(contextListeners), ListenerContextKey(id, firewall)), [])
      ensures listenerKeys == (if firewall.logout.Some? then ["logout"] else [])
      ensures logoutRegistrations == old(logoutRegistrations)
        + (if firewall.logout.Some? then [LogoutRegistrationFor(id, firewall, firewall.logout.value)] else [])
      ensures firewall.stateless ==> contextListeners == old(contextListeners)
      ensures contextListeners == ContextListenersAfter(old(contextListeners), ListenerContextKey(id, firewall), firewall.stateless)
    {
      head := [CHANNEL_LISTENER];
      if !firewall.stateless {
        var contextListener := CreateContextListener(ListenerContextKey(id, firewall));
        head := head + [contextListener];
      }
      listenerKeys := [];
      if firewall.logout.Some? {
        var logout := firewall.logout.value;
        listenerKeys := ["logout"];
        container := Register(container, LogoutDefinitions(id, logout, firewall.stateless));
        head := head + [Id(LogoutListenerId(id))];
        logoutRegistrations := logoutRegistrations + [LogoutRegistrationFor(id, firewall, logout)];
      }
    }

    /** The services `createFirewall` registers after the listeners: exception listener, user-checker alias, config. */
    method RegisterFirewallServices(id: string, firewall: FirewallSpec, amended: FirewallSpec, entryPoint: Option<string>, config: FirewallConfig)
      modifies this`container
      ensures EnabledServicesRegistered(container, id, firewall, config,
        CreateExceptionListener(amended, id, entryPoint, firewall.stateless).1)
    {
      FirewallServiceIdsDistinct(id);
      var exceptionListener := CreateExceptionListener(amended, id, entryPoint, firewall.stateless);
      container := container[exceptionListener.0 := exceptionListener.1];
      container := container[Id(UserCheckerId(id)) := AliasDef(firewall.userChecker)];
      container := container[Id(ConfigId(id)) := FirewallConfigDef(config)];
    }

    /**
     * `createFirewall`: resolve the matcher; a disabled firewall stops there
     * with no listeners. Otherwise pick the default provider, build the
     * chain (channel, context, logout, plugins), the exception listener and
     * the `FirewallConfig`. `providers` are the provider ids this firewall
     * appends to the build's by-reference list. The config service id is
     * `security.firewall.map.config.<id>`, as every caller computes it.
     */
    method CreateFirewall(id: string, firewall: FirewallSpec, providerIds: seq<string>)
      returns (r: Result<FirewallResult, BuildError>, providers: seq<string>)
      requires Valid() && Runnable(firewallPluginFactories)
      modifies this`container, this`statefulCount, this`contextListeners, this`logoutRegistrations, requestMatchers
      ensures Valid()
      ensures r.Ok? ==> r.value.matcher == ExpectedMatcher(firewall)
      ensures !firewall.security ==>
        && r == Ok(FirewallResult(ExpectedMatcher(firewall), [], None)) && providers == []
        && contextListeners == old(contextListeners) && statefulCount == old(statefulCount)
        && logoutRegistrations == old(logoutRegistrations)
        && Id(ConfigId(id)) in container
        && container[Id(ConfigId(id))] == FirewallConfigDef(NewFirewallConfig(id, firewall.userChecker, ExpectedMatcher(firewall), false))
      ensures firewall.security ==>
        contextListeners == ContextListenersAfter(old(contextListeners), ListenerContextKey(id, firewall), firewall.stateless)
      ensures firewall.security ==>
        var amended := WithAccessControl(firewall, accessControlRules);
        var defaultProvider := DefaultProvider(firewall, providerIds);
        var spec := Listeners.CreateListeners(
          firewallPluginFactories, id, amended, defaultProvider, firewall.entryPoint, old(statefulCount));
        && (r.Err? <==> spec.Err?)
        && (r.Err? ==> r.error == spec.error)
        && (r.Ok? ==>
          var entryPoint := ConfiguredOr(firewall.entryPoint, spec.value.entryPoint);
          && r.value.listeners == ListenerChain(id, firewall,
               ContextListenerFor(old(contextListeners), ListenerContextKey(id, firewall)), spec.value.listeners)
          && r.value.exceptionListener == Some(Id(ExceptionListenerId(id)))
          && providers == spec.value.providers
          && statefulCount == spec.value.count
          && logoutRegistrations == old(logoutRegistrations)
               + (if firewall.logout.Some? then [LogoutRegistrationFor(id, firewall, firewall.logout.value)] else [])
          && EnabledServicesRegistered(container, id, firewall,
               EnabledConfig(id, firewall, ExpectedMatcher(firewall), defaultProvider, entryPoint,
                 (if firewall.logout.Some? then ["logout"] else []) + PluginKeys(firewallPluginFactories, amended),
                 AnyAnonymous(firewallPluginFactories)),
               CreateExceptionListener(amended, id, entryPoint, firewall.stateless).1))
    {
      var matcher := ResolveMatcher(firewall);
      if !firewall.security {
        container := container[Id(ConfigId(id)) := FirewallConfigDef(NewFirewallConfig(id, firewall.userChecker, matcher, false))];
        return Ok(FirewallResult(matcher, [], None)), [];
      }
      RunnableExcludesRequestMatcher(firewallPluginFactories);
      r, providers := CreateEnabledFirewall(id, firewall, providerIds, matcher,
        Listeners.CreateListeners(firewallPluginFactories, id, WithAccessControl(firewall, accessControlRules),
          DefaultProvider(firewall, providerIds), firewall.entryPoint, statefulCount));
    }

    /**
     * The services an enabled firewall registers once its listeners are
     * built: exception listener, user-checker alias and the `FirewallConfig`
     * recording the listener keys (`listenerKeys` then the plugins') and
     * whether anonymous access is allowed.
     */
    method RegisterEnabledServices(id: string, firewall: FirewallSpec, amended: FirewallSpec, matcher: Option<Ref>,
                                   defaultProvider: Option<string>, entryPoint: Option<string>, listenerKeys: seq<string>)
      modifies this`container
      ensures EnabledServicesRegistered(container, id, firewall,
        EnabledConfig(id, firewall, matcher, defaultProvider, entryPoint,
          listenerKeys + PluginKeys(firewallPluginFactories, amended), AnyAnonymous(firewallPluginFactories)),
        CreateExceptionListener(amended, id, entryPoint, firewall.stateless).1)
    {
      var pluginKeys, allowsAnonymous := RecordPluginKeys(firewallPluginFactories, amended, listenerKeys);
      RegisterFirewallServices(id, firewall, amended, entryPoint,
        EnabledConfig(id, firewall, matcher, defaultProvider, entryPoint, pluginKeys, allowsAnonymous));
    }

    /**
     * The enabled branch of `createFirewall`, once the matcher is resolved.
     * `spec` is what `Listeners.CreateListeners` computes for the firewall
     * amended with the global access-control rules, from the current
     * stateful-listener count.
     */
    method CreateEnabledFirewall(id: string, firewall: FirewallSpec, providerIds: seq<string>, matcher: Option<Ref>,
                                 ghost spec: Result<Fold, BuildError>)
      returns (r: Result<FirewallResult, BuildError>, providers: seq<string>)
      requires ContextListenersNumbered(contextListeners) && RequestMatcherPlugin !in firewallPluginFactories
      requires spec == Listeners.CreateListeners(firewallPluginFactories, id, WithAccessControl(firewall, accessControlRules),
        DefaultProvider(firewall, providerIds), firewall.entryPoint, statefulCount)
      modifies this`container, this`statefulCount, this`contextListeners, this`logoutRegistrations
      ensures ContextListenersNumbered(contextListeners)
      ensures contextListeners == ContextListenersAfter(old(contextListeners), ListenerContextKey(id, firewall), firewall.stateless)
      ensures r.Ok? ==> r.value.matcher == matcher
      ensures (r.Err? <==> spec.Err?) && (r.Err? ==> r.error == spec.error)
      ensures r.Ok? ==>
        var entryPoint := ConfiguredOr(firewall.entryPoint, spec.value.entryPoint);
        && r.value.listeners == ListenerChain(id, firewall,
             ContextListenerFor(old(contextListeners), ListenerContextKey(id, firewall)), spec.value.listeners)
        && r.value.exceptionListener == Some(Id(ExceptionListenerId(id)))
        && providers == spec.value.providers
        && statefulCount == spec.value.count
        && logoutRegistrations == old(logoutRegistrations)
             + (if firewall.logout.Some? then [LogoutRegistrationFor(id, firewall, firewall.logout.value)] else [])
        && EnabledServicesRegistered(container, id, firewall,
             EnabledConfig(id, firewall, matcher, DefaultProvider(firewall, providerIds), entryPoint,
               (if firewall.logout.Some? then ["logout"] else [])
                 + PluginKeys(firewallPluginFactories, WithAccessControl(firewall, accessControlRules)),
               AnyAnonymous(firewallPluginFactories)),
             CreateExceptionListener(WithAccessControl(firewall, accessControlRules), id, entryPoint, firewall.stateless).1)
    {
      ghost var contextListener := ContextListenerFor(contextListeners, ListenerContextKey(id, firewall));
      var head, listenerKeys := CreateChainHead(id, firewall);
      r, providers := CompleteEnabledFirewall(id, firewall, providerIds, matcher, head, listenerKeys, contextListener, spec);
    }

    /** The enabled firewall after the head of its chain: its plugin listeners appended to `head`. */
    method CompleteEnabledFirewall(id: string, firewall: FirewallSpec, providerIds: seq<string>, matcher: Option<Ref>,
                                   head: seq<Ref>, listenerKeys: seq<string>, ghost contextListener: Ref,
                                   ghost spec: Result<Fold, BuildError>)
      returns (r: Result<FirewallResult, BuildError>, providers: seq<string>)
      requires RequestMatcherPlugin !in firewallPluginFactories
      requires head == ListenerChain(id, firewall, contextListener, [])
      requires spec == Listeners.CreateListeners(firewallPluginFactories, id, WithAccessControl(firewall, accessControlRules),
        DefaultProvider(firewall, providerIds), firewall.entryPoint, statefulCount)
      modifies this`container, this`statefulCount
      ensures r.Ok? ==> r.value.matcher == matcher
      ensures (r.Err? <==> spec.Err?) && (r.Err? ==> r.error == spec.error)
      ensures r.Ok? ==>
        var entryPoint := ConfiguredOr(firewall.entryPoint, spec.value.entryPoint);
        && r.value.listeners == ListenerChain(id, firewall, contextListener, spec.value.listeners)
        && r.value.exceptionListener == Some(Id(ExceptionListenerId(id)))
        && providers == spec.value.providers
        && statefulCount == spec.value.count
        && EnabledServicesRegistered(container, id, firewall,
             EnabledConfig(id, firewall, matcher, DefaultProvider(firewall, providerIds), entryPoint,
               listenerKeys + PluginKeys(firewallPluginFactories, WithAccessControl(firewall, accessControlRules)),
               AnyAnonymous(firewallPluginFactories)),
             CreateExceptionListener(WithAccessControl(firewall, accessControlRules), id, entryPoint, firewall.stateless).1)
    {
      var created;
      created, providers := CreatePluginListeners(id, firewall, providerIds, matcher, listenerKeys, spec);
      if created.Err? {
        return Err(created.error), providers;
      }
      ListenerChainAppend(id, firewall, contextListener, created.value);
      r := Ok(FirewallResult(matcher, head + created.value, Some(Id(ExceptionListenerId(id)))));
    }

    /**
     * The rest of an enabled firewall after the head of its chain: the
     * plugin listeners over the firewall amended with the global
     * access-control rules, then the exception listener, user-checker alias
     * and `FirewallConfig` services.
     */
    method CreatePluginListeners(id: string, firewall: FirewallSpec, providerIds: seq<string>, matcher: Option<Ref>,
                                 listenerKeys: seq<string>, ghost spec: Result<Fold, BuildError>)
      returns (r: Result<seq<Ref>, BuildError>, providers: seq<string>)
      requires RequestMatcherPlugin !in firewallPluginFactories
      requires spec == Listeners.CreateListeners(firewallPluginFactories, id, WithAccessControl(firewall, accessControlRules),
        DefaultProvider(firewall, providerIds), firewall.entryPoint, statefulCount)
      modifies this`container, this`statefulCount
      ensures (r.Err? <==> spec.Err?) && (r.Err? ==> r.error == spec.error)
      ensures r.Ok? ==>
        var entryPoint := ConfiguredOr(firewall.entryPoint, spec.value.entryPoint);
        && r.value == spec.value.listeners
        && providers == spec.value.providers
        && statefulCount == spec.value.count
        && EnabledServicesRegistered(container, id, firewall,
             EnabledConfig(id, firewall, matcher, DefaultProvider(firewall, providerIds), entryPoint,
               listenerKeys + PluginKeys(firewallPluginFactories, WithAccessControl(firewall, accessControlRules)),
               AnyAnonymous(firewallPluginFactories)),
             CreateExceptionListener(WithAccessControl(firewall, accessControlRules), id, entryPoint, firewall.stateless).1)
    {
      var defaultProvider := DefaultProvider(firewall, providerIds);
      var amended := WithAccessControl(firewall, accessControlRules);
      var created;
      created, providers := CreateListeners(id, amended, defaultProvider, firewall.entryPoint);
      if created.Err? {
        return Err(created.error), providers;
      }
      var entryPoint := ConfiguredOr(firewall.entryPoint, created.value.1);
      RegisterEnabledServices(id, firewall, amended, matcher, defaultProvider, entryPoint, listenerKeys);
      r := Ok(created.value.0);
    }

    /**
     * `createUserProviders`: every `providers` entry in order, collecting the
     * ids; the first entry that cannot be built aborts.
     */
    method CreateUserProviders(providers: seq<(string, ProviderSpec)>) returns (r: Result<seq<string>, BuildError>)
      modifies this`container
      ensures var spec := UserProviders.UserProviders(old(userProviderFactories), providers, [], []);
        && (r.Err? <==> spec.Err?)
        && (r.Err? ==> r.error == spec.error)
        && (r.Ok? ==> r.value == spec.value.0 && container == Register(old(container), spec.value.1))
    {
      var ids: seq<string> := [];
      ghost var defs: seq<(Ref, Definition)> := [];
      for i := 0 to |providers|
        invariant UserProviders.UserProviders(userProviderFactories, providers, [], [])
          == UserProviders.UserProviders(userProviderFactories, providers[i..], ids, defs)
        invariant container == Register(old(container), defs)
      {
        assert providers[i..][0] == providers[i] && providers[i..][1..] == providers[i + 1..];
        var created := CreateUserDaoProvider(userProviderFactories, providers[i].0, providers[i].1);
        if created.Err? {
          return Err(created.error);
        }
        RegisterAppend(old(container), defs, created.value.1);
        container := Register(container, created.value.1);
        ids := ids + [created.value.0];
        defs := defs + created.value.1;
      }
      assert providers[|providers|..] == [];
      r := Ok(ids);
    }

    /**
     * One iteration of `createFirewalls`: build firewall `name` and register
     * its `FirewallContext` (listeners, exception listener, config) under
     * `security.firewall.map.context.<name>`; the pair is the firewall map's
     * entry for it.
     */
    method CreateFirewallContext(name: string, firewall: FirewallSpec, providerIds: seq<string>)
      returns (r: Result<(Ref, Option<Ref>), BuildError>, contributed: seq<string>)
      requires Valid() && Runnable(firewallPluginFactories)
      modifies this`container, this`statefulCount, this`contextListeners, this`logoutRegistrations, requestMatchers
      ensures Valid()
      ensures var spec := FirewallContribution(
          firewallPluginFactories, accessControlRules, name, firewall, providerIds, old(statefulCount));
        && (r.Err? <==> spec.Err?) && (r.Err? ==> r.error == spec.error)
        && (r.Ok? ==> contributed == spec.value.0 && statefulCount == spec.value.1)
      ensures r.Ok? ==> r.value == (Id(ContextId(name)), ExpectedMatcher(firewall))
      ensures r.Ok? ==> (
        && Id(ContextId(name)) in container && container[Id(ContextId(name))].FirewallContextDef?
        && container[Id(ContextId(name))].configRef == Id(ConfigId(name)))
    {
      var built;
      built, contributed := CreateFirewall(name, firewall, providerIds);
      if built.Err? {
        return Err(built.error), contributed;
      }
      var contextId := Id(ContextId(name));
      container := container[contextId := FirewallContextDef(
        built.value.listeners, built.value.exceptionListener, Id(ConfigId(name)))];
      r := Ok((contextId, built.value.matcher));
    }

    /**
     * The loop of `createFirewalls`: build every firewall in order, stopping
     * at the first failure; on success one firewall-map entry per firewall,
     * keyed by its context id. `collected` accumulates the providers each
     * built firewall contributed: on success, exactly `Contributions`.
     */
    method CreateFirewallContexts(firewalls: seq<(string, FirewallSpec)>, providerIds: seq<string>)
      returns (r: Result<seq<(Ref, Option<Ref>)>, BuildError>, collected: seq<string>)
      requires Valid() && Runnable(firewallPluginFactories)
      modifies this`container, this`statefulCount, this`contextListeners, this`logoutRegistrations, requestMatchers
      ensures Valid()
      ensures var spec := Contributions(firewallPluginFactories, accessControlRules, firewalls, providerIds, old(statefulCount));
        && (r.Err? <==> spec.Err?) && (r.Err? ==> r.error == spec.error)
        && (r.Ok? ==> collected == spec.value)
      ensures r.Ok? ==>
        && |r.value| == |firewalls|
        && forall i :: 0 <= i < |firewalls| ==> r.value[i].0 == Id(ContextId(firewalls[i].0))
    {
      ghost var spec := Contributions(firewallPluginFactories, accessControlRules, firewalls, providerIds, statefulCount);
      collected := [];
      assert firewalls[0..] == firewalls;
      ContributionsAfterAppend([], [], spec);
      var contexts: seq<(Ref, Option<Ref>)> := [];
      for i := 0 to |firewalls|
        invariant Valid()
        invariant |contexts| == i
        invariant forall j :: 0 <= j < i ==> contexts[j].0 == Id(ContextId(firewalls[j].0))
        invariant spec == ContributionsAfter(collected,
          Contributions(firewallPluginFactories, accessControlRules, firewalls[i..], providerIds, statefulCount))
      {
        ghost var countBefore := statefulCount;
        var context, contributed := CreateFirewallContext(firewalls[i].0, firewalls[i].1, providerIds);
        ContributionsStep(firewallPluginFactories, accessControlRules, firewalls, i, providerIds, countBefore);
        ContributionsAfterAppend(collected, contributed,
          Contributions(firewallPluginFactories, accessControlRules, firewalls[i + 1..], providerIds, statefulCount));
        collected := collected + contributed;
        if context.Err? {
          return Err(context.error), collected;
        }
        contexts := contexts + [context.value];
      }
      r := Ok(contexts);
    }

    /**
     * `createFirewalls`: build the user providers, hand them to the context
     * listener, build every firewall in order, then give the authentication
     * manager the providers all firewalls contributed, each once, in order of
     * first contribution. `collected` is that list before deduplication:
     * every firewall's contribution, as `Contributions` defines it.
     */
    method CreateFirewalls(config: SecurityConfig) returns (r: Result<(), BuildError>, collected: seq<string>)
      requires Valid() && Runnable(firewallPluginFactories)
      modifies this`container, this`statefulCount, this`contextListeners, this`logoutRegistrations, requestMatchers
      ensures Valid()
      ensures config.firewalls.None? ==>
        && r.Ok? && collected == [] && container == old(container)
        && contextListeners == old(contextListeners) && statefulCount == old(statefulCount)
        && logoutRegistrations == old(logoutRegistrations)
        && requestMatchers.requestMatchers == old(requestMatchers.requestMatchers)
      ensures config.firewalls.Some? && UserProviders.UserProviders(old(userProviderFactories), config.providers, [], []).Err? ==>
        r == Err(UserProviders.UserProviders(old(userProviderFactories), config.providers, [], []).error)
      ensures config.firewalls.Some? && UserProviders.UserProviders(old(userProviderFactories), config.providers, [], []).Ok? ==>
        var spec := Contributions(firewallPluginFactories, accessControlRules, config.firewalls.value,
          UserProviders.UserProviders(old(userProviderFactories), config.providers, [], []).value.0, old(statefulCount));
        && (r.Err? <==> spec.Err?) && (r.Err? ==> r.error == spec.error)
        && (r.Ok? ==> collected == spec.value)
      ensures config.firewalls.Some? && r.Ok? ==>
        && AUTHENTICATION_MANAGER in container
        && container[AUTHENTICATION_MANAGER] == AuthenticationManagerDef(Refs(Unique(collected)))
        && FIREWALL_MAP in container && container[FIREWALL_MAP].FirewallMapDef?
        && |container[FIREWALL_MAP].contexts| == |config.firewalls.value|
        && forall i :: 0 <= i < |config.firewalls.value| ==>
             container[FIREWALL_MAP].contexts[i].0 == Id(ContextId(config.firewalls.value[i].0))
    {
      collected := [];
      if config.firewalls.None? {
        return Ok(()), collected;
      }
      var firewalls := config.firewalls.value;
      var providerIds := CreateUserProviders(config.providers);
      if providerIds.Err? {
        return Err(providerIds.error), collected;
      }
      container := container[CONTEXT_LISTENER_PARENT := ContextListenerProvidersDef(Refs(providerIds.value))];

      var contexts;
      contexts, collected := CreateFirewallContexts(firewalls, providerIds.value);
      if contexts.Err? {
        return Err(contexts.error), collected;
      }
      container := container[FIREWALL_MAP := FirewallMapDef(contexts.value)];
      container := container[AUTHENTICATION_MANAGER := AuthenticationManagerDef(Refs(Unique(collected)))];
      r := Ok(());
    }

    /** One iteration of `createAccessMap`: the rule's matcher (memoised) and the access-map entry it yields. */
    method AccessRuleEntry(rule: AccessRule) returns (entry: AccessMapEntry)
      requires requestMatchers.Valid()
      modifies this`container, requestMatchers
      ensures requestMatchers.Valid()
      ensures entry == AccessEntry(rule)
      ensures RuleKey(rule) in requestMatchers.requestMatchers
      ensures old(requestMatchers.requestMatchers).Keys <= requestMatchers.requestMatchers.Keys
    {
      var matcher;
      matcher, container := requestMatchers.CreateRequestMatcher(container, rule.path, rule.host, rule.methods, Some(rule.ips), []);
      entry := AccessMapEntry(matcher, AccessAttributes(rule), rule.requiresChannel);
    }

    /** The loop of `createAccessMap`: every rule's entry, in order, with its matcher memoised. */
    method AccessRuleEntries(rules: seq<AccessRule>) returns (entries: seq<AccessMapEntry>)
      requires requestMatchers.Valid()
      modifies this`container, requestMatchers
      ensures requestMatchers.Valid()
      ensures entries == AccessEntries(rules)
      ensures forall j :: 0 <= j < |rules| ==> RuleKey(rules[j]) in requestMatchers.requestMatchers.Keys
    {
      entries := [];
      for i := 0 to |rules|
        invariant requestMatchers.Valid()
        invariant entries == AccessEntries(rules[..i])
        invariant forall j :: 0 <= j < i ==> RuleKey(rules[j]) in requestMatchers.requestMatchers.Keys
      {
        ghost var before := requestMatchers.requestMatchers.Keys;
        var entry := AccessRuleEntry(rules[i]);
        RuleKeysGrow(rules, i, before, requestMatchers.requestMatchers.Keys);
        AccessEntriesSnoc(rules, i);
        entries := entries + [entry];
      }
      assert rules[..|rules|] == rules;
    }

    /**
     * `createAccessMap`: with rules configured, one access-map entry per
     * rule, in order, each with its memoised request matcher (built from
     * the rule's path, host, methods and ips) and its attributes.
     */
    method CreateAccessMap(rules: seq<AccessRule>)
      requires requestMatchers.Valid()
      modifies this`container, this`accessMap, requestMatchers
      ensures requestMatchers.Valid()
      ensures accessMap == old(accessMap) + AccessEntries(rules)
      ensures forall j :: 0 <= j < |rules| ==> RuleKey(rules[j]) in requestMatchers.requestMatchers
    {
      if |rules| == 0 {
        return;
      }
      var entries := AccessRuleEntries(rules);
      accessMap := accessMap + entries;
    }
  }
}
