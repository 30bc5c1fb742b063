/**
 * The firewall plugin factories: each has a fixed position and key, and a
 * `create` that registers its services and returns what the firewall gains.
 *
 * The five concrete factories of this bundle are constructors of `Factory`;
 * every other registered factory (form login, HTTP basic, remember-me, ...)
 * is a `Generic` descriptor whose `create` derives its ids from the
 * firewall id and returns them as a `[provider, listener, entryPoint]` array.
 */
module Factories {
  import opened Wrappers
  import opened Services
  import opened Containers
  import opened Configuration
  import opened FirewallPlugins
  import opened FirewallConfigs

  datatype Factory =
    | AnonymousAuthentication
    | SwitchUserPlugin
    | StatefulAuthorizationPlugin
    | RequestMatcherPlugin
    | AccessControlPlugin
    | Generic(
        position: string, key: string,
        providerPrefix: Option<string>, listenerPrefix: string, entryPointPrefix: Option<string>)

  /** `getPosition()` */
  function Position(f: Factory): string
  {
    match f
    case AnonymousAuthentication => "anon"
    case SwitchUserPlugin => POSITION_PRE_AUTHORIZATION
    case StatefulAuthorizationPlugin => POSITION_POST_AUTHENTICATION
    case RequestMatcherPlugin => POSITION_MATCH_REQUEST
    case AccessControlPlugin => POSITION_AUTHORIZATION_DEFAULT_RBAC
    case Generic(position, _, _, _, _) => position
  }

  /** `getKey()` */
  function Key(f: Factory): string
  {
    match f
    case AnonymousAuthentication => "anonymous"
    case SwitchUserPlugin => "switch_user"
    case StatefulAuthorizationPlugin => "stateful"
    case RequestMatcherPlugin => "request_matcher"
    case AccessControlPlugin => "access_control"
    case Generic(_, key, _, _, _) => key
  }

  /** The bundle's own factories, with their fixed positions. */
  lemma ConcretePositions()
    ensures Position(AnonymousAuthentication) == POSITION_AUTHENTICATION_ANON
    ensures Position(SwitchUserPlugin) == POSITION_PRE_AUTHORIZATION
    ensures Position(StatefulAuthorizationPlugin) == POSITION_POST_AUTHENTICATION
    ensures Position(RequestMatcherPlugin) == POSITION_MATCH_REQUEST
    ensures Position(AccessControlPlugin) == POSITION_AUTHORIZATION_DEFAULT_RBAC
    ensures Position(RequestMatcherPlugin) !in ORDER
    ensures forall f: Factory :: !f.Generic? && f != RequestMatcherPlugin ==> Position(f) in ORDER
  {
    OrderIsDistinct();
  }

  /**
   * The bundle's own keys are pairwise distinct, so `sortFactories` keeps
   * all of them, and contain no '-', so each is also the firewall array key
   * that activates its factory.
   */
  lemma ConcreteKeys(f: Factory, g: Factory)
    requires !f.Generic? && !g.Generic? && f != g
    ensures Key(f) != Key(g)
    ensures '-' !in Key(f)
  {
  }

  /** The outcome of one `create` call: its return value, the services it defined, and the static counter after it. */
  datatype Creation = Creation(result: CreateResult, definitions: seq<(Ref, Definition)>, count: nat)

  /**
   * `create($container, $id, $config, $userProvider, $defaultEntryPoint)`.
   * `count` is StatefulAuthorizationPluginFactory's static counter before the
   * call. The request-matcher factory's `create` reads variables it never
   * defines; it is excluded here, and `sortFactories` never lets it run.
   */
  function Create(
    f: Factory, id: string, config: PluginConfig, userProvider: Option<string>,
    defaultEntryPoint: Option<string>, count: nat): (c: Creation)
    requires f != RequestMatcherPlugin
  {
    match f
    case AnonymousAuthentication => AnonymousCreate(id, config, count)
    case SwitchUserPlugin => SwitchUserCreate(id, config, userProvider, count)
    case StatefulAuthorizationPlugin => StatefulCreate(id, config, count)
    case AccessControlPlugin => Creation(NullResult, [], count)
    case Generic(_, _, providerPrefix, listenerPrefix, entryPointPrefix) =>
      Creation(
        TupleResult(
          if providerPrefix.Some? then Some(providerPrefix.value + id) else None,
          Id(listenerPrefix + id),
          if entryPointPrefix.Some? then Some(entryPointPrefix.value + id) else None),
        [], count)
  }

  /** AnonymousAuthenticationFactory::create */
  function AnonymousCreate(id: string, config: PluginConfig, count: nat): (c: Creation)
    ensures c.count == count
    ensures c.result == TupleResult(
      Some("security.authentication.provider.anonymous." + id),
      Id("security.authentication.listener.anonymous." + id),
      None)
    ensures c.definitions == [
      (c.result.listenerId, AnonymousListenerDef(Lookup(config, "secret"))),
      (Id(c.result.providerId.value), AnonymousProviderDef(Lookup(config, "secret")))]
  {
    var listenerId := "security.authentication.listener.anonymous." + id;
    var providerId := "security.authentication.provider.anonymous." + id;
    Creation(
      TupleResult(Some(providerId), Id(listenerId), None),
      [(Id(listenerId), AnonymousListenerDef(Lookup(config, "secret"))),
       (Id(providerId), AnonymousProviderDef(Lookup(config, "secret")))],
      count)
  }

  /** SwitchUserPluginFactory::create */
  function SwitchUserCreate(id: string, config: PluginConfig, userProvider: Option<string>, count: nat): (c: Creation)
  {
    var listenerId := Id("security.authentication.switchuser_listener." + id);
    Creation(
      PluginResult(NewFirewallPlugin(listenerId)),
      [(listenerId, SwitchUserListenerDef(
        if userProvider.Some? then Some(Id(userProvider.value)) else None,
        Id("security.user_checker." + id), id,
        Lookup(config, "parameter"), Lookup(config, "role")))],
      count)
  }

  /** StatefulAuthorizationPluginFactory::create: the static counter is pre-incremented. */
  function StatefulCreate(id: string, config: PluginConfig, count: nat): (c: Creation)
  {
    var contextKey := if Truthy(Lookup(config, "context")) then config["context"] else id;
    var listenerId := ContextListenerRef(count + 1);
    Creation(
      PluginResult(NewFirewallPlugin(listenerId)),
      [(listenerId, ContextListenerDef(contextKey))],
      count + 1)
  }

  // ---------------------------------------------------------------------
  // What each concrete factory contributes
  // ---------------------------------------------------------------------

  /**
   * Anonymous authentication contributes a listener and a provider (so it
   * satisfies the authentication-required check), no entry point, and hands
   * the same configured secret to both services.
   */
  lemma AnonymousContribution(id: string, config: PluginConfig, up: Option<string>, ep: Option<string>, count: nat)
    ensures var c := Create(AnonymousAuthentication, id, config, up, ep, count);
      var p := Normalize(c.result, Key(AnonymousAuthentication));
      && p.Ok?
      && p.value.listenerId == Id("security.authentication.listener.anonymous." + id)
      && p.value.authenticationProviderId == Some("security.authentication.provider.anonymous." + id)
      && p.value.authenticationEntryPoint == None
      && |c.definitions| == 2
      && c.definitions[0].1.listenerSecret == c.definitions[1].1.providerSecret == Lookup(config, "secret")
      && c.count == count
  {
  }

  /**
   * Switch-user contributes only its listener: no provider and no entry
   * point. The listener is wired to the user provider it was given, to the
   * firewall's user checker and to the firewall id.
   */
  lemma SwitchUserContribution(id: string, config: PluginConfig, up: Option<string>, ep: Option<string>, count: nat)
    ensures var c := Create(SwitchUserPlugin, id, config, up, ep, count);
      var p := Normalize(c.result, Key(SwitchUserPlugin));
      && p.Ok?
      && p.value.listenerId == Id("security.authentication.switchuser_listener." + id)
      && p.value.authenticationProviderId == None && p.value.authenticationEntryPoint == None
      && c.definitions == [(p.value.listenerId, SwitchUserListenerDef(
           if up.Some? then Some(Id(up.value)) else None, Id("security.user_checker." + id), id,
           Lookup(config, "parameter"), Lookup(config, "role")))]
      && c.count == count
  {
  }

  /**
   * Stateful authorization contributes only a context listener, bound to
   * the configured context when it is truthy and to the firewall id
   * otherwise, and numbered by the pre-incremented static counter.
   */
  lemma StatefulContribution(id: string, config: PluginConfig, up: Option<string>, ep: Option<string>, count: nat)
    ensures var c := Create(StatefulAuthorizationPlugin, id, config, up, ep, count);
      var p := Normalize(c.result, Key(StatefulAuthorizationPlugin));
      && p.Ok?
      && p.value.listenerId == ContextListenerRef(count + 1)
      && p.value.authenticationProviderId == None && p.value.authenticationEntryPoint == None
      && c.definitions == [(p.value.listenerId, ContextListenerDef(
           if Truthy(Lookup(config, "context")) then config["context"] else id))]
      && c.count == count + 1
  {
  }

  /** Two successive stateful listeners never share an id, whatever firewalls they serve. */
  lemma StatefulListenersDistinct(id1: string, config1: PluginConfig, id2: string, config2: PluginConfig, count: nat)
    ensures var first := StatefulCreate(id1, config1, count);
      var second := StatefulCreate(id2, config2, first.count);
      first.result.plugin.listenerId != second.result.plugin.listenerId
  {
  }

  /**
   * The access-control factory's `create` has an empty body: it returns
   * null, which `normalize` cannot turn into a plugin.
   */
  lemma AccessControlCreateFails(id: string, config: PluginConfig, up: Option<string>, ep: Option<string>, count: nat)
    ensures var c := Create(AccessControlPlugin, id, config, up, ep, count);
      c.definitions == [] && Normalize(c.result, Key(AccessControlPlugin)) == Err(NotAnArray("access_control"))
  {
  }
}
