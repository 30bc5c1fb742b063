/**
 * The dependency-injection container, abstracted to a map from service
 * reference to a small definition record: the class of the service and the
 * arguments the modelled code sets on it. Container parameters the build
 * sets are kept in the same map under their own name.
 */
module Containers {
  import opened Wrappers
  import opened Services
  import opened FirewallConfigs

  /** An attribute an access rule requires: a role name, or the `allow_if` expression. */
  datatype AccessAttribute = RoleAttribute(role: string) | ExpressionAttribute(expression: string)

  datatype Definition =
    | RequestMatcherDef(arguments: seq<MatcherArg>)
    | ContextListenerDef(contextKey: string)
    | AnonymousListenerDef(listenerSecret: Option<string>)
    | AnonymousProviderDef(providerSecret: Option<string>)
    | SwitchUserListenerDef(
        userProvider: Option<Ref>, userChecker: Ref, firewall: string,
        parameter: Option<string>, role: Option<string>)
    | LogoutListenerDef(
        csrfParameter: string, csrfTokenId: string, logoutPath: string,
        successHandler: Ref, csrfTokenGenerator: Option<Ref>, handlers: seq<Ref>)
    | LogoutSuccessHandlerDef(target: string)
    | CookieClearingHandlerDef(cookies: seq<string>)
    | ExceptionListenerDef(
        firewall: string, entryPoint: Option<Ref>, accessDeniedUrl: Option<string>,
        accessDeniedHandler: Option<Ref>, stateless: bool)
    | AliasDef(target: string)
    | ChainUserProviderDef(providers: seq<Ref>)
    | FactoryUserProviderDef(factoryKey: string)
    | FirewallConfigDef(config: FirewallConfig)
    | FirewallContextDef(listeners: seq<Ref>, exceptionListener: Option<Ref>, configRef: Ref)
    | FirewallMapDef(contexts: seq<(Ref, Option<Ref>)>)
    | AuthenticationManagerDef(providers: seq<Ref>)
    | ContextListenerProvidersDef(userProviders: seq<Ref>)
    | RoleHierarchyParameter(roles: seq<(string, seq<string>)>)

  type Container = map<Ref, Definition>

  /** Set every definition of `defs` in turn; a later one replaces an earlier one under the same id. */
  function Register(container: Container, defs: seq<(Ref, Definition)>): (r: Container)
    ensures forall ref :: ref in r <==> ref in container || exists i :: 0 <= i < |defs| && defs[i].0 == ref
    decreases |defs|
  {
    if defs == [] then container else Register(container[defs[0].0 := defs[0].1], defs[1..])
  }

  /** Registering two lists one after the other is registering their concatenation. */
  lemma {:induction false} RegisterAppend(container: Container, a: seq<(Ref, Definition)>, b: seq<(Ref, Definition)>)
    ensures Register(Register(container, a), b) == Register(container, a + b)
    decreases |a|
  {
    if a != [] {
      assert (a + b)[0] == a[0];
      assert (a + b)[1..] == a[1..] + b;
      RegisterAppend(container[a[0].0 := a[0].1], a[1..], b);
    } else {
      assert a + b == b;
    }
  }

  /** The last definition registered under an id is the one the container keeps. */
  lemma {:induction false} RegisterLastWins(container: Container, defs: seq<(Ref, Definition)>, i: nat)
    requires i < |defs|
    requires forall j :: i < j < |defs| ==> defs[j].0 != defs[i].0
    ensures defs[i].0 in Register(container, defs) && Register(container, defs)[defs[i].0] == defs[i].1
    decreases |defs|
  {
    if i > 0 {
      RegisterLastWins(container[defs[0].0 := defs[0].1], defs[1..], i - 1);
    } else {
      RegisterUntouched(container[defs[0].0 := defs[0].1], defs[1..], defs[0].0);
    }
  }

  /** Ids that no definition names keep what the container held. */
  lemma {:induction false} RegisterUntouched(container: Container, defs: seq<(Ref, Definition)>, ref: Ref)
    requires forall j :: 0 <= j < |defs| ==> defs[j].0 != ref
    ensures ref in Register(container, defs) <==> ref in container
    ensures ref in container ==> Register(container, defs)[ref] == container[ref]
    decreases |defs|
  {
    if defs != [] {
      RegisterUntouched(container[defs[0].0 := defs[0].1], defs[1..], ref);
    }
  }
}
