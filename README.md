# Firewall assembly of the Symfony SecurityBundle, in Dafny

This project models how the SecurityBundle's dependency-injection extension
assembles firewalls at container-build time from the processed `security`
configuration, and proves what that assembly promises.

- **Plugin ordering.** `FirewallPlugin::sortFactories` is a stable bucket sort over
  nine position strings. It keys its result by `getKey()`, and a factory at
  any other position (request matching included) is dropped.
- **Plugin results.** `FirewallPlugin::normalize` and `fromTuple` turn the two
  shapes a factory's `create` may return into one plugin record.
- **The five bundled factories.** Anonymous authentication, switch-user,
  stateful authorization, request matcher and access control, each with its
  position, key and `create` result.
- **`SecurityExtension`.** A class whose fields are the memos and registries
  the PHP object mutates: the sorted plugin factories, the context-listener
  memo, the request-matcher memo, the static counter of the stateful factory,
  the container, the logout URL generator's registrations and the access map.
  Its methods cover the following.
  - `createFirewalls` / `createFirewall`: matcher resolution, the
    disabled-firewall short cut, the default user provider, and the listener
    chain (channel, context, logout, plugins).
  - `createListeners`: a left fold over the sorted factories. A non-null entry
    point replaces the running one, and the build fails when no activated
    plugin returned a provider.
  - The provider list of the authentication manager: `array_unique` over all
    firewalls, keeping first occurrences.
  - `createContextListener`, `createRequestMatcher`, `createUserProviders` /
    `createUserDaoProvider`, `getUserProviderId`, `createEncoder`,
    `createExceptionListener`, `createRoleHierarchy` and `createAccessMap`.
- **`FirewallConfig`.** The immutable record handed to the runtime, with its
  constructor defaults.

The dependency-injection container is a map from service reference to a small
definition record. A request-matcher service id is `RequestMatcherRef(tuple)`,
which stands for the md5 and sha1 of the serialised tuple; the hashes are taken
as injective. A context-listener id `security.context_listener.N` is
`ContextListenerRef(N)`.

Quirks of the code are reproduced, not fixed:

- An unknown position is silently dropped.
- With no user provider registered, a firewall's default provider is
  `reset([])`, which is `false`: no error is raised (`None` here).
- `allowsAnonymous` looks at every registered factory, not at the firewall.
- Plugin keys are recorded with `array_key_exists`, but factories are activated
  with `isset`. A key present with a null value is listed but does not run.
- Context listeners and the stateful factory share the
  `security.context_listener.` prefix with two independent counters. Their ids
  collide (`SecurityExtensions.ContextListenerIdsCollide`).
- The access-control factory's `create` returns null. Once global access rules
  exist, every enabled firewall carries an `access_control` key, so the build
  fails in `fromTuple` whenever that factory is registered and some firewall
  is enabled (`Listeners.AccessControlActivationFails`). A disabled firewall
  returns before that key is added.

## Model

| member | source | states |
|---|---|---|
| FirewallPlugins.OrderIsDistinct | src/Symfony/Bundle/SecurityBundle/DependencyInjection/Security/Factory/FirewallPlugin.php:84-94 | the nine positions of the sort order are pairwise distinct, and the request-matching position (spelled `match_reuqest`) is not one of them |
| FirewallPlugins.ConstructorDefaults | src/Symfony/Bundle/SecurityBundle/DependencyInjection/Security/Factory/FirewallPlugin.php:43-48 | a plugin built from a listener id alone keeps that id and has a null provider id and a null entry point |
| FirewallPlugins.FromTupleRoundTrip | src/Symfony/Bundle/SecurityBundle/DependencyInjection/Security/Factory/FirewallPlugin.php:71-74 | `fromTuple` reads slot 0 as the provider, slot 1 as the listener and slot 2 as the entry point; plugin → array → plugin and array → plugin → array both lose nothing |
| FirewallPlugins.Normalize | src/Symfony/Bundle/SecurityBundle/DependencyInjection/Security/Factory/FirewallPlugin.php:54-61 | a plugin object comes back unchanged; an array becomes the plugin holding its three values; it fails exactly when `create` returned null, which `fromTuple(array)` rejects |
| FirewallPlugins.PutFacts | src/Symfony/Bundle/SecurityBundle/DependencyInjection/Security/Factory/FirewallPlugin.php:101 | assigning `$map[$key]` keeps keys unique and adds no key but `$key`; for a key already present, the new value takes that key's original slot and no other entry moves or changes |
| FirewallPlugins.Bucket | src/Symfony/Bundle/SecurityBundle/DependencyInjection/Security/Factory/FirewallPlugin.php:99-103 | one pass of the inner loop selects only input factories, all of that pass's position, and never more than the input |
| FirewallPlugins.SortFactories | src/Symfony/Bundle/SecurityBundle/DependencyInjection/Security/Factory/FirewallPlugin.php:82-107 | the nested loop builds exactly the reference result: the factories bucket-sorted by position in the nine-position order, then assigned one by one under their keys |
| FirewallPlugins.KeyedIntoFacts | src/Symfony/Bundle/SecurityBundle/DependencyInjection/Security/Factory/FirewallPlugin.php:99-103 | assigning factories in turn keeps keys unique and every entry under its own factory's key; every entry comes from the map or the factories; a key is present iff the map or some assigned factory has it |
| FirewallPlugins.SortFactoriesWellFormed | src/Symfony/Bundle/SecurityBundle/DependencyInjection/Security/Factory/FirewallPlugin.php:96-106 | for every input: keys are unique, each value sits under its own key, each value is an input factory at one of the nine positions (others are dropped), the result is never larger than the input, and a key is present iff a factory at a known position has it |
| FirewallPlugins.SortedValues | src/Symfony/Bundle/SecurityBundle/DependencyInjection/Security/Factory/FirewallPlugin.php:96-106 | with distinct keys, the values of the result are exactly the bucket-sorted factories |
| FirewallPlugins.SortedPositionsNonDecreasing | src/Symfony/Bundle/SecurityBundle/DependencyInjection/Security/Factory/FirewallPlugin.php:97-104 | with distinct keys, positions along the result never go backwards in the nine-position order |
| FirewallPlugins.SortIsStable | src/Symfony/Bundle/SecurityBundle/DependencyInjection/Security/Factory/FirewallPlugin.php:99-103 | with distinct keys, the factories of any known position appear in the result in their registration order, and those of an unknown position do not appear |
| Factories.ConcretePositions | src/Symfony/Bundle/SecurityBundle/DependencyInjection/Security/Factory/FirewallPlugin.php:21-32 | anonymous is at `anon`, switch-user at pre-authorization, stateful at post-authentication, access control at default RBAC (all sortable); the request-matcher factory is at the request-matching position, which the sort drops |
| Factories.ConcreteKeys | src/Symfony/Bundle/SecurityBundle/DependencyInjection/Security/Factory/SwitchUserPluginFactory.php:42-45 | the bundled factories' keys are pairwise distinct and contain no dash, so each is also the firewall key that activates its factory |
| Factories.AnonymousCreate | src/Symfony/Bundle/SecurityBundle/DependencyInjection/Security/Factory/AnonymousAuthenticationFactory.php:44-57 | returns the array (provider `security.authentication.provider.anonymous.<id>`, listener `security.authentication.listener.anonymous.<id>`, null), registers the listener and the provider, and leaves the counter alone |
| Factories.AnonymousContribution | src/Symfony/Bundle/SecurityBundle/DependencyInjection/Security/Factory/AnonymousAuthenticationFactory.php:44-57 | once normalised, the anonymous plugin has a provider (so it satisfies the authentication check) and no entry point, and its listener and provider receive the same `secret` |
| Factories.SwitchUserContribution | src/Symfony/Bundle/SecurityBundle/DependencyInjection/Security/Factory/SwitchUserPluginFactory.php:24-35 | the switch-user plugin is only the listener `security.authentication.switchuser_listener.<id>`, with no provider and no entry point; the listener is wired to the given user provider, the firewall's user checker, the firewall id, and the `parameter` and `role` options |
| Factories.StatefulContribution | src/Symfony/Bundle/SecurityBundle/DependencyInjection/Security/Factory/StatefulAuthorizationPluginFactory.php:50-58 | the stateful plugin is only a context listener, numbered by the pre-incremented static counter and bound to the `context` option when truthy, else to the firewall id |
| Factories.StatefulListenersDistinct | src/Symfony/Bundle/SecurityBundle/DependencyInjection/Security/Factory/StatefulAuthorizationPluginFactory.php:25-57 | two successive stateful listeners never share an id, whatever firewalls they serve |
| Factories.AccessControlCreateFails | src/Symfony/Bundle/SecurityBundle/DependencyInjection/Security/Factory/AccessControlPluginFactory.php:27-29 | the access-control `create` registers nothing and returns null, which `normalize` rejects |
| FirewallConfigs.ConstructorDefaults | src/Symfony/Bundle/SecurityBundle/Security/FirewallConfig.php:46-60 | built from a name and a user checker only, a config has no matcher, provider, context, entry point, access-denied handler or URL, is enabled and stateful, has no plugin keys and does not allow anonymous access |
| FirewallConfigs.GettersReturnArguments | src/Symfony/Bundle/SecurityBundle/Security/FirewallConfig.php:62-153 | every getter returns exactly the constructor argument of its field |
| Services.UpperAllIdempotent | src/Symfony/Bundle/SecurityBundle/DependencyInjection/SecurityExtension.php:645-647 | upper-casing methods that are already upper-cased changes nothing |
| RequestMatchers.MatcherKeyOf | src/Symfony/Bundle/SecurityBundle/DependencyInjection/SecurityExtension.php:645-650 | the memo key is the 5-tuple with every HTTP method upper-cased and every other component unchanged |
| RequestMatchers.MethodsCaseInsensitive | src/Symfony/Bundle/SecurityBundle/DependencyInjection/SecurityExtension.php:645-650 | method lists that agree up to ASCII case give the same matcher |
| RequestMatchers.DistinctTuplesDistinctIds | src/Symfony/Bundle/SecurityBundle/DependencyInjection/SecurityExtension.php:649-650 | tuples that differ in path, host, ips, attributes or upper-cased methods get different service ids |
| RequestMatchers.TrimArguments | src/Symfony/Bundle/SecurityBundle/DependencyInjection/SecurityExtension.php:656-660 | the pop loop leaves a prefix of the arguments that ends in a truthy one (or is empty) and drops only falsy ones |
| RequestMatchers.TrimmedOfUnique | src/Symfony/Bundle/SecurityBundle/DependencyInjection/SecurityExtension.php:656-660 | only one prefix meets that description, so the trimmed arguments are determined by the tuple |
| RequestMatchers.TrimKeepsTruthy | src/Symfony/Bundle/SecurityBundle/DependencyInjection/SecurityExtension.php:656-660 | every truthy argument survives trimming, in its own position |
| RequestMatchers.RequestMatcherMemo.constructor | src/Symfony/Bundle/SecurityBundle/DependencyInjection/Security/Factory/RequestMatcherPluginFactory.php:25 | a memo starts empty |
| RequestMatchers.RequestMatcherMemo.CreateRequestMatcher | src/Symfony/Bundle/SecurityBundle/DependencyInjection/SecurityExtension.php:643-668 | returns the id derived from the upper-cased tuple; a tuple seen before changes neither the memo nor the container; a new one is memoised and registers one `RequestMatcher` with the trimmed arguments and nothing else |
| UserProviders.GetUserProviderId | src/Symfony/Bundle/SecurityBundle/DependencyInjection/SecurityExtension.php:605-608 | the id is `security.user.provider.concrete.` followed by the lower-cased name |
| UserProviders.ProviderIdsCaseInsensitive | src/Symfony/Bundle/SecurityBundle/DependencyInjection/SecurityExtension.php:605-608 | two provider names get the same id exactly when they agree up to ASCII case |
| UserProviders.Underscored | src/Symfony/Bundle/SecurityBundle/DependencyInjection/SecurityExtension.php:468 | `str_replace('-', '_', $key)` keeps the length and replaces exactly the dashes |
| UserProviders.FirstFactoryIsFirst | src/Symfony/Bundle/SecurityBundle/DependencyInjection/SecurityExtension.php:571-578 | the factory chosen for a provider entry is the earliest registered one the entry configures non-emptily; none is chosen iff the entry configures none |
| UserProviders.CreateUserDaoProvider | src/Symfony/Bundle/SecurityBundle/DependencyInjection/SecurityExtension.php:566-603 | a factory wins over `id`, which wins over `chain`; it answers the provider id (the `id` option for an alias) and registers one service under the provider id; an entry with none of the three fails, naming the provider |
| UserProviders.UserProvidersFailure | src/Symfony/Bundle/SecurityBundle/DependencyInjection/SecurityExtension.php:554-564 | building the provider list fails iff some entry cannot be built, and then with the first such entry's error |
| Listeners.RunnableExcludesRequestMatcher | src/Symfony/Bundle/SecurityBundle/DependencyInjection/Security/Factory/RequestMatcherPluginFactory.php:30-33 | a sorted factory list never contains the request-matcher factory, so its `create` never runs |
| Listeners.PluginKeyUnderscored | src/Symfony/Bundle/SecurityBundle/DependencyInjection/SecurityExtension.php:468 | the firewall key of a factory is its key with dashes replaced by underscores |
| Listeners.Activated | src/Symfony/Bundle/SecurityBundle/DependencyInjection/SecurityExtension.php:474 | a factory runs iff the firewall array sets (`isset`) its key |
| Listeners.LastSomeIsLast | src/Symfony/Bundle/SecurityBundle/DependencyInjection/SecurityExtension.php:479-481 | the running entry point is the last non-null entry point any plugin returned, or the starting one when none did |
| Listeners.RunAccounts | src/Symfony/Bundle/SecurityBundle/DependencyInjection/SecurityExtension.php:467-490 | the loop's listeners, entry point, provider flag and provider ids are exactly what its plugins account for, with one plugin per activated factory and registrations only appended |
| Listeners.RunFailsOnlyOnNull | src/Symfony/Bundle/SecurityBundle/DependencyInjection/SecurityExtension.php:474-477 | the loop fails iff the access-control factory is present and activated, and then with the `fromTuple` type error |
| Listeners.CreateListenersSpec | src/Symfony/Bundle/SecurityBundle/DependencyInjection/SecurityExtension.php:461-497 | `createListeners` returns the listener of each activated plugin in factory order, the last non-null entry point (or the configured one), and a non-empty list of provider ids; it fails naming the firewall iff the loop completes with no provider id |
| Listeners.AccessControlActivationFails | src/Symfony/Bundle/SecurityBundle/DependencyInjection/SecurityExtension.php:411-416 | with the access-control factory registered, any firewall that carries `access_control` fails to build |
| Listeners.RecordPluginKeys | src/Symfony/Bundle/SecurityBundle/DependencyInjection/SecurityExtension.php:430-440 | the closing loop of `createFirewall` appends the plugin keys of the factories present in the firewall array, in factory order, and sets `allowsAnonymous` iff some registered factory is at the anonymous position |
| Listeners.PluginKeysListed | src/Symfony/Bundle/SecurityBundle/DependencyInjection/SecurityExtension.php:436-439 | a key is recorded iff some factory has it and the firewall array holds it (`array_key_exists`) |
| Listeners.NullEntryListedButInactive | src/Symfony/Bundle/SecurityBundle/DependencyInjection/SecurityExtension.php:437 | a factory key present with a null value is recorded as a plugin key but does not activate the factory |
| Listeners.Unique | src/Symfony/Bundle/SecurityBundle/DependencyInjection/SecurityExtension.php:288-290 | `array_unique` keeps exactly the values of its input |
| Listeners.UniqueKeepsFirstOccurrences | src/Symfony/Bundle/SecurityBundle/DependencyInjection/SecurityExtension.php:288-290 | the result has no duplicates, and its values come in the order of their first occurrence in the input |
| SecurityExtensions.NumberedExtend | src/Symfony/Bundle/SecurityBundle/DependencyInjection/SecurityExtension.php:454-458 | numbering a new context key by the memo's size keeps all memoised ids distinct and below the memo's size |
| SecurityExtensions.OneContextListenerPerKey | src/Symfony/Bundle/SecurityBundle/DependencyInjection/SecurityExtension.php:448-459 | after a stateful firewall's chain head, a later firewall with the same context key gets the same listener, one with another key a different listener, and the memo stays numbered |
| SecurityExtensions.ContextListenerIdsCollide | src/Symfony/Bundle/SecurityBundle/DependencyInjection/Security/Factory/StatefulAuthorizationPluginFactory.php:53 | the second context listener (`security.context_listener.1`) gets the same id as the stateful factory's first listener |
| SecurityExtensions.DefaultProvider | src/Symfony/Bundle/SecurityBundle/DependencyInjection/SecurityExtension.php:325-329 | the default provider is the firewall's `provider` turned into a provider id, or else the first registered provider; it is null iff neither exists |
| SecurityExtensions.LogoutHandlerOrder | src/Symfony/Bundle/SecurityBundle/DependencyInjection/SecurityExtension.php:376-393 | the logout listener gets the session handler iff the firewall is stateful and invalidates sessions, then the cookie handler iff cookies are to be deleted, then the configured handlers in order |
| SecurityExtensions.ListenerChainOrder | src/Symfony/Bundle/SecurityBundle/DependencyInjection/SecurityExtension.php:334-420 | an enabled firewall's chain starts with the channel listener; the context listener follows iff the firewall is stateful, then the logout listener iff logout is configured, then the plugin listeners in factory order |
| SecurityExtensions.AccessAttributes | src/Symfony/Bundle/SecurityBundle/DependencyInjection/SecurityExtension.php:237-240 | an access rule requires its roles in order, then its `allow_if` expression when truthy |
| SecurityExtensions.AccessEntries | src/Symfony/Bundle/SecurityBundle/DependencyInjection/SecurityExtension.php:228-244 | the access map gets one entry per rule, in rule order, each with the rule's matcher, attributes and channel |
| SecurityExtensions.SecurityExtension.constructor | src/Symfony/Bundle/SecurityBundle/DependencyInjection/SecurityExtension.php:40-46 | a new extension has no factories, rules, context listeners, matchers, logout registrations or access-map entries |
| SecurityExtensions.SecurityExtension.AddFirewallPluginFactory | src/Symfony/Bundle/SecurityBundle/DependencyInjection/SecurityExtension.php:56-59 | appends the factory to the registered factories |
| SecurityExtensions.SecurityExtension.AddUserProviderFactory | src/Symfony/Bundle/SecurityBundle/DependencyInjection/SecurityExtension.php:61-64 | appends the user-provider factory to the registered ones |
| SecurityExtensions.SecurityExtension.Load | src/Symfony/Bundle/SecurityBundle/DependencyInjection/SecurityExtension.php:66-116 | with only empty configuration arrays nothing changes; otherwise the factories are replaced by their sorted values (so none is the request-matcher factory), non-empty global access rules are recorded, and a successful build ends with one access-map entry per rule |
| SecurityExtensions.SecurityExtension.PrepareBuild | src/Symfony/Bundle/SecurityBundle/DependencyInjection/SecurityExtension.php:72-81 | the registered factories become the values of `sortFactories`, and the global access rules are recorded when there are any |
| SecurityExtensions.SecurityExtension.Build | src/Symfony/Bundle/SecurityBundle/DependencyInjection/SecurityExtension.php:114-116 | firewalls, access map and role hierarchy in that order; a successful build appends one access-map entry per rule |
| SecurityExtensions.SecurityExtension.ResolveMatcher | src/Symfony/Bundle/SecurityBundle/DependencyInjection/SecurityExtension.php:302-311 | a named `request_matcher` service wins; otherwise a pattern or host builds a memoised matcher from pattern, host and methods; otherwise there is none |
| SecurityExtensions.SecurityExtension.CreateContextListener | src/Symfony/Bundle/SecurityBundle/DependencyInjection/SecurityExtension.php:448-459 | a known context key returns its listener and changes nothing; a new key gets listener number N (N listeners already exist), distinct from all others, bound to the key in a new definition; either way the memo afterwards is the old one with the key bound to the returned listener |
| SecurityExtensions.SecurityExtension.ApplyFactory | src/Symfony/Bundle/SecurityBundle/DependencyInjection/SecurityExtension.php:467-489 | one loop iteration is the reference step: an inactive factory changes nothing; an active one registers exactly what its `create` defines, advances the static counter as `create` does, and folds in the normalised plugin |
| SecurityExtensions.SecurityExtension.CreateListeners | src/Symfony/Bundle/SecurityBundle/DependencyInjection/SecurityExtension.php:461-497 | the loop computes the reference fold: the same listeners, entry point, provider ids and error, the container extended by exactly the registrations of the activated factories, and the counter it leaves |
| SecurityExtensions.SecurityExtension.CreateChainHead | src/Symfony/Bundle/SecurityBundle/DependencyInjection/SecurityExtension.php:337-406 | the chain's head is the channel listener, the shared context listener unless stateless, and the logout listener when configured; the logout configuration records `logout` as a listener key and registers with the logout URL generator; a stateful firewall leaves its context key memoised, bound to that listener, and a stateless one leaves the memo unchanged |
| SecurityExtensions.SecurityExtension.RegisterFirewallServices | src/Symfony/Bundle/SecurityBundle/DependencyInjection/SecurityExtension.php:423-428 | after the listeners, the exception listener, the user-checker alias and the firewall config are registered under their firewall ids |
| SecurityExtensions.SecurityExtension.RegisterEnabledServices | src/Symfony/Bundle/SecurityBundle/DependencyInjection/SecurityExtension.php:418-443 | the enabled firewall's config records the head's keys followed by the present plugin keys, and whether any factory allows anonymous access |
| SecurityExtensions.SecurityExtension.CreateEnabledFirewall | src/Symfony/Bundle/SecurityBundle/DependencyInjection/SecurityExtension.php:322-445 | an enabled firewall fails iff `createListeners` fails, with its error; otherwise its chain is head followed by the plugin listeners, its exception listener is `security.exception_listener.<id>`, and the registered config, exception listener and user checker are those of the firewall; the context-listener memo is the one its chain head leaves |
| SecurityExtensions.SecurityExtension.CreatePluginListeners | src/Symfony/Bundle/SecurityBundle/DependencyInjection/SecurityExtension.php:408-443 | the plugin listeners over the firewall amended with the global rules, then the config whose entry point is the configured one when truthy, else the accumulated one |
| SecurityExtensions.SecurityExtension.CreateFirewall | src/Symfony/Bundle/SecurityBundle/DependencyInjection/SecurityExtension.php:296-446 | a disabled firewall returns its matcher, no listeners and no exception listener, contributes no provider and records a disabled config. An enabled one is the enabled-firewall outcome above with the default provider, the global access rules and the current counter |
| SecurityExtensions.SecurityExtension.CreateUserProviders | src/Symfony/Bundle/SecurityBundle/DependencyInjection/SecurityExtension.php:554-564 | the loop computes the reference provider list: the ids in entry order and the registrations of every entry, or the first entry's failure |
| SecurityExtensions.SecurityExtension.CreateFirewallContext | src/Symfony/Bundle/SecurityBundle/DependencyInjection/SecurityExtension.php:270-282 | building one firewall fails exactly when its reference contribution (`FirewallContribution`: nothing for a disabled firewall, the providers of its listeners for an enabled one) fails, with that error; otherwise it appends exactly that contribution, leaves the counter where the contribution does, registers its context `security.firewall.map.context.<name>` pointing at its config, and gives the map entry (context, matcher) |
| SecurityExtensions.SecurityExtension.CreateFirewallContexts | src/Symfony/Bundle/SecurityBundle/DependencyInjection/SecurityExtension.php:267-282 | the loop fails exactly when the reference `Contributions` (every firewall's contribution in order, counter threaded through) fails, with its error; on success the collected providers are exactly `Contributions`, and the firewall map gets one entry per firewall, the i-th keyed by the i-th firewall's context id |
| SecurityExtensions.SecurityExtension.CreateFirewalls | src/Symfony/Bundle/SecurityBundle/DependencyInjection/SecurityExtension.php:247-294 | without firewalls nothing changes; a provider failure is the build's error; a successful build maps one context per firewall in configuration order, and gives the authentication manager `array_unique` of the collected providers, which are exactly `Contributions` of the configured firewalls over the built provider ids; the build fails exactly when `Contributions` does |
| SecurityExtensions.AuthenticationProviders | src/Symfony/Bundle/SecurityBundle/DependencyInjection/SecurityExtension.php:287-293 | the authentication manager's list holds every provider some firewall contributed, each once, in the order of its first contribution |
| SecurityExtensions.SecurityExtension.AccessRuleEntry | src/Symfony/Bundle/SecurityBundle/DependencyInjection/SecurityExtension.php:229-243 | one rule yields its access-map entry, and its matcher tuple is memoised without forgetting earlier ones |
| SecurityExtensions.SecurityExtension.AccessRuleEntries | src/Symfony/Bundle/SecurityBundle/DependencyInjection/SecurityExtension.php:228-244 | the loop over the rules gives exactly the reference entry list, one entry per rule in order, and leaves every rule's matcher tuple memoised |
| SecurityExtensions.SecurityExtension.CreateAccessMap | src/Symfony/Bundle/SecurityBundle/DependencyInjection/SecurityExtension.php:216-245 | the access map gains one entry per rule, in order, and every rule's matcher is memoised |
| ExtensionHelpers.EncoderSelection | src/Symfony/Bundle/SecurityBundle/DependencyInjection/SecurityExtension.php:511-552 | a custom `id` wins over every algorithm; otherwise plaintext, pbkdf2 and bcrypt each get their encoder with their options, and any other configuration is passed through unchanged |
| ExtensionHelpers.RoleVoterChoice | src/Symfony/Bundle/SecurityBundle/DependencyInjection/SecurityExtension.php:204-214 | exactly one of the two role voters is removed: the hierarchy voter without a non-empty hierarchy, the simple voter with one; the roles are published only with a hierarchy and nothing else changes |
| ExtensionHelpers.AccessDeniedPrecedence | src/Symfony/Bundle/SecurityBundle/DependencyInjection/SecurityExtension.php:610-626 | a configured access-denied handler reaches the exception listener and the URL is then ignored; the URL is used only without a handler; the listener is told the firewall id, statelessness, and a reference to the entry point service exactly when one is given |

## Left out

- The container API (`Definition`, `ChildDefinition`, `Reference`, `Alias`, argument indexes, service locators, iterator arguments) is abstracted. The container is a map from service reference to a definition record holding the arguments the code sets. The access map's `add` calls and the logout URL generator's `registerListener` calls are kept as sequences on the extension.
- XML service loading, the global parameters, the access decision manager arguments, `kernel.debug`, `class_exists` and `PHP_VERSION_ID` checks and the console command wiring in `load`: environment and container plumbing with no decision of the modelled core.
- The ACL wiring (`aclLoad`, `configureDbalAclProvider`): an external package.
- `createEncoders` and the encoder map it registers: only the per-encoder decision `createEncoder` is modelled, and `Build` does not run encoders.
- `createExpression`: an `allow_if` expression is kept as its text. Its sha1 memo and the expression-language parse are foreign functions.
- md5, sha1 and `serialize` in matcher ids are taken as injective. Matcher ids are keyed by the tuple itself.
- The decimal rendering of `security.context_listener.N` is abstracted to N.
- `strtolower` and `strtoupper` act on ASCII letters only.
- Configuration values are strings, lists or absent. PHP truthiness is modelled for the values the code tests. The schema (all `addConfiguration` builders) is not modelled, including the switch-user option defaults (`_switch_user`, `ROLE_ALLOWED_TO_SWITCH`): the switch-user listener receives whatever the configuration holds.
- The request-matcher factory's `create` and `amendFirewallConfigDefinition` read variables they never define, so they have no coherent behaviour. `create` is excluded by precondition, and `sortFactories` never lets it run.
- The three copies of `createRequestMatcher` (the extension's, the request-matcher factory's and the access-control factory's) are one memo class. The extension owns one instance. The request-matcher factory returns a bare id string where the others return a reference; both are one reference type here.
- `amendFirewallConfigDefinition` is called in the loop of `createListeners`. For the factories that reach it, it returns at once (Security/Factory/AnonymousAuthenticationFactory.php:65, Security/Factory/StatefulAuthorizationPluginFactory.php:74), so the loop in this model does not call it. The dead code after those returns is not modelled.
- The deprecated `addSecurityListenerFactory` only forwards to `addFirewallPluginFactory`; it is not modelled separately.
- A user-provider factory is represented by its key. Its own `create` becomes a `FactoryUserProviderDef` definition.
- The stateful factory's counter is static, so it is shared by every extension instance in the process. Here it is a field of the one extension.
- Generic plugin factories (form login, HTTP basic, remember-me, ...) are descriptors that derive their ids from the firewall id. Their real `create` bodies are not part of this model.
- `PluginKeysAmender.php` is not part of this model. It is not functional, and its logic duplicates the closing loop of `createFirewall`, which is modelled.
- SecurityExtensions.SecurityExtension.CreateFirewall states the firewall's result, providers, counter, logout registrations and three of its registered services (config, exception listener, user checker). It does not state the whole new container; the plugin services are stated by `CreateListeners` and the context listener by `CreateContextListener`; the logout services are described only by `SecurityExtensions.LogoutDefinitions`.
- SecurityExtensions.SecurityExtension.CreateFirewall: for a disabled firewall the source sets only arguments 0 to 3 of a child of the `security.firewall.config` service (id, user checker, matcher, `security`); the remaining arguments come from that parent service's XML definition, which is not part of this model, and are taken to be `FirewallConfig`'s constructor defaults (not stateless, no provider, context or entry point, no access-denied handler or URL, no plugin keys, no anonymous access).
- SecurityExtensions.SecurityExtension.CreateEnabledFirewall states the container only through the same three services.
- SecurityExtensions.SecurityExtension.CreatePluginListeners states the container only through the same three services.
- SecurityExtensions.SecurityExtension.CreateChainHead does not state the logout services it registers; `SecurityExtensions.LogoutDefinitions` and `SecurityExtensions.LogoutHandlerOrder` describe them.
- SecurityExtensions.SecurityExtension.CreateFirewallContext does not state the listeners and exception listener stored in the context definition, only its config reference, the map entry and the providers and counter.
- SecurityExtensions.SecurityExtension.CreateFirewallContexts does not state the matchers of the entries, or the providers collected when the loop fails.
- SecurityExtensions.SecurityExtension.CreateFirewalls does not state the matchers in the firewall map or the context listener's provider list.
- SecurityExtensions.SecurityExtension.ResolveMatcher states the matcher and the memo invariant, not the matcher service it may register; `RequestMatchers.RequestMatcherMemo.CreateRequestMatcher` states that.
- SecurityExtensions.SecurityExtension.AccessRuleEntry states the entry and the memo, not the container.
- SecurityExtensions.SecurityExtension.AccessRuleEntries states the entries and the memo, not the matcher services in the container.
- SecurityExtensions.SecurityExtension.CreateAccessMap states the access map and the memo, not the matcher services in the container.
- SecurityExtensions.SecurityExtension.Load states the factory sort, the access rules and the access map, not the firewalls or the role hierarchy.
- SecurityExtensions.SecurityExtension.Build states only the access map and the invariants it keeps.
