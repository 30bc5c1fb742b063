/**
 * The processed security configuration the extension reads: one record per
 * configured firewall, user provider, access-control rule and encoder. The
 * schema that produces it (all `addConfiguration` builders) is not modelled;
 * a key left out of an array is `None` here.
 */
module Configuration {
  import opened Wrappers

  /** The options array of one plugin or user-provider factory (`$firewall[$key]`). */
  type PluginConfig = map<string, string>

  function Lookup(config: PluginConfig, option: string): Option<string>
  {
    if option in config then Some(config[option]) else None
  }

  /** PHP truthiness of a string: null, '' and '0' are false. */
  predicate Truthy(s: Option<string>)
  {
    s.Some? && s.value != "" && s.value != "0"
  }

  datatype LogoutSpec = LogoutSpec(
    csrfParameter: string,
    csrfTokenId: string,
    path: string,
    successHandler: Option<string>,
    target: string,
    csrfTokenGenerator: Option<string>,
    invalidateSession: bool,
    deleteCookies: seq<string>,
    handlers: seq<string>)

  /**
   * One entry of `firewalls`. `plugins` holds the keys of the firewall array
   * that can name a plugin factory: a key mapped to `None` is present but
   * null (`array_key_exists` holds, `isset` does not).
   */
  datatype FirewallSpec = FirewallSpec(
    userChecker: string,
    requestMatcher: Option<string>,
    pattern: Option<string>,
    host: Option<string>,
    methods: seq<string>,
    security: bool,
    stateless: bool,
    provider: Option<string>,
    context: Option<string>,
    entryPoint: Option<string>,
    accessDeniedHandler: Option<string>,
    accessDeniedUrl: Option<string>,
    logout: Option<LogoutSpec>,
    plugins: map<string, Option<PluginConfig>>)

  /** `isset($firewall[$key])` for a plugin key. */
  predicate IsSet(firewall: FirewallSpec, key: string)
  {
    key in firewall.plugins && firewall.plugins[key].Some?
  }

  /** `array_key_exists($key, $firewall)` for a plugin key. */
  predicate KeyExists(firewall: FirewallSpec, key: string)
  {
    key in firewall.plugins
  }

  /** One entry of `providers`: factory sub-configurations by factory key, or an existing service, or a chain. */
  datatype ProviderSpec = ProviderSpec(
    factoryConfigs: map<string, PluginConfig>,
    id: Option<string>,
    chain: Option<seq<string>>)

  datatype EncoderConfig = EncoderConfig(
    id: Option<string>,
    algorithm: string,
    ignoreCase: bool,
    hashAlgorithm: string,
    encodeAsBase64: bool,
    iterations: int,
    keyLength: int,
    cost: int)

  /** One entry of `access_control`. */
  datatype AccessRule = AccessRule(
    path: Option<string>,
    host: Option<string>,
    methods: seq<string>,
    ips: seq<string>,
    roles: seq<string>,
    allowIf: Option<string>,
    requiresChannel: Option<string>)

  /**
   * The processed `security` configuration. `firewalls` lists the firewall
   * array's entries in order; that array is keyed by firewall name, so no
   * name occurs twice, and one firewall context is built per entry.
   */
  datatype SecurityConfig = SecurityConfig(
    firewalls: Option<seq<(string, FirewallSpec)>>,
    providers: seq<(string, ProviderSpec)>,
    accessControl: seq<AccessRule>,
    roleHierarchy: Option<seq<(string, seq<string>)>>,
    encoders: seq<(string, EncoderConfig)>)
}
