/**
 * `FirewallConfig`: the immutable description of one firewall that the build
 * hands to the runtime. It is a value: built once, every field fixed.
 */
module FirewallConfigs {
  import opened Wrappers
  import opened Services

  datatype FirewallConfig = FirewallConfig(
    name: string,
    userChecker: string,
    requestMatcher: Option<Ref>,
    securityEnabled: bool,
    stateless: bool,
    provider: Option<string>,
    context: Option<string>,
    entryPoint: Option<string>,
    accessDeniedHandler: Option<string>,
    accessDeniedUrl: Option<string>,
    pluginKeys: seq<string>,
    allowsAnon: bool)
  {
    /** The deprecated `getListeners()`: the plugin keys. */
    function GetListeners(): seq<string>
    {
      GetPluginKeys()
    }

    function GetPluginKeys(): seq<string>
    {
      pluginKeys
    }

    function AllowsAnonymous(): bool
    {
      allowsAnon
    }
  }

  /** The constructor, with the defaults of its optional parameters. */
  function NewFirewallConfig(
    name: string,
    userChecker: string,
    requestMatcher: Option<Ref> := None,
    securityEnabled: bool := true,
    stateless: bool := false,
    provider: Option<string> := None,
    context: Option<string> := None,
    entryPoint: Option<string> := None,
    accessDeniedHandler: Option<string> := None,
    accessDeniedUrl: Option<string> := None,
    pluginKeys: seq<string> := [],
    allowsAnon: bool := false): FirewallConfig
  {
    FirewallConfig(name, userChecker, requestMatcher, securityEnabled, stateless, provider, context,
      entryPoint, accessDeniedHandler, accessDeniedUrl, pluginKeys, allowsAnon)
  }

  /** Built from a name and a user checker only, a config has every other field at its default. */
  lemma ConstructorDefaults(name: string, userChecker: string)
    ensures var c := NewFirewallConfig(name, userChecker);
      && c.name == name && c.userChecker == userChecker
      && c.requestMatcher == None && c.securityEnabled && !c.stateless
      && c.provider == None && c.context == None && c.entryPoint == None
      && c.accessDeniedHandler == None && c.accessDeniedUrl == None
      && c.GetPluginKeys() == [] && c.GetListeners() == [] && !c.AllowsAnonymous()
  {
  }

  /** Every getter returns exactly the argument given to the constructor. */
  lemma GettersReturnArguments(
    name: string, userChecker: string, requestMatcher: Option<Ref>, securityEnabled: bool,
    stateless: bool, provider: Option<string>, context: Option<string>, entryPoint: Option<string>,
    accessDeniedHandler: Option<string>, accessDeniedUrl: Option<string>, pluginKeys: seq<string>,
    allowsAnon: bool)
    ensures var c := NewFirewallConfig(name, userChecker, requestMatcher, securityEnabled, stateless,
        provider, context, entryPoint, accessDeniedHandler, accessDeniedUrl, pluginKeys, allowsAnon);
      && c.name == name && c.userChecker == userChecker && c.requestMatcher == requestMatcher
      && c.securityEnabled == securityEnabled && c.stateless == stateless && c.provider == provider
      && c.context == context && c.entryPoint == entryPoint
      && c.accessDeniedHandler == accessDeniedHandler && c.accessDeniedUrl == accessDeniedUrl
      && c.GetPluginKeys() == pluginKeys && c.GetListeners() == pluginKeys
      && c.AllowsAnonymous() == allowsAnon
  {
  }
}
