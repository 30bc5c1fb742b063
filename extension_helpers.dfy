/**
 * The small decisions `SecurityExtension` makes without looping: which
 * password encoder a configuration asks for, which role voter survives, and
 * how the exception listener is told about access-denied handling.
 */
module ExtensionHelpers {
  import opened Wrappers
  import opened Services
  import opened Containers
  import opened Configuration

  /** What `createEncoder` returns: a service reference, a class with its arguments, or the configuration itself. */
  datatype Encoder =
    | EncoderService(ref: Ref)
    | PlaintextEncoder(ignoreCase: bool)
    | Pbkdf2Encoder(hashAlgorithm: string, encodeAsBase64: bool, iterations: int, keyLength: int)
    | BCryptEncoder(cost: int)
    | RuntimeEncoder(config: EncoderConfig)

  /** `createEncoder($config)` */
  function CreateEncoder(config: EncoderConfig): Encoder
  {
    if config.id.Some? then EncoderService(Id(config.id.value))
    else if config.algorithm == "plaintext" then PlaintextEncoder(config.ignoreCase)
    else if config.algorithm == "pbkdf2" then
      Pbkdf2Encoder(config.hashAlgorithm, config.encodeAsBase64, config.iterations, config.keyLength)
    else if config.algorithm == "bcrypt" then BCryptEncoder(config.cost)
    else RuntimeEncoder(config)
  }

  /**
   * A custom service id wins over every algorithm; otherwise the three known
   * algorithms get their encoder class and any other configuration is
   * passed through unchanged for run-time resolution.
   */
  lemma EncoderSelection(config: EncoderConfig)
    ensures CreateEncoder(config).EncoderService? <==> config.id.Some?
    ensures CreateEncoder(config).EncoderService? ==> CreateEncoder(config).ref == Id(config.id.value)
    ensures CreateEncoder(config).PlaintextEncoder? <==> config.id.None? && config.algorithm == "plaintext"
    ensures CreateEncoder(config).Pbkdf2Encoder? <==> config.id.None? && config.algorithm == "pbkdf2"
    ensures CreateEncoder(config).BCryptEncoder? <==> config.id.None? && config.algorithm == "bcrypt"
    ensures CreateEncoder(config).RuntimeEncoder? <==>
      config.id.None? && config.algorithm !in {"plaintext", "pbkdf2", "bcrypt"}
    ensures CreateEncoder(config).RuntimeEncoder? ==> CreateEncoder(config).config == config
    ensures CreateEncoder(config).PlaintextEncoder? ==> CreateEncoder(config) == PlaintextEncoder(config.ignoreCase)
    ensures CreateEncoder(config).Pbkdf2Encoder? ==> (CreateEncoder(config) ==
      Pbkdf2Encoder(config.hashAlgorithm, config.encodeAsBase64, config.iterations, config.keyLength))
    ensures CreateEncoder(config).BCryptEncoder? ==> CreateEncoder(config) == BCryptEncoder(config.cost)
  {
  }

  const ROLE_HIERARCHY_VOTER: Ref := Id("security.access.role_hierarchy_voter")
  const SIMPLE_ROLE_VOTER: Ref := Id("security.access.simple_role_voter")
  const ROLE_HIERARCHY_ROLES: Ref := Id("security.role_hierarchy.roles")

  /**
   * `createRoleHierarchy`: without a non-empty hierarchy the hierarchy voter
   * is removed; with one, the roles become a parameter and the simple voter
   * is removed.
   */
  function CreateRoleHierarchy(container: Container, roleHierarchy: Option<seq<(string, seq<string>)>>): Container
  {
    if roleHierarchy.None? || |roleHierarchy.value| == 0 then container - {ROLE_HIERARCHY_VOTER}
    else (container - {SIMPLE_ROLE_VOTER})[ROLE_HIERARCHY_ROLES := RoleHierarchyParameter(roleHierarchy.value)]
  }

  /** Exactly one of the two role voters is removed, and the roles are published only with a hierarchy. */
  lemma RoleVoterChoice(container: Container, roleHierarchy: Option<seq<(string, seq<string>)>>)
    requires ROLE_HIERARCHY_VOTER in container && SIMPLE_ROLE_VOTER in container
    ensures var c := CreateRoleHierarchy(container, roleHierarchy);
      var hierarchy := roleHierarchy.Some? && |roleHierarchy.value| > 0;
      && (ROLE_HIERARCHY_VOTER in c <==> hierarchy)
      && (SIMPLE_ROLE_VOTER in c <==> !hierarchy)
      && (hierarchy ==> c[ROLE_HIERARCHY_ROLES] == RoleHierarchyParameter(roleHierarchy.value))
      && forall r :: r !in {ROLE_HIERARCHY_VOTER, SIMPLE_ROLE_VOTER, ROLE_HIERARCHY_ROLES} ==>
        (r in c <==> r in container) && (r in c ==> c[r] == container[r])
  {
  }

  /**
   * `createExceptionListener`: the listener service for firewall `id` and its
   * definition. A configured access-denied handler is used and the
   * access-denied URL then ignored; the URL is used only without a handler.
   */
  function CreateExceptionListener(firewall: FirewallSpec, id: string, entryPoint: Option<string>, stateless: bool)
    : (Ref, Definition)
  {
    (Id("security.exception_listener." + id),
     ExceptionListenerDef(
       id,
       if entryPoint.Some? then Some(Id(entryPoint.value)) else None,
       if firewall.accessDeniedHandler.Some? then None else firewall.accessDeniedUrl,
       if firewall.accessDeniedHandler.Some? then Some(Id(firewall.accessDeniedHandler.value)) else None,
       stateless))
  }

  /** The handler takes precedence over the URL, and at most one of them reaches the listener. */
  lemma AccessDeniedPrecedence(firewall: FirewallSpec, id: string, entryPoint: Option<string>, stateless: bool)
    ensures var d := CreateExceptionListener(firewall, id, entryPoint, stateless).1;
      && (d.accessDeniedHandler.Some? <==> firewall.accessDeniedHandler.Some?)
      && (d.accessDeniedHandler.Some? ==> d.accessDeniedHandler.value == Id(firewall.accessDeniedHandler.value))
      && (d.accessDeniedUrl.Some? <==> firewall.accessDeniedHandler.None? && firewall.accessDeniedUrl.Some?)
      && (d.accessDeniedUrl.Some? ==> d.accessDeniedUrl == firewall.accessDeniedUrl)
      && !(d.accessDeniedHandler.Some? && d.accessDeniedUrl.Some?)
      && d.firewall == id && d.stateless == stateless
      && (d.entryPoint.Some? <==> entryPoint.Some?)
      && (entryPoint.Some? ==> d.entryPoint == Some(Id(entryPoint.value)))
  {
  }
}
