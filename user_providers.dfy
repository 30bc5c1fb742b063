/**
 * The user-provider side of the build: the id under which a named provider
 * is registered, and how one `providers` entry becomes a service (a
 * factory-built provider, an alias to an existing service, or a chain).
 */
module UserProviders {
  import opened Wrappers
  import opened Services
  import opened Containers
  import opened Configuration

  const USER_PROVIDER_PREFIX: string := "security.user.provider.concrete."

  /** `getUserProviderId($name)` */
  function GetUserProviderId(name: string): (id: string)
    ensures |id| == |USER_PROVIDER_PREFIX| + |name|
    ensures id[..|USER_PROVIDER_PREFIX|] == USER_PROVIDER_PREFIX
    ensures id[|USER_PROVIDER_PREFIX|..] == Lower(name)
  {
    USER_PROVIDER_PREFIX + Lower(name)
  }

  /** Provider names are case-insensitive: two names share an id exactly when they agree up to ASCII case. */
  lemma ProviderIdsCaseInsensitive(a: string, b: string)
    ensures GetUserProviderId(a) == GetUserProviderId(b) <==> Lower(a) == Lower(b)
  {
    if GetUserProviderId(a) == GetUserProviderId(b) {
      assert Lower(a) == GetUserProviderId(a)[|USER_PROVIDER_PREFIX|..];
    }
  }

  /** `str_replace('-', '_', $key)` */
  function Underscored(s: string): (r: string)
    ensures |r| == |s|
    ensures forall i :: 0 <= i < |s| ==> r[i] == (if s[i] == '-' then '_' else s[i])
  {
    if s == [] then [] else [if s[0] == '-' then '_' else s[0]] + Underscored(s[1..])
  }

  /** A key without dashes is its own underscored form. */
  lemma UnderscoredWithoutDash(s: string)
    requires '-' !in s
    ensures Underscored(s) == s
  {
    assert forall i :: 0 <= i < |s| ==> s[i] in s;
  }

  /** `!empty($provider[$key])` */
  predicate UsesFactory(provider: ProviderSpec, key: string)
  {
    key in provider.factoryConfigs && provider.factoryConfigs[key] != map[]
  }

  /** The (underscored) key of the first registered user-provider factory the entry configures. */
  function FirstFactory(factoryKeys: seq<string>, provider: ProviderSpec): (r: Option<string>)
    ensures r.Some? ==> UsesFactory(provider, r.value)
    decreases |factoryKeys|
  {
    if factoryKeys == [] then None
    else if UsesFactory(provider, Underscored(factoryKeys[0])) then Some(Underscored(factoryKeys[0]))
    else FirstFactory(factoryKeys[1..], provider)
  }

  /**
   * `FirstFactory` finds nothing exactly when the entry configures none of
   * the factories, and otherwise the earliest one it configures.
   */
  lemma {:induction false} FirstFactoryIsFirst(factoryKeys: seq<string>, provider: ProviderSpec)
    ensures FirstFactory(factoryKeys, provider).None? <==>
      forall i :: 0 <= i < |factoryKeys| ==> !UsesFactory(provider, Underscored(factoryKeys[i]))
    ensures FirstFactory(factoryKeys, provider).Some? ==> exists i :: (
      && 0 <= i < |factoryKeys| && FirstFactory(factoryKeys, provider).value == Underscored(factoryKeys[i])
      && forall j :: 0 <= j < i ==> !UsesFactory(provider, Underscored(factoryKeys[j])))
    decreases |factoryKeys|
  {
    if factoryKeys != [] && !UsesFactory(provider, Underscored(factoryKeys[0])) {
      FirstFactoryIsFirst(factoryKeys[1..], provider);
      assert forall i :: 1 <= i < |factoryKeys| ==> factoryKeys[i] == factoryKeys[1..][i - 1];
      var r := FirstFactory(factoryKeys[1..], provider);
      if r.Some? {
        var i :| 0 <= i < |factoryKeys[1..]| && r.value == Underscored(factoryKeys[1..][i])
          && forall j :: 0 <= j < i ==> !UsesFactory(provider, Underscored(factoryKeys[1..][j]));
        assert forall j :: 0 <= j < i + 1 ==> !UsesFactory(provider, Underscored(factoryKeys[j]));
      }
    }
  }

  function ProviderRefs(names: seq<string>): (r: seq<Ref>)
    ensures |r| == |names|
    ensures forall i :: 0 <= i < |names| ==> r[i] == Id(GetUserProviderId(names[i]))
  {
    if names == [] then [] else [Id(GetUserProviderId(names[0]))] + ProviderRefs(names[1..])
  }

  /**
   * `createUserDaoProvider($name, $provider)`: the id the entry answers to and
   * the definitions it registers. A factory wins over `id`, which wins over
   * `chain`; an entry with none of them cannot be built.
   */
  function CreateUserDaoProvider(factoryKeys: seq<string>, name: string, provider: ProviderSpec)
    : (r: Result<(string, seq<(Ref, Definition)>), BuildError>)
    ensures r.Err? <==> FirstFactory(factoryKeys, provider).None? && provider.id.None? && provider.chain.None?
    ensures r.Err? ==> r.error == UnableToCreateUserProvider(GetUserProviderId(name))
    ensures r.Ok? ==> |r.value.1| == 1 && r.value.1[0].0 == Id(GetUserProviderId(name))
    ensures r.Ok? && FirstFactory(factoryKeys, provider).Some? ==>
      r.value == (GetUserProviderId(name), [(Id(GetUserProviderId(name)), FactoryUserProviderDef(FirstFactory(factoryKeys, provider).value))])
    ensures r.Ok? && FirstFactory(factoryKeys, provider).None? && provider.id.Some? ==>
      r.value == (provider.id.value, [(Id(GetUserProviderId(name)), AliasDef(provider.id.value))])
    ensures r.Ok? && FirstFactory(factoryKeys, provider).None? && provider.id.None? ==>
      r.value == (GetUserProviderId(name), [(Id(GetUserProviderId(name)), ChainUserProviderDef(ProviderRefs(provider.chain.value)))])
  {
    var id := GetUserProviderId(name);
    match FirstFactory(factoryKeys, provider)
    case Some(key) => Ok((id, [(Id(id), FactoryUserProviderDef(key))]))
    case None =>
      if provider.id.Some? then Ok((provider.id.value, [(Id(id), AliasDef(provider.id.value))]))
      else if provider.chain.Some? then Ok((id, [(Id(id), ChainUserProviderDef(ProviderRefs(provider.chain.value)))]))
      else Err(UnableToCreateUserProvider(id))
  }

  /** The outcome of `createUserProviders`, entry by entry: the ids in order and all definitions, or the first failure. */
  function UserProviders(factoryKeys: seq<string>, providers: seq<(string, ProviderSpec)>,
                         ids: seq<string>, defs: seq<(Ref, Definition)>)
    : (r: Result<(seq<string>, seq<(Ref, Definition)>), BuildError>)
    ensures r.Ok? ==> |r.value.0| == |ids| + |providers| && r.value.0[..|ids|] == ids
    decreases |providers|
  {
    if providers == [] then Ok((ids, defs))
    else match CreateUserDaoProvider(factoryKeys, providers[0].0, providers[0].1)
      case Err(e) => Err(e)
      case Ok((id, d)) =>
        var r := UserProviders(factoryKeys, providers[1..], ids + [id], defs + d);
        assert r.Ok? ==> r.value.0[..|ids|] == r.value.0[..|ids| + 1][..|ids|];
        r
  }

  /** The index of the first entry that cannot be built, if any. */
  function FirstUnbuildable(factoryKeys: seq<string>, providers: seq<(string, ProviderSpec)>): (r: Option<nat>)
    ensures r.Some? ==> r.value < |providers|
    ensures r.Some? ==> CreateUserDaoProvider(factoryKeys, providers[r.value].0, providers[r.value].1).Err?
    ensures r.Some? ==> forall j :: 0 <= j < r.value ==> CreateUserDaoProvider(factoryKeys, providers[j].0, providers[j].1).Ok?
    ensures r.None? ==> forall j :: 0 <= j < |providers| ==> CreateUserDaoProvider(factoryKeys, providers[j].0, providers[j].1).Ok?
    decreases |providers|
  {
    if providers == [] then None
    else if CreateUserDaoProvider(factoryKeys, providers[0].0, providers[0].1).Err? then Some(0)
    else
      var rest := FirstUnbuildable(factoryKeys, providers[1..]);
      assert forall j :: 1 <= j < |providers| ==> providers[j] == providers[1..][j - 1];
      if rest.None? then None else Some(rest.value + 1)
  }

  /**
   * The build fails exactly when some entry cannot be built, and then with
   * the first such entry's error.
   */
  lemma {:induction false} UserProvidersFailure(factoryKeys: seq<string>, providers: seq<(string, ProviderSpec)>,
                                               ids: seq<string>, defs: seq<(Ref, Definition)>)
    ensures UserProviders(factoryKeys, providers, ids, defs).Err? <==> FirstUnbuildable(factoryKeys, providers).Some?
    ensures UserProviders(factoryKeys, providers, ids, defs).Err? ==>
      var i := FirstUnbuildable(factoryKeys, providers).value;
      CreateUserDaoProvider(factoryKeys, providers[i].0, providers[i].1) == Err(UserProviders(factoryKeys, providers, ids, defs).error)
    decreases |providers|
  {
    if providers != [] {
      var first := CreateUserDaoProvider(factoryKeys, providers[0].0, providers[0].1);
      if first.Ok? {
        var (id, d) := first.value;
        UserProvidersFailure(factoryKeys, providers[1..], ids + [id], defs + d);
        var rest := FirstUnbuildable(factoryKeys, providers[1..]);
        if rest.Some? {
          assert providers[rest.value + 1] == providers[1..][rest.value];
        }
      }
    }
  }
}
