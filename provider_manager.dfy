/**
 * Model-name resolution: the provider manager's lookup dictionaries, built
 * once from the configuration, and the rule that turns a requested model
 * name into a provider and the model name that provider knows.
 */
module ProviderManager {
  import opened Wrappers
  import opened Config
  import Text

  /**
   * A dictionary comprehension `{key(x): x for x in xs}`: the keys that
   * occur, each bound to an element that has it (the last one, as
   * `IndexKeepsLast` shows).
   */
  function Index<T>(xs: seq<T>, key: T -> string): (r: map<string, T>)
    ensures forall k :: k in r <==> exists i :: 0 <= i < |xs| && key(xs[i]) == k
    ensures forall k :: k in r ==> key(r[k]) == k && r[k] in xs
  {
    if xs == [] then map[]
    else
      var init := xs[..|xs| - 1];
      assert forall i :: 0 <= i < |init| ==> init[i] == xs[i];
      Index(init, key)[key(xs[|xs| - 1]) := xs[|xs| - 1]]
  }

  /** `xs[i]` is the last element of `xs` whose key is `k`. */
  predicate LastWithKey<T>(xs: seq<T>, key: T -> string, k: string, i: int) {
    0 <= i < |xs| && key(xs[i]) == k && forall j :: i < j < |xs| ==> key(xs[j]) != k
  }

  /** On repeated keys the comprehension keeps the last element: later entries overwrite earlier ones. */
  lemma {:induction false} IndexKeepsLast<T>(xs: seq<T>, key: T -> string, k: string)
    requires k in Index(xs, key)
    ensures exists i :: LastWithKey(xs, key, k, i) && xs[i] == Index(xs, key)[k]
  {
    var n := |xs| - 1;
    if key(xs[n]) == k {
      assert LastWithKey(xs, key, k, n);
    } else {
      var init := xs[..n];
      assert forall i :: 0 <= i < |init| ==> init[i] == xs[i];
      IndexKeepsLast(init, key, k);
      var i :| LastWithKey(init, key, k, i) && init[i] == Index(init, key)[k];
      assert LastWithKey(xs, key, k, i);
    }
  }

  /** With distinct keys, each element is what its own key finds. */
  lemma {:induction false} IndexDistinct<T>(xs: seq<T>, key: T -> string, i: nat)
    requires i < |xs|
    requires forall a, b :: 0 <= a < b < |xs| ==> key(xs[a]) != key(xs[b])
    ensures key(xs[i]) in Index(xs, key) && Index(xs, key)[key(xs[i])] == xs[i]
  {
    var k := key(xs[i]);
    assert k in Index(xs, key);
    IndexKeepsLast(xs, key, k);
    var j :| LastWithKey(xs, key, k, j) && xs[j] == Index(xs, key)[k];
    assert j == i;
  }

  function ProviderKey(p: Provider): string { p.name }
  function MappingKey(m: ModelMapping): string { m.displayName }

  /** The two dictionaries the manager builds on construction. */
  datatype Manager = Manager(providers: map<string, Provider>, modelMappings: map<string, ModelMapping>)

  function NewManager(c: AppConfig): (r: Manager)
    ensures forall n :: n in r.providers <==> exists p :: p in c.providers && p.name == n
    ensures forall n :: n in r.modelMappings <==> exists m :: m in c.modelMappings && m.displayName == n
    ensures forall n :: n in r.providers ==> r.providers[n].name == n && r.providers[n] in c.providers
    ensures forall n :: n in r.modelMappings ==> r.modelMappings[n].displayName == n
                                                 && r.modelMappings[n] in c.modelMappings
  {
    var r := Manager(Index(c.providers, ProviderKey), Index(c.modelMappings, MappingKey));
    assert forall n :: n in r.providers ==> ProviderKey(r.providers[n]) == n;
    assert forall n :: n in r.modelMappings ==> MappingKey(r.modelMappings[n]) == n;
    r
  }

  /** `get_provider`. */
  function GetProvider(m: Manager, name: string): (r: Option<Provider>)
    ensures r.Some? <==> name in m.providers
    ensures r.Some? ==> r.value == m.providers[name]
  {
    if name in m.providers then Some(m.providers[name]) else None
  }

  /** `get_model_mapping`. */
  function GetModelMapping(m: Manager, displayName: string): (r: Option<ModelMapping>)
    ensures r.Some? <==> displayName in m.modelMappings
    ensures r.Some? ==> r.value == m.modelMappings[displayName]
  {
    if displayName in m.modelMappings then Some(m.modelMappings[displayName]) else None
  }

  /** When provider names are distinct, the manager finds the same provider as the configuration's first-match search. */
  lemma {:induction false} ProviderLookupsAgree(c: AppConfig, name: string)
    requires Distinct(ProviderNames(c.providers))
    ensures GetProvider(NewManager(c), name) == Config.GetProvider(c, name)
  {
    var mine := Config.GetProvider(c, name);
    if mine.Some? {
      var i :| 0 <= i < |c.providers| && c.providers[i] == mine.value && mine.value.name == name;
      assert forall a, b :: 0 <= a < b < |c.providers| ==> ProviderKey(c.providers[a]) != ProviderKey(c.providers[b]) by {
        forall a, b | 0 <= a < b < |c.providers|
          ensures ProviderKey(c.providers[a]) != ProviderKey(c.providers[b])
        {
          assert ProviderNames(c.providers)[a] != ProviderNames(c.providers)[b];
        }
      }
      IndexDistinct(c.providers, ProviderKey, i);
    }
  }

  /** A configuration with two providers of one name, as the validator would reject. */
  const TwinA: Provider := Provider("p", "http://a", "", "openai", [], 30, 3)
  const TwinB: Provider := Provider("p", "http://b", "", "openai", [], 30, 3)

  /**
   * With a repeated provider name the two lookups disagree: the
   * configuration returns the first provider, the manager the last.
   */
  lemma {:induction false} DuplicateProviderLookupsDisagree(c: AppConfig)
    requires c.providers == [TwinA, TwinB]
    ensures Config.GetProvider(c, "p") == Some(TwinA)
    ensures GetProvider(NewManager(c), "p") == Some(TwinB)
  {
    assert Index(c.providers, ProviderKey) == Index([TwinA], ProviderKey)["p" := TwinB] by {
      assert c.providers[..1] == [TwinA];
    }
  }

  // ---------------------------------------------------------------------
  // Resolution
  // ---------------------------------------------------------------------

  datatype ResolveError =
    | ProviderNotFound(provider: string)
    | ModelNotFound(model: string)
    | MappingProviderNotFound(provider: string, model: string)

  /**
   * `resolve_model`: a configured display name resolves through its mapping;
   * otherwise a name of the form `provider/model` (split at the first `/`)
   * names the provider directly; anything else is unknown.
   */
  function ResolveModel(m: Manager, modelName: string): (r: Result<(Provider, string), ResolveError>)
    ensures modelName in m.modelMappings ==>
      var mapping := m.modelMappings[modelName];
      if mapping.providerName in m.providers
      then r == Ok((m.providers[mapping.providerName], mapping.actualModelName))
      else r == Err(MappingProviderNotFound(mapping.providerName, modelName))
    ensures modelName !in m.modelMappings && '/' !in modelName ==> r == Err(ModelNotFound(modelName))
    ensures modelName !in m.modelMappings && '/' in modelName ==>
      && (r.Ok? <==> Namespace(modelName) in m.providers)
      && (r.Err? ==> r.error == ProviderNotFound(Namespace(modelName)))
  {
    if modelName in m.modelMappings then
      var mapping := m.modelMappings[modelName];
      if mapping.providerName in m.providers
      then Ok((m.providers[mapping.providerName], mapping.actualModelName))
      else Err(MappingProviderNotFound(mapping.providerName, modelName))
    else if '/' in modelName then
      var i := Text.FirstIndex(modelName, '/');
      var providerName := modelName[..i];
      if providerName in m.providers then Ok((m.providers[providerName], modelName[i + 1..]))
      else Err(ProviderNotFound(providerName))
    else Err(ModelNotFound(modelName))
  }

  /** The provider part of `provider/model`: everything before the first `/`. */
  function Namespace(modelName: string): (r: string)
    requires '/' in modelName
    ensures '/' !in r
    ensures |r| < |modelName| && modelName[..|r|] == r && modelName[|r|] == '/'
  {
    modelName[..Text.FirstIndex(modelName, '/')]
  }

  /**
   * An unmapped `provider/model` name resolves to a provider with exactly
   * that name, and putting the two parts back together gives the name.
   */
  lemma {:induction false} NamespacedRoundTrip(c: AppConfig, modelName: string)
    requires modelName !in NewManager(c).modelMappings && '/' in modelName
    requires ResolveModel(NewManager(c), modelName).Ok?
    ensures var (p, model) := ResolveModel(NewManager(c), modelName).value;
      p in c.providers && '/' !in p.name && p.name + "/" + model == modelName
  {
    var m := NewManager(c);
    var i := Text.FirstIndex(modelName, '/');
    var (p, model) := ResolveModel(m, modelName).value;
    assert p.name == modelName[..i];
    assert model == modelName[i + 1..];
    assert modelName == modelName[..i] + "/" + modelName[i + 1..];
  }

  /** A mapped name resolves to a configured provider whose name is the mapping's provider. */
  lemma {:induction false} MappedResolvesToItsProvider(c: AppConfig, modelName: string)
    requires modelName in NewManager(c).modelMappings
    requires ResolveModel(NewManager(c), modelName).Ok?
    ensures var mapping := NewManager(c).modelMappings[modelName];
      && mapping in c.modelMappings
      && ResolveModel(NewManager(c), modelName).value.0 in c.providers
      && ResolveModel(NewManager(c), modelName).value.0.name == mapping.providerName
      && ResolveModel(NewManager(c), modelName).value.1 == mapping.actualModelName
  {
  }
}
