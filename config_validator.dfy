/**
 * Cross-reference validation of a loaded configuration. A validator object
 * accumulates errors in its `errors` list; each check appends what it
 * finds, and running all checks first clears the list.
 */
module ConfigValidator {
  import opened Wrappers
  import opened Config
  import SessionModel

  /**
   * The errors the checks report. The message text is not modelled: the
   * duplicate-name messages list a Python set, whose order is not fixed.
   */
  datatype ConfigError =
    | DuplicateProviderNames(names: set<string>)
    | DuplicateDisplayNames(names: set<string>)
    | UnknownProvider(mapping: string, provider: string)
    | UnknownModel(mapping: string, model: string, provider: string)
    | RedisWithoutUrl
    | GlobalSummarizationWithoutModel
    | MappingSummarizationWithoutModel(mapping: string)

  /** Python truthiness of an optional string: `None` and `""` are falsy. */
  predicate Present(s: Option<string>) {
    s.Some? && s.value != ""
  }

  // ---------------------------------------------------------------------
  // Duplicate names
  // ---------------------------------------------------------------------

  /** The names that occur more than once (`names.count(n) > 1`). */
  function Duplicates(names: seq<string>): (r: set<string>)
    ensures forall n :: n in r <==> n in names && multiset(names)[n] > 1
  {
    set n | n in names && multiset(names)[n] > 1
  }

  lemma {:induction false} RepeatedCountsTwice(names: seq<string>, i: nat, j: nat)
    requires i < j < |names| && names[i] == names[j]
    ensures multiset(names)[names[i]] >= 2
  {
    assert names == names[..j] + names[j..];
    assert names[i] in names[..j];
    assert names[j] in names[j..];
  }

  lemma {:induction false} DistinctCountsOnce(names: seq<string>)
    requires Distinct(names)
    ensures forall n :: multiset(names)[n] <= 1
  {
    if names != [] {
      var init := names[..|names| - 1];
      var last := names[|names| - 1];
      assert names == init + [last];
      DistinctCountsOnce(init);
      assert forall i :: 0 <= i < |init| ==> init[i] == names[i] != last;
    }
  }

  /** The duplicate check finds nothing exactly when the names are distinct. */
  lemma {:induction false} DuplicatesEmptyIffDistinct(names: seq<string>)
    ensures Duplicates(names) == {} <==> Distinct(names)
  {
    if Distinct(names) {
      DistinctCountsOnce(names);
    } else {
      var i, j :| 0 <= i < j < |names| && names[i] == names[j];
      RepeatedCountsTwice(names, i, j);
      assert names[i] in Duplicates(names);
    }
  }

  function ProviderDuplicateErrors(c: AppConfig): (r: seq<ConfigError>)
    ensures |r| <= 1
    ensures r == [] <==> Distinct(ProviderNames(c.providers))
  {
    DuplicatesEmptyIffDistinct(ProviderNames(c.providers));
    var d := Duplicates(ProviderNames(c.providers));
    if d == {} then [] else [DuplicateProviderNames(d)]
  }

  function DisplayDuplicateErrors(c: AppConfig): (r: seq<ConfigError>)
    ensures |r| <= 1
    ensures r == [] <==> Distinct(DisplayNames(c.modelMappings))
  {
    DuplicatesEmptyIffDistinct(DisplayNames(c.modelMappings));
    var d := Duplicates(DisplayNames(c.modelMappings));
    if d == {} then [] else [DuplicateDisplayNames(d)]
  }

  // ---------------------------------------------------------------------
  // References from mappings to providers and their models
  // ---------------------------------------------------------------------

  function ProviderNameSet(ps: seq<Provider>): (r: set<string>)
    ensures forall n :: n in r <==> exists p :: p in ps && p.name == n
  {
    set p | p in ps :: p.name
  }

  /** One `UnknownProvider` per mapping whose provider is not configured, in mapping order. */
  function ReferenceErrors(ms: seq<ModelMapping>, names: set<string>): (r: seq<ConfigError>)
    ensures |r| <= |ms|
  {
    if ms == [] then []
    else
      var m := ms[|ms| - 1];
      ReferenceErrors(ms[..|ms| - 1], names)
      + (if m.providerName in names then [] else [UnknownProvider(m.displayName, m.providerName)])
  }

  /**
   * The reference check reports exactly the mappings whose provider is
   * not configured: nothing when all are, and an error naming each one that is not.
   */
  lemma {:induction false} ReferenceErrorsSpec(ms: seq<ModelMapping>, names: set<string>)
    ensures ReferenceErrors(ms, names) == [] <==> forall m :: m in ms ==> m.providerName in names
    ensures forall e :: e in ReferenceErrors(ms, names) ==> e.UnknownProvider? && e.provider !in names
    ensures forall m :: m in ms && m.providerName !in names ==>
              UnknownProvider(m.displayName, m.providerName) in ReferenceErrors(ms, names)
  {
    if ms != [] {
      var init := ms[..|ms| - 1];
      assert ms == init + [ms[|ms| - 1]];
      ReferenceErrorsSpec(init, names);
    }
  }

  /** The models of each provider name; a later provider with the same name replaces an earlier one. */
  function ModelsByProvider(ps: seq<Provider>): (r: map<string, set<string>>)
    ensures r.Keys == ProviderNameSet(ps)
  {
    if ps == [] then map[]
    else
      var p := ps[|ps| - 1];
      assert ps == ps[..|ps| - 1] + [p];
      ModelsByProvider(ps[..|ps| - 1])[p.name := set x | x in p.models]
  }

  /** With distinct provider names, each name maps to the models of the one provider that has it. */
  lemma {:induction false} ModelsByProviderDistinct(ps: seq<Provider>, i: nat)
    requires Distinct(ProviderNames(ps)) && i < |ps|
    ensures ModelsByProvider(ps)[ps[i].name] == set x | x in ps[i].models
  {
    var init := ps[..|ps| - 1];
    if i < |ps| - 1 {
      assert ProviderNames(init) == ProviderNames(ps)[..|ps| - 1];
      assert init[i] == ps[i];
      ModelsByProviderDistinct(init, i);
      assert ProviderNames(ps)[i] != ProviderNames(ps)[|ps| - 1];
    }
  }

  /** One `UnknownModel` per mapping whose provider is known but does not list the model. */
  function ModelErrors(ms: seq<ModelMapping>, models: map<string, set<string>>): (r: seq<ConfigError>)
    ensures |r| <= |ms|
  {
    if ms == [] then []
    else
      var m := ms[|ms| - 1];
      ModelErrors(ms[..|ms| - 1], models)
      + (if m.providerName in models && m.actualModelName !in models[m.providerName]
         then [UnknownModel(m.displayName, m.actualModelName, m.providerName)] else [])
  }

  /**
   * The model check reports nothing exactly when every mapping with a known
   * provider names one of its models, and it never reports a mapping whose
   * provider is unknown.
   */
  lemma {:induction false} ModelErrorsSpec(ms: seq<ModelMapping>, models: map<string, set<string>>)
    ensures ModelErrors(ms, models) == [] <==>
              forall m :: m in ms && m.providerName in models ==> m.actualModelName in models[m.providerName]
    ensures forall e :: e in ModelErrors(ms, models) ==>
              e.UnknownModel? && e.provider in models && e.model !in models[e.provider]
  {
    if ms != [] {
      var init := ms[..|ms| - 1];
      assert ms == init + [ms[|ms| - 1]];
      ModelErrorsSpec(init, models);
    }
  }

  // ---------------------------------------------------------------------
  // Storage and summarization settings
  // ---------------------------------------------------------------------

  function RedisErrors(c: AppConfig): (r: seq<ConfigError>)
    ensures r != [] <==> c.storage.kind == "redis" && !Present(c.storage.redisUrl)
  {
    if c.storage.kind == "redis" && !Present(c.storage.redisUrl) then [RedisWithoutUrl] else []
  }

  /** A mapping whose own context settings summarise without naming a model. */
  predicate SummarizesWithoutModel(m: ModelMapping) {
    m.contextConfig.Some? && m.contextConfig.value.reductionMode == "summarization"
    && !Present(m.contextConfig.value.summarizationModel)
  }

  function MappingSummarizationErrors(ms: seq<ModelMapping>): (r: seq<ConfigError>)
    ensures |r| <= |ms|
  {
    if ms == [] then []
    else
      var m := ms[|ms| - 1];
      MappingSummarizationErrors(ms[..|ms| - 1])
      + (if SummarizesWithoutModel(m) then [MappingSummarizationWithoutModel(m.displayName)] else [])
  }

  /** The per-mapping summarization check reports each mapping that summarises without a model, and only those. */
  lemma {:induction false} MappingSummarizationErrorsSpec(ms: seq<ModelMapping>)
    ensures MappingSummarizationErrors(ms) == [] <==> forall m :: m in ms ==> !SummarizesWithoutModel(m)
    ensures forall m :: m in ms && SummarizesWithoutModel(m) ==>
              MappingSummarizationWithoutModel(m.displayName) in MappingSummarizationErrors(ms)
  {
    if ms != [] {
      var init := ms[..|ms| - 1];
      assert ms == init + [ms[|ms| - 1]];
      MappingSummarizationErrorsSpec(init);
    }
  }

  function GlobalSummarizationErrors(c: AppConfig): (r: seq<ConfigError>)
    ensures r != [] <==> c.context.defaultReductionMode == "summarization"
                         && !Present(c.context.defaultSummarizationModel)
  {
    if c.context.defaultReductionMode == "summarization" && !Present(c.context.defaultSummarizationModel)
    then [GlobalSummarizationWithoutModel] else []
  }

  /** Everything `validate_all` reports, in the order of its checks. */
  function AllErrors(c: AppConfig): seq<ConfigError> {
    ProviderDuplicateErrors(c) + DisplayDuplicateErrors(c)
    + ReferenceErrors(c.modelMappings, ProviderNameSet(c.providers))
    + ModelErrors(c.modelMappings, ModelsByProvider(c.providers))
    + RedisErrors(c)
    + GlobalSummarizationErrors(c) + MappingSummarizationErrors(c.modelMappings)
  }

  /**
   * A consistent configuration, stated without the checks: distinct
   * provider and display names, every mapping served by a provider that
   * lists its model, a Redis URL when Redis is used, and a summarization
   * model wherever summarization is the reduction mode.
   */
  predicate Consistent(c: AppConfig) {
    && Distinct(ProviderNames(c.providers))
    && Distinct(DisplayNames(c.modelMappings))
    && (forall m :: m in c.modelMappings ==>
          exists p :: p in c.providers && p.name == m.providerName && m.actualModelName in p.models)
    && (c.storage.kind == "redis" ==> Present(c.storage.redisUrl))
    && (c.context.defaultReductionMode == "summarization" ==> Present(c.context.defaultSummarizationModel))
    && (forall m :: m in c.modelMappings ==> !SummarizesWithoutModel(m))
  }

  lemma {:induction false} ProviderModelsAt(ps: seq<Provider>, p: Provider)
    requires Distinct(ProviderNames(ps)) && p in ps
    ensures p.name in ModelsByProvider(ps)
    ensures ModelsByProvider(ps)[p.name] == set x | x in p.models
  {
    var i :| 0 <= i < |ps| && ps[i] == p;
    ModelsByProviderDistinct(ps, i);
  }

  /** The report is empty exactly when every check reports nothing. */
  lemma {:induction false} AllErrorsEmptyParts(c: AppConfig)
    ensures AllErrors(c) == [] <==>
      && ProviderDuplicateErrors(c) == [] && DisplayDuplicateErrors(c) == []
      && ReferenceErrors(c.modelMappings, ProviderNameSet(c.providers)) == []
      && ModelErrors(c.modelMappings, ModelsByProvider(c.providers)) == []
      && RedisErrors(c) == [] && GlobalSummarizationErrors(c) == []
      && MappingSummarizationErrors(c.modelMappings) == []
  {
    var a := ProviderDuplicateErrors(c) + DisplayDuplicateErrors(c)
      + ReferenceErrors(c.modelMappings, ProviderNameSet(c.providers))
      + ModelErrors(c.modelMappings, ModelsByProvider(c.providers))
      + RedisErrors(c)
      + GlobalSummarizationErrors(c) + MappingSummarizationErrors(c.modelMappings);
    assert |AllErrors(c)| == |a|;
  }

  /**
   * With distinct provider names, the two reference checks pass exactly
   * when every mapping is served by a provider that lists its model.
   */
  lemma {:induction false} ReferencesIffServed(ps: seq<Provider>, ms: seq<ModelMapping>)
    requires Distinct(ProviderNames(ps))
    ensures ReferenceErrors(ms, ProviderNameSet(ps)) == [] && ModelErrors(ms, ModelsByProvider(ps)) == []
      <==> forall m :: m in ms ==>
             exists p :: p in ps && p.name == m.providerName && m.actualModelName in p.models
  {
    var names, models := ProviderNameSet(ps), ModelsByProvider(ps);
    ReferenceErrorsSpec(ms, names);
    ModelErrorsSpec(ms, models);
    if ReferenceErrors(ms, names) == [] && ModelErrors(ms, models) == [] {
      forall m | m in ms
        ensures exists p :: p in ps && p.name == m.providerName && m.actualModelName in p.models
      {
        assert m.providerName in names;
        var p :| p in ps && p.name == m.providerName;
        ProviderModelsAt(ps, p);
      }
    }
    if forall m :: m in ms ==> exists p :: p in ps && p.name == m.providerName && m.actualModelName in p.models {
      forall m | m in ms && m.providerName in models
        ensures m.actualModelName in models[m.providerName]
      {
        var p :| p in ps && p.name == m.providerName && m.actualModelName in p.models;
        ProviderModelsAt(ps, p);
      }
      forall m | m in ms
        ensures m.providerName in names
      {
        var p :| p in ps && p.name == m.providerName && m.actualModelName in p.models;
      }
    }
  }

  /** The checks report nothing exactly for a consistent configuration. */
  lemma {:induction false} AllErrorsEmptyIffConsistent(c: AppConfig)
    ensures AllErrors(c) == [] <==> Consistent(c)
  {
    AllErrorsEmptyParts(c);
    MappingSummarizationErrorsSpec(c.modelMappings);
    if Distinct(ProviderNames(c.providers)) {
      ReferencesIffServed(c.providers, c.modelMappings);
    }
  }

  // ---------------------------------------------------------------------
  // The validator object
  // ---------------------------------------------------------------------

  class Validator {
    const config: AppConfig
    var errors: seq<ConfigError>

    constructor(c: AppConfig)
      ensures config == c && errors == []
    {
      config := c;
      errors := [];
    }

    method ValidateProviderReferences()
      modifies this
      ensures errors == old(errors) + ReferenceErrors(config.modelMappings, ProviderNameSet(config.providers))
    {
      var names := ProviderNameSet(config.providers);
      var ms := config.modelMappings;
      ghost var start := errors;
      for k := 0 to |ms|
        invariant errors == start + ReferenceErrors(ms[..k], names)
      {
        assert ms[..k + 1][..k] == ms[..k];
        if ms[k].providerName !in names {
          errors := errors + [UnknownProvider(ms[k].displayName, ms[k].providerName)];
        }
      }
      assert ms[..|ms|] == ms;
    }

    method ValidateModelReferences()
      modifies this
      ensures errors == old(errors) + ModelErrors(config.modelMappings, ModelsByProvider(config.providers))
    {
      var models := CollectModels(config.providers);
      var ms := config.modelMappings;
      ghost var start := errors;
      for k := 0 to |ms|
        invariant errors == start + ModelErrors(ms[..k], models)
      {
        assert ms[..k + 1][..k] == ms[..k];
        var m := ms[k];
        if m.providerName in models && m.actualModelName !in models[m.providerName] {
          errors := errors + [UnknownModel(m.displayName, m.actualModelName, m.providerName)];
        }
      }
      assert ms[..|ms|] == ms;
    }

    /** The `provider_models` dictionary, built provider by provider. */
    static method CollectModels(ps: seq<Provider>) returns (models: map<string, set<string>>)
      ensures models == ModelsByProvider(ps)
    {
      models := map[];
      for k := 0 to |ps|
        invariant models == ModelsByProvider(ps[..k])
      {
        assert ps[..k + 1][..k] == ps[..k];
        models := models[ps[k].name := set x | x in ps[k].models];
      }
      assert ps[..|ps|] == ps;
    }

    method ValidateUniqueDisplayNames()
      modifies this
      ensures errors == old(errors) + DisplayDuplicateErrors(config)
    {
      var d := Duplicates(DisplayNames(config.modelMappings));
      if d != {} {
        errors := errors + [DuplicateDisplayNames(d)];
      }
    }

    method ValidateUniqueProviderNames()
      modifies this
      ensures errors == old(errors) + ProviderDuplicateErrors(config)
    {
      var d := Duplicates(ProviderNames(config.providers));
      if d != {} {
        errors := errors + [DuplicateProviderNames(d)];
      }
    }

    method ValidateRedisConfig()
      modifies this
      ensures errors == old(errors) + RedisErrors(config)
    {
      if config.storage.kind == "redis" && !Present(config.storage.redisUrl) {
        errors := errors + [RedisWithoutUrl];
      }
    }

    method ValidateSummarizationConfig()
      modifies this
      ensures errors == old(errors) + GlobalSummarizationErrors(config) + MappingSummarizationErrors(config.modelMappings)
    {
      if config.context.defaultReductionMode == "summarization" && !Present(config.context.defaultSummarizationModel) {
        errors := errors + [GlobalSummarizationWithoutModel];
      }
      var ms := config.modelMappings;
      ghost var start := errors;
      for k := 0 to |ms|
        invariant errors == start + MappingSummarizationErrors(ms[..k])
      {
        assert ms[..k + 1][..k] == ms[..k];
        if SummarizesWithoutModel(ms[k]) {
          errors := errors + [MappingSummarizationWithoutModel(ms[k].displayName)];
        }
      }
      assert ms[..|ms|] == ms;
    }

    /**
     * Clears the list and runs every check. The result depends on the
     * configuration alone, so running it twice gives the same list.
     */
    method ValidateAll() returns (r: seq<ConfigError>)
      modifies this
      ensures errors == AllErrors(config) && r == errors
    {
      errors := [];
      ValidateUniqueProviderNames();
      assert errors == ProviderDuplicateErrors(config);
      ValidateUniqueDisplayNames();
      ghost var names := errors;
      ValidateProviderReferences();
      ValidateModelReferences();
      ghost var references := errors;
      ValidateRedisConfig();
      ValidateSummarizationConfig();
      assert errors == references + RedisErrors(config) + GlobalSummarizationErrors(config)
                       + MappingSummarizationErrors(config.modelMappings);
      assert references == names + ReferenceErrors(config.modelMappings, ProviderNameSet(config.providers))
                           + ModelErrors(config.modelMappings, ModelsByProvider(config.providers));
      assert names == ProviderDuplicateErrors(config) + DisplayDuplicateErrors(config);
      r := errors;
    }

    method IsValid() returns (valid: bool)
      modifies this
      ensures valid <==> Consistent(config)
      ensures errors == AllErrors(config)
    {
      var r := ValidateAll();
      AllErrorsEmptyIffConsistent(config);
      valid := |r| == 0;
    }
  }

  /** `validate_config`: returns normally exactly for a consistent configuration, else raises with every error. */
  method ValidateConfig(c: AppConfig) returns (r: Result<(), seq<ConfigError>>)
    ensures r.Ok? <==> Consistent(c)
    ensures r.Err? ==> r.error == AllErrors(c) && r.error != []
  {
    var v := new Validator(c);
    var errors := v.ValidateAll();
    AllErrorsEmptyIffConsistent(c);
    if errors != [] {
      return Err(errors);
    }
    return Ok(());
  }
}
