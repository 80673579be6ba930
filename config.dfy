/**
 * The application configuration records and the checks their fields pass
 * on construction: provider base URLs, storage type, log level, port and
 * session TTL bounds, the default reduction mode, and the non-empty
 * provider and mapping lists. Each constructor either returns the record
 * (with its fields normalised) or the error it raises.
 */
module Config {
  import opened Wrappers
  import Text
  import SessionModel

  datatype Provider = Provider(
    name: string,
    baseUrl: string,
    apiKey: string,
    providerType: string,
    models: seq<string>,
    timeout: int,
    maxRetries: int)

  datatype ModelMapping = ModelMapping(
    displayName: string,
    providerName: string,
    actualModelName: string,
    contextConfig: Option<SessionModel.ContextConfig>)

  datatype StorageConfig = StorageConfig(kind: string, redisUrl: Option<string>, redisDb: int)

  datatype SystemConfig = SystemConfig(port: int, logLevel: string, sessionTtl: int, debugMode: bool)

  datatype ContextDefaultConfig = ContextDefaultConfig(
    defaultMaxTurns: int,
    defaultMaxTokens: int,
    defaultReductionMode: string,
    defaultSummarizationModel: Option<string>,
    summarizationPrompt: string)

  datatype AppConfig = AppConfig(
    system: SystemConfig,
    storage: StorageConfig,
    context: ContextDefaultConfig,
    providers: seq<Provider>,
    modelMappings: seq<ModelMapping>)

  // ---------------------------------------------------------------------
  // Field validators
  // ---------------------------------------------------------------------

  predicate HasScheme(v: string) {
    Text.StartsWith(v, "http://") || Text.StartsWith(v, "https://")
  }

  /**
   * A base URL must name the http or https scheme; every trailing `/` is
   * removed from the stored value.
   */
  function ValidateBaseUrl(v: string): (r: Result<string, string>)
    ensures r.Ok? <==> HasScheme(v)
    ensures r.Ok? ==> |r.value| <= |v| && r.value == v[..|r.value|]
    ensures r.Ok? ==> r.value == [] || r.value[|r.value| - 1] != '/'
    ensures r.Ok? ==> forall i :: |r.value| <= i < |v| ==> v[i] == '/'
  {
    if !HasScheme(v) then Err("base_url must start with http:// or https://")
    else Ok(Text.RStrip(v, '/'))
  }

  /** A URL with something other than slashes after its scheme keeps the scheme when normalised. */
  lemma {:induction false} BaseUrlKeepsScheme(v: string, k: nat)
    requires HasScheme(v) && 8 <= k < |v| && v[k] != '/'
    ensures HasScheme(ValidateBaseUrl(v).value)
  {
    var u := ValidateBaseUrl(v).value;
    assert |u| > k;
    if Text.StartsWith(v, "http://") {
      assert u[..7] == v[..7];
    } else {
      assert u[..8] == v[..8];
    }
  }

  /** Normalising again changes nothing once the normalised URL still has its scheme. */
  lemma {:induction false} BaseUrlStable(v: string)
    requires ValidateBaseUrl(v).Ok? && HasScheme(ValidateBaseUrl(v).value)
    ensures ValidateBaseUrl(ValidateBaseUrl(v).value) == ValidateBaseUrl(v)
  {
    var u := ValidateBaseUrl(v).value;
    assert u != [];
    assert Text.RStrip(u, '/') == u;
  }

  /** A bare scheme loses its slashes, and the stored value would no longer pass the check. */
  lemma {:induction false} BareSchemeLosesSlashes()
    ensures ValidateBaseUrl("https://") == Ok("https:")
    ensures ValidateBaseUrl("https:").Err?
  {
    assert HasScheme("https://") by {
      assert "https://"[..8] == "https://";
    }
    assert Text.RStrip("https://", '/') == Text.RStrip("https:/", '/');
    assert Text.RStrip("https:/", '/') == Text.RStrip("https:", '/');
  }

  const StorageTypes: seq<string> := ["memory", "redis"]
  const LogLevels: seq<string> := ["DEBUG", "INFO", "WARNING", "ERROR", "CRITICAL"]
  const ReductionModes: seq<string> := ["truncation", "summarization", "sliding_window"]

  function ValidateStorageType(v: string): (r: Result<string, string>)
    ensures r.Ok? <==> v == "memory" || v == "redis"
    ensures r.Ok? ==> r.value == v
  {
    if v !in StorageTypes then Err("storage type must be \"memory\" or \"redis\"") else Ok(v)
  }

  /** The level is compared and stored in upper case. */
  function ValidateLogLevel(v: string): (r: Result<string, string>)
    ensures r.Ok? <==> Text.Upper(v) in LogLevels
    ensures r.Ok? ==> r.value == Text.Upper(v) && r.value in LogLevels
  {
    var upper := Text.Upper(v);
    if upper !in LogLevels then Err("log_level must be one of the five levels") else Ok(upper)
  }

  lemma {:induction false} UpperIdempotent(s: string)
    ensures Text.Upper(Text.Upper(s)) == Text.Upper(s)
  {
  }

  /** Any capitalisation of a level is accepted, and validating the stored level returns it unchanged. */
  lemma {:induction false} LogLevelStable(v: string)
    requires ValidateLogLevel(v).Ok?
    ensures ValidateLogLevel(ValidateLogLevel(v).value) == ValidateLogLevel(v)
  {
    UpperIdempotent(v);
  }

  function ValidateReductionMode(v: string): (r: Result<string, string>)
    ensures r.Ok? <==> v == "truncation" || v == "summarization" || v == "sliding_window"
    ensures r.Ok? ==> r.value == v
  {
    if v !in ReductionModes then Err("reduction_mode must be one of the three modes") else Ok(v)
  }

  // ---------------------------------------------------------------------
  // Record construction
  // ---------------------------------------------------------------------

  predicate ValidProvider(p: Provider) {
    HasScheme(p.baseUrl) && (p.baseUrl == [] || p.baseUrl[|p.baseUrl| - 1] != '/')
    && p.timeout >= 1 && p.maxRetries >= 0
  }

  /** A provider: the URL check, a timeout of at least one second and a non-negative retry count. */
  function NewProvider(name: string, baseUrl: string, apiKey: string, providerType: string,
                       models: seq<string>, timeout: int, maxRetries: int): (r: Result<Provider, string>)
    ensures r.Ok? <==> HasScheme(baseUrl) && timeout >= 1 && maxRetries >= 0
    ensures r.Ok? ==> r.value.baseUrl == ValidateBaseUrl(baseUrl).value
    ensures r.Ok? ==> r.value.(baseUrl := baseUrl) == Provider(name, baseUrl, apiKey, providerType, models, timeout, maxRetries)
  {
    var url :- ValidateBaseUrl(baseUrl);
    if timeout < 1 then Err("timeout must be >= 1")
    else if maxRetries < 0 then Err("max_retries must be >= 0")
    else Ok(Provider(name, url, apiKey, providerType, models, timeout, maxRetries))
  }

  /** A provider whose URL has a host after its scheme is valid once built. */
  lemma {:induction false} NewProviderValid(name: string, baseUrl: string, apiKey: string, providerType: string,
                         models: seq<string>, timeout: int, maxRetries: int, k: nat)
    requires NewProvider(name, baseUrl, apiKey, providerType, models, timeout, maxRetries).Ok?
    requires 8 <= k < |baseUrl| && baseUrl[k] != '/'
    ensures ValidProvider(NewProvider(name, baseUrl, apiKey, providerType, models, timeout, maxRetries).value)
  {
    BaseUrlKeepsScheme(baseUrl, k);
  }

  function NewStorageConfig(kind: string, redisUrl: Option<string>, redisDb: int): (r: Result<StorageConfig, string>)
    ensures r.Ok? <==> kind in StorageTypes
    ensures r.Ok? ==> r.value == StorageConfig(kind, redisUrl, redisDb)
  {
    var k :- ValidateStorageType(kind);
    Ok(StorageConfig(k, redisUrl, redisDb))
  }

  predicate ValidSystemConfig(s: SystemConfig) {
    1 <= s.port <= 65535 && s.logLevel in LogLevels && s.sessionTtl >= 60
  }

  /** System settings: a port in 1..65535, a known log level (stored upper-case) and a TTL of at least a minute. */
  function NewSystemConfig(port: int, logLevel: string, sessionTtl: int, debugMode: bool): (r: Result<SystemConfig, string>)
    ensures r.Ok? <==> 1 <= port <= 65535 && Text.Upper(logLevel) in LogLevels && sessionTtl >= 60
    ensures r.Ok? ==> ValidSystemConfig(r.value)
    ensures r.Ok? ==> r.value == SystemConfig(port, Text.Upper(logLevel), sessionTtl, debugMode)
  {
    if port < 1 || port > 65535 then Err("port must be in 1..65535")
    else if sessionTtl < 60 then Err("session_ttl must be >= 60")
    else
      var level :- ValidateLogLevel(logLevel);
      Ok(SystemConfig(port, level, sessionTtl, debugMode))
  }

  const DefaultSystemConfig: SystemConfig := SystemConfig(8000, "INFO", 3600, false)

  lemma {:induction false} DefaultSystemConfigValid()
    ensures NewSystemConfig(8000, "INFO", 3600, false) == Ok(DefaultSystemConfig)
  {
    assert Text.Upper("INFO") == "INFO";
  }

  /** Context defaults: at least one turn, at least 100 tokens and a known reduction mode. */
  function NewContextDefaultConfig(maxTurns: int, maxTokens: int, mode: string,
                                   summarizationModel: Option<string>, prompt: string): (r: Result<ContextDefaultConfig, string>)
    ensures r.Ok? <==> maxTurns >= 1 && maxTokens >= 100 && mode in ReductionModes
    ensures r.Ok? ==> r.value == ContextDefaultConfig(maxTurns, maxTokens, mode, summarizationModel, prompt)
  {
    if maxTurns < 1 then Err("default_max_turns must be >= 1")
    else if maxTokens < 100 then Err("default_max_tokens must be >= 100")
    else
      var m :- ValidateReductionMode(mode);
      Ok(ContextDefaultConfig(maxTurns, maxTokens, m, summarizationModel, prompt))
  }

  /** The whole configuration: at least one provider and at least one model mapping. */
  function NewAppConfig(system: SystemConfig, storage: StorageConfig, context: ContextDefaultConfig,
                        providers: seq<Provider>, modelMappings: seq<ModelMapping>): (r: Result<AppConfig, string>)
    ensures r.Ok? <==> providers != [] && modelMappings != []
    ensures r.Ok? ==> r.value == AppConfig(system, storage, context, providers, modelMappings)
  {
    if providers == [] then Err("At least one provider must be configured")
    else if modelMappings == [] then Err("At least one model mapping must be configured")
    else Ok(AppConfig(system, storage, context, providers, modelMappings))
  }

  // ---------------------------------------------------------------------
  // Lookups: the first entry with the name
  // ---------------------------------------------------------------------

  /** Index of the first occurrence of `name` in `names`, or the length when there is none. */
  function Position(names: seq<string>, name: string): (i: nat)
    ensures i <= |names|
    ensures i < |names| ==> names[i] == name
    ensures forall j :: 0 <= j < i ==> names[j] != name
  {
    if names == [] then 0
    else if names[0] == name then 0
    else 1 + Position(names[1..], name)
  }

  /** `get_provider`: the first provider with the name, `None` when no provider has it. */
  function GetProvider(c: AppConfig, name: string): (r: Option<Provider>)
    ensures r.None? <==> forall p :: p in c.providers ==> p.name != name
    ensures r.Some? ==> exists i :: 0 <= i < |c.providers| && c.providers[i] == r.value && r.value.name == name
                                    && forall j :: 0 <= j < i ==> c.providers[j].name != name
  {
    var i := Position(ProviderNames(c.providers), name);
    if i < |c.providers| then Some(c.providers[i]) else None
  }

  /** `get_model_mapping`: the first mapping with the display name, `None` when there is none. */
  function GetModelMapping(c: AppConfig, displayName: string): (r: Option<ModelMapping>)
    ensures r.None? <==> forall m :: m in c.modelMappings ==> m.displayName != displayName
    ensures r.Some? ==> exists i :: 0 <= i < |c.modelMappings| && c.modelMappings[i] == r.value
                                    && r.value.displayName == displayName
                                    && forall j :: 0 <= j < i ==> c.modelMappings[j].displayName != displayName
  {
    var i := Position(DisplayNames(c.modelMappings), displayName);
    if i < |c.modelMappings| then Some(c.modelMappings[i]) else None
  }

  // ---------------------------------------------------------------------
  // Names
  // ---------------------------------------------------------------------

  predicate Distinct(names: seq<string>) {
    forall i, j :: 0 <= i < j < |names| ==> names[i] != names[j]
  }

  function ProviderNames(ps: seq<Provider>): (r: seq<string>)
    ensures |r| == |ps| && forall i :: 0 <= i < |ps| ==> r[i] == ps[i].name
  {
    if ps == [] then [] else ProviderNames(ps[..|ps| - 1]) + [ps[|ps| - 1].name]
  }

  function DisplayNames(ms: seq<ModelMapping>): (r: seq<string>)
    ensures |r| == |ms| && forall i :: 0 <= i < |ms| ==> r[i] == ms[i].displayName
  {
    if ms == [] then [] else DisplayNames(ms[..|ms| - 1]) + [ms[|ms| - 1].displayName]
  }
}
