/**
 * The LLM client configuration: which provider the `LLM_PROVIDER` setting
 * names, which of three variables supplies the API key, the other settings
 * with their defaults, and the validation chain that reports the first
 * problem it finds.
 */
module LlmConfig {
  import opened Wrappers
  import opened Text
  import opened Builtins

  datatype Provider = OpenAI | AzureOpenAI | Claude | Local

  /** The enum's `.value`. */
  function ProviderValue(p: Provider): string
  {
    match p
    case OpenAI => "openai"
    case AzureOpenAI => "azure_openai"
    case Claude => "claude"
    case Local => "local"
  }

  /** The members in declaration order, as `for p in LLMProvider` visits them. */
  const Providers: seq<Provider> := [OpenAI, AzureOpenAI, Claude, Local]

  /** The first member from position `i` on whose value is `setting`, or `OpenAI`. */
  function ProviderFrom(setting: string, i: nat): Provider
    requires i <= |Providers|
    decreases |Providers| - i
  {
    if i == |Providers| then OpenAI
    else if ProviderValue(Providers[i]) == setting then Providers[i]
    else ProviderFrom(setting, i + 1)
  }

  /** The provider an `LLM_PROVIDER` setting selects, after `.lower()`. */
  function ProviderOf(setting: string): Provider
  {
    ProviderFrom(Lower(setting), 0)
  }

  lemma {:induction false} ProviderFromSpec(setting: string, i: nat)
    requires i <= |Providers|
    ensures (exists j :: i <= j < |Providers| && ProviderValue(Providers[j]) == setting) ==> ProviderValue(ProviderFrom(setting, i)) == setting
    ensures (forall j :: i <= j < |Providers| ==> ProviderValue(Providers[j]) != setting) ==> ProviderFrom(setting, i) == OpenAI
    decreases |Providers| - i
  {
    if i < |Providers| && ProviderValue(Providers[i]) != setting {
      ProviderFromSpec(setting, i + 1);
    }
  }

  /**
   * The provider is the member whose value equals the lower-cased setting,
   * and `OpenAI` when no member's value does.
   */
  lemma ProviderSpec(setting: string, p: Provider)
    ensures ProviderOf(setting) == p <==>
      ProviderValue(p) == Lower(setting) || (p == OpenAI && forall q: Provider :: ProviderValue(q) != Lower(setting))
  {
    ProviderFromSpec(Lower(setting), 0);
    forall q: Provider | ProviderValue(q) == Lower(setting)
      ensures exists j :: 0 <= j < |Providers| && ProviderValue(Providers[j]) == Lower(setting)
    {
      assert Providers[ProviderIndex(q)] == q;
    }
  }

  /** Where each member sits in `Providers`. */
  function ProviderIndex(p: Provider): (i: nat)
    ensures i < |Providers| && Providers[i] == p
  {
    match p
    case OpenAI => 0
    case AzureOpenAI => 1
    case Claude => 2
    case Local => 3
  }

  /** The loop in `_load_config`: visits the members in order and stops at the first match. */
  method ResolveProvider(setting: string) returns (provider: Provider)
    ensures provider == ProviderOf(setting)
  {
    var wanted := Lower(setting);
    provider := OpenAI;
    var i := 0;
    while i < |Providers|
      invariant 0 <= i <= |Providers|
      invariant ProviderFrom(wanted, i) == ProviderFrom(wanted, 0)
    {
      if ProviderValue(Providers[i]) == wanted {
        provider := Providers[i];
        return;
      }
      i := i + 1;
    }
  }

  /** Python truthiness of an optional string: present and non-empty. */
  predicate Truthy(s: Option<string>)
  {
    s.Some? && s.value != ""
  }

  /** `os.getenv(name)`. */
  function GetEnv(env: map<string, string>, name: string): Option<string>
  {
    if name in env then Some(env[name]) else None
  }

  /**
   * `getenv("OPENAI_API_KEY") or getenv("LLM_API_KEY") or getenv("API_KEY")`:
   * the first truthy operand, or else the last operand as it is.
   */
  function ApiKeyOf(env: map<string, string>): Option<string>
  {
    var first := GetEnv(env, "OPENAI_API_KEY");
    var second := GetEnv(env, "LLM_API_KEY");
    if Truthy(first) then first
    else if Truthy(second) then second
    else GetEnv(env, "API_KEY")
  }

  /** The key is the first non-empty of the three variables, and there is one exactly when any of them is non-empty. */
  lemma ApiKeySpec(env: map<string, string>)
    ensures Truthy(ApiKeyOf(env)) <==>
      Truthy(GetEnv(env, "OPENAI_API_KEY")) || Truthy(GetEnv(env, "LLM_API_KEY")) || Truthy(GetEnv(env, "API_KEY"))
    ensures Truthy(GetEnv(env, "OPENAI_API_KEY")) ==> ApiKeyOf(env) == Some(env["OPENAI_API_KEY"])
    ensures !Truthy(GetEnv(env, "OPENAI_API_KEY")) && Truthy(GetEnv(env, "LLM_API_KEY")) ==> ApiKeyOf(env) == Some(env["LLM_API_KEY"])
    ensures !Truthy(GetEnv(env, "OPENAI_API_KEY")) && !Truthy(GetEnv(env, "LLM_API_KEY")) && Truthy(GetEnv(env, "API_KEY")) ==>
      ApiKeyOf(env) == Some(env["API_KEY"])
  {
  }

  /** The numeric settings, as `int()`/`float()` produced them from variables that are set. */
  datatype Numbers = Numbers(ints: map<string, int>, temperature: Option<real>)

  datatype Config = Config(
    provider: Provider,
    apiKey: Option<string>,
    baseUrl: Option<string>,
    model: string,
    maxTokens: int,
    temperature: real,
    timeout: int,
    maxRetries: int,
    azureEndpoint: Option<string>,
    azureDeployment: Option<string>,
    apiVersion: string,
    requestsPerMinute: int,
    tokensPerMinute: int)

  /** `_load_config`: every setting from its variable, or its default when the variable is unset. */
  function LoadConfig(env: map<string, string>, numbers: Numbers): (c: Config)
    ensures c.provider == ProviderOf(Get(env, "LLM_PROVIDER", "openai"))
    ensures c.apiKey == ApiKeyOf(env)
    ensures "LLM_MAX_TOKENS" !in numbers.ints ==> c.maxTokens == 1000
    ensures numbers.temperature.None? ==> c.temperature == 0.7
    ensures "LLM_RATE_LIMIT_RPM" !in numbers.ints ==> c.requestsPerMinute == 60
    ensures "LLM_RATE_LIMIT_TPM" !in numbers.ints ==> c.tokensPerMinute == 90000
  {
    Config(
      ProviderOf(Get(env, "LLM_PROVIDER", "openai")),
      ApiKeyOf(env),
      GetEnv(env, "OPENAI_BASE_URL"),
      Get(env, "LLM_MODEL", "gpt-3.5-turbo"),
      Get(numbers.ints, "LLM_MAX_TOKENS", 1000),
      if numbers.temperature.Some? then numbers.temperature.value else 0.7,
      Get(numbers.ints, "LLM_TIMEOUT", 30),
      Get(numbers.ints, "LLM_MAX_RETRIES", 3),
      GetEnv(env, "AZURE_OPENAI_ENDPOINT"),
      GetEnv(env, "AZURE_OPENAI_DEPLOYMENT"),
      Get(env, "AZURE_OPENAI_API_VERSION", "2023-12-01-preview"),
      Get(numbers.ints, "LLM_RATE_LIMIT_RPM", 60),
      Get(numbers.ints, "LLM_RATE_LIMIT_TPM", 90000))
  }

  /** The numeric defaults pass validation: with no numeric variable set, only the key and the Azure settings decide. */
  lemma DefaultsValid(env: map<string, string>)
    ensures var c := LoadConfig(env, Numbers(map[], None));
      Validate(c).0 <==> Truthy(c.apiKey) && (c.provider == AzureOpenAI ==> Truthy(c.azureEndpoint) && Truthy(c.azureDeployment))
  {
  }

  /** `validate_config`: the checks in order, each returning at the first failure. */
  function Validate(c: Config): (bool, string)
  {
    if !Truthy(c.apiKey) then (false, "缺少API密钥配置")
    else if c.provider == AzureOpenAI && !Truthy(c.azureEndpoint) then (false, "Azure OpenAI 需要配置 endpoint")
    else if c.provider == AzureOpenAI && !Truthy(c.azureDeployment) then (false, "Azure OpenAI 需要配置 deployment")
    else if c.maxTokens <= 0 then (false, "max_tokens 必须大于0")
    else if !(0.0 <= c.temperature <= 2.0) then (false, "temperature 必须在0-2之间")
    else (true, "配置有效")
  }

  /** The configuration is accepted exactly when every requirement holds. */
  lemma ValidateSpec(c: Config)
    ensures Validate(c).0 <==>
      Truthy(c.apiKey)
      && (c.provider == AzureOpenAI ==> Truthy(c.azureEndpoint) && Truthy(c.azureDeployment))
      && c.maxTokens > 0 && 0.0 <= c.temperature <= 2.0
    ensures Validate(c).0 <==> Validate(c).1 == "配置有效"
  {
  }

  /** A missing key is reported whatever else is wrong; an Azure endpoint is asked for before a deployment. */
  lemma ValidateOrder(c: Config)
    ensures !Truthy(c.apiKey) ==> Validate(c).1 == "缺少API密钥配置"
    ensures Truthy(c.apiKey) && c.provider == AzureOpenAI && !Truthy(c.azureEndpoint) ==>
      Validate(c).1 == "Azure OpenAI 需要配置 endpoint"
    ensures c.provider != AzureOpenAI ==> Validate(c).1 != "Azure OpenAI 需要配置 endpoint" && Validate(c).1 != "Azure OpenAI 需要配置 deployment"
    ensures Truthy(c.apiKey) && (c.provider == AzureOpenAI ==> Truthy(c.azureEndpoint) && Truthy(c.azureDeployment)) && c.maxTokens <= 0 ==>
      Validate(c).1 == "max_tokens 必须大于0"
  {
  }
}
