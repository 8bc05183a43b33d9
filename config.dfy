/**
 * Provider, price and endpoint selection done once when a `VoiceRecorder`
 * is constructed, from the process environment.
 */
module Config {
  import opened Wrappers
  import opened Strings

  /** The process environment: variable name to value. */
  type Env = map<string, string>

  const AzureApiKeyVar := "AZURE_OPENAI_API_KEY"
  const AzureEndpointVar := "AZURE_OPENAI_ENDPOINT"
  const AzureDeploymentVar := "AZURE_OPENAI_DEPLOYMENT_NAME"
  const AzureApiVersionVar := "AZURE_OPENAI_API_VERSION"
  const OpenAIApiKeyVar := "OPENAI_API_KEY"

  const DefaultDeployment := "gpt-4o-transcribe"
  const DefaultApiVersion := "2025-03-01-preview"
  const MiniModel := "gpt-4o-mini-transcribe"
  const StandardModel := "gpt-4o-transcribe"
  const DeploymentsPath := "/openai/deployments/"

  /** Prices per minute of audio, in tenths of a US cent ($0.003 and $0.006). */
  const MiniPrice: nat := 3
  const StandardPrice: nat := 6

  /** The client the recorder talks to, fixed for the life of the process. */
  datatype Provider =
    | AzureOpenAI(apiKey: string, deployment: string, baseUrl: string, apiVersion: string)
    | OpenAI(openAIKey: Option<string>)

  datatype Settings = Settings(provider: Provider, apiProvider: string, costPerMinute: nat)

  /** `os.getenv(name)`. */
  function GetEnv(env: Env, name: string): (v: Option<string>)
    ensures v.Some? <==> name in env
    ensures v.Some? ==> v.value == env[name]
  {
    if name in env then Some(env[name]) else None
  }

  /** `os.getenv(name, default)`: the default is used only when the variable
      is absent, not when it is set to the empty string. */
  function GetEnvOr(env: Env, name: string, default: string): (v: string)
    ensures name in env ==> v == env[name]
    ensures name !in env ==> v == default
  {
    if name in env then env[name] else default
  }

  /** Python truthiness of `os.getenv(name)`: present and non-empty. */
  predicate IsSet(env: Env, name: string)
  {
    name in env && env[name] != ""
  }

  /** `f"{endpoint.rstrip('/')}/openai/deployments/{deployment}"`. */
  function BaseUrl(endpoint: string, deployment: string): (url: string)
    ensures exists n :: 0 <= n <= |endpoint| && url == endpoint[..n] + DeploymentsPath + deployment
                        && (n == 0 || endpoint[n - 1] != '/')
                        && forall i :: n <= i < |endpoint| ==> endpoint[i] == '/'
  {
    var host := StripEnd(endpoint, {'/'});
    StripEndSpec(endpoint, {'/'});
    assert host == endpoint[..|host|];
    host + DeploymentsPath + deployment
  }

  /** The per-minute price tier: the mini model is cheaper, every other
      deployment pays the standard rate. */
  function AzurePrice(deployment: string): (price: nat)
    ensures price == MiniPrice <==> Contains(deployment, MiniModel)
    ensures price == StandardPrice <==> !Contains(deployment, MiniModel)
  {
    if Contains(deployment, MiniModel) then MiniPrice
    else if Contains(deployment, StandardModel) then StandardPrice
    else StandardPrice
  }

  /** What `VoiceRecorder.__init__` chooses from the environment. */
  function Configure(env: Env): (cfg: Settings)
    ensures cfg.provider.AzureOpenAI? <==> IsSet(env, AzureApiKeyVar) && IsSet(env, AzureEndpointVar)
    ensures cfg.provider.AzureOpenAI? ==>
              cfg.provider.apiKey == env[AzureApiKeyVar]
              && cfg.provider.deployment == GetEnvOr(env, AzureDeploymentVar, DefaultDeployment)
              && cfg.provider.baseUrl == BaseUrl(env[AzureEndpointVar], cfg.provider.deployment)
              && cfg.provider.apiVersion == GetEnvOr(env, AzureApiVersionVar, DefaultApiVersion)
              && cfg.apiProvider == "Azure OpenAI (" + cfg.provider.deployment + ")"
              && cfg.costPerMinute == AzurePrice(cfg.provider.deployment)
    ensures cfg.provider.OpenAI? ==>
              cfg.provider.openAIKey == GetEnv(env, OpenAIApiKeyVar)
              && cfg.apiProvider == "OpenAI"
              && cfg.costPerMinute == StandardPrice
  {
    if IsSet(env, AzureApiKeyVar) && IsSet(env, AzureEndpointVar) then
      var deployment := GetEnvOr(env, AzureDeploymentVar, DefaultDeployment);
      Settings(
        AzureOpenAI(env[AzureApiKeyVar], deployment, BaseUrl(env[AzureEndpointVar], deployment),
                    GetEnvOr(env, AzureApiVersionVar, DefaultApiVersion)),
        "Azure OpenAI (" + deployment + ")",
        AzurePrice(deployment))
    else
      Settings(OpenAI(GetEnv(env, OpenAIApiKeyVar)), "OpenAI", StandardPrice)
  }

  /** The cheaper rate applies exactly when Azure is configured and the
      deployment name has the mini model's name somewhere inside it. */
  lemma PriceTiers(env: Env)
    ensures Configure(env).costPerMinute in {MiniPrice, StandardPrice}
    ensures Configure(env).costPerMinute == MiniPrice <==>
              IsSet(env, AzureApiKeyVar) && IsSet(env, AzureEndpointVar)
              && exists i :: OccursAt(GetEnvOr(env, AzureDeploymentVar, DefaultDeployment), MiniModel, i)
  {
    ContainsIff(GetEnvOr(env, AzureDeploymentVar, DefaultDeployment), MiniModel);
  }

  /** With Azure credentials and no deployment variable, the recorder uses
      the `gpt-4o-transcribe` deployment at the standard rate. */
  lemma DefaultAzureDeployment(env: Env)
    requires IsSet(env, AzureApiKeyVar) && IsSet(env, AzureEndpointVar)
    requires AzureDeploymentVar !in env
    ensures Configure(env).provider == AzureOpenAI(
              env[AzureApiKeyVar], DefaultDeployment,
              BaseUrl(env[AzureEndpointVar], DefaultDeployment),
              GetEnvOr(env, AzureApiVersionVar, DefaultApiVersion))
    ensures Configure(env).costPerMinute == StandardPrice
  {
  }

  /** Any deployment named around the mini model gets the cheaper rate,
      e.g. `my-gpt-4o-mini-transcribe-eu`. */
  lemma MiniDeploymentPrice(env: Env, prefix: string, suffix: string)
    requires IsSet(env, AzureApiKeyVar) && IsSet(env, AzureEndpointVar)
    requires GetEnv(env, AzureDeploymentVar) == Some(prefix + MiniModel + suffix)
    ensures Configure(env).costPerMinute == MiniPrice
  {
    ContainsInfix(prefix, MiniModel, suffix);
  }

  /** Without both Azure variables set to non-empty values, the plain OpenAI
      client is used at the standard rate, whatever else is configured. */
  lemma OpenAIFallback(env: Env)
    requires !IsSet(env, AzureApiKeyVar) || !IsSet(env, AzureEndpointVar)
    ensures Configure(env) == Settings(OpenAI(GetEnv(env, OpenAIApiKeyVar)), "OpenAI", StandardPrice)
  {
  }

  /** Trailing slashes on the endpoint never change the base URL. */
  lemma BaseUrlIgnoresTrailingSlash(endpoint: string, deployment: string)
    ensures BaseUrl(endpoint + "/", deployment) == BaseUrl(endpoint, deployment)
  {
    StripEndAppend(endpoint, '/', {'/'});
  }
}
