/** Start-up of the proxy: reading the environment into a configuration
    (`load_config`), building the provider clients into the module-level
    registry (`initialize_clients`), the provider summary shown by `GET /`, and
    the refusal to start without any provider. */
module ProxyConfig {
  import opened PyText

  /** The process environment, as `os.getenv` sees it. */
  type Env = map<string, string>

  function GetEnv(env: Env, key: string): Option<string> {
    if key in env then Some(env[key]) else None
  }

  function GetEnvOr(env: Env, key: string, default: string): string {
    if key in env then env[key] else default
  }

  const DefaultOpenAIBaseUrl: string := "https://api.openai.com/v1"
  const DefaultAzureApiVersion: string := "2024-02-15-preview"
  const DefaultMasterKey: string := "sk-1234"
  const DefaultPort: string := "4000"
  const DefaultHost: string := "0.0.0.0"
  /** The token scope requested from the Azure identity provider. */
  const CognitiveServicesScope: string := "https://cognitiveservices.azure.com/.default"

  datatype OpenAIConfig = OpenAIConfig(apiKey: string, baseUrl: string, organization: Option<string>)

  datatype AzureOpenAIConfig = AzureOpenAIConfig(
    apiKey: Option<string>,
    apiVersion: string,
    azureEndpoint: string,
    azureDeployment: string,
    useAzureIdentity: bool)

  /** `port` is kept as the text of PORT; see README for its conversion. */
  datatype Config = Config(
    openai: Option<OpenAIConfig>,
    azureOpenai: Option<AzureOpenAIConfig>,
    masterKey: string,
    port: string,
    host: string)

  /** The validation failure raised while building the configuration: the
      Azure deployment name is a required string, and AZURE_DEPLOYMENT unset
      yields `None`. */
  datatype ConfigError = AzureDeploymentMissing

  /** Whether Azure AD authentication is requested: AZURE_AD_TOKEN is set (even
      to the empty string), or USE_AZURE_IDENTITY is "true" in any letter case. */
  function UseAzureAd(env: Env): (b: bool)
    ensures b <==>
      ("AZURE_AD_TOKEN" in env
       || ("USE_AZURE_IDENTITY" in env && AsciiLower(env["USE_AZURE_IDENTITY"]) == "true"))
  {
    GetEnv(env, "AZURE_AD_TOKEN").Some?
    || AsciiLower(GetEnvOr(env, "USE_AZURE_IDENTITY", "false")) == "true"
  }

  /** `v` spells "true" with each letter in either case. */
  predicate SpellsTrue(v: string) {
    |v| == 4
    && (v[0] == 't' || v[0] == 'T') && (v[1] == 'r' || v[1] == 'R')
    && (v[2] == 'u' || v[2] == 'U') && (v[3] == 'e' || v[3] == 'E')
  }

  /** Without AZURE_AD_TOKEN, identity is requested exactly when
      USE_AZURE_IDENTITY spells "true" in any mixture of letter cases. */
  lemma UseAzureIdentityIgnoresCase(env: Env)
    requires "AZURE_AD_TOKEN" !in env
    ensures UseAzureAd(env) <==> "USE_AZURE_IDENTITY" in env && SpellsTrue(env["USE_AZURE_IDENTITY"])
  {
    if "USE_AZURE_IDENTITY" in env {
      var v := env["USE_AZURE_IDENTITY"];
      var low := AsciiLower(v);
      if SpellsTrue(v) {
        assert low == "true" by {
          assert |low| == 4;
          assert low[0] == 't' && low[1] == 'r' && low[2] == 'u' && low[3] == 'e';
        }
      }
      if low == "true" {
        assert |v| == 4;
        assert low[0] == 't' && low[1] == 'r' && low[2] == 'u' && low[3] == 'e';
      }
    }
  }

  function LoadConfig(env: Env): (r: Result<Config, ConfigError>)
    ensures r.Err? <==>
      Truthy(GetEnv(env, "AZURE_ENDPOINT"))
      && (Truthy(GetEnv(env, "AZURE_OPENAI_API_KEY")) || UseAzureAd(env))
      && "AZURE_DEPLOYMENT" !in env
    ensures r.Ok? ==>
      (r.value.openai.Some? <==> "OPENAI_API_KEY" in env && env["OPENAI_API_KEY"] != "")
    ensures r.Ok? ==>
      (r.value.azureOpenai.Some? <==>
        "AZURE_ENDPOINT" in env && env["AZURE_ENDPOINT"] != ""
        && (("AZURE_OPENAI_API_KEY" in env && env["AZURE_OPENAI_API_KEY"] != "") || UseAzureAd(env)))
    ensures r.Ok? && r.value.azureOpenai.Some? ==>
      r.value.azureOpenai.value.useAzureIdentity == UseAzureAd(env)
      && r.value.azureOpenai.value.azureEndpoint == env["AZURE_ENDPOINT"]
      && r.value.azureOpenai.value.azureDeployment == env["AZURE_DEPLOYMENT"]
    ensures r.Ok? && r.value.openai.Some? ==>
      r.value.openai.value.apiKey == env["OPENAI_API_KEY"]
      && r.value.openai.value.baseUrl == GetEnvOr(env, "OPENAI_BASE_URL", DefaultOpenAIBaseUrl)
      && r.value.openai.value.organization == GetEnv(env, "OPENAI_ORGANIZATION")
    ensures r.Ok? && r.value.azureOpenai.Some? ==>
      r.value.azureOpenai.value.apiKey == GetEnv(env, "AZURE_OPENAI_API_KEY")
      && r.value.azureOpenai.value.apiVersion == GetEnvOr(env, "AZURE_API_VERSION", DefaultAzureApiVersion)
    ensures r.Ok? ==> r.value.port == GetEnvOr(env, "PORT", DefaultPort) && r.value.host == GetEnvOr(env, "HOST", DefaultHost)
    ensures r.Ok? ==> r.value.masterKey == (if "MASTER_KEY" in env then env["MASTER_KEY"] else DefaultMasterKey)
  {
    var useAzureAd := UseAzureAd(env);
    var openai :=
      if Truthy(GetEnv(env, "OPENAI_API_KEY")) then
        Some(OpenAIConfig(
          env["OPENAI_API_KEY"],
          GetEnvOr(env, "OPENAI_BASE_URL", DefaultOpenAIBaseUrl),
          GetEnv(env, "OPENAI_ORGANIZATION")))
      else None;
    var wantAzure :=
      (Truthy(GetEnv(env, "AZURE_OPENAI_API_KEY")) || useAzureAd) && Truthy(GetEnv(env, "AZURE_ENDPOINT"));
    if wantAzure && GetEnv(env, "AZURE_DEPLOYMENT").None? then
      Err(AzureDeploymentMissing)
    else
      var azure :=
        if wantAzure then
          Some(AzureOpenAIConfig(
            GetEnv(env, "AZURE_OPENAI_API_KEY"),
            GetEnvOr(env, "AZURE_API_VERSION", DefaultAzureApiVersion),
            env["AZURE_ENDPOINT"],
            env["AZURE_DEPLOYMENT"],
            useAzureAd))
        else None;
      Ok(Config(
        openai,
        azure,
        GetEnvOr(env, "MASTER_KEY", DefaultMasterKey),
        GetEnvOr(env, "PORT", DefaultPort),
        GetEnvOr(env, "HOST", DefaultHost)))
  }

  /** How an Azure client authenticates: through a bearer-token supplier bound
      to a scope, or with a static key (possibly absent). */
  datatype AzureAuth = TokenProvider(scope: string) | ApiKey(key: Option<string>)

  /** A provider handle; once built it is never changed. */
  datatype Client =
    | OpenAIClient(apiKey: string, baseUrl: string, organization: Option<string>)
    | AzureClient(auth: AzureAuth, apiVersion: string, endpoint: string, deployment: string)

  /** The two optional clients the request handlers consult. */
  datatype Providers = Providers(openai: Option<Client>, azure: Option<Client>)

  const NoProviders: Providers := Providers(None, None)

  /** The OpenAI client is built from the key, base URL and organisation of the
      configuration. */
  function MakeOpenAIClient(c: OpenAIConfig): (r: Client)
    ensures r.OpenAIClient? && r.apiKey == c.apiKey && r.baseUrl == c.baseUrl && r.organization == c.organization
  {
    OpenAIClient(c.apiKey, c.baseUrl, c.organization)
  }

  /** The Azure client uses the identity token supplier only when identity is
      requested AND the identity library could be imported; otherwise it falls
      back to the (possibly missing) API key. */
  function MakeAzureClient(c: AzureOpenAIConfig, identityAvailable: bool): (r: Client)
    ensures r.AzureClient? && r.endpoint == c.azureEndpoint && r.deployment == c.azureDeployment
    ensures r.apiVersion == c.apiVersion
    ensures r.auth.TokenProvider? <==> c.useAzureIdentity && identityAvailable
    ensures r.auth.TokenProvider? ==> r.auth.scope == CognitiveServicesScope
    ensures r.auth.ApiKey? ==> r.auth.key == c.apiKey
  {
    if c.useAzureIdentity && identityAvailable then
      AzureClient(TokenProvider(CognitiveServicesScope), c.apiVersion, c.azureEndpoint, c.azureDeployment)
    else
      AzureClient(ApiKey(c.apiKey), c.apiVersion, c.azureEndpoint, c.azureDeployment)
  }

  /** The clients after initialisation: each configured provider gets a fresh
      client, an unconfigured one keeps whatever client was there before. */
  function ClientsFor(cfg: Config, identityAvailable: bool, previous: Providers): Providers {
    Providers(
      if cfg.openai.Some? then Some(MakeOpenAIClient(cfg.openai.value)) else previous.openai,
      if cfg.azureOpenai.Some? then Some(MakeAzureClient(cfg.azureOpenai.value, identityAvailable)) else previous.azure)
  }

  /** The module-level globals `config`, `openai_client` and `azure_client`. */
  class ProxyState {
    var config: Option<Config>
    var openaiClient: Option<Client>
    var azureClient: Option<Client>

    constructor ()
      ensures config == None && openaiClient == None && azureClient == None
    {
      config := None;
      openaiClient := None;
      azureClient := None;
    }

    function Clients(): Providers
      reads this
    {
      Providers(openaiClient, azureClient)
    }

    /** `initialize_clients`: a configuration error propagates and leaves the
        globals as they were; otherwise `config` is replaced and each configured
        provider's client is (re)built. */
    method InitializeClients(env: Env, identityAvailable: bool) returns (failure: Option<ConfigError>)
      modifies this
      ensures LoadConfig(env).Err? ==>
        failure == Some(LoadConfig(env).error) && unchanged(this)
      ensures LoadConfig(env).Ok? ==>
        failure == None && config == Some(LoadConfig(env).value)
        && Clients() == ClientsFor(LoadConfig(env).value, identityAvailable, old(Clients()))
    {
      var loaded := LoadConfig(env);
      if loaded.Err? {
        return Some(loaded.error);
      }
      var cfg := loaded.value;
      config := Some(cfg);
      if cfg.openai.Some? {
        openaiClient := Some(MakeOpenAIClient(cfg.openai.value));
      }
      if cfg.azureOpenai.Some? {
        azureClient := Some(MakeAzureClient(cfg.azureOpenai.value, identityAvailable));
      }
      failure := None;
    }
  }

  /** The `supported_providers` part of the `GET /` document. */
  datatype SupportedProviders = SupportedProviders(openai: bool, azureOpenai: bool, azureIdentityEnabled: bool)

  function Supported(cfg: Config): (r: SupportedProviders)
    ensures r.openai <==> cfg.openai.Some?
    ensures r.azureOpenai <==> cfg.azureOpenai.Some?
    ensures r.azureIdentityEnabled <==> cfg.azureOpenai.Some? && cfg.azureOpenai.value.useAzureIdentity
  {
    SupportedProviders(
      cfg.openai.Some?,
      cfg.azureOpenai.Some?,
      if cfg.azureOpenai.Some? then cfg.azureOpenai.value.useAzureIdentity else false)
  }

  /** On a first initialisation the provider summary of `GET /` agrees with the
      clients actually built; "identity enabled" does not imply that the client
      uses the token supplier, which also needs the identity library. */
  lemma SupportedMatchesClients(cfg: Config, identityAvailable: bool)
    ensures var p := ClientsFor(cfg, identityAvailable, NoProviders);
      && (Supported(cfg).openai <==> p.openai.Some?)
      && (Supported(cfg).azureOpenai <==> p.azure.Some?)
      && (p.azure.Some? ==>
            (p.azure.value.auth.TokenProvider? <==> Supported(cfg).azureIdentityEnabled && identityAvailable))
  {
  }

  /** What running the server script does. */
  datatype Startup = ConfigInvalid(error: ConfigError) | NoProviderConfigured | Serving(host: string, port: string)

  /** Initialise the clients from a fresh state and refuse to serve without
      any client. */
  function StartServer(env: Env, identityAvailable: bool): (s: Startup)
    ensures s.Serving? <==>
      (LoadConfig(env).Ok?
       && (("OPENAI_API_KEY" in env && env["OPENAI_API_KEY"] != "")
           || ("AZURE_ENDPOINT" in env && env["AZURE_ENDPOINT"] != ""
               && (("AZURE_OPENAI_API_KEY" in env && env["AZURE_OPENAI_API_KEY"] != "") || UseAzureAd(env)))))
    ensures s.ConfigInvalid? <==> LoadConfig(env).Err?
    ensures s.Serving? ==> s.host == GetEnvOr(env, "HOST", DefaultHost) && s.port == GetEnvOr(env, "PORT", DefaultPort)
  {
    match LoadConfig(env)
    case Err(e) => ConfigInvalid(e)
    case Ok(cfg) =>
      var p := ClientsFor(cfg, identityAvailable, NoProviders);
      if p.openai.None? && p.azure.None? then NoProviderConfigured else Serving(cfg.host, cfg.port)
  }
}
