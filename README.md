# OpenAI API Proxy: a Dafny model

The repository is an OpenAI-compatible HTTP proxy plus a setup script.
The proxy is a FastAPI server that forwards chat and text completion
requests to OpenAI or to Azure OpenAI.
It guards every endpoint with a master key, except the health check and the root document.
The setup script (`ai_proxy_cli`) writes a `.env` file and a LiteLLM `config.yaml`.

This project models four parts of that code and proves properties about them.

- Start-up (`ProxyConfig`):
  - Reading the environment into a configuration (`load_config`).
  - Building the two module-level provider clients (`initialize_clients`). This is a class whose fields are the globals.
  - The `supported_providers` summary of `GET /`.
  - The refusal to serve when no client exists.
- Request handling:
  - The master-key check (`ProxyAuth`).
  - Model-name routing and the model catalogue (`ProxyRouter`).
  - The translation of a request into the SDK call arguments (`ProxyHandlers`).
  - The `except` chains that map failures to HTTP errors.
  - The server-sent-event relay of a streamed answer.
  - The two endpoints, with the key check put in front.
  - `json.dumps({'error': ...})` for the in-band stream error (`JsonText`).
- The `.env` writer (`CliEnv`): value quoting and the file text. It comes with a minimal reader that gives the written values back.
  The module also holds endpoint normalisation.
- The `config.yaml` generator (`CliConfigYaml`).
  It is a function giving the list of lines, and methods that build that list the way the source does, loops included.

`PyText` holds the Python string built-ins these need: `strip`, `split`,
`join`, `startswith`, `in`, ASCII `lower` and `str(int)`. `Http` holds the exception and response values.

The provider SDK is modelled as a capability value `Upstream`. It is a record of three functions giving what each SDK call returns or raises.
This lets the handlers be stated for every possible provider behaviour.

Some behaviour of the source comes out of the proofs:
- The router raises its "No configured AI providers" 400 inside the handler's `try`. The generic `except Exception` arm catches it. So a caller sees a 500 whose detail is `"400: No configured AI providers"`. This is `ProxyHandlers.NoProviderSurfacesAs500`; the endpoints are modelled that way.
- The second routing rule of `get_client` never changes the outcome. Once the first rule does not apply, every model goes to Azure if an Azure client exists, whatever its name. This is `ProxyRouter.AzureNamingTestIsUnobservable`.

## Model

| member | source | states |
|---|---|---|
| ProxyConfig.UseAzureAd | proxy_server.py:83 | Azure AD is wanted iff AZURE_AD_TOKEN is set (even empty), or USE_AZURE_IDENTITY lower-cases to "true" |
| ProxyConfig.UseAzureIdentityIgnoresCase | proxy_server.py:83 | Without AZURE_AD_TOKEN, identity is requested iff USE_AZURE_IDENTITY is "true" with each letter in either case |
| ProxyConfig.LoadConfig | proxy_server.py:80-101 | It fails iff Azure is wanted and AZURE_DEPLOYMENT is unset. Wanted means a truthy endpoint and a truthy key or AD. Otherwise OpenAI is configured iff OPENAI_API_KEY is non-empty. Azure is configured iff the endpoint is non-empty and there is a key or AD. The OpenAI key, organisation and base URL (default https://api.openai.com/v1) come from the environment. So do the Azure key, endpoint, deployment, API version (default 2024-02-15-preview) and identity flag. The master key defaults to "sk-1234", host and port to 0.0.0.0 and 4000 |
| ProxyConfig.MakeOpenAIClient | proxy_server.py:109-114 | The OpenAI client carries the configured key, base URL and organisation |
| ProxyConfig.MakeAzureClient | proxy_server.py:117-142 | The client uses the token supplier, with the cognitive-services scope, iff identity is requested and the identity library is available. Otherwise it carries the configured key, possibly missing. Endpoint, deployment and version are passed through |
| ProxyConfig.ProxyState.constructor | proxy_server.py:76-78 | Config and both clients start as None |
| ProxyConfig.ProxyState.InitializeClients | proxy_server.py:103-143 | A configuration error propagates and leaves the globals unchanged. Otherwise the config is stored and every configured provider's client is rebuilt. An unconfigured provider keeps its previous client |
| ProxyConfig.Supported | proxy_server.py:312-316 | openai and azure_openai are true iff those configs exist. azure_identity_enabled is true iff Azure exists and requests identity |
| ProxyConfig.SupportedMatchesClients | proxy_server.py:103-143 | On first start the summary's provider flags agree with the clients built. The token supplier is used iff identity is enabled and the library is available |
| ProxyConfig.StartServer | proxy_server.py:319-331 | The server starts iff the config loads and an OpenAI key or an Azure endpoint with key/AD is present. An invalid config is reported as such. Host and port come from HOST/PORT with defaults |
| ProxyAuth.Authenticate | proxy_server.py:145-155 | Accepted iff the header is exactly "Bearer " + master key. "Missing Authorization header" (401) iff the header is absent or lacks the prefix. "Invalid API key" (401) iff it has the prefix and a wrong token |
| ProxyRouter.GetClient | proxy_server.py:157-169 | It fails, with 400 "No configured AI providers", iff neither client exists. Otherwise the result is one of the existing clients |
| ProxyRouter.RouteGptPrefixToOpenAI | proxy_server.py:160-161 | A "gpt-" model goes to OpenAI whenever an OpenAI client exists |
| ProxyRouter.RouteAzureNamingToAzure | proxy_server.py:162-163 | Past the first rule, an "azure-" model or one containing "gpt" goes to Azure when it exists |
| ProxyRouter.RouteFallbacks | proxy_server.py:164-169 | Past the first rule: Azure if present, else OpenAI if present, else the 400 |
| ProxyRouter.AzureNamingTestIsUnobservable | proxy_server.py:160-165 | Any two models not caught by the first rule are routed identically |
| ProxyRouter.RouteDependsOnlyOnPresence | proxy_server.py:157-169 | The routing outcome depends only on which clients exist. Success, the error and the chosen slot are the same for any two registries with the same presence |
| ProxyRouter.ListModels | proxy_server.py:176-195 | The listing is the three OpenAI ids if OpenAI exists, followed by the three Azure ids if Azure exists. It is empty iff no client exists. get_client routes every listed id to its owner's client |
| ProxyHandlers.ProjectMessages | proxy_server.py:205 | Same length; each forwarded message has the role and content of the request message at the same index |
| ProxyHandlers.ProjectionForgetsOnlyNames | proxy_server.py:205 | Two message lists project alike iff they agree on every role and content, in order |
| ProxyHandlers.TranslateChat | proxy_server.py:203-209 | Model, temperature, max_tokens and stream are passed unchanged. Each message is forwarded, in order, as its role and content |
| ProxyHandlers.TranslateChatFaithful | proxy_server.py:203-209 | Two chat requests give the same SDK call iff they agree on model, temperature, max_tokens, stream and every role and content. Only message names are dropped |
| ProxyHandlers.TranslateCompletion | proxy_server.py:248-253 | Model, prompt, temperature and max_tokens are passed unchanged |
| ProxyHandlers.TranslateCompletionFaithful | proxy_server.py:248-253 | Two completion requests give the same SDK call iff they are equal |
| ProxyHandlers.StatusOr502 | proxy_server.py:236 | Never 0. A present non-zero status_code is kept; a missing code or 0 gives 502 |
| ProxyHandlers.MapFailure | proxy_server.py:228-240 | A rate-limit error gives 429 "Upstream rate limit exceeded". An authentication error gives 401 "Upstream authentication failed". Any other API error keeps its message. It takes its own status_code when that is present and non-zero, and the status is 502 iff the code is missing, 0 or 502. Anything else gives 500 with str(e) |
| ProxyHandlers.RateLimitArmComesFirst | proxy_server.py:228-237 | A rate-limit error, although also an APIError, gets the fixed 429 detail rather than its own message |
| ProxyHandlers.NoProviderSurfacesAs500 | proxy_server.py:238-240 | The router's 400 is caught by the generic arm and surfaces as 500 "400: No configured AI providers" |
| ProxyHandlers.DataFrames | proxy_server.py:215-216 | One "data: <chunk json>\n\n" frame per chunk, in order |
| ProxyHandlers.RelayFrames | proxy_server.py:213-221 | One frame per chunk, in order, then one final frame: [DONE] after a normal end, the error frame after a raise |
| ProxyHandlers.Generate | proxy_server.py:213-221 | The frames are every chunk's frame in order, then exactly one final frame: "[DONE]" after a normal end, or the JSON error frame after an exception |
| ProxyHandlers.ErrorFrameIsNotDone | proxy_server.py:217-221 | An error frame can never be mistaken for the [DONE] frame |
| ProxyHandlers.RelayTerminatesOnce | proxy_server.py:213-221 | The data frames keep the chunk order and none is [DONE]. A finished stream ends with [DONE]. A failed stream has no [DONE] frame at all and ends with its error frame |
| ProxyHandlers.ErrorFrameIsOneEvent | proxy_server.py:221 | The error frame is `data: {"error": "…"}` followed by one blank line, with no other line break. So it is a single event |
| ProxyHandlers.DataFramesPrefix | proxy_server.py:215-216 | The frames of the first k chunks are the first k frames |
| ProxyHandlers.FailureAfterPrefix | proxy_server.py:214-221 | A failure after k chunks leaves exactly those k frames, then one error frame |
| ProxyHandlers.ChatCompletion | proxy_server.py:197-240 | A provider is called iff some client exists, with the client get_client chose and the translated arguments. Without a client the reply is 500 "400: No configured AI providers". An event stream is returned only when stream is true, a JSON body only when it is not |
| ProxyHandlers.ChatOutcomes | proxy_server.py:203-237 | A failing initial call is mapped by the except chain. An opened stream is relayed frame by frame. A plain answer is returned as is |
| ProxyHandlers.RateLimitedChatIs429 | proxy_server.py:228-230 | An upstream rate limit on a non-streaming chat gives status 429 with the fixed detail |
| ProxyHandlers.Completion | proxy_server.py:242-269 | A provider is called iff some client exists, with get_client's choice and the request's fields. Without a client the reply is the 500. An upstream failure is answered through the except chain, a success with the serialised response as is. It never streams |
| ProxyHandlers.AuthorizedChat | proxy_server.py:197-198 | A rejected credential gives 401 and no provider call. An accepted one runs the chat handler |
| ProxyHandlers.AuthorizedCompletion | proxy_server.py:242-243 | A rejected credential gives 401 and no provider call. An accepted one runs the completion handler |
| JsonText.HexDigitValue | proxy_server.py:221 | A lower-case hex digit reads back to its value |
| JsonText.ParseHex4OfHex4 | proxy_server.py:221 | The four-digit `\uXXXX` code reads back to the code unit |
| JsonText.Escape | proxy_server.py:221 | The escaped body is printable ASCII only, as with ensure_ascii |
| JsonText.UnescapeChar | proxy_server.py:221 | Decoding one escaped character, including surrogate pairs above U+FFFF, gives that character back |
| JsonText.ErrorObject | proxy_server.py:221 | The error document consists of printable ASCII only |
| JsonText.UnescapeEscape | proxy_server.py:221 | Decoding the escaped text gives back the original string |
| JsonText.ErrorObjectRoundTrip | proxy_server.py:221 | The document is `{"error": "<body>"}` and its body decodes to the message |
| CliEnv.FormatEnvValue | scripts/ai_proxy_cli.py:42-48 | The empty value becomes `""`. A value with no whitespace (as `str.isspace` defines it), `#`, `'`, `"` or backslash is written as is. Otherwise it is written in double quotes with every backslash and every double quote preceded by a backslash |
| CliEnv.TwoPassesAreOnePass | scripts/ai_proxy_cli.py:46 | Escaping backslashes first, then quotes, equals escaping each character once, so no backslash is doubled twice |
| CliEnv.UnescapeOnePass | scripts/ai_proxy_cli.py:46 | Removing the escapes inverts the one-pass escaping |
| CliEnv.FormatEnvValueRoundTrip | scripts/ai_proxy_cli.py:42-48 | Reading a formatted value back gives exactly the original value, for every string |
| CliEnv.FormatAddsNoNewline | scripts/ai_proxy_cli.py:42-48 | Formatting adds no line break |
| CliEnv.EnvLines | scripts/ai_proxy_cli.py:53-54 | One KEY=formatted-value line per dictionary item, in insertion order |
| CliEnv.EnvFileText | scripts/ai_proxy_cli.py:51-55 | The file text is the item lines joined by newlines, plus a final newline |
| CliEnv.JoinSplit | scripts/ai_proxy_cli.py:55 | Splitting at a character and joining with it gives the text back |
| CliEnv.ParseEnvLine | scripts/ai_proxy_cli.py:54 | A written line reads back to its key and value when the key has no '=' |
| CliEnv.ParseEnvLines | scripts/ai_proxy_cli.py:53-55 | The written lines read back to the dictionary's items |
| CliEnv.LinesHaveNoNewline | scripts/ai_proxy_cli.py:54 | Without line breaks in keys and values, no written line has one |
| CliEnv.SplitTerminatedLines | scripts/ai_proxy_cli.py:55 | Split at newlines, the joined lines plus the final newline give the lines and one empty string |
| CliEnv.EmptyEnvFile | scripts/ai_proxy_cli.py:55 | The file written for an empty dictionary reads as empty |
| CliEnv.EnvFileRoundTrip | scripts/ai_proxy_cli.py:51-55 | Reading the written file gives back every item, in order. This holds for keys without '=' or line break and values without line break |
| CliEnv.NormalizeEndpoint | scripts/ai_proxy_cli.py:71-75 | The result is empty iff the stripped endpoint is. A non-empty result ends in "/" and has no surrounding whitespace. It is the stripped text, with "/" added only if missing |
| CliEnv.NormalizeEndpointIdempotent | scripts/ai_proxy_cli.py:71-75 | Normalising twice equals normalising once |
| CliConfigYaml.SettingLines | scripts/ai_proxy_cli.py:111-120 | One indented `key: value` line per setting, in order |
| CliConfigYaml.Tail | scripts/ai_proxy_cli.py:159-174 | Twelve lines: it opens with router_settings and names the master key under general_settings |
| CliConfigYaml.AppendAzureBlock | scripts/ai_proxy_cli.py:107-121 | Appends exactly one Azure entry for the model and deployment |
| CliConfigYaml.AzureBlocksStep | scripts/ai_proxy_cli.py:104-121 | One more model adds its entry after the earlier ones, or nothing when its deployment is empty |
| CliConfigYaml.AzureLines | scripts/ai_proxy_cli.py:103-121 | The Azure section: one entry per model with a non-empty deployment, in insertion order, and only when Azure is enabled |
| CliConfigYaml.AppendVertexBlock | scripts/ai_proxy_cli.py:131-143 | Appends exactly one Vertex entry for the model |
| CliConfigYaml.VertexLines | scripts/ai_proxy_cli.py:123-143 | The Vertex section: one entry per catalogue model that was selected, in catalogue order, only when Vertex is enabled |
| CliConfigYaml.QwenLines | scripts/ai_proxy_cli.py:145-157 | The Qwen section: one qwen-max entry when Qwen is enabled |
| CliConfigYaml.BuildConfigYaml | scripts/ai_proxy_cli.py:78-175 | The text is model_list:, the Azure, Vertex and Qwen sections and the settings tail, joined by newlines |
| CliConfigYaml.ConfigFrame | scripts/ai_proxy_cli.py:101-175 | The file opens with "model_list:" on its own line and ends with the fixed settings tail naming the master key |
| CliConfigYaml.SslSettings | scripts/ai_proxy_cli.py:96-98 | At most one setting, present iff a certificate file was given: ssl_verify with the quoted path |
| CliConfigYaml.AzureSettingsShape | scripts/ai_proxy_cli.py:103-121 | The model is azure/<deployment>. ssl_verify is present iff a certificate file was given, with the quoted path. http_proxy is present iff the proxy is wanted, and comes after ssl_verify. The last setting is rpm 1000 |
| CliConfigYaml.VertexSettingsShape | scripts/ai_proxy_cli.py:123-143 | The model is vertex_ai/<id>. ssl_verify is present iff a certificate file was given. http_proxy is present iff wanted, and here comes before ssl_verify |
| CliConfigYaml.QwenSettingsShape | scripts/ai_proxy_cli.py:145-157 | The model is dashscope/qwen-max. ssl_verify is present iff a certificate file was given. http_proxy is present iff wanted, and comes before ssl_verify |
| CliConfigYaml.QwenSectionIffEnabled | scripts/ai_proxy_cli.py:145-157 | The Qwen entry is written iff Qwen is enabled, and it declares qwen-max |
| CliConfigYaml.EntryNamesAppend | scripts/ai_proxy_cli.py:100-175 | The declared entry names of concatenated lines are concatenated |
| CliConfigYaml.EntryLineShape | scripts/ai_proxy_cli.py:109 | A line starting with the model_name prefix is an entry line |
| CliConfigYaml.NoEntryNames | scripts/ai_proxy_cli.py:159-174 | Lines that are not entry lines declare no entries |
| CliConfigYaml.EntryDeclaresName | scripts/ai_proxy_cli.py:107-121 | An entry block declares exactly its own model name |
| CliConfigYaml.AzureBlocksEntries | scripts/ai_proxy_cli.py:104-106 | The Azure entries are the model names with a non-empty deployment, in insertion order |
| CliConfigYaml.VertexBlocksEntries | scripts/ai_proxy_cli.py:124-130 | The Vertex entries are the catalogue names that were selected, in catalogue order |
| CliConfigYaml.EntryNamesOfParts | scripts/ai_proxy_cli.py:100-175 | The entries of the file are those of the three sections, in order |
| CliConfigYaml.ConfigEntries | scripts/ai_proxy_cli.py:78-175 | The file declares exactly the expected model names: the Azure ones with a deployment, if enabled; then the selected Vertex ones, if enabled; then qwen-max, if enabled; each once, in that order |

## Left out

- LoadConfig: PORT is kept as text. `int()` and its ValueError for a non-numeric PORT are not modelled.
- LoadConfig: Pydantic validation is modelled only where it can fail here: a required deployment that is unset. A non-string value cannot come from the environment.
- The provider SDK is left out. Its behaviour is the `Upstream` parameter, so network calls, retries and timeouts are outside the model. `model_dump()` and `model_dump_json()` are known only as the text they give.
- MakeAzureClient: building a client is assumed to succeed. The SDK's own credential check when the client is constructed (proxy_server.py:137-142 with no key, token or token supplier) is SDK code outside this model. So StartServer can answer Serving where the real process could fail while building the Azure client.
- Azure credential construction (`DefaultAzureCredential`, the token supplier) is left out. The capability of the identity library is the `identityAvailable` parameter.
- Logging is left out: it has no observable effect on replies.
- Asynchrony and client disconnects during a stream are not modelled. The stream is a finite sequence of chunks with a normal or raised end.
- Temperature is an opaque value, because floating point is not modelled. It is passed through unchanged.
- ListModels: the `{"object": "list", "data": [...]}` wrapper and the constant `"object": "model"` field are not modelled. The master-key dependency in front of it is the same `ProxyAuth.Authenticate` the chat and completion endpoints use, and it is not repeated there.
- The health check, the root document's fixed texts and the commented-out embeddings endpoint are left out. Only `supported_providers` is modelled.
- The HTTP request parsing done by FastAPI/Pydantic (422 replies for malformed bodies) is left out.
- The setup wizard's prompts, the `click` commands, subprocess calls and file system access (`run_cmd`, `file_must_exist`, writing files) are I/O and left out. The writers are modelled as the text they produce.
- FormatEnvValueRoundTrip: it is stated against a minimal reader of double-quoted values, which undoes `\\` and `\"`. python-dotenv's full grammar is not modelled.
- EnvFileRoundTrip: it requires keys without '=' or line breaks and values without line breaks. A line break inside a value gives a multi-line quoted value, which the line-based reader does not read back.
- Python's `\s` and `str.strip()` use the characters `str.isspace()` accepts, listed explicitly. `lower()` is modelled for ASCII letters only, which covers the "true" comparison of USE_AZURE_IDENTITY but not non-ASCII case mappings.
- Python dictionaries are modelled as sequences of (key, value) pairs in insertion order. Distinct keys are not required; the properties hold without it.
