/** The LiteLLM configuration file the setup wizard writes
    (`build_config_yaml`): a `model_list` with one entry per enabled Azure
    deployment, per selected Vertex model and for Qwen, followed by a fixed
    tail of router, general and LiteLLM settings. An entry is a
    `  - model_name: <name>` line, the `    litellm_params:` header, one
    `      <key>: <value>` line per setting and a blank line. */
module CliConfigYaml {
  import opened PyText

  /** The keyword arguments of `build_config_yaml`; `azureModels` is the
      dictionary's items (model name, deployment) in insertion order. */
  datatype YamlParams = YamlParams(
    sslCertFile: string,
    azureEnabled: bool,
    azureApiBase: string,
    azureApiVersion: string,
    azureModels: seq<(string, string)>,
    azureUseProxy: bool,
    vertexEnabled: bool,
    vertexModels: seq<string>,
    vertexUseProxy: bool,
    qwenEnabled: bool,
    qwenUseProxy: bool,
    masterKey: string)

  /** A setting of an entry: key and value. */
  type Setting = (string, string)

  const EntryPrefix: string := "  - model_name: "
  const ParamsLine: string := "    litellm_params:"

  /** The Vertex models the wizard knows, as (entry name, Vertex model id), in
      the order they are written. */
  const VertexCatalog: seq<(string, string)> :=
    [("gemini-pro", "gemini-1.5-pro"), ("gemini-3-flash", "gemini-3-flash"), ("gemini-3-pro", "gemini-3-pro")]

  function Quoted(s: string): string {
    "\"" + s + "\""
  }

  /** LiteLLM's reference to an environment variable, quoted. */
  function EnvRef(name: string): string {
    Quoted("os.environ/" + name)
  }

  function EntryLine(name: string): string {
    EntryPrefix + name
  }

  function SettingLine(s: Setting): string {
    "      " + s.0 + ": " + s.1
  }

  function SettingLines(ss: seq<Setting>): (ls: seq<string>)
    ensures |ls| == |ss|
    ensures forall i :: 0 <= i < |ss| ==> ls[i] == SettingLine(ss[i])
  {
    if |ss| == 0 then [] else [SettingLine(ss[0])] + SettingLines(ss[1..])
  }

  /** The lines of one entry of the model list. */
  function Entry(name: string, settings: seq<Setting>): seq<string> {
    [EntryLine(name), ParamsLine] + SettingLines(settings) + [""]
  }

  /** What the nested `maybe_ssl` contributes. */
  function SslSettings(p: YamlParams): (r: seq<Setting>)
    ensures |r| <= 1
    ensures |r| == 1 <==> p.sslCertFile != ""
    ensures forall i :: 0 <= i < |r| ==> r[i] == ("ssl_verify", Quoted(p.sslCertFile))
  {
    if p.sslCertFile != "" then [("ssl_verify", Quoted(p.sslCertFile))] else []
  }

  function ProxySettings(enabled: bool, variable: string): seq<Setting> {
    if enabled then [("http_proxy", EnvRef(variable))] else []
  }

  function AzureSettings(p: YamlParams, deployment: string): seq<Setting> {
    [ ("model", "azure/" + deployment),
      ("api_base", p.azureApiBase),
      ("api_version", Quoted(p.azureApiVersion)),
      ("use_azure_ad", "True") ]
    + SslSettings(p) + ProxySettings(p.azureUseProxy, "AZURE_PROXY") + [("rpm", "1000")]
  }

  /** The entries of the Azure models in order, skipping empty deployments. */
  function AzureBlocks(p: YamlParams, models: seq<(string, string)>): seq<string> {
    if |models| == 0 then []
    else
      var (name, deployment) := models[|models| - 1];
      AzureBlocks(p, models[..|models| - 1]) + (if deployment == "" then [] else Entry(name, AzureSettings(p, deployment)))
  }

  function VertexSettings(p: YamlParams, modelId: string): seq<Setting> {
    [ ("model", "vertex_ai/" + modelId),
      ("vertex_project", EnvRef("VERTEX_PROJECT")),
      ("vertex_location", EnvRef("VERTEX_LOCATION")) ]
    + ProxySettings(p.vertexUseProxy, "GEMINI_PROXY") + SslSettings(p)
  }

  /** The entries of the catalog models the user selected, in catalog order. */
  function VertexBlocks(p: YamlParams, catalog: seq<(string, string)>): seq<string> {
    if |catalog| == 0 then []
    else
      var (name, modelId) := catalog[|catalog| - 1];
      VertexBlocks(p, catalog[..|catalog| - 1]) + (if name in p.vertexModels then Entry(name, VertexSettings(p, modelId)) else [])
  }

  function QwenSettings(p: YamlParams): seq<Setting> {
    [ ("model", "dashscope/qwen-max"),
      ("api_key", EnvRef("DASHSCOPE_API_KEY")) ]
    + ProxySettings(p.qwenUseProxy, "QWEN_PROXY") + SslSettings(p)
  }

  function AzureSection(p: YamlParams): seq<string> {
    if p.azureEnabled then AzureBlocks(p, p.azureModels) else []
  }

  function VertexSection(p: YamlParams): seq<string> {
    if p.vertexEnabled then VertexBlocks(p, VertexCatalog) else []
  }

  function QwenSection(p: YamlParams): seq<string> {
    if p.qwenEnabled then Entry("qwen-max", QwenSettings(p)) else []
  }

  /** The fixed settings that close every configuration. */
  function Tail(masterKey: string): (t: seq<string>)
    ensures |t| == 12 && t[0] == "router_settings:" && t[6] == "  master_key: " + masterKey
  {
    [ "router_settings:",
      "  routing_strategy: simple-shuffle",
      "  model_group_alias:",
      "    \"default-model\": []",
      "",
      "general_settings:",
      "  master_key: " + masterKey,
      "",
      "litellm_settings:",
      "  drop_params: True",
      "  set_verbose: False",
      "" ]
  }

  function ConfigLines(p: YamlParams): seq<string> {
    ["model_list:"] + AzureSection(p) + VertexSection(p) + QwenSection(p) + Tail(p.masterKey)
  }

  // ------------------------------------------------------------ the builder

  /** The lines `build_config_yaml` appends for one Azure model: the fixed
      parameters, then `maybe_ssl`, then the optional proxy, the rate limit and
      a blank line. */
  method AppendAzureBlock(p: YamlParams, lines: seq<string>, name: string, deployment: string)
    returns (out: seq<string>)
    ensures out == lines + Entry(name, AzureSettings(p, deployment))
  {
    out := lines + [
      EntryLine(name),
      ParamsLine,
      SettingLine(("model", "azure/" + deployment)),
      SettingLine(("api_base", p.azureApiBase)),
      SettingLine(("api_version", Quoted(p.azureApiVersion))),
      SettingLine(("use_azure_ad", "True")) ];
    if p.sslCertFile != "" {
      out := out + [SettingLine(("ssl_verify", Quoted(p.sslCertFile)))];
    }
    if p.azureUseProxy {
      out := out + [SettingLine(("http_proxy", EnvRef("AZURE_PROXY")))];
    }
    out := out + [SettingLine(("rpm", "1000"))];
    out := out + [""];
  }

  /** One more model extends the Azure entries by that model's entry, if it
      has a deployment. */
  lemma AzureBlocksStep(p: YamlParams, models: seq<(string, string)>, i: nat)
    requires i < |models|
    ensures AzureBlocks(p, models[..i + 1]) ==
      AzureBlocks(p, models[..i]) + (if models[i].1 == "" then [] else Entry(models[i].0, AzureSettings(p, models[i].1)))
  {
    assert models[..i + 1][..i] == models[..i];
  }

  /** The Azure loop: every model in insertion order, skipping those without
      a deployment name. */
  method AzureLines(p: YamlParams) returns (lines: seq<string>)
    ensures lines == AzureSection(p)
  {
    lines := [];
    if !p.azureEnabled {
      return;
    }
    var i := 0;
    while i < |p.azureModels|
      invariant 0 <= i <= |p.azureModels|
      invariant lines == AzureBlocks(p, p.azureModels[..i])
    {
      AzureBlocksStep(p, p.azureModels, i);
      var (name, deployment) := p.azureModels[i];
      if deployment == "" {
        i := i + 1;
        continue;
      }
      lines := AppendAzureBlock(p, lines, name, deployment);
      i := i + 1;
    }
    assert p.azureModels[..i] == p.azureModels;
  }

  method AppendVertexBlock(p: YamlParams, lines: seq<string>, name: string, modelId: string)
    returns (out: seq<string>)
    ensures out == lines + Entry(name, VertexSettings(p, modelId))
  {
    out := lines + [
      EntryLine(name),
      ParamsLine,
      SettingLine(("model", "vertex_ai/" + modelId)),
      SettingLine(("vertex_project", EnvRef("VERTEX_PROJECT"))),
      SettingLine(("vertex_location", EnvRef("VERTEX_LOCATION"))) ];
    if p.vertexUseProxy {
      out := out + [SettingLine(("http_proxy", EnvRef("GEMINI_PROXY")))];
    }
    if p.sslCertFile != "" {
      out := out + [SettingLine(("ssl_verify", Quoted(p.sslCertFile)))];
    }
    out := out + [""];
  }

  /** The Vertex loop over the fixed catalog, keeping the selected names. */
  method VertexLines(p: YamlParams) returns (lines: seq<string>)
    ensures lines == VertexSection(p)
  {
    lines := [];
    if !p.vertexEnabled {
      return;
    }
    var i := 0;
    while i < |VertexCatalog|
      invariant 0 <= i <= |VertexCatalog|
      invariant lines == VertexBlocks(p, VertexCatalog[..i])
    {
      assert VertexCatalog[..i + 1][..i] == VertexCatalog[..i];
      var (name, modelId) := VertexCatalog[i];
      if name !in p.vertexModels {
        i := i + 1;
        continue;
      }
      lines := AppendVertexBlock(p, lines, name, modelId);
      i := i + 1;
    }
    assert VertexCatalog[..i] == VertexCatalog;
  }

  method QwenLines(p: YamlParams) returns (lines: seq<string>)
    ensures lines == QwenSection(p)
  {
    lines := [];
    if !p.qwenEnabled {
      return;
    }
    lines := [
      EntryLine("qwen-max"),
      ParamsLine,
      SettingLine(("model", "dashscope/qwen-max")),
      SettingLine(("api_key", EnvRef("DASHSCOPE_API_KEY"))) ];
    if p.qwenUseProxy {
      lines := lines + [SettingLine(("http_proxy", EnvRef("QWEN_PROXY")))];
    }
    if p.sslCertFile != "" {
      lines := lines + [SettingLine(("ssl_verify", Quoted(p.sslCertFile)))];
    }
    lines := lines + [""];
  }

  /** `build_config_yaml`: collect the lines section by section and join them
      with line breaks. */
  method BuildConfigYaml(p: YamlParams) returns (yaml: string)
    ensures yaml == Join(ConfigLines(p), "\n")
  {
    var lines: seq<string> := ["model_list:"];
    var azure := AzureLines(p);
    lines := lines + azure;
    var vertex := VertexLines(p);
    lines := lines + vertex;
    var qwen := QwenLines(p);
    lines := lines + qwen;
    lines := lines + Tail(p.masterKey);
    yaml := Join(lines, "\n");
  }

  // ------------------------------------------------------ the output frame

  /** Lines joined after a first line start with that line and a break. */
  lemma JoinStarts(first: string, rest: seq<string>, sep: string)
    requires |rest| >= 1
    ensures StartsWith(Join([first] + rest, sep), first + sep)
  {
    assert ([first] + rest)[1..] == rest;
  }

  /** A fixed last group of lines ends the joined text, after a break. */
  lemma JoinEnds(front: seq<string>, tail: seq<string>, sep: string)
    requires |front| >= 1 && |tail| >= 1
    ensures EndsWith(Join(front + tail, sep), sep + Join(tail, sep))
  {
    JoinAppend(front, tail, sep);
    var suffix := sep + Join(tail, sep);
    var text := Join(front, sep) + suffix;
    assert Join(front + tail, sep) == text;
    assert text[|text| - |suffix|..] == suffix;
  }

  /** Every configuration opens with `model_list:` on its own line and closes
      with the fixed settings tail, which names the master key. */
  lemma ConfigFrame(p: YamlParams)
    ensures var yaml := Join(ConfigLines(p), "\n");
      && StartsWith(yaml, "model_list:\n")
      && EndsWith(yaml, "\n" + Join(Tail(p.masterKey), "\n"))
  {
    var front := ["model_list:"] + AzureSection(p) + VertexSection(p) + QwenSection(p);
    var rest := AzureSection(p) + VertexSection(p) + QwenSection(p) + Tail(p.masterKey);
    assert ConfigLines(p) == ["model_list:"] + rest;
    JoinStarts("model_list:", rest, "\n");
    JoinEnds(front, Tail(p.masterKey), "\n");
  }

  // ------------------------------------------------ the settings of an entry

  /** The position of the first setting with key `key`, or `|ss|`. */
  function KeyIndex(ss: seq<Setting>, key: string): (i: nat)
    ensures i <= |ss|
    ensures forall j :: 0 <= j < i ==> ss[j].0 != key
    ensures i < |ss| ==> ss[i].0 == key
  {
    if |ss| == 0 then 0 else if ss[0].0 == key then 0 else 1 + KeyIndex(ss[1..], key)
  }

  predicate HasKey(ss: seq<Setting>, key: string) {
    KeyIndex(ss, key) < |ss|
  }

  /** An Azure entry deploys `azure/<deployment>`, has `ssl_verify` exactly
      when a certificate file was given and then before `http_proxy`, and
      its last setting is the rate limit `rpm: 1000`. */
  lemma AzureSettingsShape(p: YamlParams, deployment: string)
    ensures var ss := AzureSettings(p, deployment);
      && ss[0] == ("model", "azure/" + deployment)
      && ss[|ss| - 1] == ("rpm", "1000")
      && (HasKey(ss, "ssl_verify") <==> p.sslCertFile != "")
      && (HasKey(ss, "http_proxy") <==> p.azureUseProxy)
      && (p.sslCertFile != "" ==> ss[KeyIndex(ss, "ssl_verify")].1 == Quoted(p.sslCertFile))
      && (p.sslCertFile != "" && p.azureUseProxy ==> KeyIndex(ss, "ssl_verify") < KeyIndex(ss, "http_proxy"))
  {
    var ss := AzureSettings(p, deployment);
    if p.sslCertFile != "" {
      assert ss[4].0 == "ssl_verify";
    }
    if p.azureUseProxy {
      assert ss[4 + |SslSettings(p)|].0 == "http_proxy";
    }
  }

  /** A Vertex entry names its Vertex model id; here `http_proxy` comes
      before `ssl_verify`, which again appears exactly when a certificate file
      was given. */
  lemma VertexSettingsShape(p: YamlParams, modelId: string)
    ensures var ss := VertexSettings(p, modelId);
      && ss[0] == ("model", "vertex_ai/" + modelId)
      && (HasKey(ss, "ssl_verify") <==> p.sslCertFile != "")
      && (HasKey(ss, "http_proxy") <==> p.vertexUseProxy)
      && (p.sslCertFile != "" ==> ss[KeyIndex(ss, "ssl_verify")].1 == Quoted(p.sslCertFile))
      && (p.sslCertFile != "" && p.vertexUseProxy ==> KeyIndex(ss, "http_proxy") < KeyIndex(ss, "ssl_verify"))
  {
    var ss := VertexSettings(p, modelId);
    if p.vertexUseProxy {
      assert ss[3].0 == "http_proxy";
    }
    if p.sslCertFile != "" {
      assert ss[|ss| - 1].0 == "ssl_verify";
    }
  }

  /** The Qwen entry: `http_proxy` first, then `ssl_verify` exactly when a
      certificate file was given. */
  lemma QwenSettingsShape(p: YamlParams)
    ensures var ss := QwenSettings(p);
      && ss[0] == ("model", "dashscope/qwen-max")
      && (HasKey(ss, "ssl_verify") <==> p.sslCertFile != "")
      && (HasKey(ss, "http_proxy") <==> p.qwenUseProxy)
      && (p.sslCertFile != "" && p.qwenUseProxy ==> KeyIndex(ss, "http_proxy") < KeyIndex(ss, "ssl_verify"))
  {
    var ss := QwenSettings(p);
    if p.qwenUseProxy {
      assert ss[2].0 == "http_proxy";
    }
    if p.sslCertFile != "" {
      assert ss[|ss| - 1].0 == "ssl_verify";
    }
  }

  /** The Qwen entry is written exactly when Qwen is enabled. */
  lemma QwenSectionIffEnabled(p: YamlParams)
    ensures |QwenSection(p)| > 0 <==> p.qwenEnabled
    ensures p.qwenEnabled ==> QwenSection(p)[0] == EntryLine("qwen-max")
  {
  }

  // ------------------------------------------------ the entries of the list

  /** The model name a `  - model_name: ` line declares. */
  function EntryName(line: string): Option<string> {
    if StartsWith(line, EntryPrefix) then Some(line[|EntryPrefix|..]) else None
  }

  /** The model names the lines declare, in order. */
  function EntryNames(ls: seq<string>): seq<string> {
    if |ls| == 0 then []
    else (if EntryName(ls[0]).Some? then [EntryName(ls[0]).value] else []) + EntryNames(ls[1..])
  }

  /** The Azure models that get an entry: those with a deployment name. */
  function AzureEntryNames(models: seq<(string, string)>): seq<string> {
    if |models| == 0 then []
    else
      var (name, deployment) := models[|models| - 1];
      AzureEntryNames(models[..|models| - 1]) + (if deployment == "" then [] else [name])
  }

  /** The catalog names that were selected, in catalog order. */
  function SelectedNames(catalog: seq<(string, string)>, selected: seq<string>): seq<string> {
    if |catalog| == 0 then []
    else
      var name := catalog[|catalog| - 1].0;
      SelectedNames(catalog[..|catalog| - 1], selected) + (if name in selected then [name] else [])
  }

  /** The model entries a configuration should declare: the Azure models with
      a deployment, the selected Vertex models in catalog order, then Qwen. */
  function ExpectedEntries(p: YamlParams): seq<string> {
    (if p.azureEnabled then AzureEntryNames(p.azureModels) else [])
    + (if p.vertexEnabled then SelectedNames(VertexCatalog, p.vertexModels) else [])
    + (if p.qwenEnabled then ["qwen-max"] else [])
  }

  lemma {:induction false} EntryNamesAppend(a: seq<string>, b: seq<string>)
    ensures EntryNames(a + b) == EntryNames(a) + EntryNames(b)
    decreases |a|
  {
    if |a| == 0 {
      assert a + b == b;
    } else {
      assert (a + b)[1..] == a[1..] + b;
      EntryNamesAppend(a[1..], b);
    }
  }

  /** A line whose third character is not '-' declares no entry. */
  predicate NotEntryLine(line: string) {
    |line| < 3 || line[2] != '-'
  }

  lemma EntryLineShape(line: string)
    ensures StartsWith(line, EntryPrefix) ==> !NotEntryLine(line)
  {
    if StartsWith(line, EntryPrefix) {
      assert line[..|EntryPrefix|] == EntryPrefix;
      assert line[2] == line[..|EntryPrefix|][2];
    }
  }

  lemma {:induction false} NoEntryNames(ls: seq<string>)
    requires forall i :: 0 <= i < |ls| ==> NotEntryLine(ls[i])
    ensures EntryNames(ls) == []
    decreases |ls|
  {
    if |ls| > 0 {
      EntryLineShape(ls[0]);
      NoEntryNames(ls[1..]);
    }
  }

  /** An entry declares exactly its own name: the header, its settings and
      the blank line after them are indented or empty. */
  lemma EntryDeclaresName(name: string, settings: seq<Setting>)
    ensures EntryNames(Entry(name, settings)) == [name]
  {
    var rest := [ParamsLine] + SettingLines(settings) + [""];
    assert forall i :: 0 <= i < |rest| ==> NotEntryLine(rest[i]) by {
      forall i | 0 <= i < |rest| ensures NotEntryLine(rest[i]) {
        if 1 <= i < |rest| - 1 {
          assert rest[i] == SettingLine(settings[i - 1]);
        }
      }
    }
    NoEntryNames(rest);
    var b := Entry(name, settings);
    assert b == [EntryLine(name)] + rest;
    assert b[1..] == rest;
    assert EntryLine(name)[|EntryPrefix|..] == name;
  }

  lemma {:induction false} AzureBlocksEntries(p: YamlParams, models: seq<(string, string)>)
    ensures EntryNames(AzureBlocks(p, models)) == AzureEntryNames(models)
    decreases |models|
  {
    if |models| > 0 {
      var (name, deployment) := models[|models| - 1];
      AzureBlocksEntries(p, models[..|models| - 1]);
      var block := if deployment == "" then [] else Entry(name, AzureSettings(p, deployment));
      EntryNamesAppend(AzureBlocks(p, models[..|models| - 1]), block);
      if deployment != "" {
        EntryDeclaresName(name, AzureSettings(p, deployment));
      }
    }
  }

  lemma {:induction false} VertexBlocksEntries(p: YamlParams, catalog: seq<(string, string)>)
    ensures EntryNames(VertexBlocks(p, catalog)) == SelectedNames(catalog, p.vertexModels)
    decreases |catalog|
  {
    if |catalog| > 0 {
      var (name, modelId) := catalog[|catalog| - 1];
      VertexBlocksEntries(p, catalog[..|catalog| - 1]);
      var block := if name in p.vertexModels then Entry(name, VertexSettings(p, modelId)) else [];
      EntryNamesAppend(VertexBlocks(p, catalog[..|catalog| - 1]), block);
      if name in p.vertexModels {
        EntryDeclaresName(name, VertexSettings(p, modelId));
      }
    }
  }

  lemma EntryNamesOfParts(az: seq<string>, vx: seq<string>, qw: seq<string>, tl: seq<string>)
    requires EntryNames(tl) == []
    ensures EntryNames(["model_list:"] + az + vx + qw + tl) == EntryNames(az) + EntryNames(vx) + EntryNames(qw)
  {
    var head: seq<string> := ["model_list:"];
    assert EntryNames(head) == [] by {
      assert head[1..] == [];
    }
    EntryNamesAppend(head + az + vx + qw, tl);
    EntryNamesAppend(head + az + vx, qw);
    EntryNamesAppend(head + az, vx);
    EntryNamesAppend(head, az);
  }

  /** The configuration declares exactly the expected model entries, in
      order: one per Azure model with a deployment, one per selected Vertex
      model in catalog order, and `qwen-max` when Qwen is enabled. */
  lemma ConfigEntries(p: YamlParams)
    ensures EntryNames(ConfigLines(p)) == ExpectedEntries(p)
  {
    var tl := Tail(p.masterKey);
    assert forall i :: 0 <= i < |tl| ==> NotEntryLine(tl[i]);
    NoEntryNames(tl);
    EntryNamesOfParts(AzureSection(p), VertexSection(p), QwenSection(p), tl);
    if p.azureEnabled {
      AzureBlocksEntries(p, p.azureModels);
    }
    if p.vertexEnabled {
      VertexBlocksEntries(p, VertexCatalog);
    }
    if p.qwenEnabled {
      EntryDeclaresName("qwen-max", QwenSettings(p));
    }
  }
}
