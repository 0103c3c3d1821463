/** The `/api/chat` route of app/api/chat/route.ts: which model a request uses, whether
    it may go on without an API key, which provider serves the model, and which
    filesystem tool server the route starts. The SDK calls themselves are not modelled;
    the provider choice is a value. */
module ChatRoute {
  import opened JsText

  /* ------------------------------- model choice ----------------------------- */

  const RouteDefaultModel := "google_genai/gemini-2.5-flash"

  /** `X-Selected-Model || cookieModel || DEFAULT_SELECTED_MODEL || "google_genai/gemini-2.5-flash"`;
      an absent header or cookie is "". */
  function RouteModel(header: string, cookie: string, env: Env): (model: string)
    ensures model != ""
    ensures header != "" ==> model == header
    ensures header == "" && cookie != "" ==> model == cookie
    ensures header == "" && cookie == "" && EnvGet(env, "DEFAULT_SELECTED_MODEL") != "" ==>
      model == env["DEFAULT_SELECTED_MODEL"]
    ensures header == "" && cookie == "" && EnvGet(env, "DEFAULT_SELECTED_MODEL") == "" ==>
      model == RouteDefaultModel
  {
    Or(header, Or(cookie, Or(EnvGet(env, "DEFAULT_SELECTED_MODEL"), RouteDefaultModel)))
  }

  /** The guard before any tool is started: no key, and a model outside `ollama/` and `lmstudio/`. */
  predicate MissingKey(apiKey: string, model: string) {
    apiKey == "" && !StartsWith(model, "ollama/") && !StartsWith(model, "lmstudio/")
  }

  /* ----------------------------- provider switch ---------------------------- */

  datatype Vendor = OllamaVendor | OpenAIVendor | AnthropicVendor | GoogleVendor

  /** One `case` of the `switch (model)`: the model string it matches, the SDK its body calls and the model id
      it hands that SDK. */
  datatype Case = Case(model: string, vendor: Vendor, id: string)

  /** The number of `case` labels of the `switch`. */
  const CaseCount := 19

  /** The `i`-th `case` of the `switch`, in source order. */
  function CaseAt(i: nat): (c: Case)
    requires i < CaseCount
    ensures c.vendor == OllamaVendor <==> i < 8
    ensures c.vendor == GoogleVendor <==> i == 16 || i == 17
  {
    if i == 0 then Case("ollama/deepseek-r1:32b", OllamaVendor, "deepseek-r1:32b")
    else if i == 1 then Case("ollama/deepseek-r1:8b", OllamaVendor, "deepseek-r1:8b")
    else if i == 2 then Case("ollama/qwen3", OllamaVendor, "qwen3")
    else if i == 3 then Case("ollama/qwen3:30b", OllamaVendor, "qwen3:30b")
    else if i == 4 then Case("ollama/qwen3:32b", OllamaVendor, "qwen3:32b")
    else if i == 5 then Case("ollama/llama3.1:8b", OllamaVendor, "llama3.1:8b")
    else if i == 6 then Case("orieg/gemma3-tools:4b", OllamaVendor, "orieg/gemma3-tools:4b")
    else if i == 7 then Case("ollama/llama4:latest", OllamaVendor, "llama4:latest")
    else if i == 8 then Case("openai/gpt-4o", OpenAIVendor, "gpt-4o")
    else if i == 9 then Case("openai/gpt-4.1", OpenAIVendor, "gpt-4.1")
    else if i == 10 then Case("openai/gpt-4.1-mini", OpenAIVendor, "gpt-4.1-mini")
    else if i == 11 then Case("openai/gpt-4o-mini", OpenAIVendor, "gpt-4o-mini")
    else if i == 12 then Case("o4-mini", OpenAIVendor, "o4-mini")
    else if i == 13 then Case("anthropic/claude-3-7-sonnet-latest", AnthropicVendor, "claude-3-7-sonnet-latest")
    else if i == 14 then Case("anthropic/claude-3-5-haiku-latest", AnthropicVendor, "claude-3-5-haiku-latest")
    else if i == 15 then Case("anthropic/claude-opus-4-20250514", AnthropicVendor, "claude-opus-4-20250514")
    else if i == 16 then Case("google_genai/gemini-2.5-pro", GoogleVendor, "models/gemini-2.5-pro")
    else if i == 17 then Case("google_genai/gemini-2.5-flash", GoogleVendor, "models/gemini-2.5-flash")
    else Case("anthropic/claude-sonnet-4-20250514", AnthropicVendor, "claude-sonnet-4-20250514")
  }

  /** `model` is the label of one of the cases. */
  predicate IsCase(model: string) {
    exists i :: 0 <= i < CaseCount && CaseAt(i).model == model
  }

  /** Index of the first case at or after `from` whose label is `model`, as `switch` picks it. */
  function FindCase(model: string, from: nat): (k: Option<nat>)
    ensures k.Some? ==> from <= k.value < CaseCount && CaseAt(k.value).model == model
    ensures k.Some? ==> forall j :: from <= j < k.value ==> CaseAt(j).model != model
    ensures k.None? ==> forall j :: from <= j < CaseCount ==> CaseAt(j).model != model
    decreases CaseCount - from
  {
    if from >= CaseCount then None
    else if CaseAt(from).model == model then Some(from)
    else FindCase(model, from + 1)
  }

  /** What `selectModelProvider` returns: the configured SDK and the model id it is asked for. */
  datatype Provider =
    | LmStudio(baseUrl: string, key: string, modelId: string)
    | Ollama(modelId: string, simulateStreaming: bool)
    | OpenAI(apiKey: string, modelId: string)
    | Anthropic(apiKey: string, modelId: string)
    | Google(apiKey: string, modelId: string)

  const LmsPrefix := "lmstudio/"

  /** `selectModelProvider(model, apiKey)`; the thrown `Unsupported model` error is `Err`. */
  function SelectModelProvider(model: string, apiKey: string, env: Env): (r: Result<Provider, string>)
    ensures StartsWith(model, LmsPrefix) ==> r.Ok? && r.value.LmStudio?
    ensures r.Ok? && r.value.LmStudio? ==>
      StartsWith(model, LmsPrefix) && LmsPrefix + r.value.modelId == model && r.value.key != "" && r.value.baseUrl != ""
    ensures !StartsWith(model, LmsPrefix) ==> (r.Err? <==> !IsCase(model))
    ensures !StartsWith(model, LmsPrefix) && r.Ok? ==>
      exists i :: 0 <= i < CaseCount && CaseAt(i).model == model && r.value == ProviderOf(CaseAt(i), apiKey)
    ensures r.Err? ==> r.error == "Unsupported model: " + model
    ensures r.Ok? && (r.value.OpenAI? || r.value.Anthropic? || r.value.Google?) ==> r.value.apiKey == apiKey
  {
    if StartsWith(model, LmsPrefix) then
      var baseUrl := Or(EnvGet(env, "LMS_API_BASE"), Or(EnvGet(env, "NEXT_PUBLIC_LMS_API_BASE"), "http://localhost:1234/v1"));
      var key := Or(apiKey, Or(EnvGet(env, "LMS_API_KEY"), "lmstudio"));
      Ok(LmStudio(baseUrl, key, DropPrefix(model, LmsPrefix)))
    else
      match FindCase(model, 0)
      case None => Err("Unsupported model: " + model)
      case Some(k) => Ok(ProviderOf(CaseAt(k), apiKey))
  }

  /** The body of one `case`: the vendor's SDK, configured with the caller's key, asked for the id. */
  function ProviderOf(c: Case, apiKey: string): (p: Provider)
    ensures p.Ollama? <==> c.vendor == OllamaVendor
    ensures p.Ollama? ==> p.simulateStreaming
    ensures !p.LmStudio? && p.modelId == c.id
    ensures !p.Ollama? ==> p.apiKey == apiKey
  {
    match c.vendor
    case OllamaVendor => Ollama(c.id, true)
    case OpenAIVendor => OpenAI(apiKey, c.id)
    case AnthropicVendor => Anthropic(apiKey, c.id)
    case GoogleVendor => Google(apiKey, c.id)
  }

  /** The LM Studio settings: `LMS_API_BASE` before `NEXT_PUBLIC_LMS_API_BASE`, and the
      caller's key before `LMS_API_KEY` before the placeholder "lmstudio". */
  lemma LmStudioSettings(model: string, apiKey: string, env: Env)
    requires StartsWith(model, LmsPrefix)
    ensures var p := SelectModelProvider(model, apiKey, env).value;
      (EnvGet(env, "LMS_API_BASE") != "" ==> p.baseUrl == env["LMS_API_BASE"]) &&
      (EnvGet(env, "LMS_API_BASE") == "" && EnvGet(env, "NEXT_PUBLIC_LMS_API_BASE") != "" ==>
         p.baseUrl == env["NEXT_PUBLIC_LMS_API_BASE"]) &&
      (EnvGet(env, "LMS_API_BASE") == "" && EnvGet(env, "NEXT_PUBLIC_LMS_API_BASE") == "" ==>
         p.baseUrl == "http://localhost:1234/v1") &&
      (apiKey != "" ==> p.key == apiKey) &&
      (apiKey == "" && EnvGet(env, "LMS_API_KEY") != "" ==> p.key == env["LMS_API_KEY"]) &&
      (apiKey == "" && EnvGet(env, "LMS_API_KEY") == "" ==> p.key == "lmstudio")
  {
  }

  /** Every Ollama model is asked for with `simulateStreaming: true`, under the model string
      without its `ollama/` prefix, or under the whole string when it has no provider prefix
      (`orieg/gemma3-tools:4b`). */
  lemma OllamaSimulatesStreaming(model: string, apiKey: string, env: Env)
    requires SelectModelProvider(model, apiKey, env).Ok?
    requires SelectModelProvider(model, apiKey, env).value.Ollama?
    ensures SelectModelProvider(model, apiKey, env).value.simulateStreaming
    ensures model == "ollama/" + SelectModelProvider(model, apiKey, env).value.modelId ||
            model == SelectModelProvider(model, apiKey, env).value.modelId
  {
    OllamaCaseIds(FindCase(model, 0).value);
  }

  /** The id of an Ollama case is its label after `ollama/`, or the whole label. */
  lemma OllamaCaseIds(i: nat)
    requires i < 8
    ensures CaseAt(i).model == "ollama/" + CaseAt(i).id || CaseAt(i).model == CaseAt(i).id
  {
    if i < 4 {
      OllamaCaseIdsHead(i);
    } else {
      OllamaCaseIdsTail(i);
    }
  }

  lemma OllamaCaseIdsHead(i: nat)
    requires i < 4
    ensures CaseAt(i).model == "ollama/" + CaseAt(i).id
  {
    if i == 0 {
      assert "ollama/" + "deepseek-r1:32b" == "ollama/deepseek-r1:32b";
    } else if i == 1 {
      assert "ollama/" + "deepseek-r1:8b" == "ollama/deepseek-r1:8b";
    } else if i == 2 {
      assert "ollama/" + "qwen3" == "ollama/qwen3";
    } else {
      assert "ollama/" + "qwen3:30b" == "ollama/qwen3:30b";
    }
  }

  lemma OllamaCaseIdsTail(i: nat)
    requires 4 <= i < 8
    ensures CaseAt(i).model == "ollama/" + CaseAt(i).id || CaseAt(i).model == CaseAt(i).id
  {
    if i == 4 {
      assert "ollama/" + "qwen3:32b" == "ollama/qwen3:32b";
    } else if i == 5 {
      assert "ollama/" + "llama3.1:8b" == "ollama/llama3.1:8b";
    } else if i == 7 {
      assert "ollama/" + "llama4:latest" == "ollama/llama4:latest";
    }
  }

  /** Google models are asked for as `models/` followed by the name after `google_genai/`. */
  lemma GoogleModelIds(model: string, apiKey: string, env: Env)
    requires SelectModelProvider(model, apiKey, env).Ok?
    requires SelectModelProvider(model, apiKey, env).value.Google?
    ensures exists bare :: model == "google_genai/" + bare &&
                           SelectModelProvider(model, apiKey, env).value.modelId == "models/" + bare
  {
    var bare := GoogleCaseIds(FindCase(model, 0).value);
  }

  /** The two Google cases share the name after `google_genai/` with their `models/` id. */
  lemma GoogleCaseIds(i: nat) returns (bare: string)
    requires i == 16 || i == 17
    ensures CaseAt(i).model == "google_genai/" + bare && CaseAt(i).id == "models/" + bare
  {
    if i == 16 {
      bare := "gemini-2.5-pro";
      assert "google_genai/" + bare == "google_genai/gemini-2.5-pro";
      assert "models/" + bare == "models/gemini-2.5-pro";
    } else {
      bare := "gemini-2.5-flash";
      assert "google_genai/" + bare == "google_genai/gemini-2.5-flash";
      assert "models/" + bare == "models/gemini-2.5-flash";
    }
  }

  /* ------------------------------- the request ------------------------------ */

  /** What `POST` ends with: a 400 for a missing key, the thrown `Unsupported model`, or a stream
      from the chosen provider. */
  datatype Outcome = MissingApiKey | Unsupported(message: string) | Streaming(provider: Provider)

  /** `POST`: the key and model checks, then the provider. */
  function Route(keyHeader: string, modelHeader: string, cookie: string, env: Env): (o: Outcome)
    ensures var model := RouteModel(modelHeader, cookie, env);
      (o.MissingApiKey? <==> MissingKey(keyHeader, model)) &&
      (o.Unsupported? ==> o.message == "Unsupported model: " + model) &&
      (StartsWith(model, LmsPrefix) ==> o.Streaming?) &&
      (!MissingKey(keyHeader, model) ==>
        (o.Unsupported? <==> SelectModelProvider(model, keyHeader, env).Err?) &&
        (o.Streaming? ==> o.provider == SelectModelProvider(model, keyHeader, env).value))
  {
    var model := RouteModel(modelHeader, cookie, env);
    if MissingKey(keyHeader, model) then MissingApiKey
    else match SelectModelProvider(model, keyHeader, env)
      case Err(m) => Unsupported(m)
      case Ok(p) => Streaming(p)
  }

  /** `orieg/gemma3-tools:4b` is served by Ollama but, lacking the `ollama/` prefix, still
      needs a key to get past the guard. */
  lemma GemmaNeedsKey(env: Env)
    ensures Route("", "orieg/gemma3-tools:4b", "", env) == MissingApiKey
    ensures Route("k", "orieg/gemma3-tools:4b", "", env) == Streaming(Ollama("orieg/gemma3-tools:4b", true))
  {
    var model := "orieg/gemma3-tools:4b";
    assert model[0] == 'o' && model[1] == 'r';
    assert !StartsWith(model, "ollama/") && !StartsWith(model, "lmstudio/");
    assert CaseAt(6).model == model;
    assert IsCase(model);
  }

  /* ------------------------------- tool servers ----------------------------- */

  /** What the route reads from the host besides the environment. */
  datatype Host = Host(homedir: string, cwd: string, win32: bool)

  /** `path.join(dir, rel)` for a relative `rel` without `.` or `..` segments. */
  function Join(dir: string, rel: string): string {
    dir + "/" + rel
  }

  /** `resolveFilesystemCmd()` */
  function ResolveFilesystemCmd(env: Env, host: Host): (cmd: string)
    ensures EnvGet(env, "MCP_FILESYSTEM_CMD") != "" ==> cmd == env["MCP_FILESYSTEM_CMD"]
    ensures EnvGet(env, "MCP_FILESYSTEM_CMD") == "" && EnvGet(env, "MCP_PREFER_NODE_BIN") == "1" ==>
      cmd == Join(host.cwd, if host.win32 then "node_modules/.bin/mcp-filesystem.cmd" else "node_modules/.bin/mcp-filesystem")
    ensures EnvGet(env, "MCP_FILESYSTEM_CMD") == "" && EnvGet(env, "MCP_PREFER_NODE_BIN") != "1" ==>
      cmd == Or(EnvGet(env, "HOME"), host.homedir) + "/go/bin/mcp-filesystem-server"
  {
    if EnvGet(env, "MCP_FILESYSTEM_CMD") != "" then env["MCP_FILESYSTEM_CMD"]
    else
      var goBin := Or(EnvGet(env, "HOME"), host.homedir) + "/go/bin/mcp-filesystem-server";
      var nodeBin := Join(host.cwd, if host.win32 then "node_modules/.bin/mcp-filesystem.cmd"
                                    else "node_modules/.bin/mcp-filesystem");
      if EnvGet(env, "MCP_PREFER_NODE_BIN") == "1" then nodeBin else goBin
  }

  /** The two directories the filesystem server is started with. */
  function FilesystemArgs(env: Env, host: Host): (args: seq<string>)
    ensures |args| == 2
    ensures args[0] == Or(EnvGet(env, "MCP_FS_ASSETS_DIR"), Join(host.cwd, "public/assets"))
    ensures args[1] == Join(host.homedir, ".coderunner/assets")
  {
    [Or(EnvGet(env, "MCP_FS_ASSETS_DIR"), Join(host.cwd, "public/assets")), Join(host.homedir, ".coderunner/assets")]
  }

  /** `CODERUNNER_MCP_URL || NEXT_PUBLIC_CODERUNNER_MCP_URL || "http://localhost:8222/mcp"` */
  function CoderunnerUrl(env: Env): (url: string)
    ensures url != ""
    ensures EnvGet(env, "CODERUNNER_MCP_URL") != "" ==> url == env["CODERUNNER_MCP_URL"]
    ensures EnvGet(env, "CODERUNNER_MCP_URL") == "" && EnvGet(env, "NEXT_PUBLIC_CODERUNNER_MCP_URL") != "" ==>
      url == env["NEXT_PUBLIC_CODERUNNER_MCP_URL"]
    ensures EnvGet(env, "CODERUNNER_MCP_URL") == "" && EnvGet(env, "NEXT_PUBLIC_CODERUNNER_MCP_URL") == "" ==>
      url == "http://localhost:8222/mcp"
  {
    Or(EnvGet(env, "CODERUNNER_MCP_URL"), Or(EnvGet(env, "NEXT_PUBLIC_CODERUNNER_MCP_URL"), "http://localhost:8222/mcp"))
  }
}
