/** The model dropdown's option list of modelOptions.ts: the fixed models first, then
    whatever LM Studio reports. */
module ModelOptions {
  import opened JsText
  import opened LmsModels
  import ChatRoute

  const StaticModels: seq<string> := [
    "ollama/deepseek-r1:32b",
    "ollama/deepseek-r1:8b",
    "ollama/qwen3",
    "ollama/qwen3:30b",
    "ollama/qwen3:32b",
    "ollama/llama3.1:8b",
    "orieg/gemma3-tools:4b",
    "ollama/llama4:latest",
    "openai/gpt-4o",
    "openai/gpt-4.1",
    "openai/gpt-4.1-mini",
    "openai/gpt-4o-mini",
    "o4-mini",
    "anthropic/claude-sonnet-4-20250514",
    "anthropic/claude-3-7-sonnet-latest",
    "anthropic/claude-3-5-haiku-latest",
    "anthropic/claude-opus-4-20250514",
    "google_genai/gemini-2.5-pro",
    "google_genai/gemini-2.5-flash"
  ]

  /** The `meta` of an LM Studio option. */
  datatype Meta = Meta(provider: string, state: Option<string>, ctx: Option<int>, size: Option<int>, family: Option<string>)

  datatype UIModelOption = UIModelOption(value: string, text: string, meta: Option<Meta>)

  /** `STATIC_MODELS.map(m => ({ value: m, label: m }))` */
  function StaticOptions(models: seq<string>): (opts: seq<UIModelOption>)
    ensures |opts| == |models|
    ensures forall i :: 0 <= i < |models| ==> opts[i] == UIModelOption(models[i], models[i], None)
  {
    seq(|models|, i requires 0 <= i < |models| => UIModelOption(models[i], models[i], None))
  }

  /** The option pushed for one LM Studio model. */
  function LmsOption(m: LmStudioRestModel): (o: UIModelOption)
    ensures o.value == "lmstudio/" + m.id && o.text == FormatLmStudioLabel(m)
    ensures o.meta == Some(Meta("lmstudio", m.state, m.contextLength, m.sizeBytes, m.family))
  {
    UIModelOption("lmstudio/" + m.id, FormatLmStudioLabel(m),
      Some(Meta("lmstudio", m.state, m.contextLength, m.sizeBytes, m.family)))
  }

  /** The options the loop pushes, in the order of the models. */
  function LmsOptions(lms: seq<LmStudioRestModel>): (opts: seq<UIModelOption>)
    ensures |opts| == |lms|
    ensures forall i :: 0 <= i < |lms| ==> opts[i] == LmsOption(lms[i])
  {
    if lms == [] then [] else LmsOptions(lms[..|lms| - 1]) + [LmsOption(lms[|lms| - 1])]
  }

  /** `getAllModelOptions()`, given what `listLmsModelsRest()` returned or threw. */
  method GetAllModelOptions(lms: Result<seq<LmStudioRestModel>, string>) returns (out: seq<UIModelOption>)
    ensures |out| == |StaticModels| + (if lms.Ok? then |lms.value| else 0)
    ensures out[..|StaticModels|] == StaticOptions(StaticModels)
    ensures lms.Err? ==> out == StaticOptions(StaticModels)
    ensures lms.Ok? ==> out[|StaticModels|..] == LmsOptions(lms.value)
  {
    out := StaticOptions(StaticModels);
    if lms.Ok? {
      var models := lms.value;
      for i := 0 to |models|
        invariant out == StaticOptions(StaticModels) + LmsOptions(models[..i])
      {
        assert models[..i + 1][..i] == models[..i];
        out := out + [LmsOption(models[i])];
      }
      assert models[..|models|] == models;
    }
  }

  /** Every static option shows its own value. */
  lemma StaticLabelsAreValues()
    ensures forall i :: 0 <= i < |StaticModels| ==>
      StaticOptions(StaticModels)[i].text == StaticOptions(StaticModels)[i].value
  {
  }

  /** An LM Studio option's value routes, in `/api/chat`, to LM Studio under exactly that model's id. */
  lemma LmsOptionRoutesToLmStudio(m: LmStudioRestModel, apiKey: string, env: Env)
    ensures var r := ChatRoute.SelectModelProvider(LmsOption(m).value, apiKey, env);
      r.Ok? && r.value.LmStudio? && r.value.modelId == m.id
  {
    var v := LmsOption(m).value;
    assert v[..|ChatRoute.LmsPrefix|] == ChatRoute.LmsPrefix;
    var r := ChatRoute.SelectModelProvider(v, apiKey, env);
    assert ChatRoute.LmsPrefix + r.value.modelId == ChatRoute.LmsPrefix + m.id;
    assert r.value.modelId == (ChatRoute.LmsPrefix + r.value.modelId)[|ChatRoute.LmsPrefix|..];
  }
  /** Every fixed model in the dropdown is one the `/api/chat` switch serves: choosing it never
      ends in `Unsupported model`. */
  lemma StaticModelsSupported(apiKey: string, env: Env)
    ensures forall i :: 0 <= i < |StaticModels| ==> ChatRoute.SelectModelProvider(StaticModels[i], apiKey, env).Ok?
  {
    StaticOllamaHead();
    StaticOllamaOpenAI();
    StaticOpenAIAnthropic();
    StaticAnthropicGoogle();
  }

  /** The first five Ollama entries are switch cases. */
  lemma StaticOllamaHead()
    ensures forall i :: 0 <= i < 5 ==> ChatRoute.IsCase(StaticModels[i])
  {
    assert ChatRoute.CaseAt(0).model == StaticModels[0];
    assert ChatRoute.CaseAt(1).model == StaticModels[1];
    assert ChatRoute.CaseAt(2).model == StaticModels[2];
    assert ChatRoute.CaseAt(3).model == StaticModels[3];
    assert ChatRoute.CaseAt(4).model == StaticModels[4];
  }

  /** The last three Ollama entries, `orieg/gemma3-tools:4b` among them, and the first two OpenAI entries are switch cases. */
  lemma StaticOllamaOpenAI()
    ensures forall i :: 5 <= i < 10 ==> ChatRoute.IsCase(StaticModels[i])
  {
    assert ChatRoute.CaseAt(5).model == StaticModels[5];
    assert ChatRoute.CaseAt(6).model == StaticModels[6];
    assert ChatRoute.CaseAt(7).model == StaticModels[7];
    assert ChatRoute.CaseAt(8).model == StaticModels[8];
    assert ChatRoute.CaseAt(9).model == StaticModels[9];
  }

  /** The last three OpenAI entries, `o4-mini` among them, and two Anthropic entries are switch cases; the dropdown lists Sonnet 4 first, the switch last. */
  lemma StaticOpenAIAnthropic()
    ensures forall i :: 10 <= i < 15 ==> ChatRoute.IsCase(StaticModels[i])
  {
    assert ChatRoute.CaseAt(10).model == StaticModels[10];
    assert ChatRoute.CaseAt(11).model == StaticModels[11];
    assert ChatRoute.CaseAt(12).model == StaticModels[12];
    assert ChatRoute.CaseAt(18).model == StaticModels[13];
    assert ChatRoute.CaseAt(13).model == StaticModels[14];
  }

  /** The last two Anthropic entries and the two Google entries are switch cases. */
  lemma StaticAnthropicGoogle()
    ensures forall i :: 15 <= i < 19 ==> ChatRoute.IsCase(StaticModels[i])
  {
    assert ChatRoute.CaseAt(14).model == StaticModels[15];
    assert ChatRoute.CaseAt(15).model == StaticModels[16];
    assert ChatRoute.CaseAt(16).model == StaticModels[17];
    assert ChatRoute.CaseAt(17).model == StaticModels[18];
  }
}
