/** The `/api/chat-proxy` route of app/api/chat-proxy/route.ts: it drops assistant
    messages with nothing to show, picks the model and the API key, and forwards
    the request to `/api/chat` with the headers that carry that choice. */
module ChatProxy {
  import opened JsText

  /* ------------------------------ sanitising -------------------------------- */

  /** One element of a message's `content` array; `kind` is its `type` field, `text` its
      `text` field when that is a string. */
  datatype Part = Part(kind: Option<string>, text: Option<string>)

  /** `content` is either an array of parts or some other value. */
  datatype Content = Parts(parts: seq<Part>) | NotArray

  datatype ChatMessage = ChatMessage(role: Option<string>, content: Content)

  /** A part that is worth keeping an assistant message for. */
  predicate Shows(p: Part) {
    p.kind == Some("tool-call") || (p.text.Some? && Trim(p.text.value) != "")
  }

  /** `parts.some(...)` */
  function SomeShows(parts: seq<Part>): (b: bool)
    ensures b <==> exists i :: 0 <= i < |parts| && Shows(parts[i])
  {
    if parts == [] then false
    else Shows(parts[0]) || SomeShows(parts[1..])
  }

  /** The filter callback: every non-assistant message stays; an assistant message stays
      only when its content is an array with a part that shows something. */
  predicate Keep(m: ChatMessage) {
    m.role != Some("assistant") || SomeShows(if m.content.Parts? then m.content.parts else [])
  }

  /** A tool call, or a text with a character that is not whitespace. */
  predicate Visible(p: Part) {
    p.kind == Some("tool-call") || (p.text.Some? && !IsBlank(p.text.value))
  }

  /** An assistant message is kept exactly when it holds a tool call or text that is not all whitespace. */
  lemma KeepAssistant(m: ChatMessage)
    requires m.role == Some("assistant")
    ensures Keep(m) <==> m.content.Parts? && exists i :: 0 <= i < |m.content.parts| && Visible(m.content.parts[i])
  {
    if m.content.Parts? {
      forall i | 0 <= i < |m.content.parts| && m.content.parts[i].text.Some? {
        TrimEmptyIffBlank(m.content.parts[i].text.value);
      }
    }
  }

  /** `messages.filter(keep)` */
  function Sanitize(msgs: seq<ChatMessage>): (r: seq<ChatMessage>)
    ensures |r| <= |msgs|
    ensures forall i :: 0 <= i < |r| ==> Keep(r[i])
  {
    if msgs == [] then []
    else (if Keep(msgs[0]) then [msgs[0]] else []) + Sanitize(msgs[1..])
  }

  /** `a` is `b` with some elements removed, the rest in their order. */
  predicate IsSubsequence<T(==)>(a: seq<T>, b: seq<T>)
    decreases |b|
  {
    if b == [] then a == []
    else (a != [] && a[0] == b[0] && IsSubsequence(a[1..], b[1..])) || IsSubsequence(a, b[1..])
  }

  /** Filtering keeps the surviving messages in their original order. */
  lemma {:induction false} SanitizeIsSubsequence(msgs: seq<ChatMessage>)
    ensures IsSubsequence(Sanitize(msgs), msgs)
  {
    if msgs != [] {
      SanitizeIsSubsequence(msgs[1..]);
      var r := Sanitize(msgs);
      if Keep(msgs[0]) {
        assert r[0] == msgs[0] && r[1..] == Sanitize(msgs[1..]);
      } else {
        assert r == Sanitize(msgs[1..]);
      }
    }
  }

  /** Every message the filter keeps keeps all its copies, every other message loses all of
      them: non-assistant messages are never dropped. */
  lemma {:induction false} SanitizeCounts(msgs: seq<ChatMessage>, m: ChatMessage)
    ensures multiset(Sanitize(msgs))[m] == if Keep(m) then multiset(msgs)[m] else 0
  {
    if msgs != [] {
      SanitizeCounts(msgs[1..], m);
      var head: seq<ChatMessage> := if Keep(msgs[0]) then [msgs[0]] else [];
      assert Sanitize(msgs) == head + Sanitize(msgs[1..]);
      assert msgs == [msgs[0]] + msgs[1..];
      assert multiset(msgs) == multiset([msgs[0]]) + multiset(msgs[1..]);
    }
  }

  /** Sanitising twice is sanitising once. */
  lemma {:induction false} SanitizeIdempotent(msgs: seq<ChatMessage>)
    ensures Sanitize(Sanitize(msgs)) == Sanitize(msgs)
  {
    if msgs != [] {
      SanitizeIdempotent(msgs[1..]);
      var r := Sanitize(msgs);
      if Keep(msgs[0]) {
        assert r[0] == msgs[0] && r[1..] == Sanitize(msgs[1..]);
        assert Sanitize(r) == [r[0]] + Sanitize(r[1..]);
      } else {
        assert r == Sanitize(msgs[1..]);
      }
    }
  }

  /** The request body: `messages` when it is an array, and whatever else it holds. */
  datatype ChatBody<B> = ChatBody(messages: Option<seq<ChatMessage>>, rest: B)

  /** The body as forwarded: only an array of messages is filtered. */
  function SanitizeBody<B>(body: ChatBody<B>): (r: ChatBody<B>)
    ensures r.rest == body.rest
    ensures r.messages.Some? <==> body.messages.Some?
    ensures body.messages.Some? ==> r.messages.value == Sanitize(body.messages.value)
  {
    match body.messages
    case None => body
    case Some(msgs) => ChatBody(Some(Sanitize(msgs)), body.rest)
  }

  /* ------------------------------ model and key ----------------------------- */

  const ProxyDefaultModel := "lmstudio/mistralai/mistral-small-3.2"

  /** `cookieModel || modelFromQuery || envDefault || "lmstudio/mistralai/mistral-small-3.2"`;
      a missing cookie or query parameter is "". */
  function ProxyModel(cookie: string, query: string, env: Env): (model: string)
    ensures model != ""
    ensures cookie != "" ==> model == cookie
    ensures cookie == "" && query != "" ==> model == query
    ensures cookie == "" && query == "" && EnvGet(env, "DEFAULT_SELECTED_MODEL") != "" ==>
      model == env["DEFAULT_SELECTED_MODEL"]
    ensures cookie == "" && query == "" && EnvGet(env, "DEFAULT_SELECTED_MODEL") == "" ==>
      model == ProxyDefaultModel
  {
    Or(cookie, Or(query, Or(EnvGet(env, "DEFAULT_SELECTED_MODEL"), ProxyDefaultModel)))
  }

  /** The environment variables the key may come from, by model prefix, in the order tried. */
  function KeyVariables(model: string): (vars: seq<string>)
    ensures StartsWith(model, "openai/") ==> vars == ["OPENAI_API_KEY"]
    ensures !StartsWith(model, "openai/") && StartsWith(model, "anthropic/") ==> vars == ["ANTHROPIC_API_KEY"]
    ensures !StartsWith(model, "openai/") && !StartsWith(model, "anthropic/") && StartsWith(model, "google_genai/") ==>
      vars == ["GOOGLE_GENAI_API_KEY", "GOOGLE_GENERATIVE_AI_API_KEY", "GOOGLE_API_KEY"]
    ensures vars == [] <==>
      (!StartsWith(model, "openai/") && !StartsWith(model, "anthropic/") && !StartsWith(model, "google_genai/"))
  {
    if StartsWith(model, "openai/") then ["OPENAI_API_KEY"]
    else if StartsWith(model, "anthropic/") then ["ANTHROPIC_API_KEY"]
    else if StartsWith(model, "google_genai/") then
      ["GOOGLE_GENAI_API_KEY", "GOOGLE_GENERATIVE_AI_API_KEY", "GOOGLE_API_KEY"]
    else []
  }

  /** `process.env[v1] || process.env[v2] || ... || ""` */
  function FirstSet(env: Env, vars: seq<string>): (v: string)
    ensures v == "" <==> forall i :: 0 <= i < |vars| ==> EnvGet(env, vars[i]) == ""
  {
    if vars == [] then ""
    else if EnvGet(env, vars[0]) != "" then env[vars[0]]
    else
      assert forall i :: 1 <= i < |vars| ==> vars[1..][i - 1] == vars[i];
      FirstSet(env, vars[1..])
  }

  /** The value found is that of the first variable that is set, every earlier one being unset. */
  lemma {:induction false} FirstSetIsFirst(env: Env, vars: seq<string>)
    requires FirstSet(env, vars) != ""
    ensures exists i :: 0 <= i < |vars| && FirstSet(env, vars) == EnvGet(env, vars[i]) &&
                        (forall j :: 0 <= j < i ==> EnvGet(env, vars[j]) == "")
  {
    if EnvGet(env, vars[0]) == "" {
      FirstSetIsFirst(env, vars[1..]);
      var i :| 0 <= i < |vars[1..]| && FirstSet(env, vars[1..]) == EnvGet(env, vars[1..][i]) &&
        forall j :: 0 <= j < i ==> EnvGet(env, vars[1..][j]) == "";
      assert forall j :: 1 <= j < i + 1 ==> vars[j] == vars[1..][j - 1];
      assert FirstSet(env, vars) == EnvGet(env, vars[i + 1]);
    } else {
      assert FirstSet(env, vars) == EnvGet(env, vars[0]);
    }
  }

  lemma FirstSetStep(env: Env, vars: seq<string>)
    requires vars != []
    ensures FirstSet(env, vars) == Or(EnvGet(env, vars[0]), FirstSet(env, vars[1..]))
  {
  }

  /** The key: a non-empty `X-API-Key` header as is, otherwise the provider's variables. */
  function ProxyKey(header: string, model: string, env: Env): (key: string)
    ensures header != "" ==> key == header
    ensures header == "" ==> key == FirstSet(env, KeyVariables(model))
  {
    if header != "" then header else FirstSet(env, KeyVariables(model))
  }

  /** Models outside the three keyed providers (`ollama/`, `lmstudio/`, a bare `o4-mini`)
      get no key unless the caller sent one. */
  lemma UnkeyedProviders(header: string, model: string, env: Env)
    requires !StartsWith(model, "openai/") && !StartsWith(model, "anthropic/") &&
      !StartsWith(model, "google_genai/")
    ensures ProxyKey(header, model, env) == header
  {
  }

  /** A Google model takes the first Google variable that is set, in the listed order. */
  lemma GoogleKeyOrder(model: string, env: Env)
    requires StartsWith(model, "google_genai/")
    ensures ProxyKey("", model, env) ==
      Or(EnvGet(env, "GOOGLE_GENAI_API_KEY"), Or(EnvGet(env, "GOOGLE_GENERATIVE_AI_API_KEY"),
        Or(EnvGet(env, "GOOGLE_API_KEY"), "")))
  {
    var vars := KeyVariables(model);
    assert !StartsWith(model, "openai/") && !StartsWith(model, "anthropic/") by {
      assert model[0] == 'g';
    }
    FirstSetStep(env, vars);
    assert vars[1..] == ["GOOGLE_GENERATIVE_AI_API_KEY", "GOOGLE_API_KEY"];
    FirstSetStep(env, vars[1..]);
    assert vars[1..][1..] == ["GOOGLE_API_KEY"];
    FirstSetStep(env, vars[1..][1..]);
    assert vars[1..][1..][1..] == [];
  }

  /* ------------------------------ forwarding -------------------------------- */

  datatype Header = Header(name: string, value: string)

  /** The headers of the forwarded request: `X-API-Key` only when there is a key. */
  function ForwardHeaders(model: string, key: string): (hs: seq<Header>)
    ensures Header("Content-Type", "application/json") in hs
    ensures Header("X-Selected-Model", model) in hs
    ensures (exists v :: Header("X-API-Key", v) in hs) <==> key != ""
    ensures key != "" ==> Header("X-API-Key", key) in hs
  {
    [Header("Content-Type", "application/json"), Header("X-Selected-Model", model)] +
    (if key != "" then [Header("X-API-Key", key)] else [])
  }

  /** `process.env.NEXT_PUBLIC_BASE_URL || "http://localhost:3000"` */
  function BaseUrl(env: Env): (url: string)
    ensures url != ""
    ensures EnvGet(env, "NEXT_PUBLIC_BASE_URL") != "" ==> url == env["NEXT_PUBLIC_BASE_URL"]
    ensures EnvGet(env, "NEXT_PUBLIC_BASE_URL") == "" ==> url == "http://localhost:3000"
  {
    Or(EnvGet(env, "NEXT_PUBLIC_BASE_URL"), "http://localhost:3000")
  }

  /** What the proxy gets from the browser: `cookie` and `query` are "" when absent. */
  datatype ProxyRequest<B> = ProxyRequest(body: ChatBody<B>, cookie: string, query: string, keyHeader: string)

  datatype Forwarded<B> = Forwarded(url: string, headers: seq<Header>, body: ChatBody<B>)

  /** The request `POST` sends on to `/api/chat`. */
  function Forward<B>(req: ProxyRequest<B>, env: Env): (f: Forwarded<B>)
    ensures f.url == BaseUrl(env) + "/api/chat"
    ensures f.body == SanitizeBody(req.body)
    ensures var model := ProxyModel(req.cookie, req.query, env);
      f.headers == ForwardHeaders(model, ProxyKey(req.keyHeader, model, env))
  {
    var model := ProxyModel(req.cookie, req.query, env);
    Forwarded(BaseUrl(env) + "/api/chat", ForwardHeaders(model, ProxyKey(req.keyHeader, model, env)),
      SanitizeBody(req.body))
  }

  /** The response headers: the upstream's `Content-Type` and `Cache-Control`, or defaults. */
  function ResponseHeaders(contentType: string, cacheControl: string): (hs: seq<Header>)
    ensures |hs| == 2
    ensures hs[0].name == "Content-Type" && hs[1].name == "Cache-Control"
    ensures contentType != "" ==> hs[0].value == contentType
    ensures contentType == "" ==> hs[0].value == "application/json"
    ensures cacheControl != "" ==> hs[1].value == cacheControl
    ensures cacheControl == "" ==> hs[1].value == "no-cache"
  {
    [Header("Content-Type", Or(contentType, "application/json")),
     Header("Cache-Control", Or(cacheControl, "no-cache"))]
  }
}
