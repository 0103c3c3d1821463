/** The `/api/models` route of app/api/models/route.ts: LM Studio's models as dropdown options. */
module ModelsRoute {
  import opened JsText
  import opened LmsModels

  /** One `{ value, label }` option. */
  datatype ModelOption = ModelOption(value: string, text: string)

  /** `data.filter(m => m?.id).map(m => ({ value: "lmstudio/" + id, label }))` */
  function Options(items: seq<RawModel>): (opts: seq<ModelOption>)
    ensures |opts| <= |items|
  {
    if items == [] then []
    else
      var m := items[0];
      (if HasId(m) then
         [ModelOption("lmstudio/" + m.id.value, m.id.value + (if m.state == Some("loaded") then LoadedBadge else ""))]
       else []) + Options(items[1..])
  }

  /** The route labels a model exactly as `formatLmStudioLabel` does, and its options line up
      one for one with `listLmsModelsRest`'s records for the same answer. */
  lemma {:induction false} OptionsMatchRestModels(items: seq<RawModel>)
    ensures |Options(items)| == |RestModels(items)|
    ensures forall i :: 0 <= i < |Options(items)| ==>
      Options(items)[i] == ModelOption("lmstudio/" + RestModels(items)[i].id, FormatLmStudioLabel(RestModels(items)[i]))
  {
    if items != [] {
      OptionsMatchRestModels(items[1..]);
    }
  }

  /** Options exist only for entries with an id, in upstream order, each valued `lmstudio/<id>`. */
  lemma OptionsFromKeptEntries(items: seq<RawModel>)
    ensures |Options(items)| == |KeptFrom(items, 0)|
    ensures forall i :: 0 <= i < |Options(items)| ==>
      Options(items)[i].value == "lmstudio/" + items[KeptFrom(items, 0)[i]].id.value
  {
    OptionsMatchRestModels(items);
    RestModelsKeepsIds(items);
  }

  datatype ModelsResponse = OptionList(options: seq<ModelOption>) | UpstreamFailed(status: nat) | Failed(message: string)

  function Status(r: ModelsResponse): (code: nat)
    ensures r.OptionList? <==> code == 200
    ensures r.UpstreamFailed? <==> code == 502
    ensures r.Failed? <==> code == 500
  {
    match r
    case OptionList(_) => 200
    case UpstreamFailed(_) => 502
    case Failed(_) => 500
  }

  /** `GET /api/models` */
  function ModelsGet(env: Env, fetch: Fetch): (r: ModelsResponse)
    ensures match fetch(RouteLmsBase(env) + ModelsPath)
      case FetchFailed(m) => r == Failed(m)
      case Response(ok, status, _, payload) =>
        if !ok then r == UpstreamFailed(status)
        else if payload.Unparsable? then r == Failed(payload.message)
        else r == OptionList(Options(DataArray(payload)))
    ensures r.OptionList? ==> |r.options| <= |DataArray(fetch(RouteLmsBase(env) + ModelsPath).payload)|
  {
    match fetch(RouteLmsBase(env) + ModelsPath)
    case FetchFailed(m) => Failed(m)
    case Response(ok, status, _, payload) =>
      if !ok then UpstreamFailed(status)
      else if payload.Unparsable? then Failed(payload.message)
      else OptionList(Options(DataArray(payload)))
  }

  /** A `data` that is not an array gives an empty option list. */
  lemma NoArrayNoOptions(env: Env, fetch: Fetch)
    requires fetch(RouteLmsBase(env) + ModelsPath).Response?
    requires fetch(RouteLmsBase(env) + ModelsPath).ok
    requires fetch(RouteLmsBase(env) + ModelsPath).payload == NoArray
    ensures ModelsGet(env, fetch) == OptionList([])
  {
  }
}
