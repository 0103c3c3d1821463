/** The `/api/model-state` route of app/api/model-state/route.ts: it looks one model up in
    LM Studio's model list and reports its state. */
module ModelState {
  import opened JsText
  import opened LmsModels

  const LmsPrefix := "lmstudio/"

  /** `if (id.startsWith("lmstudio/")) id = id.slice("lmstudio/".length)` */
  function NormalizeId(id: string): (r: string)
    ensures StartsWith(id, LmsPrefix) ==> LmsPrefix + r == id
    ensures !StartsWith(id, LmsPrefix) ==> r == id
  {
    if StartsWith(id, LmsPrefix) then DropPrefix(id, LmsPrefix) else id
  }

  /** Exactly one `lmstudio/` is removed, whatever follows it. */
  lemma NormalizeStripsOnce(x: string)
    ensures NormalizeId(LmsPrefix + x) == x
  {
    assert (LmsPrefix + x)[..|LmsPrefix|] == LmsPrefix;
  }

  /** `arr.find(m => m?.id === id)`: the first entry whose id is `id`, from position `from`. */
  function FindModel(items: seq<RawModel>, id: string, from: nat): (k: Option<nat>)
    ensures k.Some? ==> from <= k.value < |items| && items[k.value].id == Some(id)
    ensures k.Some? ==> forall j :: from <= j < k.value ==> items[j].id != Some(id)
    ensures k.None? ==> forall j :: from <= j < |items| ==> items[j].id != Some(id)
    decreases |items| - from
  {
    if from >= |items| then None
    else if items[from].id == Some(id) then Some(from)
    else FindModel(items, id, from + 1)
  }

  /** The JSON answers of the route; absent numbers and family are `null` (`None`). */
  datatype StateResponse =
    | MissingId
    | UpstreamFailed(status: nat)
    | UnknownModel(id: string)
    | Known(id: string, state: string, contextLength: Option<int>, sizeBytes: Option<int>, family: Option<string>)
    | Failed(message: string)

  /** The HTTP status of each answer. */
  function Status(r: StateResponse): (code: nat)
    ensures r.MissingId? <==> code == 400
    ensures r.UpstreamFailed? <==> code == 502
    ensures r.Failed? <==> code == 500
    ensures r.UnknownModel? || r.Known? <==> code == 200
  {
    match r
    case MissingId => 400
    case UpstreamFailed(_) => 502
    case UnknownModel(_) => 200
    case Known(_, _, _, _, _) => 200
    case Failed(_) => 500
  }

  /** The error text of a 502: `LM Studio responded <status>`. */
  function UpstreamMessage(status: nat): string {
    "LM Studio responded " + NatToDecimal(status)
  }

  /** The answer for a hit: `state || "unknown"`, the other fields `?? null`. */
  function Report(id: string, hit: RawModel): (r: StateResponse)
    ensures r.Known? && r.id == id && r.state != ""
    ensures hit.state.Some? && hit.state.value != "" ==> r.state == hit.state.value
    ensures r.contextLength == hit.contextLength && r.sizeBytes == hit.sizeBytes && r.family == hit.family
  {
    Known(id, Or(hit.state.GetOr(""), "unknown"), hit.contextLength, hit.sizeBytes, hit.family)
  }

  /** `GET /api/model-state?id=...`; `idParam` is "" when the parameter is absent. */
  function ModelStateGet(idParam: string, env: Env, fetch: Fetch): (r: StateResponse)
    ensures idParam == "" <==> r.MissingId?
    ensures idParam != "" ==> var id := NormalizeId(idParam);
      match fetch(RouteLmsBase(env) + ModelsPath)
      case FetchFailed(m) => r == Failed(m)
      case Response(ok, status, _, payload) =>
        if !ok then r == UpstreamFailed(status)
        else if payload.Unparsable? then r == Failed(payload.message)
        else
          var items := DataArray(payload);
          (r.UnknownModel? <==> forall j :: 0 <= j < |items| ==> items[j].id != Some(id)) &&
          (r.UnknownModel? || r.Known?) &&
          (r.UnknownModel? ==> r.id == id) &&
          (r.Known? ==> exists k :: 0 <= k < |items| && items[k].id == Some(id) && r == Report(id, items[k]) &&
                                   forall j :: 0 <= j < k ==> items[j].id != Some(id))
  {
    if idParam == "" then MissingId
    else
      var id := NormalizeId(idParam);
      match fetch(RouteLmsBase(env) + ModelsPath)
      case FetchFailed(m) => Failed(m)
      case Response(ok, status, _, payload) =>
        if !ok then UpstreamFailed(status)
        else if payload.Unparsable? then Failed(payload.message)
        else match FindModel(DataArray(payload), id, 0)
          case None => UnknownModel(id)
          case Some(k) => Report(id, DataArray(payload)[k])
  }
}
