/** LM Studio's model list as lib/lmsModels.ts reads it: the REST base without its
    `/v1`, the `GET /api/v0/models` answer mapped to `LmStudioRestModel` records, and
    the dropdown label. The HTTP request is an oracle `fetch` from URL to answer. */
module LmsModels {
  import opened JsText

  /* ---------------------------------- base ---------------------------------- */

  /** `s.replace(/\/v1$/, "")`: one trailing `/v1` is removed. */
  function StripV1(s: string): (r: string)
    ensures EndsWith(s, "/v1") ==> r + "/v1" == s
    ensures !EndsWith(s, "/v1") ==> r == s
  {
    if EndsWith(s, "/v1") then s[..|s| - 3] else s
  }

  /** Only the last `/v1` goes: `StripV1` undoes one appended `/v1`, whatever came before. */
  lemma StripOneV1(s: string)
    ensures StripV1(s + "/v1") == s
  {
    assert (s + "/v1")[|s + "/v1"| - 3..] == "/v1";
  }

  /** `getLmsBase()` of the `/api/models` and `/api/model-state` routes:
      `NEXT_PUBLIC_LMS_API_BASE`, else `LMS_API_BASE`, else the local default, without `/v1`. */
  function RouteLmsBase(env: Env): (base: string)
    ensures EnvGet(env, "NEXT_PUBLIC_LMS_API_BASE") != "" ==> base == StripV1(env["NEXT_PUBLIC_LMS_API_BASE"])
    ensures EnvGet(env, "NEXT_PUBLIC_LMS_API_BASE") == "" && EnvGet(env, "LMS_API_BASE") != "" ==>
      base == StripV1(env["LMS_API_BASE"])
    ensures EnvGet(env, "NEXT_PUBLIC_LMS_API_BASE") == "" && EnvGet(env, "LMS_API_BASE") == "" ==>
      base == "http://localhost:1234"
  {
    var v1 := Or(EnvGet(env, "NEXT_PUBLIC_LMS_API_BASE"), Or(EnvGet(env, "LMS_API_BASE"), "http://localhost:1234/v1"));
    StripOneV1("http://localhost:1234");
    StripV1(v1)
  }

  /* ------------------------------- the answer ------------------------------- */

  /** One element of the answer's `data` array, each field present or not. A `null` element
      reads like one without fields. */
  datatype RawModel = RawModel(
    id: Option<string>, state: Option<string>, family: Option<string>,
    sizeBytes: Option<int>, contextLength: Option<int>)

  /** The body of an answer: not JSON, JSON without an array `data`, or its elements. */
  datatype Payload = Unparsable(message: string) | NoArray | Entries(items: seq<RawModel>)

  /** What `fetch` gives: a failure to connect, or a response with its status and body. */
  datatype Fetched = FetchFailed(message: string) | Response(ok: bool, status: nat, statusText: string, payload: Payload)

  type Fetch = string -> Fetched

  /** The entries of `data` as an array: a missing or non-array `data` is `[]`. */
  function DataArray(p: Payload): seq<RawModel> {
    if p.Entries? then p.items else []
  }

  /** `!!m.id` for a string id. */
  predicate HasId(m: RawModel) {
    m.id.Some? && m.id.value != ""
  }

  datatype LmStudioRestModel = LmStudioRestModel(
    id: string, state: Option<string>, family: Option<string>,
    sizeBytes: Option<int>, contextLength: Option<int>)

  /** The object literal of the `map` callback. */
  function ToRest(m: RawModel): (r: LmStudioRestModel)
    ensures r.id == m.id.GetOr("") && r.state == m.state && r.family == m.family
    ensures r.sizeBytes == m.sizeBytes && r.contextLength == m.contextLength
  {
    LmStudioRestModel(m.id.GetOr(""), m.state, m.family, m.sizeBytes, m.contextLength)
  }

  /** `arr.map(toRest).filter(m => !!m.id)` */
  function RestModels(items: seq<RawModel>): (r: seq<LmStudioRestModel>)
    ensures |r| <= |items|
    ensures forall i :: 0 <= i < |r| ==> r[i].id != ""
  {
    if items == [] then []
    else (if ToRest(items[0]).id != "" then [ToRest(items[0])] else []) + RestModels(items[1..])
  }

  /** The positions, from `from` on and in increasing order, of the entries that have an id. */
  function KeptFrom(items: seq<RawModel>, from: nat): (idx: seq<nat>)
    requires from <= |items|
    ensures forall i :: 0 <= i < |idx| ==> from <= idx[i] < |items| && HasId(items[idx[i]])
    ensures forall i, j :: 0 <= i < j < |idx| ==> idx[i] < idx[j]
    ensures forall k :: from <= k < |items| && HasId(items[k]) ==> k in idx
    decreases |items| - from
  {
    if from == |items| then []
    else if HasId(items[from]) then [from] + KeptFrom(items, from + 1)
    else KeptFrom(items, from + 1)
  }

  /** The list keeps exactly the entries with an id, in the order of the answer, each
      copying that entry's fields: its `i`-th record comes from the `i`-th kept position. */
  lemma {:induction false} RestModelsKeepsIds(items: seq<RawModel>)
    ensures |RestModels(items)| == |KeptFrom(items, 0)|
    ensures forall i :: 0 <= i < |RestModels(items)| ==>
      RestModels(items)[i] == ToRest(items[KeptFrom(items, 0)[i]])
  {
    RestModelsFrom(items, 0);
    assert items[0..] == items;
  }

  lemma {:induction false} RestModelsFrom(items: seq<RawModel>, from: nat)
    requires from <= |items|
    ensures |RestModels(items[from..])| == |KeptFrom(items, from)|
    ensures forall i :: 0 <= i < |RestModels(items[from..])| ==>
      RestModels(items[from..])[i] == ToRest(items[KeptFrom(items, from)[i]])
    decreases |items| - from
  {
    if from < |items| {
      RestModelsFrom(items, from + 1);
      var s := items[from..];
      assert s[1..] == items[from + 1..];
      var rest := RestModels(items[from + 1..]);
      if HasId(items[from]) {
        assert RestModels(s) == [ToRest(items[from])] + rest;
        ConsKept(items, from, rest, KeptFrom(items, from + 1));
      } else {
        assert RestModels(s) == rest;
      }
    }
  }

  /** Putting the record of entry `from` in front of the later records matches putting
      `from` in front of the later kept positions. */
  lemma ConsKept(items: seq<RawModel>, from: nat, rest: seq<LmStudioRestModel>, kept: seq<nat>)
    requires from < |items| && |rest| == |kept|
    requires forall i :: 0 <= i < |kept| ==> kept[i] < |items|
    requires forall i :: 0 <= i < |rest| ==> rest[i] == ToRest(items[kept[i]])
    ensures forall i :: 0 <= i < |rest| + 1 ==> ([ToRest(items[from])] + rest)[i] == ToRest(items[([from] + kept)[i]])
  {
  }

  /* -------------------------------- the call -------------------------------- */

  const ModelsPath := "/api/v0/models"

  /** `listLmsModelsRest()`; a thrown error is `Err` with its message. */
  function ListLmsModelsRest(env: Env, fetch: Fetch): (r: Result<seq<LmStudioRestModel>, string>)
    ensures StripV1(EnvGet(env, "NEXT_PUBLIC_LMS_API_BASE")) == "" ==> r == Err("NEXT_PUBLIC_LMS_API_BASE not set")
    ensures var base := StripV1(EnvGet(env, "NEXT_PUBLIC_LMS_API_BASE"));
      base != "" && fetch(base + ModelsPath).Response? && !fetch(base + ModelsPath).ok ==>
        r == Err("LM Studio /api/v0/models failed: " + NatToDecimal(fetch(base + ModelsPath).status) + " " +
                 fetch(base + ModelsPath).statusText)
    ensures var base := StripV1(EnvGet(env, "NEXT_PUBLIC_LMS_API_BASE"));
      base != "" && fetch(base + ModelsPath).Response? && fetch(base + ModelsPath).ok &&
      !fetch(base + ModelsPath).payload.Unparsable? ==>
        r == Ok(RestModels(DataArray(fetch(base + ModelsPath).payload)))
    ensures r.Ok? ==> StripV1(EnvGet(env, "NEXT_PUBLIC_LMS_API_BASE")) != ""
    ensures var base := StripV1(EnvGet(env, "NEXT_PUBLIC_LMS_API_BASE"));
      r.Ok? ==> fetch(base + ModelsPath).Response? && fetch(base + ModelsPath).ok &&
                !fetch(base + ModelsPath).payload.Unparsable?
    ensures var base := StripV1(EnvGet(env, "NEXT_PUBLIC_LMS_API_BASE"));
      base != "" && fetch(base + ModelsPath).FetchFailed? ==> r == Err(fetch(base + ModelsPath).message)
    ensures var base := StripV1(EnvGet(env, "NEXT_PUBLIC_LMS_API_BASE"));
      (base != "" && fetch(base + ModelsPath).Response? && fetch(base + ModelsPath).ok &&
       fetch(base + ModelsPath).payload.Unparsable?) ==> r == Err(fetch(base + ModelsPath).payload.message)
  {
    var base := StripV1(EnvGet(env, "NEXT_PUBLIC_LMS_API_BASE"));
    if base == "" then Err("NEXT_PUBLIC_LMS_API_BASE not set")
    else match fetch(base + ModelsPath)
      case FetchFailed(m) => Err(m)
      case Response(ok, status, statusText, payload) =>
        if !ok then Err("LM Studio /api/v0/models failed: " + NatToDecimal(status) + " " + statusText)
        else if payload.Unparsable? then Err(payload.message)
        else Ok(RestModels(DataArray(payload)))
  }

  /** A base of just `/v1` is as good as none. */
  lemma BareV1IsUnset(env: Env, fetch: Fetch)
    requires EnvGet(env, "NEXT_PUBLIC_LMS_API_BASE") == "/v1"
    ensures ListLmsModelsRest(env, fetch) == Err("NEXT_PUBLIC_LMS_API_BASE not set")
  {
    StripOneV1("");
    assert "" + "/v1" == "/v1";
  }

  /* --------------------------------- label ---------------------------------- */

  const LoadedBadge := " \U{2022} loaded"

  /** `formatLmStudioLabel(m)` */
  function FormatLmStudioLabel(m: LmStudioRestModel): (text: string)
    ensures m.state == Some("loaded") ==> text == m.id + LoadedBadge
    ensures m.state != Some("loaded") ==> text == m.id
    ensures StartsWith(text, m.id)
  {
    var badge := if m.state == Some("loaded") then LoadedBadge else "";
    assert (m.id + badge)[..|m.id|] == m.id;
    m.id + badge
  }
}
