/**
 * Response handling shared by both web frontends (frontend/app.py and
 * frontend/frontend/frontend.py): the suggestion request with its single
 * trailing-slash retry, the error detail of a failed answer, and the outfit
 * values read out of a successful one.
 */
module Http {
  import opened Base
  import opened Json
  import opened Outfit

  /**
   * What one POST gives: an answer (status, raw text and, when the text is
   * JSON, its decoded value), or an exception from the HTTP client.
   */
  datatype HttpOutcome =
    | Answered(status: int, text: string, body: Option<Json>)
    | Raised(isTimeout: bool, message: string)

  const SuggestPath: string := "/suggest-outfit"

  /**
   * Posts the location to the suggestion endpoint; a 404 is retried once at
   * the same path with a trailing slash. `send(url, location)` is the
   * client; `urls` lists the URLs posted to, in order.
   */
  method PostWithRetry(baseUrl: string, location: string, send: (string, string) -> HttpOutcome)
    returns (outcome: HttpOutcome, urls: seq<string>)
    ensures 1 <= |urls| <= 2 && urls[0] == baseUrl + SuggestPath
    ensures |urls| == 2 <==> send(urls[0], location).Answered? && send(urls[0], location).status == 404
    ensures |urls| == 2 ==> urls[1] == baseUrl + SuggestPath + "/"
    ensures outcome == send(urls[|urls| - 1], location)
  {
    var url := baseUrl + SuggestPath;
    urls := [url];
    outcome := send(url, location);
    if outcome.Answered? && outcome.status == 404 {
      url := baseUrl + SuggestPath + "/";
      urls := urls + [url];
      outcome := send(url, location);
    }
  }

  /**
   * The detail of a failed answer: the `detail` member of a JSON object body
   * ("Unknown error" when it has none), else the raw text.
   */
  function ErrorDetail(text: string, body: Option<Json>, render: Json -> string): (r: string)
    ensures body.Some? && body.value.JObject? && "detail" in body.value.fields ==>
              r == Stringify(render, body.value.fields["detail"])
    ensures body.Some? && body.value.JObject? && "detail" !in body.value.fields ==> r == "Unknown error"
    ensures body.None? || !body.value.JObject? ==> r == text
  {
    if body.Some? && body.value.JObject? then Stringify(render, Get(body.value.fields, "detail", JStr("Unknown error")))
    else text
  }

  /** A string detail is shown verbatim, whatever the raw text was. */
  lemma ErrorDetailString(text: string, detail: string, others: map<string, Json>, render: Json -> string)
    ensures ErrorDetail(text, Some(JObject(others["detail" := JStr(detail)])), render) == detail
  {
  }

  /** The four outfit values of a successful answer, before any display filtering. */
  datatype OutfitValues = OutfitValues(top: Json, bottom: Json, outerwear: Json, accessories: Json)

  /**
   * A dict outfit gives its four members, each defaulting to the text "None";
   * anything else is shown whole as the top, with empty text elsewhere.
   */
  function OutfitValuesOf(outfit: Json, render: Json -> string): (r: OutfitValues)
    ensures outfit.JObject? ==>
      r.top == Get(outfit.fields, "top", JStr("None")) && r.bottom == Get(outfit.fields, "bottom", JStr("None")) &&
      r.outerwear == Get(outfit.fields, "outerwear", JStr("None")) &&
      r.accessories == Get(outfit.fields, "accessories", JStr("None"))
    ensures !outfit.JObject? ==> r == OutfitValues(JStr(Stringify(render, outfit)), JStr(""), JStr(""), JStr(""))
  {
    if outfit.JObject? then
      var f := outfit.fields;
      OutfitValues(Get(f, "top", JStr("None")), Get(f, "bottom", JStr("None")),
                   Get(f, "outerwear", JStr("None")), Get(f, "accessories", JStr("None")))
    else
      OutfitValues(JStr(Stringify(render, outfit)), JStr(""), JStr(""), JStr(""))
  }

  /** The same values as text, as the suggestion record holds them. */
  function OutfitText(v: OutfitValues, render: Json -> string): (r: OutfitSuggestion)
    ensures v.top.JStr? ==> r.top == v.top.s
    ensures v.bottom.JStr? ==> r.bottom == v.bottom.s
    ensures v.outerwear.JStr? ==> r.outerwear == v.outerwear.s
    ensures v.accessories.JStr? ==> r.accessories == v.accessories.s
  {
    OutfitSuggestion(Stringify(render, v.top), Stringify(render, v.bottom),
                     Stringify(render, v.outerwear), Stringify(render, v.accessories))
  }

  /** A suggestion echoed as a JSON object comes back unchanged. */
  function SuggestionJson(s: OutfitSuggestion): Json
  {
    JObject(map["top" := JStr(s.top), "bottom" := JStr(s.bottom),
                "outerwear" := JStr(s.outerwear), "accessories" := JStr(s.accessories)])
  }

  lemma SuggestionRoundTrip(s: OutfitSuggestion, render: Json -> string)
    ensures OutfitText(OutfitValuesOf(SuggestionJson(s), render), render) == s
  {
  }

  /** Members the suggester left out read as the text "None". */
  lemma MissingMembersReadNone(fields: map<string, Json>, render: Json -> string)
    requires "outerwear" !in fields && "accessories" !in fields
    ensures OutfitText(OutfitValuesOf(JObject(fields), render), render).outerwear == "None"
    ensures OutfitText(OutfitValuesOf(JObject(fields), render), render).accessories == "None"
  {
  }

  /** A plain-text suggestion lands in the top slot; the rest are empty. */
  lemma TextOutfitInTop(text: string, render: Json -> string)
    ensures OutfitText(OutfitValuesOf(JStr(text), render), render) == OutfitSuggestion(text, "", "", "")
  {
  }
}
