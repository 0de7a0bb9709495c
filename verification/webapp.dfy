/**
 * The server-rendered frontend (frontend/app.py): location formatting,
 * the metric-card icon table, the outfit items shown on the results page,
 * and the `/get-outfit` handler that turns the API's answer into a page.
 * Markup is not modelled: a page is the data it displays.
 */
module WebApp {
  import opened Base
  import opened Text
  import opened Json
  import opened Http

  // ---------------------------------------------------------------- format_location

  /**
   * "name, region" when both are non-empty, the name alone when only it is,
   * otherwise the title-cased fallback (also for an empty record). The page
   * handler does not call it; it joins name and region itself.
   */
  function FormatLocation(locationData: map<string, string>, fallback: string): (r: string)
  {
    var name := if "name" in locationData then locationData["name"] else "";
    var region := if "region" in locationData then locationData["region"] else "";
    if locationData != map[] && name != "" && region != "" then name + ", " + region
    else if locationData != map[] && name != "" then name
    else Title(fallback)
  }

  lemma FormatLocationCases(locationData: map<string, string>, fallback: string)
    ensures var name := if "name" in locationData then locationData["name"] else "";
      var region := if "region" in locationData then locationData["region"] else "";
      var r := FormatLocation(locationData, fallback);
      (name != "" && region != "" ==> r == name + ", " + region) &&
      (name != "" && region == "" ==> r == name) &&
      (name == "" ==> r == Title(fallback))
  {
  }

  /** The fallback is already in title case, so formatting it again changes nothing. */
  lemma FormatLocationFallbackStable(fallback: string)
    ensures FormatLocation(map[], FormatLocation(map[], fallback)) == FormatLocation(map[], fallback)
  {
    TitleFromIdempotent(fallback, false);
  }

  // ---------------------------------------------------------------- metric_card

  const DefaultGlyph: string := "\U{1F4CA}"

  /** `icons.get(icon, default)`: the glyph of each of the four known icons, else the chart glyph. */
  function IconGlyph(icon: string): (r: string)
    ensures icon !in {"thermometer", "droplets", "wind", "sun"} <==> r == DefaultGlyph
    ensures icon == "thermometer" ==> r == "\U{1F321}\U{FE0F}"
    ensures icon == "droplets" ==> r == "\U{1F4A7}"
    ensures icon == "wind" ==> r == "\U{1F4A8}"
    ensures icon == "sun" ==> r == "\U{2600}\U{FE0F}"
  {
    if icon == "thermometer" then "\U{1F321}\U{FE0F}"
    else if icon == "droplets" then "\U{1F4A7}"
    else if icon == "wind" then "\U{1F4A8}"
    else if icon == "sun" then "\U{2600}\U{FE0F}"
    else DefaultGlyph
  }

  // ---------------------------------------------------------------- weather_results

  datatype OutfitItem = OutfitItem(heading: string, value: Json)

  /** An optional item is shown when its value is truthy and is not the text "None". */
  predicate Shown(v: Json) { Truthy(v) && v != JStr("None") }

  /** The items of the results page: Top and Bottom always, then the shown optional ones. */
  function OutfitItemList(v: OutfitValues): (r: seq<OutfitItem>)
    ensures 2 <= |r| <= 4 && r[0] == OutfitItem("Top", v.top) && r[1] == OutfitItem("Bottom", v.bottom)
    ensures |r| == 2 + (if Shown(v.outerwear) then 1 else 0) + (if Shown(v.accessories) then 1 else 0)
    ensures Shown(v.outerwear) ==> r[2] == OutfitItem("Outerwear", v.outerwear)
    ensures Shown(v.accessories) ==> r[|r| - 1] == OutfitItem("Accessories", v.accessories)
  {
    [OutfitItem("Top", v.top), OutfitItem("Bottom", v.bottom)]
    + (if Shown(v.outerwear) then [OutfitItem("Outerwear", v.outerwear)] else [])
    + (if Shown(v.accessories) then [OutfitItem("Accessories", v.accessories)] else [])
  }

  /** The items as `weather_results` builds them, by conditional appends. */
  method BuildOutfitItems(outfit: Json, render: Json -> string) returns (items: seq<OutfitItem>)
    ensures items == OutfitItemList(OutfitValuesOf(outfit, render))
  {
    var v := OutfitValuesOf(outfit, render);
    items := [OutfitItem("Top", v.top), OutfitItem("Bottom", v.bottom)];
    if Truthy(v.outerwear) && v.outerwear != JStr("None") {
      items := items + [OutfitItem("Outerwear", v.outerwear)];
    }
    if Truthy(v.accessories) && v.accessories != JStr("None") {
      items := items + [OutfitItem("Accessories", v.accessories)];
    }
  }

  /** A suggestion that is not a dict shows exactly two items. */
  lemma NonDictOutfitTwoItems(outfit: Json, render: Json -> string)
    requires !outfit.JObject?
    ensures var items := OutfitItemList(OutfitValuesOf(outfit, render));
      |items| == 2 && items[0].value == JStr(Stringify(render, outfit)) && items[1].value == JStr("")
  {
  }

  /** The "None" sentinel, an empty text or a missing member hides the outer layer. */
  lemma OuterwearHidden(fields: map<string, Json>, render: Json -> string)
    requires "outerwear" !in fields || fields["outerwear"] in {JStr("None"), JStr(""), JNull}
    ensures forall k :: 0 <= k < |OutfitItemList(OutfitValuesOf(JObject(fields), render))| ==>
      OutfitItemList(OutfitValuesOf(JObject(fields), render))[k].heading != "Outerwear"
  {
  }

  // ---------------------------------------------------------------- get_outfit

  datatype Results = Results(displayLocation: string, current: map<string, Json>, forecast: map<string, Json>, outfit: Json)

  datatype Page =
    | ErrorPage(message: string)
    | ResultsPage(displayLocation: string, current: map<string, Json>, forecast: map<string, Json>, items: seq<OutfitItem>)

  /**
   * What a 200 answer's body yields, or None when reading it raises: the
   * body is not JSON, a member that is read with `.get` is not a dict, or
   * the name or region joined as text is not a string. The display location
   * is name + ", " + region. A list name does not raise in Python (`+=`
   * extends the list); the model counts it as not text all the same.
   */
  function ResultsOf(body: Option<Json>): (r: Option<Results>)
    ensures r.Some? ==> body.Some? && body.value.JObject?
  {
    if body.None? || !body.value.JObject? then None
    else
      var data := body.value.fields;
      var weatherData := Get(data, "weather", JObject(map[]));
      if !weatherData.JObject? then None
      else
        var info := Get(weatherData.fields, "location", JObject(map[]));
        var current := Get(weatherData.fields, "current", JObject(map[]));
        var forecast := Get(weatherData.fields, "forecast", JObject(map[]));
        var outfit := Get(data, "outfit_suggestion", JObject(map[]));
        if !info.JObject? then None
        else
          var name := Get(info.fields, "name", JStr(""));
          var region := Get(info.fields, "region", JStr(""));
          if !name.JStr? || !region.JStr? || !current.JObject? || !forecast.JObject? then None
          else Some(Results(name.s + ", " + region.s, current.fields, forecast.fields, outfit))
  }

  /** A 200 answer with no weather member still shows results, under the location ", ". */
  lemma AnswerWithoutWeather(data: map<string, Json>)
    requires "weather" !in data
    ensures ResultsOf(Some(JObject(data))) == Some(Results(", ", map[], map[], Get(data, "outfit_suggestion", JObject(map[]))))
  {
    assert "" + ", " + "" == ", ";
  }

  /** The separator is there even when the answer names no region. */
  lemma DisplayWithoutRegion(name: string, current: map<string, Json>, forecast: map<string, Json>, outfit: Json)
    ensures var weatherData := JObject(map["location" := JObject(map["name" := JStr(name)]),
                                           "current" := JObject(current), "forecast" := JObject(forecast)]);
      ResultsOf(Some(JObject(map["weather" := weatherData, "outfit_suggestion" := outfit])))
        == Some(Results(name + ", ", current, forecast, outfit))
  {
    var info := map["name" := JStr(name)];
    var weatherData := map["location" := JObject(info), "current" := JObject(current), "forecast" := JObject(forecast)];
    var data := map["weather" := JObject(weatherData), "outfit_suggestion" := outfit];
    assert Get(data, "weather", JObject(map[])) == JObject(weatherData);
    assert Get(weatherData, "location", JObject(map[])) == JObject(info);
    assert Get(weatherData, "current", JObject(map[])) == JObject(current);
    assert Get(weatherData, "forecast", JObject(map[])) == JObject(forecast);
    assert Get(data, "outfit_suggestion", JObject(map[])) == outfit;
    assert Get(info, "name", JStr("")) == JStr(name);
    assert Get(info, "region", JStr("")) == JStr("");
    assert name + ", " + "" == name + ", ";
  }

  const BlankMessage: string := "Please enter a location."
  const TimeoutMessage: string := "Request timed out. Please try again."

  /** A location is blank when it is empty or only whitespace. */
  predicate Blank(location: string) { Strip(location) == "" }

  lemma BlankIffWhitespace(location: string)
    ensures Blank(location) <==> forall i :: 0 <= i < |location| ==> IsSpace(location[i])
  {
    StripEmptyIff(location);
  }

  /**
   * The page for the final outcome of the request. `crashText` is the text
   * of the exception raised while reading a malformed 200 body.
   */
  function PageFor(outcome: HttpOutcome, render: Json -> string, crashText: string): Page
  {
    match outcome
    case Raised(isTimeout, message) =>
      if isTimeout then ErrorPage(TimeoutMessage) else ErrorPage("Connection error: " + message)
    case Answered(status, text, body) =>
      if status != 200 then ErrorPage("Error: " + ErrorDetail(text, body, render))
      else match ResultsOf(body)
        case None => ErrorPage("Connection error: " + crashText)
        case Some(res) =>
          ResultsPage(res.displayLocation, res.current, res.forecast, OutfitItemList(OutfitValuesOf(res.outfit, render)))
  }

  /** Results are shown exactly for a 200 answer whose body reads cleanly; every other outcome is an error page. */
  lemma PageForResultsIff(outcome: HttpOutcome, render: Json -> string, crashText: string)
    ensures PageFor(outcome, render, crashText).ResultsPage? <==>
      outcome.Answered? && outcome.status == 200 && ResultsOf(outcome.body).Some?
    ensures outcome.Raised? && outcome.isTimeout ==> PageFor(outcome, render, crashText) == ErrorPage(TimeoutMessage)
    ensures outcome.Answered? && outcome.status != 200 ==>
      PageFor(outcome, render, crashText) == ErrorPage("Error: " + ErrorDetail(outcome.text, outcome.body, render))
  {
  }

  /**
   * `get_outfit`: a blank location is refused without any request; otherwise
   * the trimmed location is posted (with the 404 retry) and the final
   * outcome decides the page.
   */
  method GetOutfit(location: string, baseUrl: string, send: (string, string) -> HttpOutcome,
                   render: Json -> string, crashText: string)
    returns (page: Page, urls: seq<string>, final: Option<HttpOutcome>)
    ensures Blank(location) ==> page == ErrorPage(BlankMessage) && urls == [] && final == None
    ensures !Blank(location) ==>
      1 <= |urls| <= 2 && urls[0] == baseUrl + SuggestPath &&
      (|urls| == 2 <==> send(urls[0], Strip(location)).Answered? && send(urls[0], Strip(location)).status == 404) &&
      final == Some(send(urls[|urls| - 1], Strip(location)))
    ensures final.Some? ==> page == PageFor(final.value, render, crashText)
  {
    if location == "" || Strip(location) == "" {
      return ErrorPage(BlankMessage), [], None;
    }
    var trimmed := Strip(location);
    var response;
    response, urls := PostWithRetry(baseUrl, trimmed, send);
    page := Respond(response, render, crashText);
    final := Some(response);
  }

  /** The page for a final outcome, as the handler builds it. */
  method Respond(response: HttpOutcome, render: Json -> string, crashText: string) returns (page: Page)
    ensures page == PageFor(response, render, crashText)
  {
    match response {
      case Raised(isTimeout, message) =>
        page := if isTimeout then ErrorPage(TimeoutMessage) else ErrorPage("Connection error: " + message);
      case Answered(status, text, body) =>
        if status != 200 {
          page := ErrorPage("Error: " + ErrorDetail(text, body, render));
          return;
        }
        var decoded := ResultsOf(body);
        if decoded.None? {
          page := ErrorPage("Connection error: " + crashText);
          return;
        }
        var items := BuildOutfitItems(decoded.value.outfit, render);
        page := ResultsPage(decoded.value.displayLocation, decoded.value.current, decoded.value.forecast, items);
    }
  }
}
