/**
 * The Reflex frontend's page state (frontend/frontend/frontend.py): the
 * fields the page binds to and the `get_outfit` event handler that updates
 * them from the suggestion API's answer.
 */
module ReflexState {
  import opened Base
  import opened Json
  import opened Outfit
  import opened Http

  /** The flattened current conditions the page shows, each as text. */
  datatype Readings = Readings(tempC: string, condition: string, humidity: string,
                               windKph: string, feelslikeC: string, uv: string)

  const BlankMessage: string := "Please enter a location."

  /**
   * How one reading appears on the page: "" when the key is missing, a
   * string value as it is, and any other value as Python's `str()` gives it.
   */
  predicate ReadingShown(current: map<string, Json>, key: string, render: Json -> string, shown: string)
  {
    (key !in current ==> shown == "") &&
    (key in current && current[key].JStr? ==> shown == current[key].s) &&
    (key in current && !current[key].JStr? ==> shown == render(current[key]))
  }

  /** `str(current.get(k, ""))` for each shown reading. */
  function ReadingsOf(current: map<string, Json>, render: Json -> string): (r: Readings)
    ensures ReadingShown(current, "temp_c", render, r.tempC)
    ensures ReadingShown(current, "condition", render, r.condition)
    ensures ReadingShown(current, "humidity", render, r.humidity)
    ensures ReadingShown(current, "wind_kph", render, r.windKph)
    ensures ReadingShown(current, "feelslike_c", render, r.feelslikeC)
    ensures ReadingShown(current, "uv", render, r.uv)
  {
    Readings(Stringify(render, Get(current, "temp_c", JStr(""))), Stringify(render, Get(current, "condition", JStr(""))),
             Stringify(render, Get(current, "humidity", JStr(""))), Stringify(render, Get(current, "wind_kph", JStr(""))),
             Stringify(render, Get(current, "feelslike_c", JStr(""))), Stringify(render, Get(current, "uv", JStr(""))))
  }

  /**
   * The current conditions and the outfit of a 200 answer, or None when
   * reading the body raises (not JSON, or `weather` / `weather.current` is
   * present but not a dict).
   */
  function AnswerOf(body: Option<Json>): (r: Option<(map<string, Json>, Json)>)
    ensures r.Some? ==> body.Some? && body.value.JObject?
  {
    if body.None? || !body.value.JObject? then None
    else
      var data := body.value.fields;
      var weatherData := Get(data, "weather", JObject(map[]));
      if !weatherData.JObject? then None
      else
        var current := Get(weatherData.fields, "current", JObject(map[]));
        if !current.JObject? then None
        else Some((current.fields, Get(data, "outfit_suggestion", JObject(map[]))))
  }

  /** Whether the final outcome fills the results. */
  predicate Succeeds(outcome: HttpOutcome)
  {
    outcome.Answered? && outcome.status == 200 && AnswerOf(outcome.body).Some?
  }

  /**
   * The error message left after a request. Unlike the server-rendered page,
   * a timeout is not singled out: every client exception reads "Connection error".
   */
  function ErrorMessageFor(outcome: HttpOutcome, render: Json -> string, crashText: string): (r: string)
    ensures r == "" <==> Succeeds(outcome)
    ensures outcome.Raised? ==> r == "Connection error: " + outcome.message
    ensures outcome.Answered? && outcome.status != 200 ==> r == "Error: " + ErrorDetail(outcome.text, outcome.body, render)
  {
    match outcome
    case Raised(_, message) => "Connection error: " + message
    case Answered(status, text, body) =>
      if status != 200 then "Error: " + ErrorDetail(text, body, render)
      else if AnswerOf(body).None? then "Connection error: " + crashText
      else ""
  }

  class State {
    var location: string
    var isLoading: bool
    var errorMessage: string
    var tempC: string
    var condition: string
    var humidity: string
    var windKph: string
    var feelslikeC: string
    var uv: string
    var displayLocation: string
    var outfitTop: string
    var outfitBottom: string
    var outfitOuterwear: string
    var outfitAccessories: string
    var hasResults: bool

    function ShownReadings(): Readings
      reads this`tempC, this`condition, this`humidity, this`windKph, this`feelslikeC, this`uv
    {
      Readings(tempC, condition, humidity, windKph, feelslikeC, uv)
    }

    function ShownOutfit(): OutfitSuggestion
      reads this`outfitTop, this`outfitBottom, this`outfitOuterwear, this`outfitAccessories
    {
      OutfitSuggestion(outfitTop, outfitBottom, outfitOuterwear, outfitAccessories)
    }

    /**
     * What a final outcome leaves on the page: its error message; on success
     * the results flag, the confirmed location, the readings and the outfit of
     * the answer; otherwise the previously shown location, readings and outfit.
     */
    predicate ShowsOutcome(outcome: HttpOutcome, render: Json -> string, crashText: string,
                           prevDisplay: string, prevReadings: Readings, prevOutfit: OutfitSuggestion)
      reads this`location, this`errorMessage, this`hasResults, this`displayLocation
      reads this`tempC, this`condition, this`humidity, this`windKph, this`feelslikeC, this`uv
      reads this`outfitTop, this`outfitBottom, this`outfitOuterwear, this`outfitAccessories
    {
      errorMessage == ErrorMessageFor(outcome, render, crashText) &&
      (hasResults <==> Succeeds(outcome)) &&
      (hasResults ==>
        displayLocation == location &&
        ShownReadings() == ReadingsOf(AnswerOf(outcome.body).value.0, render) &&
        ShownOutfit() == OutfitText(OutfitValuesOf(AnswerOf(outcome.body).value.1, render), render)) &&
      (!hasResults ==>
        displayLocation == prevDisplay && ShownReadings() == prevReadings && ShownOutfit() == prevOutfit)
    }

    /** Every field starts empty or false. */
    constructor ()
      ensures location == "" && !isLoading && errorMessage == "" && displayLocation == "" && !hasResults
      ensures ShownReadings() == Readings("", "", "", "", "", "")
      ensures ShownOutfit() == OutfitSuggestion("", "", "", "")
    {
      location, isLoading, errorMessage := "", false, "";
      tempC, condition, humidity, windKph, feelslikeC, uv := "", "", "", "", "", "";
      displayLocation := "";
      outfitTop, outfitBottom, outfitOuterwear, outfitAccessories := "", "", "", "";
      hasResults := false;
    }

    /**
     * `get_outfit`. `formLocation` is the form's location entry, if any;
     * `send` answers each POST; `crashText` is the text of the exception
     * raised while reading a malformed 200 body. `urls` lists the URLs posted
     * to and `final` is the answer the state was updated from.
     */
    method GetOutfit(formLocation: Option<string>, baseUrl: string, send: (string, string) -> HttpOutcome,
                     render: Json -> string, crashText: string)
      returns (urls: seq<string>, final: Option<HttpOutcome>)
      modifies this
      ensures location == formLocation.GetOr(old(location))
      // an empty location: only the message changes, and nothing is sent
      ensures location == "" ==>
        urls == [] && final == None && errorMessage == BlankMessage &&
        isLoading == old(isLoading) && hasResults == old(hasResults) && displayLocation == old(displayLocation) &&
        ShownReadings() == old(ShownReadings()) && ShownOutfit() == old(ShownOutfit())
      // otherwise the request runs, with the 404 retry
      ensures location != "" ==>
        1 <= |urls| <= 2 && urls[0] == baseUrl + SuggestPath &&
        (|urls| == 2 <==> send(urls[0], location).Answered? && send(urls[0], location).status == 404) &&
        final == Some(send(urls[|urls| - 1], location))
      // and the final outcome decides the rest; loading is over on every exit
      ensures final.Some? ==>
        !isLoading &&
        ShowsOutcome(final.value, render, crashText, old(displayLocation), old(ShownReadings()), old(ShownOutfit()))
    {
      location := formLocation.GetOr(location);
      if location == "" {
        errorMessage := BlankMessage;
        return [], None;
      }
      var response;
      urls, response := Fetch(baseUrl, send, render, crashText);
      final := Some(response);
    }

    /** The request itself, from the loading flag going up to its `finally`. */
    method Fetch(baseUrl: string, send: (string, string) -> HttpOutcome, render: Json -> string, crashText: string)
      returns (urls: seq<string>, response: HttpOutcome)
      modifies this`isLoading, this`errorMessage, this`hasResults, this`displayLocation
      modifies this`tempC, this`condition, this`humidity, this`windKph, this`feelslikeC, this`uv
      modifies this`outfitTop, this`outfitBottom, this`outfitOuterwear, this`outfitAccessories
      ensures 1 <= |urls| <= 2 && urls[0] == baseUrl + SuggestPath
      ensures |urls| == 2 <==> send(urls[0], location).Answered? && send(urls[0], location).status == 404
      ensures response == send(urls[|urls| - 1], location)
      ensures !isLoading
      ensures ShowsOutcome(response, render, crashText, old(displayLocation), old(ShownReadings()), old(ShownOutfit()))
    {
      StartLoading();
      response, urls := PostWithRetry(baseUrl, location, send);
      Apply(response, render, crashText);
      StopLoading();
    }

    /** The flags at fetch start: loading, no message, no results. */
    method StartLoading()
      modifies this`isLoading, this`errorMessage, this`hasResults
      ensures isLoading && errorMessage == "" && !hasResults
    {
      isLoading := true;
      errorMessage := "";
      hasResults := false;
    }

    /** The `finally` of the request: loading is over. */
    method StopLoading()
      modifies this`isLoading
      ensures !isLoading
    {
      isLoading := false;
    }

    /** The body of the request's `try`: what the final outcome writes into the state. */
    method Apply(response: HttpOutcome, render: Json -> string, crashText: string)
      modifies this`errorMessage
      modifies this`tempC, this`condition, this`humidity, this`windKph, this`feelslikeC, this`uv
      modifies this`displayLocation, this`hasResults
      modifies this`outfitTop, this`outfitBottom, this`outfitOuterwear, this`outfitAccessories
      requires errorMessage == "" && !hasResults
      ensures ShowsOutcome(response, render, crashText, old(displayLocation), old(ShownReadings()), old(ShownOutfit()))
    {
      match response {
        case Raised(_, message) =>
          errorMessage := "Connection error: " + message;
        case Answered(status, text, body) =>
          if status != 200 {
            errorMessage := "Error: " + ErrorDetail(text, body, render);
            return;
          }
          var answer := AnswerOf(body);
          if answer.None? {
            errorMessage := "Connection error: " + crashText;
            return;
          }
          Show(ReadingsOf(answer.value.0, render), OutfitText(OutfitValuesOf(answer.value.1, render), render));
      }
    }

    /** The success path: the readings, the confirmed location and the outfit are shown. */
    method Show(readings: Readings, outfit: OutfitSuggestion)
      modifies this`tempC, this`condition, this`humidity, this`windKph, this`feelslikeC, this`uv
      modifies this`displayLocation, this`hasResults
      modifies this`outfitTop, this`outfitBottom, this`outfitOuterwear, this`outfitAccessories
      ensures hasResults && displayLocation == location
      ensures ShownReadings() == readings && ShownOutfit() == outfit
    {
      SetReadings(readings);
      SetOutfit(outfit);
      displayLocation := location;
      hasResults := true;
    }

    /** The six flattened readings, each bound to one field. */
    method SetReadings(readings: Readings)
      modifies this`tempC, this`condition, this`humidity, this`windKph, this`feelslikeC, this`uv
      ensures ShownReadings() == readings
    {
      tempC, condition, humidity := readings.tempC, readings.condition, readings.humidity;
      windKph, feelslikeC, uv := readings.windKph, readings.feelslikeC, readings.uv;
    }

    /** The four outfit fields. */
    method SetOutfit(outfit: OutfitSuggestion)
      modifies this`outfitTop, this`outfitBottom, this`outfitOuterwear, this`outfitAccessories
      ensures ShownOutfit() == outfit
    {
      outfitTop, outfitBottom := outfit.top, outfit.bottom;
      outfitOuterwear, outfitAccessories := outfit.outerwear, outfit.accessories;
    }
  }
}
