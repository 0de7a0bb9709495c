/**
 * The weather payload schema (app/models/weather.py) as datatypes, with the
 * validation that turns a decoded JSON value into them: required and
 * optional fields, the field kinds, and the two range constraints
 * (temp_c in [-100, 60], humidity in [0, 100]).
 */
module WeatherSchema {
  import opened Base
  import opened Json

  datatype WeatherCondition = WeatherCondition(text: string, icon: Option<string>, code: int)

  datatype CurrentWeather = CurrentWeather(
    lastUpdatedEpoch: int, lastUpdated: string,
    tempC: real, tempF: real, isDay: int,
    condition: WeatherCondition,
    windMph: real, windKph: real, humidity: int, cloud: int,
    feelslikeC: real, feelslikeF: real, uv: real)

  datatype Location = Location(
    name: string, region: string, country: string, lat: real, lon: real,
    tzId: string, localtimeEpoch: int, localtime: string)

  datatype WeatherResponse = WeatherResponse(location: Location, current: CurrentWeather)

  datatype ForecastDay = ForecastDay(
    date: string, dateEpoch: int, day: map<string, Json>, astro: map<string, Json>,
    hour: Option<seq<map<string, Json>>>)

  datatype Forecast = Forecast(forecastday: seq<ForecastDay>)

  datatype WeatherWithForecast = WeatherWithForecast(location: Location, current: CurrentWeather, forecast: Option<Forecast>)

  // ---------------------------------------------------------------- constraints

  predicate TempCInRange(t: real) { -100.0 <= t <= 60.0 }
  predicate HumidityInRange(h: int) { 0 <= h <= 100 }

  /** The only value constraints of the schema; every other field is unconstrained. */
  predicate ValidCurrent(c: CurrentWeather) { TempCInRange(c.tempC) && HumidityInRange(c.humidity) }

  // ---------------------------------------------------------------- field kinds

  function StrValue(j: Json): Option<string>
  {
    if j.JStr? then Some(j.s) else None
  }

  /** An int field takes a JSON integer, or a float with no fractional part. */
  function IntValue(j: Json): Option<int>
  {
    match j
    case JInt(i) => Some(i)
    case JFloat(r) => if r.Floor as real == r then Some(r.Floor) else None
    case _ => None
  }

  /** A float field takes any JSON number. */
  function FloatValue(j: Json): Option<real>
  {
    match j
    case JInt(i) => Some(i as real)
    case JFloat(r) => Some(r)
    case _ => None
  }

  function DictValue(j: Json): Option<map<string, Json>>
  {
    if j.JObject? then Some(j.fields) else None
  }

  function Field(o: map<string, Json>, k: string): Option<Json>
  {
    if k in o then Some(o[k]) else None
  }

  /** An optional field: absent or null gives None; otherwise the value must parse. */
  function OptionalField<T>(o: map<string, Json>, k: string, parse: Json -> Option<T>): Option<Option<T>>
  {
    if k !in o || o[k] == JNull then Some(None)
    else match parse(o[k])
      case None => None
      case Some(v) => Some(Some(v))
  }

  // ---------------------------------------------------------------- validation

  function ParseCondition(j: Json): Option<WeatherCondition>
  {
    var o :- DictValue(j);
    var text :- StrValue(Field(o, "text").GetOr(JNull));
    var icon :- OptionalField(o, "icon", StrValue);
    var code :- IntValue(Field(o, "code").GetOr(JNull));
    Some(WeatherCondition(text, icon, code))
  }

  function ParseCurrent(j: Json): Option<CurrentWeather>
  {
    var o :- DictValue(j);
    var lastUpdatedEpoch :- IntValue(Field(o, "last_updated_epoch").GetOr(JNull));
    var lastUpdated :- StrValue(Field(o, "last_updated").GetOr(JNull));
    var tempC :- FloatValue(Field(o, "temp_c").GetOr(JNull));
    var tempF :- FloatValue(Field(o, "temp_f").GetOr(JNull));
    var isDay :- IntValue(Field(o, "is_day").GetOr(JNull));
    var condition :- ParseCondition(Field(o, "condition").GetOr(JNull));
    var windMph :- FloatValue(Field(o, "wind_mph").GetOr(JNull));
    var windKph :- FloatValue(Field(o, "wind_kph").GetOr(JNull));
    var humidity :- IntValue(Field(o, "humidity").GetOr(JNull));
    var cloud :- IntValue(Field(o, "cloud").GetOr(JNull));
    var feelslikeC :- FloatValue(Field(o, "feelslike_c").GetOr(JNull));
    var feelslikeF :- FloatValue(Field(o, "feelslike_f").GetOr(JNull));
    var uv :- FloatValue(Field(o, "uv").GetOr(JNull));
    var c := CurrentWeather(lastUpdatedEpoch, lastUpdated, tempC, tempF, isDay, condition,
      windMph, windKph, humidity, cloud, feelslikeC, feelslikeF, uv);
    if ValidCurrent(c) then Some(c) else None
  }

  function ParseLocation(j: Json): Option<Location>
  {
    var o :- DictValue(j);
    var name :- StrValue(Field(o, "name").GetOr(JNull));
    var region :- StrValue(Field(o, "region").GetOr(JNull));
    var country :- StrValue(Field(o, "country").GetOr(JNull));
    var lat :- FloatValue(Field(o, "lat").GetOr(JNull));
    var lon :- FloatValue(Field(o, "lon").GetOr(JNull));
    var tzId :- StrValue(Field(o, "tz_id").GetOr(JNull));
    var localtimeEpoch :- IntValue(Field(o, "localtime_epoch").GetOr(JNull));
    var localtime :- StrValue(Field(o, "localtime").GetOr(JNull));
    Some(Location(name, region, country, lat, lon, tzId, localtimeEpoch, localtime))
  }

  function ParseResponse(j: Json): Option<WeatherResponse>
  {
    var o :- DictValue(j);
    var location :- ParseLocation(Field(o, "location").GetOr(JNull));
    var current :- ParseCurrent(Field(o, "current").GetOr(JNull));
    Some(WeatherResponse(location, current))
  }

  /** List[dict]: every element must be an object. */
  function DictList(j: Json): Option<seq<map<string, Json>>>
  {
    if !j.JArray? then None else DictItems(j.items)
  }

  function DictItems(items: seq<Json>): Option<seq<map<string, Json>>>
  {
    if items == [] then Some([])
    else
      var first :- DictValue(items[0]);
      var rest :- DictItems(items[1..]);
      Some([first] + rest)
  }

  function ParseForecastDay(j: Json): Option<ForecastDay>
  {
    var o :- DictValue(j);
    var date :- StrValue(Field(o, "date").GetOr(JNull));
    var dateEpoch :- IntValue(Field(o, "date_epoch").GetOr(JNull));
    var day :- DictValue(Field(o, "day").GetOr(JNull));
    var astro :- DictValue(Field(o, "astro").GetOr(JNull));
    var hour :- OptionalField(o, "hour", DictList);
    Some(ForecastDay(date, dateEpoch, day, astro, hour))
  }

  function ParseForecastDays(items: seq<Json>): Option<seq<ForecastDay>>
  {
    if items == [] then Some([])
    else
      var first :- ParseForecastDay(items[0]);
      var rest :- ParseForecastDays(items[1..]);
      Some([first] + rest)
  }

  function ParseForecast(j: Json): Option<Forecast>
  {
    var o :- DictValue(j);
    var days := Field(o, "forecastday").GetOr(JNull);
    if !days.JArray? then None
    else
      var parsed :- ParseForecastDays(days.items);
      Some(Forecast(parsed))
  }

  function ParseWeatherWithForecast(j: Json): Option<WeatherWithForecast>
  {
    var o :- DictValue(j);
    var location :- ParseLocation(Field(o, "location").GetOr(JNull));
    var current :- ParseCurrent(Field(o, "current").GetOr(JNull));
    var forecast :- OptionalField(o, "forecast", ParseForecast);
    Some(WeatherWithForecast(location, current, forecast))
  }

  // ---------------------------------------------------------------- serialisation

  function ConditionJson(c: WeatherCondition): Json
  {
    JObject(map["text" := JStr(c.text), "icon" := (if c.icon.Some? then JStr(c.icon.value) else JNull),
                "code" := JInt(c.code)])
  }

  function CurrentJson(c: CurrentWeather): Json
  {
    JObject(map[
      "last_updated_epoch" := JInt(c.lastUpdatedEpoch), "last_updated" := JStr(c.lastUpdated),
      "temp_c" := JFloat(c.tempC), "temp_f" := JFloat(c.tempF), "is_day" := JInt(c.isDay),
      "condition" := ConditionJson(c.condition),
      "wind_mph" := JFloat(c.windMph), "wind_kph" := JFloat(c.windKph),
      "humidity" := JInt(c.humidity), "cloud" := JInt(c.cloud),
      "feelslike_c" := JFloat(c.feelslikeC), "feelslike_f" := JFloat(c.feelslikeF), "uv" := JFloat(c.uv)])
  }

  function LocationJson(l: Location): Json
  {
    JObject(map[
      "name" := JStr(l.name), "region" := JStr(l.region), "country" := JStr(l.country),
      "lat" := JFloat(l.lat), "lon" := JFloat(l.lon), "tz_id" := JStr(l.tzId),
      "localtime_epoch" := JInt(l.localtimeEpoch), "localtime" := JStr(l.localtime)])
  }

  function ResponseJson(r: WeatherResponse): Json
  {
    JObject(map["location" := LocationJson(r.location), "current" := CurrentJson(r.current)])
  }

  // ---------------------------------------------------------------- properties

  /** A condition serialises and validates back to itself; icon may be missing. */
  lemma ConditionRoundTrip(c: WeatherCondition)
    ensures ParseCondition(ConditionJson(c)) == Some(c)
  {
  }

  /** text and code are required; a missing icon defaults to None. */
  lemma ConditionRequiredFields(o: map<string, Json>)
    ensures "text" !in o || "code" !in o ==> ParseCondition(JObject(o)) == None
    ensures "icon" !in o && ParseCondition(JObject(o)).Some? ==> ParseCondition(JObject(o)).value.icon == None
  {
  }

  /** Current conditions serialise and validate back to themselves exactly when they are in range. */
  lemma CurrentRoundTrip(c: CurrentWeather)
    ensures ParseCurrent(CurrentJson(c)) == if ValidCurrent(c) then Some(c) else None
  {
    ConditionRoundTrip(c.condition);
    CurrentJsonReadings(c);
    CurrentJsonRest(c);
  }

  /** The first half of the serialised fields, each read back as written. */
  lemma CurrentJsonReadings(c: CurrentWeather)
    ensures var o := CurrentJson(c).fields;
      Field(o, "last_updated_epoch") == Some(JInt(c.lastUpdatedEpoch)) &&
      Field(o, "last_updated") == Some(JStr(c.lastUpdated)) &&
      Field(o, "temp_c") == Some(JFloat(c.tempC)) &&
      Field(o, "temp_f") == Some(JFloat(c.tempF)) &&
      Field(o, "is_day") == Some(JInt(c.isDay)) &&
      Field(o, "condition") == Some(ConditionJson(c.condition))
  {
  }

  /** The second half of the serialised fields, each read back as written. */
  lemma CurrentJsonRest(c: CurrentWeather)
    ensures var o := CurrentJson(c).fields;
      Field(o, "wind_mph") == Some(JFloat(c.windMph)) &&
      Field(o, "wind_kph") == Some(JFloat(c.windKph)) &&
      Field(o, "humidity") == Some(JInt(c.humidity)) &&
      Field(o, "cloud") == Some(JInt(c.cloud)) &&
      Field(o, "feelslike_c") == Some(JFloat(c.feelslikeC)) &&
      Field(o, "feelslike_f") == Some(JFloat(c.feelslikeF)) &&
      Field(o, "uv") == Some(JFloat(c.uv))
  {
  }

  /** temp_c is accepted exactly in [-100, 60], both bounds included. */
  lemma TempCBounds(c: CurrentWeather)
    requires HumidityInRange(c.humidity)
    ensures ParseCurrent(CurrentJson(c)).Some? <==> -100.0 <= c.tempC <= 60.0
  {
    CurrentRoundTrip(c);
  }

  /** humidity is accepted exactly in [0, 100], both bounds included. */
  lemma HumidityBounds(c: CurrentWeather)
    requires TempCInRange(c.tempC)
    ensures ParseCurrent(CurrentJson(c)).Some? <==> 0 <= c.humidity <= 100
  {
    CurrentRoundTrip(c);
  }

  /** temp_f, wind, cloud, feels-like and uv accept any value. */
  lemma UnconstrainedFields(c: CurrentWeather, tempF: real, windMph: real, windKph: real, cloud: int,
                            feelslikeC: real, feelslikeF: real, uv: real)
    requires ValidCurrent(c)
    ensures var c' := c.(tempF := tempF, windMph := windMph, windKph := windKph, cloud := cloud,
                         feelslikeC := feelslikeC, feelslikeF := feelslikeF, uv := uv);
      ParseCurrent(CurrentJson(c')) == Some(c')
  {
    var c' := c.(tempF := tempF, windMph := windMph, windKph := windKph, cloud := cloud,
                 feelslikeC := feelslikeC, feelslikeF := feelslikeF, uv := uv);
    CurrentRoundTrip(c');
  }

  lemma LocationRoundTrip(l: Location)
    ensures ParseLocation(LocationJson(l)) == Some(l)
  {
  }

  /** A response is valid exactly when both its location and its current conditions are. */
  lemma ResponseValidIff(o: map<string, Json>)
    ensures ParseResponse(JObject(o)).Some? <==>
      "location" in o && "current" in o && ParseLocation(o["location"]).Some? && ParseCurrent(o["current"]).Some?
  {
  }

  lemma ResponseRoundTrip(r: WeatherResponse)
    ensures ParseResponse(ResponseJson(r)) == if ValidCurrent(r.current) then Some(r) else None
  {
    LocationRoundTrip(r.location);
    CurrentRoundTrip(r.current);
  }

  /** The forecast may be absent (or null): the rest of the payload decides. */
  lemma ForecastOptional(o: map<string, Json>)
    requires "forecast" !in o || o["forecast"] == JNull
    ensures ParseWeatherWithForecast(JObject(o)).Some? <==> ParseResponse(JObject(o)).Some?
    ensures ParseWeatherWithForecast(JObject(o)).Some? ==> ParseWeatherWithForecast(JObject(o)).value.forecast == None
  {
  }

  /** A forecast day needs date, date_epoch, day and astro; hour may be missing. */
  lemma ForecastDayFields(o: map<string, Json>)
    ensures "date" !in o || "date_epoch" !in o || "day" !in o || "astro" !in o ==> ParseForecastDay(JObject(o)) == None
    ensures "hour" !in o && ParseForecastDay(JObject(o)).Some? ==> ParseForecastDay(JObject(o)).value.hour == None
  {
  }

  /** A present forecast is valid exactly when every one of its days is. */
  lemma {:induction false} ForecastDaysAll(items: seq<Json>)
    ensures ParseForecastDays(items).Some? <==> forall k :: 0 <= k < |items| ==> ParseForecastDay(items[k]).Some?
    ensures ParseForecastDays(items).Some? ==> |ParseForecastDays(items).value| == |items|
  {
    if items != [] {
      ForecastDaysAll(items[1..]);
      assert forall k :: 1 <= k < |items| ==> items[k] == items[1..][k - 1];
    }
  }

  /** The record used as a fixture by the weather-service tests. */
  const MockWeatherResponse: Json := JObject(map[
    "location" := JObject(map[
      "name" := JStr("Tokyo"), "region" := JStr("Tokyo"), "country" := JStr("Japan"),
      "lat" := JFloat(35.6895), "lon" := JFloat(139.6917), "tz_id" := JStr("Asia/Tokyo"),
      "localtime_epoch" := JInt(1765056792), "localtime" := JStr("2025-12-07 06:33")]),
    "current" := JObject(map[
      "last_updated_epoch" := JInt(1765056600), "last_updated" := JStr("2025-12-07 06:30"),
      "temp_c" := JFloat(5.2), "temp_f" := JFloat(41.4), "is_day" := JInt(0),
      "condition" := JObject(map[
        "text" := JStr("Clear"), "icon" := JStr("//cdn.weatherapi.com/weather/64x64/night/113.png"),
        "code" := JInt(1000)]),
      "wind_mph" := JFloat(4.7), "wind_kph" := JFloat(7.6), "humidity" := JInt(75), "cloud" := JInt(0),
      "feelslike_c" := JFloat(3.5), "feelslike_f" := JFloat(38.3), "uv" := JFloat(0.0)])])

  lemma MockWeatherResponseValid()
    ensures ParseResponse(MockWeatherResponse).Some?
    ensures ParseResponse(MockWeatherResponse).value.current.tempC == 5.2
    ensures ParseResponse(MockWeatherResponse).value.current.condition.text == "Clear"
  {
    var l := Location("Tokyo", "Tokyo", "Japan", 35.6895, 139.6917, "Asia/Tokyo", 1765056792, "2025-12-07 06:33");
    var cond := WeatherCondition("Clear", Some("//cdn.weatherapi.com/weather/64x64/night/113.png"), 1000);
    var c := CurrentWeather(1765056600, "2025-12-07 06:30", 5.2, 41.4, 0, cond, 4.7, 7.6, 75, 0, 3.5, 38.3, 0.0);
    ResponseRoundTrip(WeatherResponse(l, c));
    assert ResponseJson(WeatherResponse(l, c)) == MockWeatherResponse;
  }
}
