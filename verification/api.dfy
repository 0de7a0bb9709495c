/**
 * The HTTP API handlers of app/main.py: the masked configuration report,
 * the outfit suggestion endpoint and the analysis endpoint that picks the
 * latest archived weather object of the day.
 */
module Api {
  import opened Base
  import opened Json
  import opened Calendar
  import opened Settings
  import opened Storage
  import WeatherSchema

  // ---------------------------------------------------------------- debug_config

  /** First ten characters of a secret plus "...", or None for an empty secret. */
  function KeyPreview(key: string): (r: Option<string>)
    ensures r.None? <==> key == ""
    ensures r.Some? ==> 3 < |r.value| <= 13 && r.value[|r.value| - 3..] == "..."
  {
    if key == [] then None
    else if |key| <= 10 then Some(key + "...")
    else Some(key[..10] + "...")
  }

  /** The preview shows a prefix of the secret and nothing beyond its tenth character. */
  lemma KeyPreviewMasks(key: string, other: string)
    requires key != "" && other != ""
    requires |key| >= 10 && |other| >= 10 && key[..10] == other[..10]
    ensures KeyPreview(key) == KeyPreview(other)
    ensures KeyPreview(key).value == key[..10] + "..."
  {
    if |key| == 10 {
      assert key[..10] == key;
    }
    if |other| == 10 {
      assert other[..10] == other;
    }
  }

  /**
   * Without its "...", the preview is the key cut to ten characters: the
   * whole key when it is shorter, otherwise its first ten.
   */
  lemma KeyPreviewIsPrefix(key: string)
    requires key != ""
    ensures var p := KeyPreview(key).value;
      p[..|p| - 3] <= key && |p| - 3 == (if |key| < 10 then |key| else 10)
  {
  }

  datatype DebugInfo = DebugInfo(
    weatherBucketName: Option<string>,
    hasOpenRouterKey: bool, openRouterKeyPreview: Option<string>,
    hasWeatherKey: bool, weatherKeyPreview: Option<string>)

  /**
   * `has_*` and the preview of one key; a lookup failure (given by its
   * message) is reported in the preview and counts as absent.
   */
  function KeyReport(lookup: Result<string, string>): (r: (bool, Option<string>))
    ensures r.0 <==> lookup.Success? && lookup.value != ""
    ensures lookup.Success? ==> r.1 == KeyPreview(lookup.value)
    ensures lookup.Failure? ==> r.1 == Some("Error: " + lookup.error)
  {
    match lookup
    case Success(key) => (key != "", KeyPreview(key))
    case Failure(msg) => (false, Some("Error: " + msg))
  }

  function DebugConfig(env: Env, openRouter: Result<string, string>, weather: Result<string, string>): (r: DebugInfo)
    ensures r.weatherBucketName == WeatherBucketName(env)
    ensures (r.hasOpenRouterKey, r.openRouterKeyPreview) == KeyReport(openRouter)
    ensures (r.hasWeatherKey, r.weatherKeyPreview) == KeyReport(weather)
  {
    var (hasOpenRouter, openRouterPreview) := KeyReport(openRouter);
    var (hasWeather, weatherPreview) := KeyReport(weather);
    DebugInfo(WeatherBucketName(env), hasOpenRouter, openRouterPreview, hasWeather, weatherPreview)
  }

  // ---------------------------------------------------------------- suggest_outfit

  /** `value[k]` on a decoded JSON value; None where Python raises (not a dict, or no such key). */
  function Index(j: Json, k: string): (r: Option<Json>)
    ensures r.Some? <==> j.JObject? && k in j.fields
    ensures r.Some? ==> r.value == j.fields[k]
  {
    if j.JObject? && k in j.fields then Some(j.fields[k]) else None
  }

  /**
   * The suggestion endpoint: temp_c and condition.text are read out of the
   * weather record and handed to the suggester; None when a lookup raises.
   */
  function SuggestOutfit(location: string, weather: Json, suggest: (string, Json, Json) -> Json): (r: Option<Json>)
    ensures r.Some? <==>
      (Index(weather, "current").Some? && Index(weather.fields["current"], "temp_c").Some? &&
       Index(weather.fields["current"], "condition").Some? &&
       Index(weather.fields["current"].fields["condition"], "text").Some?)
    ensures r.Some? ==>
      var current := weather.fields["current"];
      r.value == JObject(map[
        "location" := JStr(location), "weather" := weather,
        "outfit_suggestion" := suggest(location, current.fields["temp_c"], current.fields["condition"].fields["text"])])
  {
    var current :- Index(weather, "current");
    var tempC :- Index(current, "temp_c");
    var condition :- Index(current, "condition");
    var text :- Index(condition, "text");
    Some(JObject(map["location" := JStr(location), "weather" := weather,
                     "outfit_suggestion" := suggest(location, tempC, text)]))
  }

  /** For the test fixture, the suggester receives 5.2 and "Clear". */
  lemma SuggestOutfitOnFixture(location: string, suggest: (string, Json, Json) -> Json)
    ensures SuggestOutfit(location, WeatherSchema.MockWeatherResponse, suggest) ==
      Some(JObject(map["location" := JStr(location), "weather" := WeatherSchema.MockWeatherResponse,
                       "outfit_suggestion" := suggest(location, JFloat(5.2), JStr("Clear"))]))
  {
    var w := WeatherSchema.MockWeatherResponse;
    var current := w.fields["current"];
    assert current.fields["temp_c"] == JFloat(5.2);
    assert current.fields["condition"].fields["text"] == JStr("Clear");
  }

  // ---------------------------------------------------------------- analyze_weather

  datatype S3Object = S3Object(key: string, lastModified: int)

  /** What `list_objects_v2` gives: a response with or without `Contents`, or an error message. */
  datatype Listing = Listed(contents: Option<seq<S3Object>>) | ListFailed(message: string)

  datatype HttpError = HttpError(status: int, detail: string)

  datatype Analyzed = Analyzed(message: string, bucket: Option<string>, key: string)

  /**
   * Index i is what a stable sort on LastModified, descending, puts first:
   * no object is newer, and every earlier object is strictly older.
   */
  predicate IsLatest(contents: seq<S3Object>, i: int)
  {
    0 <= i < |contents| &&
    (forall j :: 0 <= j < |contents| ==> contents[j].lastModified <= contents[i].lastModified) &&
    (forall j :: 0 <= j < i ==> contents[j].lastModified < contents[i].lastModified)
  }

  /** At most one index is the latest, so the choice is determined by the listing. */
  lemma LatestUnique(contents: seq<S3Object>, i: int, k: int)
    requires IsLatest(contents, i) && IsLatest(contents, k)
    ensures i == k
  {
    assert contents[i].lastModified == contents[k].lastModified;
  }

  /** The element `sorted(contents, key=LastModified, reverse=True)[0]`, or None for an empty list. */
  method LatestObject(contents: seq<S3Object>) returns (r: Option<nat>)
    ensures r.None? <==> contents == []
    ensures r.Some? ==> IsLatest(contents, r.value)
  {
    if contents == [] {
      return None;
    }
    var best := 0;
    var k := 1;
    while k < |contents|
      invariant 1 <= k <= |contents| && best < k
      invariant forall j :: 0 <= j < k ==> contents[j].lastModified <= contents[best].lastModified
      invariant forall j :: 0 <= j < best ==> contents[j].lastModified < contents[best].lastModified
    {
      if contents[k].lastModified > contents[best].lastModified {
        best := k;
      }
      k := k + 1;
    }
    return Some(best);
  }

  /** The bucket actually used: the argument, else the configured one. */
  function EffectiveBucket(bucket: Option<string>, env: Env): (r: Option<string>)
    ensures bucket.Some? ==> r == bucket
    ensures bucket.None? ==> r == WeatherBucketName(env)
  {
    if bucket.None? then WeatherBucketName(env) else bucket
  }

  /** The listing prefix: today's partition of the archive. */
  function TodayPrefix(today: Date): string
    requires ValidDate(today)
  {
    PartitionPrefix(FormatDate(today))
  }

  /** Every object archived on a UTC date lies under the listing prefix of that same date. */
  lemma ArchivedKeyUnderPrefix(location: string, utcNow: Instant)
    requires ValidInstant(utcNow)
    ensures TodayPrefix(utcNow.date) <= ObjectKey(location, utcNow)
  {
    KeyUnderTablePartition(location, utcNow);
  }

  const IndexErrorText: string := "list index out of range"

  /** The analysis step for a chosen key; `failure` is the message of the error it raised, if any. */
  function AnalyzeKey(bucket: Option<string>, key: string, failure: Option<string>): (r: Result<Analyzed, HttpError>)
    ensures r.Success? <==> failure.None?
    ensures r.Success? ==> r.value == Analyzed("Weather analysis completed.", bucket, key)
    ensures r.Failure? ==> r.error == HttpError(500, "Error analyzing weather file: " + failure.value)
  {
    if failure.Some? then Failure(HttpError(500, "Error analyzing weather file: " + failure.value))
    else Success(Analyzed("Weather analysis completed.", bucket, key))
  }

  /**
   * `analyze_weather`. `today` is the local date; `list` answers the listing
   * request and `analyze` the analysis of a key. `listedPrefix` is the prefix
   * that was listed, if a listing happened.
   */
  method AnalyzeWeather(bucket: Option<string>, key: Option<string>, env: Env, today: Date,
                        list: (Option<string>, string) -> Listing,
                        analyze: (Option<string>, string) -> Option<string>)
    returns (r: Result<Analyzed, HttpError>, listedPrefix: Option<string>)
    requires ValidDate(today)
    ensures listedPrefix == if key.None? then Some(TodayPrefix(today)) else None
    ensures key.Some? ==>
      var b := EffectiveBucket(bucket, env);
      r == AnalyzeKey(b, key.value, analyze(b, key.value))
    ensures key.None? ==>
      var b := EffectiveBucket(bucket, env);
      var listing := list(b, TodayPrefix(today));
      (listing.ListFailed? ==> r == Failure(HttpError(500, "Error finding weather data: " + listing.message))) &&
      (listing == Listed(None) ==>
        r == Failure(HttpError(404, "No weather data found for today (" + FormatDate(today) + ")"))) &&
      (listing == Listed(Some([])) ==> r == Failure(HttpError(500, "Error finding weather data: " + IndexErrorText))) &&
      (listing.Listed? && listing.contents.Some? && listing.contents.value != [] ==>
        exists i :: IsLatest(listing.contents.value, i) &&
          r == AnalyzeKey(b, listing.contents.value[i].key, analyze(b, listing.contents.value[i].key)))
  {
    var b := bucket;
    if b.None? {
      b := WeatherBucketName(env);
    }
    var k := key;
    listedPrefix := None;
    if k.None? {
      var todayStamp := FormatDate(today);
      var prefix := PartitionPrefix(todayStamp);
      listedPrefix := Some(prefix);
      var response := list(b, prefix);
      match response {
        case ListFailed(msg) =>
          return Failure(HttpError(500, "Error finding weather data: " + msg)), listedPrefix;
        case Listed(contents) =>
          if contents.None? {
            return Failure(HttpError(404, "No weather data found for today (" + todayStamp + ")")), listedPrefix;
          }
          var latest := LatestObject(contents.value);
          if latest.None? {
            return Failure(HttpError(500, "Error finding weather data: " + IndexErrorText)), listedPrefix;
          }
          k := Some(contents.value[latest.value].key);
      }
    }
    r := AnalyzeKey(b, k.value, analyze(b, k.value));
  }
}
