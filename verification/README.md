# fitted — a Dafny model of the weather archive and its clients

`fitted` is a wardrobe assistant. A FastAPI service fetches weather for a
location and asks a language model for an outfit. Every raw weather response
is archived in S3 under a key partitioned by date, with one directory per
location inside each date, and Athena queries that archive with SQL. Two web frontends call the suggestion endpoint: a
server-rendered one (`frontend/app.py`) and a Reflex one
(`frontend/frontend/frontend.py`).

This project models the rules around that archive and the clients that read
it:

- the S3 key builder and the guarded, failure-swallowing archive write
  (`Storage`);
- the Athena result decoder, the query poller, the `dt` partition filters,
  the summary pick and the legacy single-file check (`Analysis`);
- the pydantic weather schema as a validating parser over JSON values
  (`WeatherSchema`);
- SSM/environment parameter lookup and the lazily created SSM client
  (`Settings`);
- the API handlers: the masked configuration report, the suggestion
  endpoint and the latest-object analysis endpoint (`Api`);
- the suggestion request with its one trailing-slash retry and the answer
  decoding shared by both frontends (`Http`);
- the server-rendered page handler (`WebApp`);
- the Reflex page state and its event handler (`ReflexState`).

Supporting modules:

- `Base`: Option and Result.
- `Text`: ASCII stand-ins for Python's `str` methods and string ordering.
- `Json`: loosely typed decoded JSON.
- `Calendar`: proleptic Gregorian dates, day shifting and the two `strftime`
  patterns.

Inputs become parameters:

- Clocks are parameters. Storage takes one UTC instant. The API and the
  analytics builders take the local date. The two are not assumed to agree.
- Foreign services are parameters or abstract inputs:
  - the S3 listing, the Athena pages and poll answers, and the SSM answer;
  - the HTTP client (`send`);
  - the LLM suggester (`suggest`);
  - Python's `str()` of a non-string value (`render`);
  - the text of an exception raised while reading a malformed answer
    (`crashText`).
- Places that update state in place are classes with `modifies` clauses:
  - the Reflex `State`;
  - the `Config` object with its cached SSM client;
  - the archive's list of written objects.
- Loops in the source are methods with loop invariants, proved against a
  specification function:
  - the page and row loops of `get_query_results`;
  - the polling loop;
  - the selection of the latest object.

There is no cache and no fetch orchestrator in the code, and
`store_raw_weather_data` swallows a failed write
(`app/services/storage_service.py`, lines 11-69); the model does the same.

## Model

| member | source | states |
|---|---|---|
| Storage.SanitizeLocation | app/services/storage_service.py:48 | the sanitised name is no longer than the input and holds only alphanumerics, '-' and '_', none upper-case |
| Storage.SanitizeOneChar | app/services/storage_service.py:48 | a single character survives, lower-cased, exactly when it is alphanumeric, '-' or '_' |
| Storage.SanitizeConcat | app/services/storage_service.py:48 | sanitising distributes over concatenation, so surviving characters keep their original order |
| Storage.SanitizeFixedPoint | app/services/storage_service.py:48 | a string made only of safe, non-upper-case characters is left unchanged |
| Storage.SanitizeIdempotent | app/services/storage_service.py:48 | sanitising an already sanitised name returns it unchanged |
| Storage.SanitizedHasNoSlash | app/services/storage_service.py:48 | no '/' survives sanitising |
| Storage.KeySegments | app/services/storage_service.py:41-50 | the key splits on '/' into exactly raw, weather, dt=<%Y-%m-%d>, location=<safe>, <%H-%M-%S>.json, with date and time from one UTC instant; this holds when the safe name is empty too |
| Storage.KeySlashCount | app/services/storage_service.py:48-50 | every key has exactly four '/' characters, whatever the location |
| Storage.KeyUnderTablePartition | app/services/storage_service.py:44-50 | every key starts with the table's partition directory raw/weather/dt=<dt>/ (the storage template of scripts/setup_athena.py line 119), and dt has the yyyy-MM-dd shape |
| Storage.DtAndLocationOfKey | app/services/storage_service.py:50 | the dt partition column and the location path segment read back from a key's path are the UTC date stamp and the sanitised location |
| Storage.KeyInjective | app/services/storage_service.py:41-50 | two writes share a key only for the same sanitised location in the same UTC second |
| Storage.SkipReason | app/services/storage_service.py:28-38 | the write goes ahead exactly when not local, a client exists and the bucket name is set and non-empty; the three skips are checked in source order |
| Storage.WeatherArchive.constructor | app/services/storage_service.py:11-18 | IS_LOCAL is "true" in any letter case (default "false"); the bucket is WEATHER_BUCKET_NAME or absent; nothing is written yet |
| Storage.WeatherArchive.StoreRawWeatherData | app/services/storage_service.py:20-69 | a skip writes nothing; otherwise exactly one object is appended, under ObjectKey with content type application/json, when the put succeeds; a failed put is reported in the outcome, never raised, and writes nothing |
| Text.StripIsTrimmedSlice | frontend/app.py:421 | strip returns the input slice after the leading whitespace, with only whitespace around it and no whitespace at either end |
| Text.StripEmptyIff | frontend/app.py:418 | a string strips to "" exactly when every character is whitespace |
| Text.StripIdempotent | frontend/app.py:421 | stripping twice equals stripping once |
| Text.TitleFromIdempotent | frontend/app.py:412 | str.title applied twice equals applying it once |
| Text.TitleShape | frontend/app.py:412 | in title case, a letter after a non-letter is not lower-case and a letter after a letter is not upper-case |
| Text.SplitLastPiece | app/core/config.py:56 | the last piece of split('/') is whatever follows the last '/' |
| Text.SplitLength | app/services/storage_service.py:50 | a string with n separators splits into n + 1 pieces |
| Text.DigitsOrder | app/services/storage_service.py:44-45 | zero-padded decimals of one width compare as strings exactly as the numbers compare |
| Calendar.PrevDay | app/services/analysis_service.py:178 | the previous day exists exactly when the date is not 0001-01-01, and it is a valid earlier date |
| Calendar.NextDay | app/services/analysis_service.py:178 | the next day exists exactly when the date is not 9999-12-31, and it is a valid later date |
| Calendar.NextOfPrev | app/services/analysis_service.py:178 | one day back and then one day forward is the identity |
| Calendar.PrevOfNext | app/services/analysis_service.py:178 | one day forward and then one day back is the identity |
| Calendar.ShiftDaysDirection | app/services/analysis_service.py:178 | subtracting a positive timedelta lands strictly earlier, a negative one strictly later, zero on the same date |
| Calendar.FormatDateIsStamp | app/services/storage_service.py:44 | %Y-%m-%d yields ten characters, digits with dashes at positions 4 and 7, and no '/' |
| Calendar.FormatTimeShape | app/services/storage_service.py:45 | %H-%M-%S yields no '/' and has dashes at positions 2 and 5 |
| Calendar.FormatDateOrder | app/services/analysis_service.py:191 | yyyy-MM-dd stamps compare as strings exactly as the dates compare in time, which makes string BETWEEN on dt a date range |
| Calendar.FormatDateInjective | app/services/storage_service.py:44 | distinct dates give distinct stamps |
| Calendar.FormatTimeInjective | app/services/storage_service.py:45 | distinct times of day give distinct stamps |
| Analysis.HeaderNames | app/services/analysis_service.py:91 | headers are read exactly when every header cell has a VarCharValue, one name per cell in order; otherwise the KeyError case |
| Analysis.FillRecordContents | app/services/analysis_service.py:97-100 | a row's dict has the headers of its cells as keys, and under distinct headers header i maps to cell i's value or None |
| Analysis.RowToRecord | app/services/analysis_service.py:96-101 | the cell loop yields the row's dict, or the IndexError case for a row longer than the header row |
| Analysis.GetQueryResults | app/services/analysis_service.py:75-107 | the nested page and row loops produce exactly the page-by-page decoding DecodePages, including its error cases |
| Analysis.DecodeRowsShape | app/services/analysis_service.py:96-101 | decoding succeeds exactly when no row is longer than the headers, and then appends one dict per row, in row order |
| Analysis.SinglePageRecords | app/services/analysis_service.py:86-101 | on one page, output has one dict per row after the header row, in row order, mapping header i to cell i |
| Analysis.EmptySoFarFirstRowDropped | app/services/analysis_service.py:90-92 | while results are empty, a page's first row is consumed as headers and not emitted |
| Analysis.LaterPageFirstRowIsData | app/services/analysis_service.py:93-94 | once results are non-empty, a later page's first row replaces the headers and is also emitted as data |
| Analysis.LaterPageHeadersMisread | app/services/analysis_service.py:90-94 | a concrete two-page answer whose second page's rows come back keyed by a data value |
| Analysis.DecodeAllPagesKeys | app/services/analysis_service.py:86-101 | with one header row for all pages, every dict is keyed only by the first page's column names, one dict per data row |
| Analysis.DecodeAllPagesSinglePage | app/services/analysis_service.py:86-101 | on a single page the corrected decoding agrees with the code |
| Analysis.WaitForQuery | app/services/analysis_service.py:53-73 | SUCCEEDED at the first poll reporting it; the error with the reason (default "Unknown") at the first FAILED or CANCELLED; otherwise a timeout once max_wait seconds have passed; no earlier poll was terminal |
| Analysis.DateFilterIff | app/services/analysis_service.py:139 | the clause AND dt = '<date>' is added exactly when a non-empty date is given, and it names that date |
| Analysis.SummaryDate | app/services/analysis_service.py:215-216 | the summary always filters on a non-empty dt: the given date, else today's local yyyy-MM-dd stamp |
| Analysis.TrendRangeOrdered | app/services/analysis_service.py:177-178 | on one day, start <= end as strings for days >= 0, strictly for days > 0, and start > end for days < 0 |
| Analysis.TrendRangeAcrossMidnight | app/services/analysis_service.py:177-178 | if midnight passes between the two clock readings, start <= end still holds for days >= 1, but for days = 0 start > end and BETWEEN selects nothing |
| Analysis.SummaryOfSinglePage | app/services/analysis_service.py:232-236 | the summary is the dict of the first data row, or {} when there is none |
| Analysis.LegacyMatchesIff | app/services/analysis_service.py:293-305 | an integer or float current.temp_c matches exactly when it exceeds 15; a bool never matches; a missing temp_c or current counts as 0 and does not match; any other temp_c, or a file or current that is not a dict, raises; a match whose condition is present but not a dict raises while the result dict is built |
| WeatherSchema.ConditionRoundTrip | app/models/weather.py:6-11 | every condition serialises and validates back to itself, with or without an icon |
| WeatherSchema.ConditionRequiredFields | app/models/weather.py:7-11 | text and code are required; a missing icon validates to None |
| WeatherSchema.CurrentRoundTrip | app/models/weather.py:15-28 | current conditions validate back to themselves exactly when temp_c and humidity are in range, otherwise they are rejected |
| WeatherSchema.TempCBounds | app/models/weather.py:18 | temp_c is accepted exactly in [-100, 60], both bounds included |
| WeatherSchema.HumidityBounds | app/models/weather.py:24 | humidity is accepted exactly in [0, 100], both bounds included |
| WeatherSchema.UnconstrainedFields | app/models/weather.py:19-28 | temp_f, wind, cloud, feels-like and uv accept any value |
| WeatherSchema.LocationRoundTrip | app/models/weather.py:32-40 | every location serialises and validates back to itself |
| WeatherSchema.ResponseValidIff | app/models/weather.py:44-46 | a response is valid exactly when its location and current are present and both valid |
| WeatherSchema.ResponseRoundTrip | app/models/weather.py:44-46 | a response validates back to itself exactly when its current conditions are valid |
| WeatherSchema.ForecastOptional | app/models/weather.py:65-70 | with forecast absent or null, validity is that of the plain response, and forecast is None |
| WeatherSchema.ForecastDayFields | app/models/weather.py:49-56 | a forecast day needs date, date_epoch, day and astro; a missing hour validates to None |
| WeatherSchema.ForecastDaysAll | app/models/weather.py:59-62 | a forecast day list is valid exactly when each of its days is, with one parsed day per item |
| WeatherSchema.MockWeatherResponseValid | tests/test_weather_service.py:9-39 | the test fixture is a valid WeatherResponse with temp_c 5.2 and condition "Clear" |
| Settings.EnvVarName | app/core/config.py:56 | the derived environment name contains neither '/' nor '-' and no lower-case letter |
| Settings.EnvVarNameOfPath | app/core/config.py:56 | the name is the last '/' segment, upper-cased, with '-' replaced by '_' |
| Settings.OpenRouterEnvVarName | app/core/config.py:56 | /fitted/openrouter-api-key maps to OPENROUTER_API_KEY |
| Settings.WeatherEnvVarName | app/core/config.py:56 | /fitted/weather-api-key maps to WEATHER_API_KEY |
| Settings.EnvVarNameIdempotent | app/core/config.py:56 | deriving the name of a derived name changes nothing |
| Settings.SsmIgnoresEnv | app/core/config.py:41-52 | in SSM mode the environment is never read |
| Settings.ParameterLookupCases | app/core/config.py:41-62 | in SSM mode: the stored value; on SSM failure the default when given, else the SSM error re-raised; locally: a set variable wins over the default, and an unset one gives the default, or the not-found error when there is none |
| Settings.LocalEmptyValueReturned | app/core/config.py:57-59 | a variable set to "" is returned, not treated as missing |
| Settings.LocalOpenRouterKey | app/core/config.py:64-67 | locally, the OpenRouter key is OPENROUTER_API_KEY, or not found |
| Settings.WeatherBucketName | app/core/config.py:74-77 | the bucket name is WEATHER_BUCKET_NAME when set, else None; SSM is not consulted |
| Settings.Config.constructor | app/core/config.py:17-19 | SSM mode is on exactly when AWS_EXECUTION_ENV is set; no client yet |
| Settings.Config.GetSsmClient | app/core/config.py:21-26 | the client is created on first use and the same object is returned afterwards |
| Settings.Config.GetParameter | app/core/config.py:28-62 | the answer is ParameterLookup's; the SSM client is created or reused only in SSM mode and left alone otherwise |
| Settings.Config.OpenRouterApiKey | app/core/config.py:64-67 | the lookup of /fitted/openrouter-api-key with no default |
| Settings.Config.WeatherApiKey | app/core/config.py:69-72 | the lookup of /fitted/weather-api-key with no default |
| Settings.SsmClientReused | app/core/config.py:21-26 | two reads of the client give the same object |
| Api.KeyPreview | app/main.py:27 | no preview exactly for an empty key; otherwise at most 13 characters ending in "..." |
| Api.KeyPreviewMasks | app/main.py:27 | the preview is the first ten characters plus "...", so keys agreeing on those ten are indistinguishable |
| Api.KeyPreviewIsPrefix | app/main.py:27-35 | without its "...", the preview is the key cut to ten characters: the whole key when shorter, else its first ten |
| Api.KeyReport | app/main.py:24-30 | has_key is true exactly for a non-empty key; a lookup error counts as absent and its message appears in the preview |
| Api.DebugConfig | app/main.py:21-46 | the report carries the configured bucket and each key's report |
| Api.Index | app/main.py:53-54 | indexing succeeds exactly on a dict holding the key |
| Api.SuggestOutfit | app/main.py:48-68 | succeeds exactly when current.temp_c and current.condition.text exist; passes those two to the suggester and echoes location, the whole weather record and the suggestion |
| Api.SuggestOutfitOnFixture | app/main.py:53-59 | on the test fixture the suggester receives 5.2 and "Clear" |
| Api.LatestUnique | app/main.py:89 | at most one index is the one the stable descending sort puts first |
| Api.LatestObject | app/main.py:89-90 | the chosen object has LastModified >= every listed object; among ties the earliest in listing order wins; none only for an empty listing |
| Api.EffectiveBucket | app/main.py:73-74 | a None bucket is replaced by the configured one; a given bucket is kept |
| Api.ArchivedKeyUnderPrefix | app/main.py:78-79 | every object archived on a UTC date lies under the listing prefix of that date |
| Api.AnalyzeKey | app/main.py:98-107 | success message with bucket and key exactly when the analysis raises nothing, else 500 naming the error |
| Api.AnalyzeWeather | app/main.py:70-107 | a given key skips listing; without one, today's prefix is listed; no Contents gives 404 naming today; an empty Contents or a listing error gives 500; otherwise the latest object's key is analysed |
| Http.PostWithRetry | frontend/app.py:424-435 | the first POST goes to /suggest-outfit; exactly a 404 triggers one retry at /suggest-outfit/; the outcome is the last answer |
| Http.ErrorDetail | frontend/app.py:437-442 | the detail is the JSON body's detail member ("Unknown error" when missing), else the raw text when the body is not a JSON dict |
| Http.ErrorDetailString | frontend/app.py:439 | a string detail is shown verbatim |
| Http.OutfitValuesOf | frontend/app.py:289-296 | a dict outfit gives its four members, defaulting to "None"; anything else gives str(outfit) as top and "" for the rest |
| Http.OutfitText | frontend/frontend/frontend.py:97-108 | string values are stored as they are |
| Http.SuggestionRoundTrip | frontend/frontend/frontend.py:97-102 | a suggestion sent as a JSON dict is read back unchanged |
| Http.MissingMembersReadNone | frontend/frontend/frontend.py:99-102 | missing outerwear and accessories read as "None" |
| Http.TextOutfitInTop | frontend/frontend/frontend.py:103-108 | a text outfit fills top; the others are "" |
| WebApp.FormatLocationCases | frontend/app.py:402-412 | "name, region" when both are non-empty, name alone when only it is, otherwise the title-cased fallback |
| WebApp.FormatLocationFallbackStable | frontend/app.py:412 | formatting the fallback a second time changes nothing |
| WebApp.IconGlyph | frontend/app.py:256-263 | thermometer, droplets, wind and sun each give their own glyph; the default chart glyph is shown exactly for an unknown icon key |
| WebApp.OutfitItemList | frontend/app.py:298-307 | Top and Bottom always come first; Outerwear and then Accessories follow only when truthy and not "None" |
| WebApp.BuildOutfitItems | frontend/app.py:289-307 | the conditional appends build exactly OutfitItemList of the outfit's values |
| WebApp.NonDictOutfitTwoItems | frontend/app.py:289-307 | a non-dict outfit gives exactly two items: str(outfit) and "" |
| WebApp.OuterwearHidden | frontend/app.py:303-304 | a missing, null, "" or "None" outerwear is not shown |
| WebApp.ResultsOf | frontend/app.py:444-453 | results come only from a JSON dict body |
| WebApp.AnswerWithoutWeather | frontend/app.py:445-453 | a 200 answer with no weather member still shows results, located at ", " |
| WebApp.DisplayWithoutRegion | frontend/app.py:452-453 | the display location is name + ", " + region, separator kept when region is missing |
| WebApp.BlankIffWhitespace | frontend/app.py:418 | a location is refused as blank exactly when it is empty or all whitespace |
| WebApp.PageForResultsIff | frontend/app.py:437-461 | results are shown exactly for a 200 answer whose body reads cleanly; a timeout gives the timeout message; a non-200 gives "Error: <detail>" |
| WebApp.GetOutfit | frontend/app.py:415-461 | a blank location is refused with no request; otherwise the stripped location is posted with the 404 retry, and the final outcome decides the page |
| WebApp.Respond | frontend/app.py:437-461 | the handler's branches build exactly PageFor of the final outcome |
| ReflexState.ReadingsOf | frontend/frontend/frontend.py:87-92 | for each of temp_c, condition, humidity, wind_kph, feelslike_c and uv: a missing reading shows "", a text reading is shown as it is, any other value as its str() text |
| ReflexState.AnswerOf | frontend/frontend/frontend.py:82-84 | readings come only from a JSON dict body |
| ReflexState.ErrorMessageFor | frontend/frontend/frontend.py:73-113 | the message is empty exactly on success; every client exception reads "Connection error: ..."; a non-200 reads "Error: <detail>" |
| ReflexState.State.constructor | frontend/frontend/frontend.py:11-34 | every field starts empty or false |
| ReflexState.State.GetOutfit | frontend/frontend/frontend.py:36-115 | location from the form, else kept; an empty one sets only the message and sends nothing; otherwise the request runs with the 404 retry, loading ends, and the page shows the final outcome (ShowsOutcome): its message, and results, display location, readings and outfit that change only on success |
| ReflexState.State.Fetch | frontend/frontend/frontend.py:44-115 | one or two URLs are posted to, the second exactly after a 404; the final answer is shown (ShowsOutcome) and loading is over |
| ReflexState.State.StartLoading | frontend/frontend/frontend.py:44-46 | at fetch start the page is loading, with no message and no results |
| ReflexState.State.StopLoading | frontend/frontend/frontend.py:114-115 | the request's finally clears the loading flag |
| ReflexState.State.Apply | frontend/frontend/frontend.py:73-110 | from a cleared message and no results, the final outcome leaves the page in ShowsOutcome: the message of the outcome, and on success only the results, else the earlier location, readings and outfit |
| ReflexState.State.Show | frontend/frontend/frontend.py:87-110 | the success path shows the given readings and outfit, confirms the location and sets has_results |
| ReflexState.State.SetReadings | frontend/frontend/frontend.py:87-92 | the six reading fields hold the given readings |
| ReflexState.State.SetOutfit | frontend/frontend/frontend.py:97-108 | the four outfit fields hold the given suggestion |

## Left out

- boto3 (S3, Athena, SSM), httpx, the LLM service and `asyncio`: their answers are parameters (listings, pages, poll answers, SSM answers, `send`, `suggest`). Errors they raise are messages passed in.
- `execute_query`, `query_and_get_results` and the `AthenaQueryService` constructor: they only call Athena and read environment defaults. Only the SQL fragments that select partitions are modelled (the dt filters, the summary date and the trend range). The rest of the query text is not, including the float formatting of `min_temp` and the LIKE patterns.
- `get_parameter`'s `lru_cache`: repeated calls with the same arguments return the first answer even if the environment or SSM changes later. The model recomputes each time.
- Json.JFloat: Python floats are modelled as exact reals, so NaN, infinities and binary rounding (a temp_c read as 15.000000000000002, say) do not occur in the model.
- Text is ASCII: `isalnum`, `isspace`, `lower`, `upper` and `title` are modelled on ASCII only.
- WeatherSchema: pydantic's lax coercions are not modelled, such as numeric strings to numbers and booleans to ints. An int field takes a JSON integer or an integral float; a float field takes any number.
- Calendar.FormatDate: always pads the year to four digits. A platform `strftime` may print years below 1000 without padding.
- Api.LatestObject: the sort itself is not modelled; the method selects the element a stable descending sort puts first, characterised by IsLatest.
- ReflexState.State.GetOutfit: a dict outfit's non-string member is stored through `render` (its text), where the Reflex var would hold the raw value.
- Analysis.WaitForQuery: an exception raised by `get_query_execution` is not modelled; the clock and poll answers are given sequences. It requires a clock that advances (SleepAdvances): with a clock that stands still, the source's `while time.time() - start_time < max_wait` loop would never end, and that case is not modelled.
- `print` output is not modelled. The storage, analysis and API code prints diagnostics on most paths, and the legacy check's match line prints a `json.dumps` of its result dict. Only the outcome of each call is modelled: its value, the error it raises, or the state it changes.
- WebApp.FormatLocation: `format_location` is modelled, but the page handler never calls it: its call at frontend/app.py line 451 is commented out, and the handler joins name and region itself. The model's record is a `map<string, string>`, so Python's truthiness of a non-string name or region is not modelled.
- WebApp.ResultsOf: a JSON-array `name` in the answer's location is treated as a crash (a connection-error page). In Python, `display_location += ", " + region` extends the list without raising, and the results page is rendered with that list (frontend/app.py lines 452-456). A display location that is not a string is outside the model's `Results`.
- Markup, CSS, the metric-card layout and the rest of the page rendering: a page is the data it displays.
- `app/services/weather_service.py` is a stub returning constant data; it, the airflow DAGs and the provisioning scripts are not part of this model. The table's storage template is cited from `scripts/setup_athena.py`.

## Findings

| source | as written | input that shows it | evidently intended | confidence | as-written member | corrected member |
|---|---|---|---|---|---|---|
| app/services/analysis_service.py:90-94 | after the first page, each page's first row is read as headers and also decoded as data | two pages: [city], [Paris] then [Rome], [Oslo]; page two comes back as {Rome: Rome}, {Rome: Oslo} | Athena sends the header row only on the first page, so its headers should apply to every page's rows | medium; not executed | Analysis.LaterPageHeadersMisread | Analysis.DecodeAllPagesKeys |
