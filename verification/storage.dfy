/**
 * The raw-weather archive writer (app/services/storage_service.py): the
 * location sanitiser, the date/location partitioned object key, and the
 * guarded, failure-swallowing write into the object store.
 */
module Storage {
  import opened Base
  import opened Text
  import opened Json
  import opened Calendar

  // ---------------------------------------------------------------- sanitiser

  /** Characters the sanitiser keeps: alphanumerics, '-' and '_'. */
  predicate IsSafeChar(c: char) { IsAlnum(c) || c == '-' || c == '_' }

  /** Keep the safe characters of the location, in order, and lower-case the result. */
  function SanitizeLocation(location: string): (safe: string)
    ensures |safe| <= |location|
    ensures forall i :: 0 <= i < |safe| ==> IsSafeChar(safe[i]) && !IsUpper(safe[i])
  {
    if location == [] then []
    else (if IsSafeChar(location[0]) then [ToLower(location[0])] else []) + SanitizeLocation(location[1..])
  }

  /** What happens to one character: kept (lower-cased) when safe, dropped otherwise. */
  lemma SanitizeOneChar(c: char)
    ensures SanitizeLocation([c]) == if IsSafeChar(c) then [ToLower(c)] else []
  {
    assert [c][1..] == [];
  }

  /** Sanitising distributes over concatenation, so surviving characters keep their order. */
  lemma {:induction false} SanitizeConcat(a: string, b: string)
    ensures SanitizeLocation(a + b) == SanitizeLocation(a) + SanitizeLocation(b)
  {
    if a == [] {
      assert a + b == b;
    } else {
      assert (a + b)[0] == a[0];
      assert (a + b)[1..] == a[1..] + b;
      SanitizeConcat(a[1..], b);
    }
  }

  /** A name made only of lower-case-or-uncased safe characters is left as it is. */
  lemma {:induction false} SanitizeFixedPoint(s: string)
    requires forall i :: 0 <= i < |s| ==> IsSafeChar(s[i]) && !IsUpper(s[i])
    ensures SanitizeLocation(s) == s
  {
    if s != [] {
      SanitizeFixedPoint(s[1..]);
      assert [s[0]] + s[1..] == s;
    }
  }

  /** Sanitising an already sanitised name changes nothing. */
  lemma SanitizeIdempotent(location: string)
    ensures SanitizeLocation(SanitizeLocation(location)) == SanitizeLocation(location)
  {
    SanitizeFixedPoint(SanitizeLocation(location));
  }

  lemma SanitizedHasNoSlash(location: string)
    ensures '/' !in SanitizeLocation(location)
  {
  }

  // ---------------------------------------------------------------- object key

  /**
   * The directory of one dt partition, both as the analytics table's
   * storage.location.template (below the bucket) and as the listing prefix
   * the analysis endpoint uses.
   */
  function PartitionPrefix(dt: string): string
  {
    "raw/weather/dt=" + dt + "/"
  }

  /** raw/weather/dt=YYYY-MM-DD/location=<safe>/HH-MM-SS.json, date and time from one UTC reading. */
  function ObjectKey(location: string, utcNow: Instant): string
    requires ValidInstant(utcNow)
  {
    "raw/weather/dt=" + FormatDate(utcNow.date) + "/location=" + SanitizeLocation(location) + "/"
      + FormatTime(utcNow) + ".json"
  }

  lemma SplitCons(a: string, b: string, rest: seq<string>)
    requires '/' !in a && Split(b, '/') == rest
    ensures Split(a + "/" + b, '/') == [a] + rest
  {
    SplitAt(a, '/', b);
  }

  lemma SplitFive(a: string, b: string, c: string, d: string, e: string)
    requires '/' !in a && '/' !in b && '/' !in c && '/' !in d && '/' !in e
    ensures Split(a + "/" + (b + "/" + (c + "/" + (d + "/" + e))), '/') == [a, b, c, d, e]
  {
    var de := d + "/" + e;
    var cde := c + "/" + de;
    var bcde := b + "/" + cde;
    SplitNoSep(e, '/');
    SplitCons(d, e, [e]);
    SplitCons(c, de, [d, e]);
    SplitCons(b, cde, [c, d, e]);
    SplitCons(a, bcde, [b, c, d, e]);
  }

  lemma KeyAsSegments(dt: string, safe: string, hms: string)
    ensures "raw/weather/dt=" + dt + "/location=" + safe + "/" + hms + ".json"
      == "raw" + "/" + ("weather" + "/" + (("dt=" + dt) + "/" + (("location=" + safe) + "/" + (hms + ".json"))))
  {
  }

  /** The key splits on '/' into exactly five path segments, whatever the location. */
  lemma KeySegments(location: string, utcNow: Instant)
    requires ValidInstant(utcNow)
    ensures Split(ObjectKey(location, utcNow), '/') ==
      ["raw", "weather", "dt=" + FormatDate(utcNow.date), "location=" + SanitizeLocation(location),
       FormatTime(utcNow) + ".json"]
  {
    var d, safe, t := FormatDate(utcNow.date), SanitizeLocation(location), FormatTime(utcNow);
    FormatDateIsStamp(utcNow.date);
    FormatTimeShape(utcNow);
    SanitizedHasNoSlash(location);
    var s2, s3, s4 := "dt=" + d, "location=" + safe, t + ".json";
    assert '/' !in s2 && '/' !in s3 && '/' !in s4;
    SplitFive("raw", "weather", s2, s3, s4);
    KeyAsSegments(d, safe, t);
  }

  /** Every key has exactly four '/' characters: the location cannot add path levels. */
  lemma KeySlashCount(location: string, utcNow: Instant)
    requires ValidInstant(utcNow)
    ensures Count(ObjectKey(location, utcNow), '/') == 4
  {
    KeySegments(location, utcNow);
    SplitLength(ObjectKey(location, utcNow), '/');
  }

  /** Every key lies in the analytics table's partition directory for its own yyyy-MM-dd date. */
  lemma KeyUnderTablePartition(location: string, utcNow: Instant)
    requires ValidInstant(utcNow)
    ensures var dt := FormatDate(utcNow.date);
      IsDateStamp(dt) && PartitionPrefix(dt) <= ObjectKey(location, utcNow)
  {
    FormatDateIsStamp(utcNow.date);
    KeyAfterPrefix(FormatDate(utcNow.date), SanitizeLocation(location), FormatTime(utcNow));
  }

  /** The key layout, read as text, begins with the partition directory. */
  lemma KeyAfterPrefix(dt: string, safe: string, hms: string)
    ensures var key := "raw/weather/dt=" + dt + "/location=" + safe + "/" + hms + ".json";
      PartitionPrefix(dt) <= key
  {
    var rest := "location=" + safe + "/" + hms + ".json";
    assert "raw/weather/dt=" + dt + "/location=" + safe + "/" + hms + ".json" == PartitionPrefix(dt) + rest;
  }

  /**
   * The dt partition column and the location path segment, read back from a
   * key's path alone, without opening the object. Only dt is a partition of
   * the table; location is a directory level inside each dt partition.
   */
  function DtAndLocation(key: string): (r: Option<(string, string)>)
  {
    var parts := Split(key, '/');
    if |parts| == 5 && parts[0] == "raw" && parts[1] == "weather"
      && |parts[2]| >= 3 && parts[2][..3] == "dt="
      && |parts[3]| >= 9 && parts[3][..9] == "location="
    then Some((parts[2][3..], parts[3][9..]))
    else None
  }

  lemma DtAndLocationOfKey(location: string, utcNow: Instant)
    requires ValidInstant(utcNow)
    ensures DtAndLocation(ObjectKey(location, utcNow))
      == Some((FormatDate(utcNow.date), SanitizeLocation(location)))
  {
    KeySegments(location, utcNow);
    var d, safe := FormatDate(utcNow.date), SanitizeLocation(location);
    assert ("dt=" + d)[..3] == "dt=" && ("dt=" + d)[3..] == d;
    assert ("location=" + safe)[..9] == "location=" && ("location=" + safe)[9..] == safe;
  }

  /**
   * Two writes share a key only for the same sanitised location in the same
   * second: the key is unique per (location, second).
   */
  lemma KeyInjective(l1: string, t1: Instant, l2: string, t2: Instant)
    requires ValidInstant(t1) && ValidInstant(t2)
    requires ObjectKey(l1, t1) == ObjectKey(l2, t2)
    ensures SanitizeLocation(l1) == SanitizeLocation(l2) && t1 == t2
  {
    KeySegments(l1, t1);
    KeySegments(l2, t2);
    var s1, s2 := Split(ObjectKey(l1, t1), '/'), Split(ObjectKey(l2, t2), '/');
    assert s1[2] == s2[2] && s1[3] == s2[3] && s1[4] == s2[4];
    var d1, d2 := FormatDate(t1.date), FormatDate(t2.date);
    assert d1 == s1[2][3..] && d2 == s2[2][3..];
    FormatDateInjective(t1.date, t2.date);
    assert SanitizeLocation(l1) == s1[3][9..] && SanitizeLocation(l2) == s2[3][9..];
    assert FormatTime(t1) == s1[4][..8] && FormatTime(t2) == s2[4][..8];
    FormatTimeInjective(t1, t2);
  }

  // ---------------------------------------------------------------- guarded write

  datatype StoredObject = StoredObject(bucket: string, key: string, body: Json, contentType: string)

  datatype StoreOutcome =
    | SkippedLocal
    | SkippedNoClient
    | SkippedNoBucket
    | Stored(key: string)
    | PutFailed(key: string)

  /** IS_LOCAL is on when the variable, lower-cased, reads "true" (default "false"). */
  predicate IsLocalSetting(env: map<string, string>)
  {
    Lower(if "IS_LOCAL" in env then env["IS_LOCAL"] else "false") == "true"
  }

  /**
   * The three skip conditions in the order they are checked; None means the
   * write goes ahead. An unset and an empty bucket name both skip.
   */
  function SkipReason(isLocal: bool, hasClient: bool, bucket: Option<string>): (r: Option<StoreOutcome>)
    ensures r.None? <==> !isLocal && hasClient && bucket.Some? && bucket.value != ""
    ensures isLocal ==> r == Some(SkippedLocal)
    ensures !isLocal && !hasClient ==> r == Some(SkippedNoClient)
    ensures !isLocal && hasClient && (bucket.None? || bucket.value == "") ==> r == Some(SkippedNoBucket)
  {
    if isLocal then Some(SkippedLocal)
    else if !hasClient then Some(SkippedNoClient)
    else if bucket.None? || bucket.value == "" then Some(SkippedNoBucket)
    else None
  }

  /**
   * The bronze-layer archive as this process sees it: the settings read once
   * at start-up and the objects written so far.
   */
  class WeatherArchive {
    const isLocal: bool
    const hasClient: bool
    const bucket: Option<string>
    var objects: seq<StoredObject>

    /** Module start-up: IS_LOCAL and WEATHER_BUCKET_NAME from the environment; whether the S3 client could be built. */
    constructor (env: map<string, string>, clientCreated: bool)
      ensures isLocal == IsLocalSetting(env) && hasClient == clientCreated
      ensures bucket == (if "WEATHER_BUCKET_NAME" in env then Some(env["WEATHER_BUCKET_NAME"]) else None)
      ensures objects == []
    {
      isLocal := IsLocalSetting(env);
      hasClient := clientCreated;
      bucket := if "WEATHER_BUCKET_NAME" in env then Some(env["WEATHER_BUCKET_NAME"]) else None;
      objects := [];
    }

    /**
     * Archive one raw response. Skips (and writes nothing) when running
     * locally, without a client or without a bucket, in that order; otherwise
     * puts one object under the partitioned key. A failed put is reported in
     * the outcome and never raised to the caller.
     */
    method StoreRawWeatherData(location: string, data: Json, utcNow: Instant, putSucceeds: bool)
      returns (outcome: StoreOutcome)
      requires ValidInstant(utcNow)
      modifies this
      ensures SkipReason(isLocal, hasClient, bucket).Some? ==> outcome == SkipReason(isLocal, hasClient, bucket).value
      ensures SkipReason(isLocal, hasClient, bucket).None? ==>
        outcome == (if putSucceeds then Stored(ObjectKey(location, utcNow)) else PutFailed(ObjectKey(location, utcNow)))
      ensures objects == if outcome.Stored?
        then old(objects) + [StoredObject(bucket.value, outcome.key, data, "application/json")]
        else old(objects)
    {
      if isLocal {
        return SkippedLocal;
      }
      if !hasClient {
        return SkippedNoClient;
      }
      if bucket.None? || bucket.value == "" {
        return SkippedNoBucket;
      }
      var key := "raw/weather/dt=" + FormatDate(utcNow.date) + "/location=" + SanitizeLocation(location) + "/"
        + FormatTime(utcNow) + ".json";
      if putSucceeds {
        objects := objects + [StoredObject(bucket.value, key, data, "application/json")];
        outcome := Stored(key);
      } else {
        outcome := PutFailed(key);
      }
    }
  }
}
