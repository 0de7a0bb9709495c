/**
 * The Athena analytics client (app/services/analysis_service.py): decoding
 * paginated query results into records, polling a query until it ends, the
 * dt partition filters of the query builders, the summary pick and the
 * legacy single-file temperature check.
 */
module Analysis {
  import opened Base
  import opened Text
  import opened Json
  import opened Calendar

  // ================================================================ result decoding

  /** One result cell; VarCharValue is absent for SQL NULL. */
  datatype Cell = Cell(varCharValue: Option<string>)
  type Row = seq<Cell>
  type Page = seq<Row>
  /** One output dict: column name to cell text, None where the cell had no value. */
  type Record = map<string, Option<string>>

  datatype ResultsError =
    | EmptyPage           // rows[0] on a page without rows (IndexError)
    | HeaderWithoutValue  // a header cell without VarCharValue (KeyError)
    | CellWithoutHeader   // a row with more cells than there are headers (IndexError)

  /** The column names read from a row, or the error when a cell has no value. */
  function HeaderNames(row: Row): (r: Result<seq<string>, ResultsError>)
    ensures r.Success? <==> forall i :: 0 <= i < |row| ==> row[i].varCharValue.Some?
    ensures r.Success? ==> (|r.value| == |row|
      && forall i :: 0 <= i < |row| ==> r.value[i] == row[i].varCharValue.value)
    ensures r.Failure? ==> r.error == HeaderWithoutValue
  {
    if forall i :: 0 <= i < |row| ==> row[i].varCharValue.Some?
    then Success(seq(|row|, i requires 0 <= i < |row| => row[i].varCharValue.value))
    else Failure(HeaderWithoutValue)
  }

  /** The dict after storing the first k cells of a row under their headers, in cell order. */
  function FillRecord(headers: seq<string>, row: Row, k: nat): Record
    requires k <= |row| && k <= |headers|
  {
    if k == 0 then map[] else FillRecord(headers, row, k - 1)[headers[k - 1] := row[k - 1].varCharValue]
  }

  /** One row as a dict; a row longer than the header row is an error. */
  function RowRecord(headers: seq<string>, row: Row): Result<Record, ResultsError>
  {
    if |row| <= |headers| then Success(FillRecord(headers, row, |row|)) else Failure(CellWithoutHeader)
  }

  /** The keys of a row's dict are the headers of its cells; under distinct headers each maps to its own cell. */
  lemma FillRecordContents(headers: seq<string>, row: Row, k: nat)
    requires k <= |row| && k <= |headers|
    ensures FillRecord(headers, row, k).Keys == set i | 0 <= i < k :: headers[i]
    ensures (forall i, j :: 0 <= i < j < |headers| ==> headers[i] != headers[j]) ==>
      forall i :: 0 <= i < k ==> FillRecord(headers, row, k)[headers[i]] == row[i].varCharValue
  {
    FillRecordKeys(headers, row, k);
    if forall i, j :: 0 <= i < j < |headers| ==> headers[i] != headers[j] {
      FillRecordValues(headers, row, k);
    }
  }

  /** The dict's keys are exactly the headers of the cells stored so far. */
  lemma {:induction false} FillRecordKeys(headers: seq<string>, row: Row, k: nat)
    requires k <= |row| && k <= |headers|
    ensures FillRecord(headers, row, k).Keys == set i | 0 <= i < k :: headers[i]
  {
    if k > 0 {
      FillRecordKeys(headers, row, k - 1);
      assert (set i | 0 <= i < k :: headers[i]) == (set i | 0 <= i < k - 1 :: headers[i]) + {headers[k - 1]};
    }
  }

  /** Under distinct headers, each stored header maps to its own cell's value. */
  lemma {:induction false} FillRecordValues(headers: seq<string>, row: Row, k: nat)
    requires k <= |row| && k <= |headers|
    requires forall i, j :: 0 <= i < j < |headers| ==> headers[i] != headers[j]
    ensures forall i :: 0 <= i < k ==> headers[i] in FillRecord(headers, row, k)
    ensures forall i :: 0 <= i < k ==> FillRecord(headers, row, k)[headers[i]] == row[i].varCharValue
  {
    if k > 0 {
      FillRecordValues(headers, row, k - 1);
    }
  }

  /** Rows decoded one after another onto acc, stopping at the first bad row. */
  function DecodeRows(headers: seq<string>, rows: seq<Row>, acc: seq<Record>): Result<seq<Record>, ResultsError>
    decreases |rows|
  {
    if rows == [] then Success(acc)
    else
      match RowRecord(headers, rows[0])
      case Failure(e) => Failure(e)
      case Success(rec) => DecodeRows(headers, rows[1..], acc + [rec])
  }

  /**
   * get_query_results as written: each page's first row is read as headers;
   * it is skipped only while no record has been produced yet, otherwise it is
   * decoded as data too.
   */
  function DecodePages(pages: seq<Page>, acc: seq<Record>): Result<seq<Record>, ResultsError>
    decreases |pages|
  {
    if pages == [] then Success(acc)
    else if pages[0] == [] then Failure(EmptyPage)
    else
      match HeaderNames(pages[0][0])
      case Failure(e) => Failure(e)
      case Success(headers) =>
        var body := if acc == [] then pages[0][1..] else pages[0];
        match DecodeRows(headers, body, acc)
        case Failure(e) => Failure(e)
        case Success(acc') => DecodePages(pages[1..], acc')
  }

  /** The inner loop of the decoder: a row's cells stored one by one under their headers. */
  method RowToRecord(headers: seq<string>, row: Row) returns (r: Result<Record, ResultsError>)
    ensures r == RowRecord(headers, row)
  {
    var rowData: Record := map[];
    var i := 0;
    while i < |row|
      invariant 0 <= i <= |row| && i <= |headers|
      invariant rowData == FillRecord(headers, row, i)
    {
      if i == |headers| {
        return Failure(CellWithoutHeader);
      }
      rowData := rowData[headers[i] := row[i].varCharValue];
      i := i + 1;
    }
    return Success(rowData);
  }

  /** Fetch every page of a finished query and turn it into a list of dicts. */
  method GetQueryResults(pages: seq<Page>) returns (r: Result<seq<Record>, ResultsError>)
    ensures r == DecodePages(pages, [])
  {
    var results: seq<Record> := [];
    var p := 0;
    while p < |pages|
      invariant 0 <= p <= |pages|
      invariant DecodePages(pages, []) == DecodePages(pages[p..], results)
    {
      assert pages[p..][0] == pages[p] && pages[p..][1..] == pages[p + 1..];
      var rows := pages[p];
      if |rows| == 0 {
        return Failure(EmptyPage);
      }
      var named := HeaderNames(rows[0]);
      if named.Failure? {
        return Failure(named.error);
      }
      var headers := named.value;
      if results == [] {
        rows := rows[1..];
      }
      ghost var before := results;
      var j := 0;
      while j < |rows|
        invariant 0 <= j <= |rows|
        invariant DecodeRows(headers, rows, before) == DecodeRows(headers, rows[j..], results)
      {
        assert rows[j..][0] == rows[j] && rows[j..][1..] == rows[j + 1..];
        var rowData := RowToRecord(headers, rows[j]);
        if rowData.Failure? {
          return Failure(rowData.error);
        }
        results := results + [rowData.value];
        j := j + 1;
      }
      p := p + 1;
    }
    return Success(results);
  }

  /** All rows fit under the headers, and then every row yields its dict in row order after acc. */
  lemma {:induction false} DecodeRowsShape(headers: seq<string>, rows: seq<Row>, acc: seq<Record>)
    ensures var r := DecodeRows(headers, rows, acc);
      (r.Success? <==> forall k :: 0 <= k < |rows| ==> |rows[k]| <= |headers|)
      && (r.Success? ==> (|r.value| == |acc| + |rows| && r.value[..|acc|] == acc
          && forall k :: 0 <= k < |rows| ==> r.value[|acc| + k] == FillRecord(headers, rows[k], |rows[k]|)))
    decreases |rows|
  {
    if rows != [] {
      if |rows[0]| <= |headers| {
        var rec := FillRecord(headers, rows[0], |rows[0]|);
        DecodeRowsShape(headers, rows[1..], acc + [rec]);
        var r := DecodeRows(headers, rows, acc);
        if r.Success? {
          assert r.value[..|acc| + 1] == acc + [rec] by {
            assert r.value[..|acc| + 1] == r.value[..|acc + [rec]|];
          }
          assert r.value[..|acc|] == (acc + [rec])[..|acc|];
          forall k | 0 <= k < |rows|
            ensures r.value[|acc| + k] == FillRecord(headers, rows[k], |rows[k]|)
          {
            if k == 0 {
              assert r.value[|acc|] == (acc + [rec])[|acc|];
            } else {
              assert rows[k] == rows[1..][k - 1];
              assert |acc + [rec]| + (k - 1) == |acc| + k;
            }
          }
        }
        forall k | 1 <= k < |rows| ensures rows[k] == rows[1..][k - 1] { }
      }
    }
  }

  /**
   * On a single page the first row gives the headers and every later row
   * gives one dict, in row order, mapping header i to cell i's value.
   */
  lemma SinglePageRecords(page: Page)
    requires page != []
    ensures var r := DecodePages([page], []);
      var named := HeaderNames(page[0]);
      (r.Success? <==> named.Success? && forall k :: 1 <= k < |page| ==> |page[k]| <= |named.value|)
      && (r.Success? ==> (|r.value| == |page| - 1
          && forall k :: 0 <= k < |r.value| ==> r.value[k] == FillRecord(named.value, page[k + 1], |page[k + 1]|)))
  {
    var named := HeaderNames(page[0]);
    SinglePageUnfold(page);
    if named.Success? {
      var headers, rows := named.value, page[1..];
      var none: seq<Record> := [];
      var r := DecodeRows(headers, rows, none);
      DecodeRowsShape(headers, rows, none);
      forall k | 1 <= k < |page| ensures page[k] == rows[k - 1] { }
      if r.Success? {
        forall k | 0 <= k < |r.value| ensures r.value[k] == FillRecord(headers, page[k + 1], |page[k + 1]|) {
          assert |none| + k == k;
          assert page[k + 1] == rows[k];
        }
      }
    }
  }

  /** A lone page: its header row is read, then the rest of its rows are decoded. */
  lemma SinglePageUnfold(page: Page)
    requires page != []
    ensures HeaderNames(page[0]).Failure? ==> DecodePages([page], []) == Failure(HeaderNames(page[0]).error)
    ensures HeaderNames(page[0]).Success? ==> DecodePages([page], []) == DecodeRows(HeaderNames(page[0]).value, page[1..], [])
  {
    assert [page][0] == page && [page][1..] == [];
  }

  /**
   * The header quirk on later pages: once a record exists, a later page's
   * first row both replaces the headers and is emitted as a data row.
   */
  lemma LaterPageFirstRowIsData(page: Page, rest: seq<Page>, acc: seq<Record>)
    requires acc != [] && page != []
    requires HeaderNames(page[0]).Success?
    requires forall k :: 0 <= k < |page| ==> |page[k]| <= |page[0]|
    ensures var headers := HeaderNames(page[0]).value;
      var here := seq(|page|, k requires 0 <= k < |page| => FillRecord(headers, page[k], |page[k]|));
      DecodePages([page] + rest, acc) == DecodePages(rest, acc + here)
  {
    var headers := HeaderNames(page[0]).value;
    var here := seq(|page|, k requires 0 <= k < |page| => FillRecord(headers, page[k], |page[k]|));
    DecodeRowsShape(headers, page, acc);
    var d := DecodeRows(headers, page, acc);
    assert d.value == acc + here;
    assert ([page] + rest)[0] == page && ([page] + rest)[1..] == rest;
  }

  /** While nothing has been produced, a page's first row is taken as headers and dropped. */
  lemma EmptySoFarFirstRowDropped(page: Page, rest: seq<Page>)
    requires page != [] && HeaderNames(page[0]).Success?
    requires forall k :: 1 <= k < |page| ==> |page[k]| <= |page[0]|
    ensures var headers := HeaderNames(page[0]).value;
      var here := seq(|page| - 1, k requires 0 <= k < |page| - 1 => FillRecord(headers, page[k + 1], |page[k + 1]|));
      DecodePages([page] + rest, []) == DecodePages(rest, here)
  {
    var headers := HeaderNames(page[0]).value;
    var here := seq(|page| - 1, k requires 0 <= k < |page| - 1 => FillRecord(headers, page[k + 1], |page[k + 1]|));
    DecodeRowsShape(headers, page[1..], []);
    assert forall k :: 0 <= k < |page| - 1 ==> page[1..][k] == page[k + 1];
    var d := DecodeRows(headers, page[1..], []);
    assert d.Success?;
    assert d.value == here;
    assert ([page] + rest)[0] == page && ([page] + rest)[1..] == rest;
  }

  // ---------------------------------------------------------------- finding: headers on later pages

  /**
   * Athena repeats no header row on later pages. With the code as written the
   * first data row of page two becomes the headers of that page: a query with
   * one column "city" returns a record keyed by "Rome" for the rows of page two.
   */
  lemma LaterPageHeadersMisread()
    ensures var hdr := [Cell(Some("city"))];
      var paris, rome, oslo := [Cell(Some("Paris"))], [Cell(Some("Rome"))], [Cell(Some("Oslo"))];
      DecodePages([[hdr, paris], [rome, oslo]], [])
        == Success([map["city" := Some("Paris")], map["Rome" := Some("Rome")], map["Rome" := Some("Oslo")]])
  {
    var hdr := [Cell(Some("city"))];
    var paris, rome, oslo := [Cell(Some("Paris"))], [Cell(Some("Rome"))], [Cell(Some("Oslo"))];
    var pages := [[hdr, paris], [rome, oslo]];
    var h1, h2 := HeaderNames(hdr), HeaderNames(rome);
    assert h1.Success? && h1.value[0] == "city" && h1.value == ["city"];
    assert h2.Success? && h2.value[0] == "Rome" && h2.value == ["Rome"];
    var mParis, mRome, mOslo := map["city" := Some("Paris")], map["Rome" := Some("Rome")], map["Rome" := Some("Oslo")];
    assert RowRecord(["city"], paris) == Success(mParis) by {
      assert FillRecord(["city"], paris, 0) == map[];
    }
    assert RowRecord(["Rome"], rome) == Success(mRome) by {
      assert FillRecord(["Rome"], rome, 0) == map[];
    }
    assert RowRecord(["Rome"], oslo) == Success(mOslo) by {
      assert FillRecord(["Rome"], oslo, 0) == map[];
    }
    assert [hdr, paris][1..] == [paris];
    assert [paris][1..] == [];
    assert [paris][0] == paris && [rome, oslo][0] == rome && [oslo][0] == oslo;
    assert [] + [mParis] == [mParis] && [mParis] + [mRome] == [mParis, mRome];
    assert [mParis, mRome] + [mOslo] == [mParis, mRome, mOslo];
    assert DecodeRows(["city"], [paris], []) == DecodeRows(["city"], [], [mParis]);
    assert pages[1..] == [[rome, oslo]];
    assert [rome, oslo][1..] == [oslo];
    assert [oslo][1..] == [];
    assert DecodeRows(["Rome"], [rome, oslo], [mParis]) == DecodeRows(["Rome"], [oslo], [mParis, mRome]);
    assert DecodeRows(["Rome"], [oslo], [mParis, mRome]) == DecodeRows(["Rome"], [], [mParis, mRome, mOslo]);
    assert DecodePages(pages, []) == DecodePages(pages[1..], [mParis]);
    assert DecodePages(pages[1..], [mParis]) == DecodePages([], [mParis, mRome, mOslo]);
  }

  /** The evident intent: one header row, from the first page, for the rows of every page. */
  function DecodeAllPages(pages: seq<Page>): Result<seq<Record>, ResultsError>
  {
    if pages == [] then Success([])
    else if pages[0] == [] then Failure(EmptyPage)
    else
      match HeaderNames(pages[0][0])
      case Failure(e) => Failure(e)
      case Success(headers) => DecodeRows(headers, pages[0][1..] + Flatten(pages[1..]), [])
  }

  function Flatten(pages: seq<Page>): seq<Row>
  {
    if pages == [] then [] else pages[0] + Flatten(pages[1..])
  }

  /**
   * With the intended decoding every record is keyed by the first page's
   * column names only, and there is one record per data row.
   */
  lemma DecodeAllPagesKeys(pages: seq<Page>)
    requires pages != [] && pages[0] != []
    ensures var r := DecodeAllPages(pages);
      r.Success? ==> (HeaderNames(pages[0][0]).Success?
        && |r.value| == |pages[0]| - 1 + |Flatten(pages[1..])|
        && forall k :: 0 <= k < |r.value| ==> r.value[k].Keys <= set c | c in HeaderNames(pages[0][0]).value)
  {
    var named := HeaderNames(pages[0][0]);
    if named.Success? {
      var headers := named.value;
      var rows := pages[0][1..] + Flatten(pages[1..]);
      DecodeRowsShape(headers, rows, []);
      var r := DecodeRows(headers, rows, []);
      if r.Success? {
        forall k | 0 <= k < |r.value| ensures r.value[k].Keys <= set c | c in headers {
          assert r.value[k] == FillRecord(headers, rows[k], |rows[k]|);
          FillRecordContents(headers, rows[k], |rows[k]|);
        }
      }
    }
  }

  /** On one page the intended decoding and the code agree. */
  lemma DecodeAllPagesSinglePage(page: Page)
    ensures DecodeAllPages([page]) == DecodePages([page], [])
  {
    if page != [] {
      assert [page][1..] == [];
      assert page[1..] + Flatten([]) == page[1..];
      var named := HeaderNames(page[0]);
      if named.Success? {
        var d := DecodeRows(named.value, page[1..], []);
        if d.Success? {
          assert DecodePages([page], []) == DecodePages([], d.value);
        }
      }
    }
  }

  // ================================================================ polling

  datatype QueryState = Queued | Running | Succeeded | Failed | Cancelled

  /** One get_query_execution answer: the state and the optional StateChangeReason. */
  datatype Poll = Poll(state: QueryState, reason: Option<string>)

  datatype WaitError =
    | QueryEnded(state: QueryState, reason: string)  // "Query <state>: <reason>"
    | TimedOut(queryId: string, maxWait: int)        // TimeoutError

  predicate IsTerminal(s: QueryState) { s == Succeeded || s == Failed || s == Cancelled }

  /**
   * The clock readings: clock(0) is the start time, clock(k + 1) the reading
   * before poll k. Time does not run backwards between the first two readings,
   * and each one-second sleep after a poll advances it by at least a second.
   */
  ghost predicate SleepAdvances(clock: nat -> real)
  {
    clock(0) <= clock(1) && forall k: nat :: 1 <= k ==> clock(k) + 1.0 <= clock(k + 1)
  }

  /**
   * Poll until the query ends: SUCCEEDED at the first poll reporting it, an
   * error carrying the reason (default "Unknown") at the first FAILED or
   * CANCELLED, and a timeout once max_wait seconds have passed.
   */
  method WaitForQuery(queryId: string, maxWait: int, clock: nat -> real, poll: nat -> Poll)
    returns (r: Result<QueryState, WaitError>, polls: nat)
    requires SleepAdvances(clock)
    ensures forall j :: 1 <= j <= polls ==> clock(j) - clock(0) < maxWait as real
    ensures forall j :: 0 <= j < polls - 1 ==> !IsTerminal(poll(j).state)
    ensures match r
      case Success(s) =>
        s == Succeeded && polls > 0 && poll(polls - 1).state == Succeeded
      case Failure(QueryEnded(s, reason)) =>
        polls > 0 && s == poll(polls - 1).state && (s == Failed || s == Cancelled)
        && reason == poll(polls - 1).reason.GetOr("Unknown")
      case Failure(TimedOut(id, w)) =>
        id == queryId && w == maxWait && clock(polls + 1) - clock(0) >= maxWait as real
        && (polls > 0 ==> !IsTerminal(poll(polls - 1).state))
  {
    var start := clock(0);
    polls := 0;
    while clock(polls + 1) - start < maxWait as real
      invariant forall j :: 1 <= j <= polls ==> clock(j) - start < maxWait as real
      invariant forall j :: 0 <= j < polls ==> !IsTerminal(poll(j).state)
      invariant clock(polls + 1) >= clock(0) + polls as real
      decreases maxWait - polls
    {
      var response := poll(polls);
      polls := polls + 1;
      if response.state == Succeeded {
        return Success(Succeeded), polls;
      } else if response.state == Failed || response.state == Cancelled {
        return Failure(QueryEnded(response.state, response.reason.GetOr("Unknown"))), polls;
      }
      assert clock(polls) + 1.0 <= clock(polls + 1);
    }
    r := Failure(TimedOut(queryId, maxWait));
  }

  // ================================================================ query builders

  /** The optional partition clause of the temperature and condition queries. */
  function DateFilter(date: Option<string>): string
  {
    if date.Some? && date.value != "" then "AND dt = '" + date.value + "'" else ""
  }

  /** The clause is added exactly when a non-empty date is supplied, and then names that date. */
  lemma DateFilterIff(date: Option<string>)
    ensures DateFilter(date) != "" <==> date.Some? && date.value != ""
    ensures DateFilter(date) != "" ==>
      DateFilter(date)[..10] == "AND dt = '" && DateFilter(date)[10..|DateFilter(date)| - 1] == date.value
  {
  }

  /** The date the summary query filters on: the given one, else today's local date. */
  function SummaryDate(date: Option<string>, today: Date): (dt: string)
    requires ValidDate(today)
    ensures dt != ""
    ensures (date.None? || date.value == "") ==> dt == FormatDate(today) && IsDateStamp(dt)
    ensures (date.Some? && date.value != "") ==> dt == date.value
  {
    FormatDateIsStamp(today);
    if date.Some? && date.value != "" then date.value else FormatDate(today)
  }

  /** The summary's WHERE clause: it always restricts dt to one partition. */
  function SummaryWhere(date: Option<string>, today: Date): string
    requires ValidDate(today)
  {
    "WHERE dt = '" + SummaryDate(date, today) + "'"
  }

  /**
   * The trend query's BETWEEN bounds. end_date and start_date come from two
   * separate local clock readings; start is `days` days before the second.
   * None when the subtraction leaves datetime's range (OverflowError).
   */
  function TrendRange(endNow: Date, startNow: Date, days: int): Option<(string, string)>
    requires ValidDate(endNow) && ValidDate(startNow)
  {
    match ShiftDays(startNow, -days)
    case None => None
    case Some(s) => Some((FormatDate(s), FormatDate(endNow)))
  }

  /**
   * With both readings on the same day, start <= end as strings for days >= 0
   * (strictly for days > 0), and the range is empty for days < 0.
   */
  lemma TrendRangeOrdered(today: Date, days: int)
    requires ValidDate(today)
    ensures var r := TrendRange(today, today, days);
      r.Some? ==> ((days >= 0 ==> LexLessEq(r.value.0, r.value.1))
        && (days > 0 ==> LexLess(r.value.0, r.value.1))
        && (days < 0 ==> LexLess(r.value.1, r.value.0)))
  {
    ShiftDaysDirection(today, -days);
    var s := ShiftDays(today, -days);
    if s.Some? {
      FormatDateOrder(s.value, today);
      FormatDateOrder(today, s.value);
    }
  }

  /**
   * When midnight passes between the two readings, the range still holds for
   * days >= 1; for days = 0 the start lands after the end and BETWEEN selects nothing.
   */
  lemma TrendRangeAcrossMidnight(endNow: Date, days: int)
    requires ValidDate(endNow) && endNow != LastDate
    ensures var startNow := NextDay(endNow).value;
      var r := TrendRange(endNow, startNow, days);
      r.Some? ==> ((days >= 1 ==> LexLessEq(r.value.0, r.value.1))
        && (days == 0 ==> LexLess(r.value.1, r.value.0)))
  {
    var startNow := NextDay(endNow).value;
    PrevOfNext(endNow);
    if days >= 1 {
      assert ShiftDays(startNow, -days) == ShiftDays(endNow, -days + 1);
      ShiftDaysDirection(endNow, -days + 1);
      var s := ShiftDays(endNow, -days + 1);
      if s.Some? {
        FormatDateOrder(s.value, endNow);
      }
    } else if days == 0 {
      FormatDateOrder(endNow, startNow);
    }
  }

  // ================================================================ summary and legacy check

  /** The summary is the first result dict, or an empty dict when there are none. */
  function SummaryPick(results: seq<Record>): Record
  {
    if results != [] then results[0] else map[]
  }

  /** For a one-page answer, the summary is the dict of the row right after the headers. */
  lemma SummaryOfSinglePage(page: Page)
    requires page != []
    requires DecodePages([page], []).Success?
    ensures var headers := HeaderNames(page[0]).value;
      SummaryPick(DecodePages([page], []).value)
        == if |page| >= 2 then FillRecord(headers, page[1], |page[1]|) else map[]
  {
    SinglePageRecords(page);
  }

  /**
   * The legacy check `data.get('current', {}).get('temp_c', 0) > 15` on a
   * decoded JSON file, followed on a match by reading
   * `current.get('condition', {}).get('text')` for the result dict. Failure
   * stands for the TypeError or AttributeError either step raises on values
   * of the wrong kind.
   */
  function LegacyMatches(data: Json): Result<bool, string>
  {
    if !data.JObject? then Failure("AttributeError: data has no get")
    else
      var current := Get(data.fields, "current", JObject(map[]));
      if !current.JObject? then Failure("AttributeError: current has no get")
      else
        var above := match Get(current.fields, "temp_c", JInt(0))
          case JInt(i) => Success(i > 15)
          case JFloat(x) => Success(x > 15.0)
          case JBool(_) => Success(false)
          case _ => Failure("TypeError: temp_c is not a number");
        if above == Success(true) && !Get(current.fields, "condition", JObject(map[])).JObject?
        then Failure("AttributeError: condition has no get")
        else above
  }

  /**
   * A file matches exactly when its numeric current.temp_c exceeds 15: an
   * integer or a float compares by value, a bool (0 or 1) never matches, a
   * missing temp_c or current counts as 0, and any other value, or a file or
   * current that is not a dict, raises. A match whose condition is present
   * but not a dict raises while the result is built.
   */
  lemma LegacyMatchesIff(current: map<string, Json>, rest: map<string, Json>, temp: Json)
    ensures var r := LegacyMatches(JObject(rest["current" := JObject(current["temp_c" := temp])]));
      var conditionOk := "condition" !in current || current["condition"].JObject?;
      (temp.JInt? ==> (r.Success? <==> temp.i <= 15 || conditionOk) && (r.Success? ==> r.value == (temp.i > 15))) &&
      (temp.JFloat? ==> (r.Success? <==> temp.r <= 15.0 || conditionOk) && (r.Success? ==> r.value == (temp.r > 15.0))) &&
      (temp.JBool? ==> r == Success(false)) &&
      (!temp.JInt? && !temp.JFloat? && !temp.JBool? ==> r.Failure?)
    ensures "temp_c" !in current ==> LegacyMatches(JObject(rest["current" := JObject(current)])) == Success(false)
    ensures "current" !in rest ==> LegacyMatches(JObject(rest)) == Success(false)
    ensures !temp.JObject? ==> LegacyMatches(JObject(rest["current" := temp])).Failure?
    ensures !temp.JObject? ==> LegacyMatches(temp).Failure?
  {
    assert "condition" != "temp_c";
  }
}
