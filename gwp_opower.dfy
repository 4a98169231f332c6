/** The utility-meter agent (homeflux.agents.gwp_opower): a Meter holds at
    most one logged-in browser, fetches JSON pages through it and turns the
    reads of the hourly power and weather pages into records. The browser
    is abstract: `Web` says what text each URL serves, as `json.loads`
    sees it. */
module Opower {
  import opened Errors
  import opened DataTypes
  import opened Json
  import opened Dates
  import opened Urls

  const NotLoggedIn: string := "Cannot _get_json without logging in"
  const GwpSource: string := "homeflux.gwp_opower"
  const GwpLocation: string := "gwp_meter"
  const HourScale: string := "hour"

  /** A launched pyppeteer browser. */
  datatype Browser = Browser(id: nat)

  /** The text of a page's `<pre>` element, parsed or not. */
  datatype Body = Parsed(value: Json) | Unparseable

  /** What every URL serves. */
  type Web = string -> Body

  /** `get_raw_json_data(url)`: MeterError when logged out; a body that is
      not JSON reads as `{}`. */
  function RawJson(browser: Option<Browser>, url: string, web: Web): (r: Result<Json>)
    ensures r.Err? <==> browser.None?
    ensures r.Err? ==> r.error == MeterError(NotLoggedIn)
    ensures r.Ok? && web(url).Unparseable? ==> r.value == Empty
    ensures r.Ok? && web(url).Parsed? ==> r.value == web(url).value
  {
    if browser.None? then Err(MeterError(NotLoggedIn))
    else match web(url)
      case Unparseable => Ok(Empty)
      case Parsed(j) => Ok(j)
  }

  /** The keyword arguments `get_data` formats the URL template with. */
  function FormatKeys(startDate: string, endDate: string, accountUuid: string): map<string, string>
  {
    map["start_date" := startDate, "end_date" := endDate, "account_uuid" := accountUuid, "time" := Time]
  }

  /** The URL `get_data` requests: the template formatted with the ISO
      dates `today + start_delta` and `today + end_delta`. */
  function RequestUrl(accountUuid: string, rawUrl: seq<Segment>, today: Date, startDelta: int, endDelta: int): Result<string>
    requires Valid(today)
  {
    var startDate :- AddDays(today, startDelta);
    var endDate :- AddDays(today, endDelta);
    Format(rawUrl, FormatKeys(IsoFormat(startDate), IsoFormat(endDate), accountUuid))
  }

  /** The check at the end of `get_data`: data that is empty, or whose
      `reads` are empty, becomes `{}`; so does a failing lookup of `reads`. */
  function Accept(data: Json): (r: Json)
    ensures r == Empty || r == data
    ensures r == data <==> data == Empty || (Truthy(data) && Index(data, "reads").Ok? && Truthy(Index(data, "reads").value))
  {
    if !Truthy(data) then Empty
    else match Index(data, "reads")
      case Err(_) => Empty
      case Ok(readList) => if Truthy(readList) then data else Empty
  }

  /** `get_data`: every exception (a date out of range, a missing format
      key, MeterError, a bad subscript) degrades to `{}`, and so does a
      page without reads. */
  function GetData(browser: Option<Browser>, accountUuid: string, rawUrl: seq<Segment>, today: Date,
                   startDelta: int, endDelta: int, web: Web): (r: Json)
    requires Valid(today)
    ensures r == Empty || (r.Obj? && Truthy(r) && "reads" in r.members && Truthy(r.members["reads"]))
  {
    match RequestUrl(accountUuid, rawUrl, today, startDelta, endDelta)
    case Err(_) => Empty
    case Ok(url) =>
      match RawJson(browser, url, web)
      case Err(_) => Empty
      case Ok(data) => Accept(data)
  }

  /** Logged out, or with a date out of range, `get_data` returns `{}`. */
  lemma GetDataFailures(browser: Option<Browser>, accountUuid: string, rawUrl: seq<Segment>, today: Date,
                        startDelta: int, endDelta: int, web: Web)
    requires Valid(today)
    ensures browser.None? ==> GetData(browser, accountUuid, rawUrl, today, startDelta, endDelta, web) == Empty
    ensures AddDays(today, startDelta).Err? || AddDays(today, endDelta).Err? ==>
              GetData(browser, accountUuid, rawUrl, today, startDelta, endDelta, web) == Empty
  {
  }

  /** With a browser and both dates in range, a template missing a key
      gives `{}`, and otherwise the page at the formatted URL is accepted
      or emptied. */
  lemma GetDataFetched(browser: Option<Browser>, accountUuid: string, rawUrl: seq<Segment>, today: Date,
                       startDelta: int, endDelta: int, web: Web)
    requires Valid(today)
    requires browser.Some? && AddDays(today, startDelta).Ok? && AddDays(today, endDelta).Ok?
    ensures var keys := FormatKeys(IsoFormat(AddDays(today, startDelta).value), IsoFormat(AddDays(today, endDelta).value), accountUuid);
              (Format(rawUrl, keys).Err? ==> GetData(browser, accountUuid, rawUrl, today, startDelta, endDelta, web) == Empty)
              && (Format(rawUrl, keys).Ok? ==>
                    GetData(browser, accountUuid, rawUrl, today, startDelta, endDelta, web)
                    == Accept(match web(Format(rawUrl, keys).value) case Unparseable => Empty case Parsed(j) => j))
  {
    var keys := FormatKeys(IsoFormat(AddDays(today, startDelta).value), IsoFormat(AddDays(today, endDelta).value), accountUuid);
    assert RequestUrl(accountUuid, rawUrl, today, startDelta, endDelta) == Format(rawUrl, keys);
  }

  /** For the four URL templates, formatting never fails once both dates are in range. */
  lemma TemplateRequest(accountUuid: string, rawUrl: seq<Segment>, today: Date, startDelta: int, endDelta: int)
    requires Valid(today)
    requires rawUrl == MeterHourly || rawUrl == MeterDaily || rawUrl == Urls.WeatherHourly || rawUrl == WeatherDaily
    requires AddDays(today, startDelta).Ok? && AddDays(today, endDelta).Ok?
    ensures RequestUrl(accountUuid, rawUrl, today, startDelta, endDelta).Ok?
  {
    var keys := FormatKeys(IsoFormat(AddDays(today, startDelta).value), IsoFormat(AddDays(today, endDelta).value), accountUuid);
    assert SuppliedKeys <= keys.Keys;
    TemplatesFormat(keys);
  }

  /** With a browser and dates in range, `get_data` on one of the four
      templates returns exactly the accepted page at the URL built from
      the two ISO dates. */
  lemma GetDataOfTemplate(browser: Option<Browser>, accountUuid: string, rawUrl: seq<Segment>, today: Date,
                          startDelta: int, endDelta: int, web: Web)
    requires Valid(today)
    requires rawUrl == MeterHourly || rawUrl == MeterDaily || rawUrl == Urls.WeatherHourly || rawUrl == WeatherDaily
    requires browser.Some? && AddDays(today, startDelta).Ok? && AddDays(today, endDelta).Ok?
    ensures RequestUrl(accountUuid, rawUrl, today, startDelta, endDelta).Ok?
    ensures GetData(browser, accountUuid, rawUrl, today, startDelta, endDelta, web)
            == Accept(match web(RequestUrl(accountUuid, rawUrl, today, startDelta, endDelta).value)
                      case Unparseable => Empty case Parsed(j) => j)
  {
    TemplateRequest(accountUuid, rawUrl, today, startDelta, endDelta);
  }

  /** pydantic validation of a PowerRecord built from JSON values: the
      time must be a string, the raw value a number and the unit a string. */
  function PowerRecordFrom(time: Json, raw: Json, unit: Json): (r: Result<Record>)
    ensures r.Ok? <==> time.Str? && raw.Num? && unit.Str?
    ensures r.Err? ==> r.error.ValidationError?
  {
    if !time.Str? then Err(ValidationError("time"))
    else if !raw.Num? then Err(ValidationError("raw_value"))
    else if !unit.Str? then Err(ValidationError("unit"))
    else Ok(PowerRecord(HourScale, Timestamp(time.s), raw.n, unit.s, GwpSource, GwpLocation, map[]))
  }

  /** The record of an ACTUAL read. */
  function ActualRecord(unit: Json, read: Json): Result<Record>
  {
    var time :- Index(read, "endTime");
    var raw :- Index2(read, "consumption", "value");
    PowerRecordFrom(time, raw, unit)
  }

  predicate IsActual(read: Json)
  {
    Index2(read, "consumption", "type") == Ok(Str("ACTUAL"))
  }

  /** One iteration of `get_power_hourly`'s loop: a read that is not
      ACTUAL is skipped, an ACTUAL one gives a record. */
  function PowerOf(unit: Json, read: Json): Result<Option<Record>>
  {
    var kind :- Index2(read, "consumption", "type");
    if kind != Str("ACTUAL") then Ok(None)
    else
      var rec :- ActualRecord(unit, read);
      Ok(Some(rec))
  }

  /** The records the loop has collected after the given reads. */
  function PowerList(unit: Json, readList: seq<Json>): Result<seq<Record>>
  {
    if readList == [] then Ok([])
    else
      var prev :- PowerList(unit, readList[..|readList| - 1]);
      var p :- PowerOf(unit, readList[|readList| - 1]);
      Ok(if p.Some? then prev + [p.value] else prev)
  }

  /** The reads whose consumption type is ACTUAL, in order. */
  function Actual(readList: seq<Json>): seq<Json>
  {
    if readList == [] then []
    else Actual(readList[..|readList| - 1]) + (if IsActual(readList[|readList| - 1]) then [readList[|readList| - 1]] else [])
  }

  /** `get_power_hourly` on the data `get_data` returned. */
  function PowerRecords(data: Json): Result<seq<Record>>
  {
    if !Truthy(data) then Ok([])
    else
      var unit :- Index2(data, "units", "consumption");
      var readList :- Index(data, "reads");
      var items :- Items(readList);
      PowerList(unit, items)
  }

  /** The record an ACTUAL read gives carries the read's end time and
      consumption value, the page's unit and the meter's fixed fields. */
  lemma ActualRecordFields(unit: Json, read: Json)
    requires ActualRecord(unit, read).Ok?
    ensures var r := ActualRecord(unit, read).value;
      r.PowerRecord? && r.timescale == HourScale && r.source == GwpSource && r.location == GwpLocation && r.tags == map[]
      && Index(read, "endTime") == Ok(Str(r.time.text))
      && Index2(read, "consumption", "value") == Ok(Num(r.rawValue))
      && unit == Str(r.unit)
  {
  }

  /** A failure after some reads is the failure of the whole loop. */
  lemma {:induction false} PowerListErrorPersists(unit: Json, readList: seq<Json>, i: nat)
    requires i <= |readList| && PowerList(unit, readList[..i]).Err?
    ensures PowerList(unit, readList) == PowerList(unit, readList[..i])
    decreases |readList| - i
  {
    if i < |readList| {
      assert readList[..i + 1][..i] == readList[..i];
      PowerListErrorPersists(unit, readList, i + 1);
    } else {
      assert readList[..i] == readList;
    }
  }

  /** The loop succeeds exactly when every read converts: its type can be
      read, and an ACTUAL read gives a record. */
  lemma {:induction false} PowerListOk(unit: Json, readList: seq<Json>)
    ensures PowerList(unit, readList).Ok? <==> forall j :: 0 <= j < |readList| ==> PowerOf(unit, readList[j]).Ok?
  {
    if readList != [] {
      var init := readList[..|readList| - 1];
      PowerListOk(unit, init);
      assert forall j :: 0 <= j < |init| ==> init[j] == readList[j];
    }
  }

  /** The records are exactly those of the ACTUAL reads, in input order. */
  lemma {:induction false} PowerListActual(unit: Json, readList: seq<Json>)
    requires PowerList(unit, readList).Ok?
    ensures |PowerList(unit, readList).value| == |Actual(readList)|
    ensures forall j :: 0 <= j < |Actual(readList)| ==> ActualRecord(unit, Actual(readList)[j]) == Ok(PowerList(unit, readList).value[j])
  {
    if readList != [] {
      var init := readList[..|readList| - 1];
      var last := readList[|readList| - 1];
      PowerListActual(unit, init);
      var prev := PowerList(unit, init).value;
      var p := PowerOf(unit, last).value;
      if p.Some? {
        assert IsActual(last);
        assert Actual(readList) == Actual(init) + [last];
        assert PowerList(unit, readList).value == prev + [p.value];
      } else {
        assert !IsActual(last);
        assert Actual(readList) == Actual(init);
      }
    }
  }

  /** Without data there are no records; with data every record comes from
      an ACTUAL read, with that read's fields and the page's unit. */
  lemma PowerHourlyFromActual(data: Json)
    ensures !Truthy(data) ==> PowerRecords(data) == Ok([])
    ensures Truthy(data) && PowerRecords(data).Ok? ==>
      var items := Items(Index(data, "reads").value).value;
      var rs := PowerRecords(data).value;
      |rs| == |Actual(items)|
      && forall j :: 0 <= j < |rs| ==>
           ActualRecord(Index2(data, "units", "consumption").value, Actual(items)[j]) == Ok(rs[j])
           && rs[j].timescale == HourScale && Str(rs[j].unit) == Index2(data, "units", "consumption").value
  {
    if Truthy(data) && PowerRecords(data).Ok? {
      var unit := Index2(data, "units", "consumption").value;
      var items := Items(Index(data, "reads").value).value;
      PowerListActual(unit, items);
      forall j | 0 <= j < |Actual(items)|
        ensures PowerRecords(data).value[j].timescale == HourScale && Str(PowerRecords(data).value[j].unit) == unit
      {
        ActualRecordFields(unit, Actual(items)[j]);
      }
    }
  }

  /** pydantic validation of a ClimateRecord built from JSON values. */
  function ClimateRecordFrom(time: Json, raw: Json): (r: Result<Record>)
    ensures r.Ok? <==> time.Str? && raw.Num?
    ensures r.Err? ==> r.error.ValidationError?
  {
    if !time.Str? then Err(ValidationError("time"))
    else if !raw.Num? then Err(ValidationError("raw_value"))
    else Ok(ClimateRecord(HourScale, Timestamp(time.s), raw.n, GwpLocation, GwpSource))
  }

  /** One iteration of `get_weather_hourly`'s loop. */
  function ClimateOf(read: Json): Result<Record>
  {
    var time :- Index(read, "date");
    var raw :- Index(read, "meanTemperature");
    ClimateRecordFrom(time, raw)
  }

  /** The records the weather loop has collected after the given reads. */
  function WeatherList(readList: seq<Json>): Result<seq<Record>>
  {
    if readList == [] then Ok([])
    else
      var prev :- WeatherList(readList[..|readList| - 1]);
      var c :- ClimateOf(readList[|readList| - 1]);
      Ok(prev + [c])
  }

  /** `get_weather_hourly` on the data `get_data` returned. */
  function WeatherRecords(data: Json): Result<seq<Record>>
  {
    if !Truthy(data) then Ok([])
    else
      var readList :- Index(data, "reads");
      var items :- Items(readList);
      WeatherList(items)
  }

  lemma {:induction false} WeatherListErrorPersists(readList: seq<Json>, i: nat)
    requires i <= |readList| && WeatherList(readList[..i]).Err?
    ensures WeatherList(readList) == WeatherList(readList[..i])
    decreases |readList| - i
  {
    if i < |readList| {
      assert readList[..i + 1][..i] == readList[..i];
      WeatherListErrorPersists(readList, i + 1);
    } else {
      assert readList[..i] == readList;
    }
  }

  /** One record per read, in order; the loop succeeds exactly when every
      read converts. */
  lemma {:induction false} WeatherListPointwise(readList: seq<Json>)
    ensures WeatherList(readList).Ok? <==> forall j :: 0 <= j < |readList| ==> ClimateOf(readList[j]).Ok?
    ensures WeatherList(readList).Ok? ==>
      |WeatherList(readList).value| == |readList|
      && forall j :: 0 <= j < |readList| ==> ClimateOf(readList[j]) == Ok(WeatherList(readList).value[j])
  {
    if readList != [] {
      var init := readList[..|readList| - 1];
      WeatherListPointwise(init);
      assert forall j :: 0 <= j < |init| ==> init[j] == readList[j];
    }
  }

  /** A weather record carries the read's date and mean temperature. */
  lemma ClimateFields(read: Json)
    requires ClimateOf(read).Ok?
    ensures var r := ClimateOf(read).value;
      r.ClimateRecord? && r.timescale == HourScale && r.location == GwpLocation && r.source == GwpSource
      && Index(read, "date") == Ok(Str(r.time.text)) && Index(read, "meanTemperature") == Ok(Num(r.rawValue))
  {
  }

  lemma PowerListSnoc(unit: Json, pre: seq<Json>, x: Json)
    ensures PowerList(unit, pre + [x]) ==
      match PowerList(unit, pre)
      case Err(e) => Err(e)
      case Ok(prev) =>
        match PowerOf(unit, x)
        case Err(e) => Err(e)
        case Ok(p) => Ok(if p.Some? then prev + [p.value] else prev)
  {
    assert (pre + [x])[..|pre|] == pre;
  }

  lemma WeatherListSnoc(pre: seq<Json>, x: Json)
    ensures WeatherList(pre + [x]) ==
      match WeatherList(pre)
      case Err(e) => Err(e)
      case Ok(prev) =>
        match ClimateOf(x)
        case Err(e) => Err(e)
        case Ok(c) => Ok(prev + [c])
  {
    assert (pre + [x])[..|pre|] == pre;
  }

  /** The loop of `get_power_hourly`: ACTUAL reads appended in order, the
      first failing read raising. */
  method CollectPower(unit: Json, all: seq<Json>) returns (r: Result<seq<Record>>)
    ensures r == PowerList(unit, all)
  {
    var result: seq<Record> := [];
    var i := 0;
    while i < |all|
      invariant 0 <= i <= |all|
      invariant PowerList(unit, all[..i]) == Ok(result)
    {
      assert all[..i + 1] == all[..i] + [all[i]];
      PowerListSnoc(unit, all[..i], all[i]);
      var p := PowerOf(unit, all[i]);
      if p.Err? {
        PowerListErrorPersists(unit, all, i + 1);
        return Err(p.error);
      }
      if p.value.Some? {
        result := result + [p.value.value];
      }
      i := i + 1;
    }
    assert all[..i] == all;
    r := Ok(result);
  }

  /** The loop of `get_weather_hourly`: one record per read, in order. */
  method CollectWeather(all: seq<Json>) returns (r: Result<seq<Record>>)
    ensures r == WeatherList(all)
  {
    var result: seq<Record> := [];
    var i := 0;
    while i < |all|
      invariant 0 <= i <= |all|
      invariant WeatherList(all[..i]) == Ok(result)
    {
      assert all[..i + 1] == all[..i] + [all[i]];
      WeatherListSnoc(all[..i], all[i]);
      var c := ClimateOf(all[i]);
      if c.Err? {
        WeatherListErrorPersists(all, i + 1);
        return Err(c.error);
      }
      result := result + [c.value];
      i := i + 1;
    }
    assert all[..i] == all;
    r := Ok(result);
  }

  class Meter {
    const email: string
    const password: string
    const accountUuid: string
    var browser: Option<Browser>
    /** The browsers closed so far, oldest first. */
    var closed: seq<Browser>

    /** `Meter(email, password, account_uuid)`, not logged in. */
    constructor(email: string, password: string, accountUuid: string)
      ensures this.email == email && this.password == password && this.accountUuid == accountUuid
      ensures browser == None && closed == []
    {
      this.email := email;
      this.password := password;
      this.accountUuid := accountUuid;
      browser := None;
      closed := [];
    }

    /** `logout`: closes the browser and forgets it. With no browser the
        call to `close` fails with AttributeError and nothing changes. */
    method Logout() returns (r: Result<()>)
      modifies this
      ensures old(browser).None? ==> r == Err(AttributeError) && browser == None && closed == old(closed)
      ensures old(browser).Some? ==> r == Ok(()) && browser == None && closed == old(closed) + [old(browser).value]
    {
      if browser.None? {
        return Err(AttributeError);
      }
      closed := closed + [browser.value];
      browser := None;
      r := Ok(());
    }

    /** `login`: a browser already present is logged out first. The launch
        configuration then reads `environment.DOCKER`, given here as
        `docker`, None when the environment module does not define it: that
        raises AttributeError before anything is launched. Otherwise the
        newly launched browser is kept. */
    method Login(docker: Option<bool>, launched: Browser) returns (r: Result<()>)
      modifies this
      ensures closed == old(closed) + (if old(browser).Some? then [old(browser).value] else [])
      ensures docker.None? ==> r == Err(AttributeError) && browser == None
      ensures docker.Some? ==> r == Ok(()) && browser == Some(launched)
    {
      if browser.Some? {
        var out := Logout();
      }
      if docker.None? {
        return Err(AttributeError);
      }
      browser := Some(launched);
      r := Ok(());
    }

    /** `get_power_hourly`: the records of the ACTUAL reads on the hourly
        meter page between `today + startDelta` and `today + endDelta`. */
    method GetPowerHourly(today: Date, startDelta: int, endDelta: int, web: Web) returns (r: Result<seq<Record>>)
      requires Valid(today)
      ensures r == PowerRecords(GetData(browser, accountUuid, MeterHourly, today, startDelta, endDelta, web))
    {
      var data := GetData(browser, accountUuid, MeterHourly, today, startDelta, endDelta, web);
      if !Truthy(data) {
        return Ok([]);
      }
      var unit := Index2(data, "units", "consumption");
      if unit.Err? {
        return Err(unit.error);
      }
      var items := Items(Index(data, "reads").value);
      if items.Err? {
        return Err(items.error);
      }
      r := CollectPower(unit.value, items.value);
    }

    /** `get_weather_hourly`: one record per read of the hourly weather page. */
    method GetWeatherHourly(today: Date, startDelta: int, endDelta: int, web: Web) returns (r: Result<seq<Record>>)
      requires Valid(today)
      ensures r == WeatherRecords(GetData(browser, accountUuid, Urls.WeatherHourly, today, startDelta, endDelta, web))
    {
      var data := GetData(browser, accountUuid, Urls.WeatherHourly, today, startDelta, endDelta, web);
      if !Truthy(data) {
        return Ok([]);
      }
      var items := Items(Index(data, "reads").value);
      if items.Err? {
        return Err(items.error);
      }
      r := CollectWeather(items.value);
    }
  }
}
