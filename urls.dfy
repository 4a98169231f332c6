/** The opower URL constants (homeflux.urls). A template is kept as the
    sequence of literal text and `{name}` replacement fields that
    `str.format` sees in it; `Source` gives back the written string. */
module Urls {
  import opened Errors

  datatype Segment = Text(text: string) | Field(name: string)

  const ReadsPrefix: string := "https://gwp.opower.com/ei/edge/apis/DataBrowser-v1/cws/utilities/gwp/utilityAccounts/"
  const WeatherPrefix: string := "https://gwp.opower.com/ei/edge/apis/DataBrowser-v1/cws/weather/"

  const MeterHourly: seq<Segment> :=
    [Text(ReadsPrefix), Field("account_uuid"), Text("/reads?startDate="), Field("start_date"),
     Text("&endDate="), Field("end_date"), Text("&aggregateType=hour")]

  const MeterDaily: seq<Segment> :=
    [Text(ReadsPrefix), Field("account_uuid"), Text("/reads?startDate="), Field("start_date"),
     Text("&endDate="), Field("end_date"), Text("&aggregateType=day")]

  const WeatherHourly: seq<Segment> :=
    [Text(WeatherPrefix + "hourly?startDate="), Field("start_date"), Field("time"),
     Text("&endDate="), Field("end_date"), Field("time"), Text("&useCelsius=false")]

  const WeatherDaily: seq<Segment> :=
    [Text(WeatherPrefix + "daily?startDate="), Field("start_date"),
     Text("&endDate="), Field("end_date"), Text("&useCelsius=false")]

  /** The keys `Meter.get_data` passes to `str.format`. */
  const SuppliedKeys: set<string> := {"start_date", "end_date", "account_uuid", "time"}

  /** `str.replace(old, new)` for a one-character `old`, as a scan: the
      text from position `i` on, each `old` replaced by `new`. */
  function ReplaceFrom(s: string, i: nat, target: char, replacement: string): string
    requires i <= |s|
    decreases |s| - i
  {
    if i == |s| then [] else (if s[i] == target then replacement else [s[i]]) + ReplaceFrom(s, i + 1, target, replacement)
  }

  /** The same replacement, defined on the string's head and tail; the
      properties of `str.replace` are proved on this form. */
  function ReplaceChar(s: string, target: char, replacement: string): string
  {
    if s == [] then [] else (if s[0] == target then replacement else [s[0]]) + ReplaceChar(s[1..], target, replacement)
  }

  /** The scan from the start is the replacement of the whole string. */
  lemma ReplaceScan(s: string, target: char, replacement: string)
    ensures ReplaceFrom(s, 0, target, replacement) == ReplaceChar(s, target, replacement)
  {
    ReplaceFromSuffix(s, 0, target, replacement);
    assert s[0..] == s;
  }

  /** The scan from `i` replaces exactly the suffix from `i`. */
  lemma {:induction false} ReplaceFromSuffix(s: string, i: nat, target: char, replacement: string)
    requires i <= |s|
    ensures ReplaceFrom(s, i, target, replacement) == ReplaceChar(s[i..], target, replacement)
    decreases |s| - i
  {
    if i < |s| {
      ReplaceFromSuffix(s, i + 1, target, replacement);
      assert s[i..][0] == s[i] && s[i..][1..] == s[i + 1..];
    }
  }

  /** After the replacement no target is left, unless the replacement brings one. */
  lemma {:induction false} ReplaceRemoves(s: string, target: char, replacement: string)
    ensures target !in replacement ==> target !in ReplaceChar(s, target, replacement)
  {
    if s != [] {
      ReplaceRemoves(s[1..], target, replacement);
    }
  }

  /** Each target grows to the replacement's length; other characters stay. */
  lemma {:induction false} ReplaceLength(s: string, target: char, replacement: string)
    ensures |ReplaceChar(s, target, replacement)| == |s| + (|replacement| - 1) * Count(s, target)
  {
    if s != [] {
      ReplaceLength(s[1..], target, replacement);
    }
  }

  function Count(s: string, c: char): nat
  {
    if s == [] then 0 else (if s[0] == c then 1 else 0) + Count(s[1..], c)
  }

  /** The colon-encoded local midnight offset (`urls.TIME`). */
  const LocalMidnight: string := "T00:00:00-07:00"
  const Time: string := ReplaceFrom(LocalMidnight, 0, ':', "%3A")

  /** TIME is the percent-encoded form, "T00%3A00%3A00-07%3A00". */
  lemma TimeEncoded()
    ensures Time == "T00" + "%3A" + "00" + "%3A" + "00-07" + "%3A" + "00"
  {
    MidnightPieces();
    ReplaceScan(LocalMidnight, ':', "%3A");
    ReplaceFourPieces("T00", "00", "00-07", "00", ':', "%3A");
  }

  /** The offset timestamp, cut at its three colons. */
  lemma MidnightPieces()
    ensures LocalMidnight == "T00" + ":" + "00" + ":" + "00-07" + ":" + "00"
    ensures ':' !in "T00" && ':' !in "00" && ':' !in "00-07"
  {
  }

  /** Four target-free pieces joined by the target come out joined by the replacement. */
  lemma ReplaceFourPieces(a: string, b: string, c: string, d: string, target: char, replacement: string)
    requires target !in a && target !in b && target !in c && target !in d
    ensures ReplaceChar(a + [target] + b + [target] + c + [target] + d, target, replacement)
            == a + replacement + b + replacement + c + replacement + d
  {
    var t := [target];
    ReplaceAbsent(a, target, replacement);
    ReplaceAbsent(b, target, replacement);
    ReplaceAbsent(c, target, replacement);
    ReplaceAbsent(d, target, replacement);
    assert ReplaceChar(t, target, replacement) == replacement by {
      assert t[1..] == [];
    }
    ReplaceConcat(a + t + b + t + c + t, d, target, replacement);
    ReplaceConcat(a + t + b + t + c, t, target, replacement);
    ReplaceConcat(a + t + b + t, c, target, replacement);
    ReplaceConcat(a + t + b, t, target, replacement);
    ReplaceConcat(a + t, b, target, replacement);
    ReplaceConcat(a, t, target, replacement);
  }

  /** A string without the target character is left as it is. */
  lemma {:induction false} ReplaceAbsent(a: string, target: char, replacement: string)
    requires target !in a
    ensures ReplaceChar(a, target, replacement) == a
  {
    if a != [] {
      assert a == [a[0]] + a[1..];
      ReplaceAbsent(a[1..], target, replacement);
    }
  }

  lemma {:induction false} ReplaceConcat(a: string, b: string, target: char, replacement: string)
    ensures ReplaceChar(a + b, target, replacement) == ReplaceChar(a, target, replacement) + ReplaceChar(b, target, replacement)
  {
    if a == [] {
      assert a + b == b;
    } else {
      var head := if a[0] == target then replacement else [a[0]];
      assert (a + b)[0] == a[0];
      assert (a + b)[1..] == a[1..] + b;
      ReplaceConcat(a[1..], b, target, replacement);
      calc {
        ReplaceChar(a + b, target, replacement);
        head + ReplaceChar(a[1..] + b, target, replacement);
        head + (ReplaceChar(a[1..], target, replacement) + ReplaceChar(b, target, replacement));
        (head + ReplaceChar(a[1..], target, replacement)) + ReplaceChar(b, target, replacement);
      }
    }
  }

  /** The names of the replacement fields of a template. */
  function Placeholders(t: seq<Segment>): set<string>
  {
    set i | 0 <= i < |t| && t[i].Field? :: t[i].name
  }

  lemma PlaceholdersHead(t: seq<Segment>)
    requires t != []
    ensures Placeholders(t) == (if t[0].Field? then {t[0].name} else {}) + Placeholders(t[1..])
  {
    forall n | n in Placeholders(t)
      ensures n in (if t[0].Field? then {t[0].name} else {}) + Placeholders(t[1..])
    {
      var i :| 0 <= i < |t| && t[i].Field? && t[i].name == n;
      if i > 0 {
        assert t[1..][i - 1] == t[i];
      }
    }
    forall n | n in Placeholders(t[1..]) ensures n in Placeholders(t) {
      var i :| 0 <= i < |t[1..]| && t[1..][i].Field? && t[1..][i].name == n;
      assert t[i + 1] == t[1..][i];
    }
  }

  /** One segment as written: literal text, or a field in braces. */
  function Piece(x: Segment): string
  {
    match x
    case Text(s) => s
    case Field(n) => "{" + n + "}"
  }

  /** The template as written in the source, fields in braces. */
  function Source(t: seq<Segment>): string
  {
    if t == [] then [] else Piece(t[0]) + Source(t[1..])
  }

  /** `template.format(**fmt)`: fields replaced left to right; the first
      field without a key raises KeyError. */
  function Format(t: seq<Segment>, fmt: map<string, string>): Result<string>
  {
    if t == [] then Ok([])
    else
      match t[0]
      case Text(s) => (match Format(t[1..], fmt) case Ok(rest) => Ok(s + rest) case Err(e) => Err(e))
      case Field(n) =>
        if n !in fmt then Err(KeyError(n))
        else (match Format(t[1..], fmt) case Ok(rest) => Ok(fmt[n] + rest) case Err(e) => Err(e))
  }

  /** Formatting succeeds exactly when every field has a key; a KeyError
      names a field that has none. */
  lemma {:induction false} FormatSucceeds(t: seq<Segment>, fmt: map<string, string>)
    ensures Format(t, fmt).Ok? <==> Placeholders(t) <= fmt.Keys
    ensures Format(t, fmt).Err? ==>
              Format(t, fmt).error.KeyError? && Format(t, fmt).error.key in Placeholders(t) && Format(t, fmt).error.key !in fmt
  {
    if t != [] {
      FormatSucceeds(t[1..], fmt);
      PlaceholdersHead(t);
    }
  }

  /** Formatting never changes the literal text after the last field. */
  lemma {:induction false} FormatTextSuffix(t: seq<Segment>, s: string, fmt: map<string, string>)
    ensures Format(t + [Text(s)], fmt) == match Format(t, fmt) case Ok(u) => Ok(u + s) case Err(e) => Err(e)
  {
    if t == [] {
      assert t + [Text(s)] == [Text(s)];
      assert [Text(s)][1..] == [];
      assert Format([], fmt) == Ok([]);
      assert s + [] == s && [] + s == s;
    } else {
      assert (t + [Text(s)])[0] == t[0];
      assert (t + [Text(s)])[1..] == t[1..] + [Text(s)];
      FormatTextSuffix(t[1..], s, fmt);
      if Format(t[1..], fmt).Ok? {
        var rest := Format(t[1..], fmt).value;
        match t[0]
        case Text(x) => assert x + (rest + s) == (x + rest) + s;
        case Field(n) =>
          if n in fmt {
            assert fmt[n] + (rest + s) == (fmt[n] + rest) + s;
          }
      }
    }
  }

  /** The placeholder set of a template, from what each position holds. */
  lemma ExactPlaceholders(t: seq<Segment>, want: set<string>)
    requires forall i :: 0 <= i < |t| && t[i].Field? ==> t[i].name in want
    requires forall n :: n in want ==> Field(n) in t
    ensures Placeholders(t) == want
  {
    forall n | n in want ensures n in Placeholders(t) {
      var i :| 0 <= i < |t| && t[i] == Field(n);
    }
  }

  lemma MeterHourlyPlaceholders()
    ensures Placeholders(MeterHourly) == {"account_uuid", "start_date", "end_date"}
  {
    assert MeterHourly[1] == Field("account_uuid") && MeterHourly[3] == Field("start_date") && MeterHourly[5] == Field("end_date");
    ExactPlaceholders(MeterHourly, {"account_uuid", "start_date", "end_date"});
  }

  lemma MeterDailyPlaceholders()
    ensures Placeholders(MeterDaily) == {"account_uuid", "start_date", "end_date"}
  {
    assert MeterDaily[1] == Field("account_uuid") && MeterDaily[3] == Field("start_date") && MeterDaily[5] == Field("end_date");
    ExactPlaceholders(MeterDaily, {"account_uuid", "start_date", "end_date"});
  }

  lemma WeatherHourlyPlaceholders()
    ensures Placeholders(WeatherHourly) == {"start_date", "time", "end_date"}
  {
    assert WeatherHourly[1] == Field("start_date") && WeatherHourly[2] == Field("time") && WeatherHourly[4] == Field("end_date");
    ExactPlaceholders(WeatherHourly, {"start_date", "time", "end_date"});
  }

  lemma WeatherDailyPlaceholders()
    ensures Placeholders(WeatherDaily) == {"start_date", "end_date"}
  {
    assert WeatherDaily[1] == Field("start_date") && WeatherDaily[3] == Field("end_date");
    ExactPlaceholders(WeatherDaily, {"start_date", "end_date"});
  }

  /** Every template uses only keys `get_data` supplies, so formatting any
      of them with those keys never raises. */
  lemma TemplatesFormat(fmt: map<string, string>)
    requires SuppliedKeys <= fmt.Keys
    ensures Format(MeterHourly, fmt).Ok? && Format(MeterDaily, fmt).Ok?
    ensures Format(WeatherHourly, fmt).Ok? && Format(WeatherDaily, fmt).Ok?
  {
    MeterHourlyPlaceholders();
    MeterDailyPlaceholders();
    WeatherHourlyPlaceholders();
    WeatherDailyPlaceholders();
    FormatSucceeds(MeterHourly, fmt);
    FormatSucceeds(MeterDaily, fmt);
    FormatSucceeds(WeatherHourly, fmt);
    FormatSucceeds(WeatherDaily, fmt);
  }

  /** `{time}` occurs only in WEATHER_HOURLY, and there right after each date field. */
  lemma TimeFollowsDates()
    ensures "time" !in Placeholders(MeterHourly) && "time" !in Placeholders(MeterDaily)
      && "time" !in Placeholders(WeatherDaily)
    ensures forall i :: 0 <= i < |WeatherHourly| && WeatherHourly[i] == Field("time") ==>
      i > 0 && (WeatherHourly[i - 1] == Field("start_date") || WeatherHourly[i - 1] == Field("end_date"))
    ensures forall i :: 0 <= i < |WeatherHourly| - 1 && WeatherHourly[i].Field? && WeatherHourly[i].name in {"start_date", "end_date"} ==>
      WeatherHourly[i + 1] == Field("time")
  {
    MeterHourlyPlaceholders();
    MeterDailyPlaceholders();
    WeatherDailyPlaceholders();
  }

  /** METER_HOURLY and METER_DAILY format to the same URL up to the final
      `aggregateType` value. */
  lemma HourlyDailyDiffer(fmt: map<string, string>)
    ensures Format(MeterHourly, fmt).Ok? <==> Format(MeterDaily, fmt).Ok?
    ensures Format(MeterHourly, fmt).Ok? ==>
      exists prefix :: Format(MeterHourly, fmt).value == prefix + "hour" && Format(MeterDaily, fmt).value == prefix + "day"
  {
    var common := MeterHourly[..6];
    assert MeterHourly == common + [Text("&aggregateType=hour")];
    assert MeterDaily == common + [Text("&aggregateType=day")];
    FormatTextSuffix(common, "&aggregateType=hour", fmt);
    FormatTextSuffix(common, "&aggregateType=day", fmt);
    if Format(common, fmt).Ok? {
      var u := Format(common, fmt).value;
      assert u + "&aggregateType=hour" == (u + "&aggregateType=") + "hour";
      assert u + "&aggregateType=day" == (u + "&aggregateType=") + "day";
    }
  }

  /** Formatting with every field mapped to its own braced name gives
      back the template as written. */
  lemma {:induction false} FormatVerbatim(t: seq<Segment>, fmt: map<string, string>)
    requires forall n :: n in Placeholders(t) ==> n in fmt && fmt[n] == "{" + n + "}"
    ensures Format(t, fmt) == Ok(Source(t))
  {
    if t != [] {
      PlaceholdersHead(t);
      FormatVerbatim(t[1..], fmt);
    }
  }
}
