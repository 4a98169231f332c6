/** The normalised reading types (homeflux.data.data_types): power and
    climate records, the bucket they route to, the unit conversion to
    watt hours and the point persisted to InfluxDB. */
module DataTypes {
  import opened Errors

  /** AbstractRecord._bucket, the namespace of every bucket name. */
  const Namespace: string := "home"
  /** The fixed `data_source` tag of every persisted point. */
  const DataSource: string := "homeflux"

  /** A point in time, carried through unchanged (a `datetime` in the source). */
  datatype Timestamp = Timestamp(text: string)

  /** The dict returned by `as_influx_dict`. */
  datatype Point = Point(measurement: string, tags: map<string, string>, time: Timestamp, fields: map<string, real>)

  /** A PowerRecord or a ClimateRecord. A PowerRecord whose `tags` is None
      is modelled with the empty map: `if self.tags:` skips both. */
  datatype Record =
    | PowerRecord(timescale: string, time: Timestamp, rawValue: real, unit: string,
                  source: string, location: string, tags: map<string, string>)
    | ClimateRecord(timescale: string, time: Timestamp, rawValue: real, location: string, source: string)
  {
    /** The `bucket` property: `{_bucket}-{timescale}`. */
    function Bucket(): string
    {
      BucketName(timescale)
    }

    /** The `value` property: watt hours for power, degrees for climate. */
    function Value(): real
    {
      match this
      case PowerRecord(_, _, raw, u, _, _, _) => PowerValue(raw, u)
      case ClimateRecord(_, _, raw, _, _) => raw
    }

    /** `as_influx_dict`: the point written to the record's bucket. */
    function AsInfluxDict(): Point
    {
      match this
      case PowerRecord(_, t, _, _, src, _, extra) =>
        Point("power", PowerTags(src, extra), t, map["power_usage" := Value()])
      case ClimateRecord(_, t, raw, loc, src) =>
        Point("temperature", map["data_source" := DataSource, "location" := loc, "source" := src], t,
              map["temperature" := Value()])
    }
  }

  /** The single field name of a record's point. */
  function FieldName(r: Record): string
  {
    if r.PowerRecord? then "power_usage" else "temperature"
  }

  function BucketName(timescale: string): string
  {
    Namespace + "-" + timescale
  }

  /** The inverse of BucketName: the timescale a bucket name routes, if any. */
  function BucketTimescale(bucket: string): Option<string>
  {
    if |bucket| >= 5 && bucket[..5] == "home-" then Some(bucket[5..]) else None
  }

  /** The bucket name determines the timescale: the two functions are inverse. */
  lemma BucketRoundTrip(timescale: string, bucket: string)
    ensures BucketTimescale(BucketName(timescale)) == Some(timescale)
    ensures BucketTimescale(bucket) == Some(timescale) <==> bucket == BucketName(timescale)
  {
    var b := BucketName(timescale);
    assert b[..5] == "home-" && b[5..] == timescale;
    if BucketTimescale(bucket) == Some(timescale) {
      assert bucket == bucket[..5] + bucket[5..];
    }
  }

  /** Distinct timescales route to distinct buckets. */
  lemma BucketInjective(r1: Record, r2: Record)
    ensures r1.Bucket() == r2.Bucket() <==> r1.timescale == r2.timescale
  {
    if r1.Bucket() == r2.Bucket() {
      BucketRoundTrip(r1.timescale, r2.Bucket());
      BucketRoundTrip(r2.timescale, r2.Bucket());
    }
  }

  /** ASCII upper-casing of one character. */
  function UpperChar(c: char): char
  {
    if 'a' <= c <= 'z' then (c as int - 32) as char else c
  }

  /** `str.upper` restricted to ASCII letters. */
  function Upper(s: string): (u: string)
    ensures |u| == |s|
    ensures forall i :: 0 <= i < |s| ==> u[i] == UpperChar(s[i])
  {
    if s == [] then [] else [UpperChar(s[0])] + Upper(s[1..])
  }

  /** Python's `PowerRecord.value`: KWH scales by 1000, WH passes through,
      anything else is 0.0 (and an error is logged). */
  function PowerValue(raw: real, unit: string): real
  {
    if Upper(unit) == "KWH" then raw * 1000.0
    else if Upper(unit) == "WH" then raw
    else 0.0
  }

  /** The tags of a power point: the base tags updated by the record's tags. */
  function PowerTags(source: string, extra: map<string, string>): map<string, string>
  {
    map["data_source" := DataSource, "source" := source] + extra
  }

  /** Which characters upper-case to a given upper-case letter. */
  lemma UpperCharIs(c: char, target: char)
    requires 'A' <= target <= 'Z'
    ensures UpperChar(c) == target <==> c == target || c as int == target as int + 32
  {
  }

  /** Upper(u) equals an upper-case target exactly when it does so letter by letter. */
  lemma UpperEquals(u: string, target: string)
    ensures Upper(u) == target <==> |u| == |target| && forall i :: 0 <= i < |u| ==> UpperChar(u[i]) == target[i]
  {
    if |u| == |target| && forall i :: 0 <= i < |u| ==> UpperChar(u[i]) == target[i] {
      assert forall i :: 0 <= i < |u| ==> Upper(u)[i] == target[i];
    }
  }

  /** The spellings that upper-case to "KWH" are exactly k/K, w/W, h/H. */
  lemma KwhSpellings(u: string)
    ensures Upper(u) == "KWH" <==> IsKwh(u)
  {
    UpperEquals(u, "KWH");
    if |u| == 3 {
      UpperCharIs(u[0], 'K');
      UpperCharIs(u[1], 'W');
      UpperCharIs(u[2], 'H');
      assert (forall i :: 0 <= i < |u| ==> UpperChar(u[i]) == "KWH"[i])
        <==> UpperChar(u[0]) == 'K' && UpperChar(u[1]) == 'W' && UpperChar(u[2]) == 'H';
    }
  }

  /** The spellings that upper-case to "WH" are exactly w/W, h/H. */
  lemma WhSpellings(u: string)
    ensures Upper(u) == "WH" <==> IsWh(u)
  {
    UpperEquals(u, "WH");
    if |u| == 2 {
      UpperCharIs(u[0], 'W');
      UpperCharIs(u[1], 'H');
      assert (forall i :: 0 <= i < |u| ==> UpperChar(u[i]) == "WH"[i])
        <==> UpperChar(u[0]) == 'W' && UpperChar(u[1]) == 'H';
    }
  }

  /** "kwh" in any mix of cases. */
  predicate IsKwh(u: string)
  {
    |u| == 3 && (u[0] == 'k' || u[0] == 'K') && (u[1] == 'w' || u[1] == 'W') && (u[2] == 'h' || u[2] == 'H')
  }

  /** "wh" in any mix of cases. */
  predicate IsWh(u: string)
  {
    |u| == 2 && (u[0] == 'w' || u[0] == 'W') && (u[1] == 'h' || u[1] == 'H')
  }

  /** The unit conversion, stated on spellings rather than on `upper()`:
      any-case "kwh" multiplies by 1000, any-case "wh" passes through,
      every other unit converts to 0.0. */
  lemma PowerValueCases(raw: real, u: string)
    ensures IsKwh(u) ==> PowerValue(raw, u) == raw * 1000.0
    ensures IsWh(u) ==> PowerValue(raw, u) == raw
    ensures !IsKwh(u) && !IsWh(u) ==> PowerValue(raw, u) == 0.0
  {
    KwhSpellings(u);
    WhSpellings(u);
  }

  /** Every point keeps the record's time, names its measurement after the
      record kind and carries exactly one field, the record's value. */
  lemma PointShape(r: Record)
    ensures r.AsInfluxDict().time == r.time
    ensures r.AsInfluxDict().measurement == (if r.PowerRecord? then "power" else "temperature")
    ensures r.AsInfluxDict().fields.Keys == {FieldName(r)}
    ensures r.AsInfluxDict().fields[FieldName(r)] == r.Value()
  {
  }

  /** The tags of a power point: exactly the base keys and the record's own
      tags, the record's tags winning on a clash; `location` appears only
      when the record's tags carry it. */
  lemma PowerTagsMerge(r: Record, k: string)
    requires r.PowerRecord?
    ensures k in r.AsInfluxDict().tags <==> k == "data_source" || k == "source" || k in r.tags
    ensures k in r.tags ==> r.AsInfluxDict().tags[k] == r.tags[k]
    ensures k !in r.tags && k == "data_source" ==> r.AsInfluxDict().tags[k] == DataSource
    ensures k !in r.tags && k == "source" ==> r.AsInfluxDict().tags[k] == r.source
    ensures "location" in r.AsInfluxDict().tags <==> "location" in r.tags
  {
  }

  /** A climate point carries exactly the three fixed tags. */
  lemma ClimateTags(r: Record)
    requires r.ClimateRecord?
    ensures r.AsInfluxDict().tags.Keys == {"data_source", "location", "source"}
    ensures r.AsInfluxDict().tags["data_source"] == "homeflux"
    ensures r.AsInfluxDict().tags["location"] == r.location && r.AsInfluxDict().tags["source"] == r.source
    ensures r.AsInfluxDict().fields == map["temperature" := r.rawValue]
  {
  }

  /** test_data_types.py: the unit conversions it checks. */
  lemma UnitConversionExamples()
    ensures PowerValue(2.5, "WH") == 2.5
    ensures PowerValue(2.5, "KWH") == 2500.0
    ensures PowerValue(2.5, "gigawatts") == 0.0
    ensures PowerValue(2.5, "KW") == 0.0
  {
    assert IsWh("WH") && IsKwh("KWH");
    assert !IsKwh("gigawatts") && !IsWh("gigawatts") && !IsKwh("KW") && !IsWh("KW");
    PowerValueCases(2.5, "WH");
    PowerValueCases(2.5, "KWH");
    PowerValueCases(2.5, "gigawatts");
    PowerValueCases(2.5, "KW");
  }

  /** test_data_types.py: the bucket names it checks. */
  lemma BucketExamples(t: Timestamp)
    ensures PowerRecord("hour", t, 2.5, "KW", "test_source", "test_location", map[]).Bucket() == "home-hour"
    ensures ClimateRecord("minute", t, 79.9, "test_location", "test_source").Bucket() == "home-minute"
  {
  }

  /** test_data_types.py: the two `as_influx_dict` examples. */
  lemma InfluxDictExamples(t: Timestamp)
    ensures PowerRecord("hour", t, 1.25, "WH", "test_source", "test_location", map["test" := "test"]).AsInfluxDict()
            == Point("power", map["data_source" := "homeflux", "source" := "test_source", "test" := "test"], t,
                     map["power_usage" := 1.25])
    ensures ClimateRecord("hour", t, 79.9, "test_location", "test_source").AsInfluxDict()
            == Point("temperature", map["data_source" := "homeflux", "location" := "test_location", "source" := "test_source"],
                     t, map["temperature" := 79.9])
  {
    PowerValueCases(1.25, "WH");
  }
}
