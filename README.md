# homeflux in Dafny

A model of homeflux's collection core, with proofs. homeflux collects power and
weather telemetry and writes it to InfluxDB. It has two sources: the Glendale
Water and Power opower web API, and UPS devices reached through Network UPS
Tools (NUT). The model covers:

- **Records** (`data_types.dfy`, module `DataTypes`): power and climate records.
  Each record routes to the bucket `home-<timescale>`. Power units are converted
  to watt hours regardless of case. `as_influx_dict` gives the point that is
  persisted.
- **Sink** (`database.dfy`, module `Database`): `database.write` groups records
  by bucket in a dict, keeping the order in which buckets first appear. It then
  writes every point. The InfluxDB write API is a class whose `log` records each
  `write(bucket, org, point)` call.
- **UPS agent** (`nut.dfy`, module `Nut`): `NutClient` is a class with a
  `nut_client` field holding an optional session, and a flag saying whether
  `nut_client` has been assigned on the instance.
  - `connect` and `disconnect` update that field.
  - `read` turns `ups.load` and `ups.realpower.nominal` into watts.
  - `read` connects first if it is disconnected, and disconnects again only
    after a read that succeeded.
  - The NUT servers are a map from address to variable listing, where a
    listing can fail with PyNUTError.
- **Meter agent** (`gwp_opower.dfy`, module `Opower`): `Meter` is a class with
  an optional `browser` field.
  - `login` and `logout` update that field.
  - `get_data` formats a URL template with ISO dates offset from `today`. Every
    failure, and every page without reads, becomes `{}`.
  - `get_power_hourly` and `get_weather_hourly` are loops that build records from
    the JSON reads.
  - The browser is abstract: a function says what each URL serves.
- **NUT loop** (`app.dfy`, module `App`): `nut_main`.
  - It parses `addr` and `addr@port` host entries and builds one client per
    host.
  - It reads the hosts one after another, skipping a host that raises NutError.
  - It writes the readings unless the run is dry.
- **Bucket seeding** (`db_utils.dfy`, module `DbUtils`): `seed_buckets`.
  - It computes the four bucket names.
  - It loops over a bucket store, skipping, deleting and recreating, or creating
    each bucket.
- **URL constants** (`urls.dfy`, module `Urls`): the templates and
  `TIME = 'T00:00:00-07:00'.replace(':', '%3A')`.
  - Each template is modelled as the list of text and `{field}` segments that
    `str.format` sees in it.
  - `Format` is `str.format` with KeyError.
  - `Source` is the template as written.
- **Support modules**:
  - `Errors`: the exception kinds and a `Result` type that `:-` can propagate.
  - `Json`: the values `json.loads` returns, with truth testing, subscripts and
    iteration.
  - `Dates`: the part of `datetime.date` that `get_data` uses. That is
    ordinals, `+ timedelta(days=n)` with OverflowError, and `str(date)`.

Clocks, the network, the browser and the device servers are all parameters:

- `now` is `datetime.utcnow()`, `today` is `date.today()`, and `clock(j)` is the
  time the j-th host is read.
- `net` maps each NUT server that accepts the login to its UPS's variables, or
  to None when `list_vars` raises PyNUTError there. `web` gives the body each
  URL serves.
- `envPort` is `NUT_PORT` and `org` is `INFLUX_ORG`.
- `dryRun` is `DRY_RUN` and `docker` is `DOCKER`. Each is optional: None stands
  for the environment module not defining the name, and then reading it raises
  AttributeError. The environment.py in this repository defines neither.

Behaviours of the code that a reader might not expect, modelled as written
unless listed under "## Left out":

- `NutClient.read` connects on demand when it has no session, and disconnects
  again only after a reading that succeeded.
- `Meter.logout` with no browser calls `close` on None and fails with
  AttributeError, which is what `Opower.Meter.Logout` models.
- `nut_main` reads each host from an `addr` or `addr@port` string. A malformed
  entry aborts `nut_main` (ValueError) before any host is read.
- A refused connection raises `NutError`, and only `NutError` is caught per
  host. A ValueError from an unreadable number, or a PyNUTError from
  `list_vars` after a good connect, escapes `nut_main`.
- Without `DOCKER` in the environment module, `Meter.login` logs out any
  existing browser and then raises AttributeError, leaving no browser. Without
  `DRY_RUN`, `nut_main` raises AttributeError after its reads and writes
  nothing.
- `nut_client` is a class attribute that `__init__` never assigns on the
  instance. `disconnect` on a client that never connected therefore fails in
  `del self.nut_client` (see "## Findings").

## Model

| member | source | states |
|---|---|---|
| DataTypes.BucketRoundTrip | python/homeflux/data/data_types.py:15-26 | The bucket name `home-<timescale>` can be parsed back to its timescale, and a bucket parses to a timescale exactly when it is that timescale's name. |
| DataTypes.BucketInjective | python/homeflux/data/data_types.py:19-26 | Two records share a bucket if and only if they share a timescale. |
| DataTypes.Upper | python/homeflux/data/data_types.py:55-57 | `upper()` keeps the length and upper-cases each character in place. |
| DataTypes.KwhSpellings | python/homeflux/data/data_types.py:55 | `unit.upper() == 'KWH'` holds exactly for the spellings k/K, w/W, h/H. |
| DataTypes.WhSpellings | python/homeflux/data/data_types.py:57 | `unit.upper() == 'WH'` holds exactly for the spellings w/W, h/H. |
| DataTypes.PowerValueCases | python/homeflux/data/data_types.py:48-62 | `value` is raw × 1000 for any-case "kwh", raw for any-case "wh", and 0.0 for every other unit. |
| DataTypes.PointShape | python/homeflux/data/data_types.py:64-95 | Every point keeps the record's time, has measurement "power" or "temperature", and holds exactly one field, which carries the record's value. |
| DataTypes.PowerTagsMerge | python/homeflux/data/data_types.py:64-67 | Power tags are the two base keys plus the record's tags, and the record's tags win on a clash. `location` appears only if the record's tags carry it. |
| DataTypes.ClimateTags | python/homeflux/data/data_types.py:88-95 | A climate point has exactly the tags data_source, location and source: data_source is "homeflux", location and source are the record's. Its single field is `temperature = raw_value`. |
| DataTypes.UnitConversionExamples | python/homeflux/_tests/data/test_data_types.py:24-35 | 2.5 WH gives 2.5, 2.5 KWH gives 2500.0, "gigawatts" gives 0.0 and "KW" gives 0.0. |
| DataTypes.BucketExamples | python/homeflux/_tests/data/test_data_types.py:18-49 | The tested records route to "home-hour" and "home-minute". |
| DataTypes.InfluxDictExamples | python/homeflux/_tests/data/test_data_types.py:9-44 | The two tested `as_influx_dict` results, exactly. |
| Database.WriteApi.Write | python/homeflux/data/database.py:37 | One `api.write` call appends exactly that call to the log. |
| Database.FirstAppearance | python/homeflux/data/database.py:27-31 | The dict's keys have no repeats and are exactly the buckets routed to. |
| Database.Intended | python/homeflux/data/database.py:28-37 | The reference list: one call per record, to the record's bucket, with its point and the org. |
| Database.GroupByBucket | python/homeflux/data/database.py:27-31 | The grouping loop builds keys in first-appearance order, and a dict mapping each key to its points in input order. |
| Database.WriteBucket | python/homeflux/data/database.py:36-37 | The inner loop appends one call per point of the bucket, in list order. |
| Database.Write | python/homeflux/data/database.py:12-37 | `write` appends exactly `Writes(values, org)` to the API log and nothing else. |
| Database.WritesArePermutation | python/homeflux/data/database.py:28-37 | The calls are a permutation of the reference list: each record is written exactly once, to its own bucket, with its own point and the configured org. |
| Database.WritesCount | python/homeflux/data/database.py:28-37 | The number of writes is the number of records, and empty input writes nothing. |
| Database.WritesInInputOrder | python/homeflux/data/database.py:31-37 | The calls to any one bucket are that bucket's points in input order. |
| Database.FirstAppearanceOrder | python/homeflux/data/database.py:27-34 | Buckets are written in increasing order of their first appearance in the input. |
| Nut.RoundHalfEven | python/homeflux/agents/nut.py:88 | The chosen integer is within one half of its argument. |
| Nut.Round1Bounds | python/homeflux/agents/nut.py:88 | `round(x, 1)` moves x by at most 0.05 and lands on a multiple of 0.1. |
| Nut.Round1Exact | python/homeflux/agents/nut.py:88 | Rounding a value that is already a tenth leaves it unchanged. |
| Nut.ZeroLoadIgnoresNominal | python/homeflux/agents/nut.py:82-85 | A zero load reads 0.0, and reads the same when `ups.realpower.nominal` is removed from the listing. |
| Nut.NonZeroLoadWatts | python/homeflux/agents/nut.py:86-88 | A non-zero load reads `round(nominal × 0.01 × load, 1)`, within 0.05 of the exact product. |
| Nut.MissingKeys | python/homeflux/agents/nut.py:81-96 | A missing `ups.load`, or a missing nominal with a non-zero load, raises NutError("Failed to get key from NUT data"). The reading fails exactly when the power computation fails. |
| Nut.ReadingRecord | python/homeflux/agents/nut.py:90-92 | A successful reading has the client's timescale, the time `now`, unit WH, source homeflux.nut, the host name as location, `{ip_address: ip}` as its only tag, and the load in watts as its value and bucket. |
| Nut.ReadRestoresDisconnected | python/homeflux/agents/nut.py:74-101 | Starting disconnected, a successful read ends disconnected. |
| Nut.ReadKeepsConnection | python/homeflux/agents/nut.py:74-79 | Starting connected, a read leaves the session as it was. Its result is the reading of that server's listing, or PyNUTError when `list_vars` fails. |
| Nut.ReadFailureStates | python/homeflux/agents/nut.py:74-96 | A failed auto-connect raises NutError and stays disconnected. After an auto-connect, a failed `list_vars` raises PyNUTError and a failed reading raises its error, and both stay connected. |
| Nut.NutClient.constructor | python/homeflux/agents/nut.py:20-38 | The new client is not connected, and `nut_client` is not yet assigned on the instance. Its port is the given one, or the environment's NUT_PORT when none is given. |
| Nut.NutClient.Connect | python/homeflux/agents/nut.py:49-58 | Connecting succeeds, assigns `nut_client` on the instance and stores a session to the configured address. A refused connection raises NutError("Failed to connect to ip") and changes nothing. |
| Nut.NutClient.Disconnect | python/homeflux/agents/nut.py:60-66 | `nut_client` is a class attribute (line 24). After a connect has assigned it on the instance, disconnect succeeds and leaves `nut_client` None. Before one, `del` raises AttributeError and nothing changes. |
| Nut.NutClient.Read | python/homeflux/agents/nut.py:68-101 | The result and the new `nut_client` are exactly the `ReadOutcome` transition from the old state. The disconnect after an automatic connect cannot fail. |
| Nut.NutClient.SafeDisconnect | python/homeflux/agents/nut.py:60-66 | The evidently intended disconnect: it always succeeds and leaves `nut_client` None. |
| Nut.FreshDisconnectFails | python/homeflux/agents/nut.py:24-66 | A client that was built and never connected raises AttributeError on `disconnect`. |
| Nut.FreshSafeDisconnect | python/homeflux/agents/nut.py:60-66 | On that same fresh client, the intended disconnect succeeds. |
| Json.Index | python/homeflux/agents/gwp_opower.py:160 | A subscript succeeds exactly on a dict that has the key. Otherwise it raises KeyError on a dict and TypeError on anything else. |
| Json.Index2 | python/homeflux/agents/gwp_opower.py:185-187 | A double subscript succeeds exactly when both subscripts do, and gives the inner value. |
| Json.Items | python/homeflux/agents/gwp_opower.py:186 | Iterating a list gives its items and a string gives its characters. `{}` gives no items. Anything else fails with TypeError. |
| Dates.FromOrdinal | python/homeflux/agents/gwp_opower.py:154-155 | `date.fromordinal(n)` gives a valid date whose ordinal is n. |
| Dates.OrdinalRoundTrip | python/homeflux/agents/gwp_opower.py:154-155 | A valid date's ordinal is in range, and converting it back gives the same date. |
| Dates.AddDaysOrdinal | python/homeflux/agents/gwp_opower.py:154-155 | `today + timedelta(days=n)` moves the ordinal by exactly n. It raises OverflowError exactly when the result is out of range. |
| Dates.AddDaysZero | python/homeflux/agents/gwp_opower.py:155 | The default end offset 0 gives `today` itself. |
| Dates.AddDaysCompose | python/homeflux/agents/gwp_opower.py:154-155 | Adding a days and then b days is the same as adding a + b days. |
| Dates.IsoRoundTrip | python/homeflux/agents/gwp_opower.py:154-155 | `str(date)` is ten characters, digits with dashes at positions 4 and 7, and it parses back to the date. |
| Dates.IsoInjective | python/homeflux/agents/gwp_opower.py:154-155 | Two dates print the same if and only if they are equal. |
| Urls.ReplaceScan | python/homeflux/urls.py:16 | The left-to-right scan of `str.replace` equals the head-and-tail replacement the properties are proved on. |
| Urls.ReplaceRemoves | python/homeflux/urls.py:16 | After replacing, the string has no target left, unless the replacement contains it. |
| Urls.ReplaceLength | python/homeflux/urls.py:16 | Each target grows to the replacement's length, and every other character stays. |
| Urls.TimeEncoded | python/homeflux/urls.py:16 | TIME is "T00%3A00%3A00-07%3A00". |
| Urls.FormatSucceeds | python/homeflux/agents/gwp_opower.py:157 | `str.format` succeeds exactly when every field has a key. A KeyError names a field that has no key. |
| Urls.FormatVerbatim | python/homeflux/urls.py:4-14 | Formatting with each field mapped to its braced name gives the template as written, so the segment lists determine the written strings. |
| Urls.MeterHourlyPlaceholders | python/homeflux/urls.py:4-5 | METER_HOURLY's fields are exactly account_uuid, start_date and end_date. |
| Urls.MeterDailyPlaceholders | python/homeflux/urls.py:7-8 | METER_DAILY's fields are exactly account_uuid, start_date and end_date. |
| Urls.WeatherHourlyPlaceholders | python/homeflux/urls.py:10-11 | WEATHER_HOURLY's fields are exactly start_date, time and end_date. |
| Urls.WeatherDailyPlaceholders | python/homeflux/urls.py:13-14 | WEATHER_DAILY's fields are exactly start_date and end_date. |
| Urls.TemplatesFormat | python/homeflux/urls.py:4-14 | With the keys `get_data` supplies, formatting any of the four templates never raises. |
| Urls.TimeFollowsDates | python/homeflux/urls.py:4-14 | `{time}` occurs only in WEATHER_HOURLY, immediately after each date field there and nowhere else. |
| Urls.HourlyDailyDiffer | python/homeflux/urls.py:4-8 | METER_HOURLY and METER_DAILY format under the same keys, and differ only in the final hour/day. |
| Opower.RawJson | python/homeflux/agents/gwp_opower.py:61-88 | Fetching fails exactly when logged out, with MeterError. An unparseable body gives `{}`, and a parsed one gives the parsed value. |
| Opower.Accept | python/homeflux/agents/gwp_opower.py:160-164 | The result is either the data or `{}`. It is the data exactly when the data is truthy and has truthy `reads`, or when the data is already `{}`. |
| Opower.GetData | python/homeflux/agents/gwp_opower.py:138-167 | `get_data` returns `{}`, or a dict whose `reads` is present and not empty. |
| Opower.GetDataFailures | python/homeflux/agents/gwp_opower.py:152-167 | Logged out, or with either date out of range, `get_data` returns `{}`. |
| Opower.GetDataFetched | python/homeflux/agents/gwp_opower.py:152-164 | Logged in with both dates in range: a missing format key gives `{}`. Otherwise the result is the accepted page at the formatted URL. |
| Opower.TemplateRequest | python/homeflux/agents/gwp_opower.py:154-157 | For the four templates, building the request URL never fails once both dates are in range. |
| Opower.GetDataOfTemplate | python/homeflux/agents/gwp_opower.py:152-164 | For the four templates, logged in with dates in range, `get_data` is the accepted page at the URL built from the two ISO dates. |
| Opower.PowerRecordFrom | python/homeflux/agents/gwp_opower.py:189-190 | Building a PowerRecord from JSON succeeds exactly when the time is a string, the value a number and the unit a string. Otherwise it fails by validation. |
| Opower.ClimateRecordFrom | python/homeflux/agents/gwp_opower.py:213-214 | Building a ClimateRecord from JSON succeeds exactly when the time is a string and the value a number. Otherwise it fails by validation. |
| Opower.ActualRecordFields | python/homeflux/agents/gwp_opower.py:187-190 | The record has the read's endTime and consumption value, the page's unit, timescale hour, source homeflux.gwp_opower and location gwp_meter. |
| Opower.PowerListOk | python/homeflux/agents/gwp_opower.py:186-192 | The power loop succeeds exactly when every read converts: its type can be read, and an ACTUAL read gives a record. |
| Opower.PowerListActual | python/homeflux/agents/gwp_opower.py:186-192 | The records are exactly those of the ACTUAL reads, one each, in input order. |
| Opower.PowerHourlyFromActual | python/homeflux/agents/gwp_opower.py:181-194 | Without data there are no records. With data, each record comes from an ACTUAL read in order, with timescale hour and the page's unit. |
| Opower.WeatherListPointwise | python/homeflux/agents/gwp_opower.py:212-216 | The weather loop succeeds exactly when every read converts, and it gives one record per read, in order. |
| Opower.ClimateFields | python/homeflux/agents/gwp_opower.py:213-214 | A weather record has the read's date and meanTemperature, timescale hour, and the meter's location and source. |
| Opower.CollectPower | python/homeflux/agents/gwp_opower.py:186-194 | The loop's result is the records of `PowerList` over the reads. |
| Opower.CollectWeather | python/homeflux/agents/gwp_opower.py:212-218 | The loop's result is the records of `WeatherList` over the reads. |
| Opower.Meter.constructor | python/homeflux/agents/gwp_opower.py:27-37 | A new meter keeps its credentials and is not logged in. |
| Opower.Meter.Logout | python/homeflux/agents/gwp_opower.py:128-136 | With a browser: it is closed and forgotten. With none: `close` on None raises AttributeError and nothing changes. |
| Opower.Meter.Login | python/homeflux/agents/gwp_opower.py:90-107 | An existing browser is logged out (closed) first. Without `DOCKER` in the environment, AttributeError follows and no browser is left. With it, the new browser is kept. |
| Opower.Meter.GetPowerHourly | python/homeflux/agents/gwp_opower.py:169-194 | The result is `PowerRecords` of the hourly meter page's `get_data`. |
| Opower.Meter.GetWeatherHourly | python/homeflux/agents/gwp_opower.py:196-218 | The result is `WeatherRecords` of the hourly weather page's `get_data`. |
| App.Split | python/homeflux/app.py:24 | `split(c)` gives one piece more than there are separators, and no piece contains the separator. |
| App.SplitJoin | python/homeflux/app.py:24 | Joining the pieces with the separator gives the string back. |
| App.ParseIntPadded | python/homeflux/app.py:25 | `int()` of a zero-padded decimal is its value. |
| App.HostEntryCases | python/homeflux/app.py:23-26 | An entry without '@' is the address, with no port. An entry with two or more '@' fails to unpack (ValueError). |
| App.HostEntryWithPort | python/homeflux/app.py:23-25 | `addr@port` gives the address and `int(port)`, or that call's error. |
| App.AgentsOf | python/homeflux/app.py:21-26 | The table builds exactly when every entry parses. Then there is one agent per entry, in order, with the entry's name, address and port (or NUT_PORT), on the minute timescale. Otherwise the error is the one of the first entry that does not parse. |
| App.BuildAgents | python/homeflux/app.py:21-26 | The first loop returns fresh clients whose configurations are `AgentsOf`, or the error of the first malformed entry. |
| App.ReadsOk | python/homeflux/app.py:30-40 | The read loop gets through exactly when no host raises anything other than NutError. |
| App.ReadsPerHost | python/homeflux/app.py:30-40 | `reads` holds one record per host that succeeded, in host-table order. |
| App.NutErrorIsolated | python/homeflux/app.py:32-38 | A NutError from connecting or reading one host adds nothing and raises nothing. A failed `list_vars` raises PyNUTError, another reading error raises that error, and a successful host adds its reading. |
| App.ListingAborts | python/homeflux/app.py:30-40 | A host whose `list_vars` fails after a good connect aborts the read loop, with PyNUTError when no earlier host failed. |
| App.ReadsBucket | python/homeflux/app.py:26-37 | Readings of minute-scale agents route to the minute bucket, and there is at most one per agent. |
| App.NutReadsMinuteBucket | python/homeflux/app.py:20-40 | Every reading of `nut_main` goes to "home-minute", and there are at most as many readings as hosts. |
| App.ReadHost | python/homeflux/app.py:32-38 | One `async with a:` pass equals `HostRead`, a PyNUTError from `list_vars` included, and it leaves the client disconnected unless nothing was read. The disconnect in `__aexit__` cannot fail, since it follows a connect that succeeded. |
| App.ReadAll | python/homeflux/app.py:30-40 | The second loop's result is `Reads` over the clients' configurations. |
| App.NutMain | python/homeflux/app.py:13-45 | A failed host table or read loop gives its error. Otherwise the result is the readings when `DRY_RUN` is defined, and AttributeError when it is not. The sink log grows by `Writes(reads)` exactly when the readings were returned and `DRY_RUN` is false, and stays unchanged otherwise. |
| DbUtils.ProductNames | python/homeflux/utils/db_utils.py:11 | The name comprehension runs base by base: the name for base i and time j is `bases[i]-times[j]`, at position i times the number of times plus j. |
| DbUtils.SeedNamesAre | python/homeflux/utils/db_utils.py:9-11 | The names are exactly ["home-minute", "home-hour", "home-day", "home-week"], in order, and each is the `bucket` of its timescale. |
| DbUtils.SeedNamesDistinct | python/homeflux/utils/db_utils.py:9-11 | No bucket name repeats. |
| DbUtils.OpsForCounts | python/homeflux/utils/db_utils.py:16-26 | For one name: created once if missing or when deleting, deleted once only if it exists and deleting, and only that name is touched. |
| DbUtils.SeedOpsCounts | python/homeflux/utils/db_utils.py:15-26 | Over the list: each missing bucket is created once; an existing one is left alone, or deleted once and created once when deleting. |
| DbUtils.SeedOpsAvoids | python/homeflux/utils/db_utils.py:15-26 | A bucket outside the list is never deleted or created. |
| DbUtils.KeepingNeverDeletes | python/homeflux/utils/db_utils.py:18-23 | Without `delete_existing`, nothing is ever deleted. |
| DbUtils.SeedStateIds | python/homeflux/utils/db_utils.py:15-26 | Seeding keeps every bucket id below the next id to be handed out. |
| DbUtils.SeedStateBuckets | python/homeflux/utils/db_utils.py:15-26 | After seeding, exactly the old buckets and the names exist. Buckets outside the list keep their ids, existing ones keep theirs unless deleting, and recreated or new ones get fresh ids. |
| DbUtils.BucketStore.constructor | python/homeflux/utils/db_utils.py:13-14 | The store starts with the given buckets and an empty call log. |
| DbUtils.BucketStore.FindBucketByName | python/homeflux/utils/db_utils.py:16 | Returns the bucket's id if it exists, None otherwise. |
| DbUtils.BucketStore.DeleteBucket | python/homeflux/utils/db_utils.py:20 | Removes the bucket and logs the deletion. |
| DbUtils.BucketStore.CreateBucket | python/homeflux/utils/db_utils.py:26 | Adds the bucket under a fresh id and logs the creation. |
| DbUtils.SeedOne | python/homeflux/utils/db_utils.py:16-26 | One round moves the store by `SeedStep` and logs `OpsFor` that name. |
| DbUtils.SeedAll | python/homeflux/utils/db_utils.py:15-26 | The loop leaves the store in `SeedState` of the names, having logged `SeedOps`. |
| DbUtils.SeedBuckets | python/homeflux/utils/db_utils.py:8-26 | Afterwards every seeded name exists, buckets outside the list are unchanged, existing buckets keep their ids unless deleting, and created buckets have fresh ids. |

## Left out

- Browser automation: launching pyppeteer, navigating pages, typing the login
  form at `urls.LOGIN`, `querySelector`, `evaluate` and screenshots. The browser
  is a value that is present or absent, and the body each URL serves is a
  parameter.
- The NUT wire protocol and `list_vars`, the InfluxDB client, the buckets API
  and the write API. These are foreign calls, modelled as maps, a store and call
  logs. Credentials, the UPS name and the InfluxDB URL and token do not appear.
- asyncio, `async with`, the aiocron schedule, `run_forever` and `run_once`.
  The model is sequential. `async with a:` becomes an explicit connect, read
  and disconnect in `App.ReadHost`.
- `gwp_main` (python/homeflux/app.py:49-71). It calls `get_power_daily` and
  `get_weather_daily`, which `Meter` does not define, and after a MeterError it
  writes names that were never bound.
- `seed` and `seed_opower_historical`: `seed_opower_historical` is not defined
  in db_utils.py, so `seed` has nothing to call.
- `Timer`, logging, `environment.py` and `ast.literal_eval`. Environment values
  are parameters. The `log.error` side effect of an unknown unit is not
  modelled.
- Clock reads: `datetime.utcnow()`, `date.today()` and the time of each host's
  read are parameters.
- Nut.Round1: Python's `round(x, 1)` on binary floats is modelled on exact
  reals, rounding half to even. The float representation error is not modelled.
- DataTypes.Upper: upper-cases ASCII letters only; Unicode case mapping is not
  modelled.
- Opower.PowerRecordFrom: pydantic's coercions are left out. Only the JSON kind
  of each field is checked: a string time, a numeric value, a string unit.
- Opower.ClimateRecordFrom: pydantic's coercions are left out in the same way.
  Only a string time and a numeric value are checked.
- App.ParseInt: covers an optionally signed run of decimal digits. Python's
  `int()` also accepts surrounding whitespace and underscores between digits,
  which the model rejects.
- Json.Items: iterating a non-empty dict yields its keys. Every loop body here
  then fails on its first subscript of a key string, so this is reported
  directly as TypeError, without modelling the key order.
- `PowerRecord.__repr__`, `ClimateRecord.__repr__` and the `float()` of a
  climate value are omitted. The climate value is the raw value itself.
- The unit tests written for other revisions are not modelled: test_nut.py
  expects a ValueError for the timescale "year", and test_gwp_opower.py uses
  `Meter.session`.
- Urls.TimeEncoded: states TIME's value. That no ':' is left in it follows from
  Urls.ReplaceRemoves, which is stated for every string.
- The URL templates are transcribed as segment lists. Urls.FormatVerbatim ties
  each list to its written form, but the equality of each literal string is not
  restated.

## Findings

| source | as written | input that shows it | evidently intended | confidence | as-written member | corrected member |
|---|---|---|---|---|---|---|
| python/homeflux/agents/nut.py:24-66 | `nut_client` is a class attribute, and `__init__` never assigns it on the instance. `disconnect` starts with `del self.nut_client`, which raises AttributeError when the instance has no such attribute. | `NutClient('h', '1.2.3.4', 'minute')` followed by `disconnect()` | `disconnect` forgets the session whatever the state, without failing | high; not executed | Nut.FreshDisconnectFails (on Nut.NutClient.Disconnect) | Nut.FreshSafeDisconnect (on Nut.NutClient.SafeDisconnect) |

`read` and `nut_main` call `disconnect` only after a connect that succeeded, so
the two versions agree there. `Nut.NutClient.Read` and `App.ReadHost` prove
that the as-written disconnect returns `Ok` at those calls.
