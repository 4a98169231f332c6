/** The NUT gather loop (homeflux.app.nut_main): one client per entry of
    the host table, each read in turn, a NutError on one host logged and
    skipped, and the readings written unless the run is dry. */
module App {
  import opened Errors
  import opened DataTypes
  import opened Dates
  import opened Urls
  import opened Nut
  import opened Database

  /** The timescale of every NUT agent. */
  const NutTimescale: string := "minute"

  /** `s.split(c)`: the pieces between the separators. */
  function Split(s: string, c: char): (parts: seq<string>)
    ensures |parts| == Count(s, c) + 1
    ensures forall k :: 0 <= k < |parts| ==> c !in parts[k]
  {
    if s == [] then [""]
    else
      var rest := Split(s[1..], c);
      if s[0] == c then [""] + rest else [[s[0]] + rest[0]] + rest[1..]
  }

  /** `c.join(parts)`. */
  function Join(parts: seq<string>, c: char): string
    requires |parts| >= 1
  {
    if |parts| == 1 then parts[0] else parts[0] + [c] + Join(parts[1..], c)
  }

  /** Splitting loses nothing: joining the pieces gives the string back. */
  lemma {:induction false} SplitJoin(s: string, c: char)
    ensures Join(Split(s, c), c) == s
  {
    if s != [] {
      var rest := Split(s[1..], c);
      SplitJoin(s[1..], c);
      if s[0] == c {
        assert ([""] + rest)[1..] == rest;
        assert s == [c] + s[1..];
      } else {
        var parts := [[s[0]] + rest[0]] + rest[1..];
        if |rest| == 1 {
          assert s == [s[0]] + s[1..];
        } else {
          assert parts[1..] == rest[1..];
          assert Join(rest, c) == rest[0] + [c] + Join(rest[1..], c);
          assert s == [s[0]] + s[1..];
        }
      }
    }
  }

  /** A separator-free string splits into itself. */
  lemma {:induction false} SplitNone(s: string, c: char)
    requires c !in s
    ensures Split(s, c) == [s]
  {
    if s != [] {
      SplitNone(s[1..], c);
      assert [s[0]] + s[1..] == s;
    }
  }

  /** Splitting at the first separator. */
  lemma {:induction false} SplitFirst(a: string, b: string, c: char)
    requires c !in a
    ensures Split(a + [c] + b, c) == [a] + Split(b, c)
  {
    if a == [] {
      assert a + [c] + b == [c] + b;
      assert ([c] + b)[1..] == b;
    } else {
      var s := a + [c] + b;
      assert s[0] == a[0];
      assert s[1..] == a[1..] + [c] + b;
      SplitFirst(a[1..], b, c);
      assert [a[0]] + a[1..] == a;
    }
  }

  predicate AllDigits(s: string)
  {
    forall k :: 0 <= k < |s| ==> IsDigit(s[k])
  }

  /** `int(s)` for an optionally signed run of decimal digits; anything
      else raises ValueError. */
  function ParseInt(s: string): Result<int>
  {
    if |s| > 1 && (s[0] == '-' || s[0] == '+') && AllDigits(s[1..]) then
      Ok(if s[0] == '-' then -DigitsValue(s[1..]) else DigitsValue(s[1..]))
    else if s != [] && AllDigits(s) then Ok(DigitsValue(s))
    else Err(ValueError)
  }

  /** A zero-padded decimal reads back as its value. */
  lemma ParseIntPadded(n: nat, w: nat)
    requires 0 < w && n < Pow10(w)
    ensures ParseInt(Pad(n, w)) == Ok(n)
  {
    PadValue(n, w);
  }

  /** One entry of `NUT_HOSTS`: `addr` or `addr@port`. */
  function ParseHostEntry(ip: string): Result<(string, Option<int>)>
  {
    if '@' !in ip then Ok((ip, None))
    else
      var parts := Split(ip, '@');
      if |parts| != 2 then Err(ValueError)
      else
        var port :- ParseInt(parts[1]);
        Ok((parts[0], Some(port)))
  }

  /** Without '@' the address is the entry and the port is left to the
      default; with two or more the unpacking fails. */
  lemma HostEntryCases(ip: string)
    ensures '@' !in ip ==> ParseHostEntry(ip) == Ok((ip, None))
    ensures Count(ip, '@') >= 2 ==> ParseHostEntry(ip) == Err(ValueError)
  {
    if Count(ip, '@') >= 2 {
      assert |Split(ip, '@')| >= 3;
      assert '@' in ip by {
        if '@' !in ip {
          SplitNone(ip, '@');
        }
      }
    }
  }

  /** `addr@port` gives the address and the parsed port. */
  lemma HostEntryWithPort(addr: string, port: string)
    requires '@' !in addr && '@' !in port
    ensures ParseHostEntry(addr + "@" + port) ==
      match ParseInt(port) case Ok(n) => Ok((addr, Some(n))) case Err(e) => Err(e)
  {
    var ip := addr + "@" + port;
    assert ip == addr + ['@'] + port;
    assert ip[|addr|] == '@';
    SplitFirst(addr, port, '@');
    SplitNone(port, '@');
  }

  /** The clients `nut_main` builds from the first `n` host entries, all on
      the minute timescale; a malformed entry raises. */
  function AgentsOf(hosts: seq<(string, string)>, envPort: int, n: nat): (r: Result<seq<Agent>>)
    requires n <= |hosts|
    ensures r.Ok? ==> |r.value| == n
    ensures r.Ok? ==> forall j :: 0 <= j < n ==>
      r.value[j].timescale == NutTimescale && r.value[j].hostName == hosts[j].0
      && ParseHostEntry(hosts[j].1).Ok? && r.value[j].ipAddress == ParseHostEntry(hosts[j].1).value.0
      && r.value[j].port == (match ParseHostEntry(hosts[j].1).value.1 case Some(p) => p case None => envPort)
    ensures (forall j :: 0 <= j < n ==> ParseHostEntry(hosts[j].1).Ok?) ==> r.Ok?
    ensures r.Err? ==> exists j :: 0 <= j < n && ParseHostEntry(hosts[j].1) == Err(r.error)
                                   && forall i :: 0 <= i < j ==> ParseHostEntry(hosts[i].1).Ok?
  {
    if n == 0 then Ok([])
    else
      var prev :- AgentsOf(hosts, envPort, n - 1);
      var entry :- ParseHostEntry(hosts[n - 1].1);
      var port := match entry.1 case Some(p) => p case None => envPort;
      Ok(prev + [Agent(hosts[n - 1].0, entry.0, NutTimescale, port)])
  }

  /** One iteration of the read loop: `async with a:` connects, reads and
      disconnects. A NutError (from connecting or from the reading) is
      caught and yields nothing; any other exception escapes, among them
      the PyNUTError of a listing that fails after a good connect. */
  function HostRead(a: Agent, net: Network, now: Timestamp): Result<Option<Record>>
  {
    if a.Target() !in net then Ok(None)
    else
      var vars :- ListVars(net, a.Target());
      match Reading(a, vars, now)
      case Ok(rec) => Ok(Some(rec))
      case Err(e) => if e.NutError? then Ok(None) else Err(e)
  }

  /** The `reads` list after the first `n` agents; `clock(j)` is the time
      at which agent `j` is read. */
  function Reads(agents: seq<Agent>, net: Network, clock: nat -> Timestamp, n: nat): Result<seq<Record>>
    requires n <= |agents|
  {
    if n == 0 then Ok([])
    else
      var prev :- Reads(agents, net, clock, n - 1);
      var got :- HostRead(agents[n - 1], net, clock(n - 1));
      Ok(if got.Some? then prev + [got.value] else prev)
  }

  /** The positions, ascending, of the first `n` agents that produced a reading. */
  function Succeeded(agents: seq<Agent>, net: Network, clock: nat -> Timestamp, n: nat): (s: seq<nat>)
    requires n <= |agents|
    ensures forall k :: 0 <= k < |s| ==> s[k] < n
    ensures forall k, k' :: 0 <= k < k' < |s| ==> s[k] < s[k']
    ensures forall j :: 0 <= j < n ==> (j in s <==> HostRead(agents[j], net, clock(j)).Ok? && HostRead(agents[j], net, clock(j)).value.Some?)
  {
    if n == 0 then []
    else
      var got := HostRead(agents[n - 1], net, clock(n - 1));
      Succeeded(agents, net, clock, n - 1) + (if got.Ok? && got.value.Some? then [n - 1] else [])
  }

  /** The hosts are independent: the loop gets through exactly when no
      host raises anything but NutError. */
  lemma {:induction false} ReadsOk(agents: seq<Agent>, net: Network, clock: nat -> Timestamp, n: nat)
    requires n <= |agents|
    ensures Reads(agents, net, clock, n).Ok? <==> forall j :: 0 <= j < n ==> HostRead(agents[j], net, clock(j)).Ok?
  {
    if n > 0 {
      ReadsOk(agents, net, clock, n - 1);
    }
  }

  /** A loop that got through holds one reading per host that succeeded,
      in host-table order. */
  lemma {:induction false} ReadsPerHost(agents: seq<Agent>, net: Network, clock: nat -> Timestamp, n: nat)
    requires n <= |agents|
    ensures Reads(agents, net, clock, n).Ok? ==>
      var rs := Reads(agents, net, clock, n).value;
      var s := Succeeded(agents, net, clock, n);
      |rs| == |s| && forall k :: 0 <= k < |s| ==> HostRead(agents[s[k]], net, clock(s[k])) == Ok(Some(rs[k]))
  {
    if n > 0 && Reads(agents, net, clock, n).Ok? {
      ReadsPerHost(agents, net, clock, n - 1);
      var prev := Reads(agents, net, clock, n - 1).value;
      var s0 := Succeeded(agents, net, clock, n - 1);
      var got := HostRead(agents[n - 1], net, clock(n - 1));
      if got.value.Some? {
        assert Reads(agents, net, clock, n).value == prev + [got.value.value];
        assert Succeeded(agents, net, clock, n) == s0 + [n - 1];
      } else {
        assert Reads(agents, net, clock, n).value == prev;
        assert Succeeded(agents, net, clock, n) == s0;
      }
    }
  }

  /** When a host's connection or reading raises NutError, the others are
      still read: the host contributes nothing and no error. */
  lemma NutErrorIsolated(a: Agent, net: Network, now: Timestamp)
    ensures a.Target() !in net ==> HostRead(a, net, now) == Ok(None)
    ensures a.Target() in net && net[a.Target()].None? ==> HostRead(a, net, now) == Err(PyNutError)
    ensures a.Target() in net && net[a.Target()].Some? ==>
      var rd := Reading(a, net[a.Target()].value, now);
      && (rd.Err? && rd.error.NutError? ==> HostRead(a, net, now) == Ok(None))
      && (rd.Err? && !rd.error.NutError? ==> HostRead(a, net, now) == Err(rd.error))
      && (rd.Ok? ==> HostRead(a, net, now) == Ok(Some(rd.value)))
  {
  }

  /** A host whose listing fails after a good connect aborts the loop
      with that PyNUTError, unless an earlier host already aborted it. */
  lemma {:induction false} ListingAborts(agents: seq<Agent>, net: Network, clock: nat -> Timestamp, n: nat, j: nat)
    requires j < n <= |agents|
    requires agents[j].Target() in net && net[agents[j].Target()].None?
    ensures Reads(agents, net, clock, n).Err?
    ensures (forall i :: 0 <= i < j ==> HostRead(agents[i], net, clock(i)).Ok?) ==>
              Reads(agents, net, clock, n) == Err(PyNutError)
  {
    ReadsOk(agents, net, clock, n);
    NutErrorIsolated(agents[j], net, clock(j));
    ReadsOk(agents, net, clock, j);
    if forall i :: 0 <= i < j ==> HostRead(agents[i], net, clock(i)).Ok? {
      assert Reads(agents, net, clock, j + 1) == Err(PyNutError);
      ReadsErrorPersists(agents, net, clock, j + 1, n);
    }
  }

  /** An error after `m` hosts is still the error after `n >= m` hosts. */
  lemma {:induction false} ReadsErrorPersists(agents: seq<Agent>, net: Network, clock: nat -> Timestamp, m: nat, n: nat)
    requires m <= n <= |agents| && Reads(agents, net, clock, m).Err?
    ensures Reads(agents, net, clock, n) == Reads(agents, net, clock, m)
    decreases n - m
  {
    if m < n {
      ReadsErrorPersists(agents, net, clock, m + 1, n);
    }
  }

  /** `nut_main` up to the write: the agents, then the readings. */
  function NutReads(hosts: seq<(string, string)>, envPort: int, net: Network, clock: nat -> Timestamp): Result<seq<Record>>
  {
    var agents :- AgentsOf(hosts, envPort, |hosts|);
    Reads(agents, net, clock, |agents|)
  }

  /** Every reading of `nut_main` routes to the minute bucket, and there is
      at most one per host. */
  lemma NutReadsMinuteBucket(hosts: seq<(string, string)>, envPort: int, net: Network, clock: nat -> Timestamp)
    ensures NutReads(hosts, envPort, net, clock).Ok? ==>
      |NutReads(hosts, envPort, net, clock).value| <= |hosts|
      && forall k :: 0 <= k < |NutReads(hosts, envPort, net, clock).value| ==>
           NutReads(hosts, envPort, net, clock).value[k].Bucket() == "home-minute"
  {
    var agents := AgentsOf(hosts, envPort, |hosts|);
    if agents.Ok? {
      ReadsBucket(agents.value, net, clock, |hosts|);
      MinuteBucket();
    }
  }

  lemma MinuteBucket()
    ensures BucketName(NutTimescale) == "home-minute"
  {
  }

  /** Readings of agents on one timescale route to that timescale's
      bucket, at most one per agent. */
  lemma {:induction false} ReadsBucket(agents: seq<Agent>, net: Network, clock: nat -> Timestamp, n: nat)
    requires n <= |agents|
    requires forall j :: 0 <= j < n ==> agents[j].timescale == NutTimescale
    ensures Reads(agents, net, clock, n).Ok? ==>
      |Reads(agents, net, clock, n).value| <= n
      && forall k :: 0 <= k < |Reads(agents, net, clock, n).value| ==>
           Reads(agents, net, clock, n).value[k].Bucket() == BucketName(NutTimescale)
  {
    if n > 0 {
      ReadsBucket(agents, net, clock, n - 1);
      var a := agents[n - 1];
      if a.Target() in net && net[a.Target()].Some? && Reading(a, net[a.Target()].value, clock(n - 1)).Ok? {
        ReadingRecord(a, net[a.Target()].value, clock(n - 1));
      }
    }
  }

  /** The first loop of `nut_main`: one client per host entry. */
  method BuildAgents(hosts: seq<(string, string)>, envPort: int) returns (r: Result<seq<NutClient>>)
    ensures AgentsOf(hosts, envPort, |hosts|).Ok? <==> r.Ok?
    ensures r.Err? ==> r.error == AgentsOf(hosts, envPort, |hosts|).error
    ensures r.Ok? ==> |r.value| == |hosts|
    ensures r.Ok? ==> forall j :: 0 <= j < |hosts| ==>
              fresh(r.value[j]) && r.value[j].Config() == AgentsOf(hosts, envPort, |hosts|).value[j]
  {
    var agents: seq<NutClient> := [];
    var i := 0;
    while i < |hosts|
      invariant 0 <= i <= |hosts|
      invariant AgentsOf(hosts, envPort, i).Ok?
      invariant |agents| == i
      invariant forall j :: 0 <= j < i ==> fresh(agents[j]) && agents[j].Config() == AgentsOf(hosts, envPort, i).value[j]
    {
      var entry := ParseHostEntry(hosts[i].1);
      if entry.Err? {
        AgentsErrorPersists(hosts, envPort, i + 1);
        return Err(entry.error);
      }
      var client := new NutClient(hosts[i].0, entry.value.0, NutTimescale, entry.value.1, envPort);
      agents := agents + [client];
      i := i + 1;
    }
    r := Ok(agents);
  }

  lemma {:induction false} AgentsErrorPersists(hosts: seq<(string, string)>, envPort: int, n: nat)
    requires n <= |hosts| && AgentsOf(hosts, envPort, n).Err?
    ensures AgentsOf(hosts, envPort, |hosts|) == AgentsOf(hosts, envPort, n)
    decreases |hosts| - n
  {
    if n < |hosts| {
      AgentsErrorPersists(hosts, envPort, n + 1);
    }
  }

  /** One pass of the read loop: `__aenter__` connects, then read, then
      `__aexit__` disconnects, which cannot fail after the connect that
      assigned the session. */
  method ReadHost(client: NutClient, net: Network, now: Timestamp) returns (r: Result<Option<Record>>)
    modifies client
    ensures r == HostRead(client.Config(), net, now)
    ensures client.nutClient == None || r == Ok(None)
  {
    var c := client.Connect(net);
    if c.Err? {
      return Ok(None);
    }
    var read := client.Read(net, now);
    var d := client.Disconnect();
    assert d == Ok(());
    if read.Err? {
      if read.error.NutError? {
        return Ok(None);
      }
      return Err(read.error);
    }
    r := Ok(Some(read.value));
  }

  /** The configurations of a list of clients. */
  function Configs(clients: seq<NutClient>): (cs: seq<Agent>)
    ensures |cs| == |clients| && forall j :: 0 <= j < |clients| ==> cs[j] == clients[j].Config()
  {
    seq(|clients|, j requires 0 <= j < |clients| => clients[j].Config())
  }

  /** The second loop of `nut_main`: each client read in turn. */
  method ReadAll(agents: seq<NutClient>, net: Network, clock: nat -> Timestamp) returns (r: Result<seq<Record>>)
    modifies set j | 0 <= j < |agents| :: agents[j]
    ensures r == Reads(Configs(agents), net, clock, |agents|)
  {
    ghost var spec := Configs(agents);
    var readings: seq<Record> := [];
    var i := 0;
    while i < |agents|
      invariant 0 <= i <= |agents|
      invariant Reads(spec, net, clock, i) == Ok(readings)
    {
      var got := ReadHost(agents[i], net, clock(i));
      if got.Err? {
        ReadsErrorPersists(spec, net, clock, i + 1, |agents|);
        return Err(got.error);
      }
      if got.value.Some? {
        readings := readings + [got.value.value];
      }
      i := i + 1;
    }
    r := Ok(readings);
  }

  /** `nut_main`: the host table, the NUT servers, the clock, `NUT_PORT` and
      `DRY_RUN` are parameters, `DRY_RUN` being None when the environment
      module does not define it, which raises AttributeError after the
      reads. The readings go to `api` unless the run is dry. */
  method NutMain(hosts: seq<(string, string)>, envPort: int, net: Network, clock: nat -> Timestamp,
                 dryRun: Option<bool>, org: string, api: WriteApi) returns (r: Result<seq<Record>>)
    modifies api
    ensures NutReads(hosts, envPort, net, clock).Err? ==> r == NutReads(hosts, envPort, net, clock)
    ensures NutReads(hosts, envPort, net, clock).Ok? && dryRun.None? ==> r == Err(AttributeError)
    ensures dryRun.Some? ==> r == NutReads(hosts, envPort, net, clock)
    ensures api.log == old(api.log) + (if r.Ok? && dryRun == Some(false) then Writes(r.value, org) else [])
  {
    var built := BuildAgents(hosts, envPort);
    if built.Err? {
      return Err(built.error);
    }
    var agents := built.value;
    assert Configs(agents) == AgentsOf(hosts, envPort, |hosts|).value;
    var readings := ReadAll(agents, net, clock);
    if readings.Err? {
      return readings;
    }
    if dryRun.None? {
      return Err(AttributeError);
    }
    if !dryRun.value {
      Write(readings.value, org, api);
    }
    r := readings;
  }
}
