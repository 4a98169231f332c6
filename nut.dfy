/** The UPS agent (homeflux.agents.nut): a client that connects to a NUT
    server on demand, turns the UPS load into watts and wraps it in a
    PowerRecord. The NUT servers are abstracted as the variable listing
    each reachable address answers for the configured UPS. */
module Nut {
  import opened Errors
  import opened DataTypes

  const LoadKey: string := "ups.load"
  const NominalKey: string := "ups.realpower.nominal"
  const KeyFailure: string := "Failed to get key from NUT data"

  datatype Address = Address(host: string, port: int)

  /** A NUT variable's value as `float()` reads it. */
  datatype Numeral = Number(value: real) | Malformed

  /** The `list_vars` answer of one UPS. */
  type Vars = map<string, Numeral>

  /** The servers that accept the configured login. Each gives its UPS's
      variables, or None when `list_vars` raises PyNUTError there (an
      unknown UPS name, a dropped link). */
  type Network = map<Address, Option<Vars>>

  /** `list_vars` on the server of a session. */
  function ListVars(net: Network, address: Address): Result<Vars>
  {
    if address in net && net[address].Some? then Ok(net[address].value) else Err(PyNutError)
  }

  /** A live PyNUTClient, connected to one address. */
  datatype Session = Session(address: Address)

  /** The client's fixed configuration. */
  datatype Agent = Agent(hostName: string, ipAddress: string, timescale: string, port: int)
  {
    function Target(): Address
    {
      Address(ipAddress, port)
    }
  }

  /** What a call to `read` returns and where it leaves `nut_client`. */
  datatype Outcome = Outcome(result: Result<Record>, client: Option<Session>)

  function ConnectFailure(ip: string): Error
  {
    NutError("Failed to connect to " + ip)
  }

  /** The integer nearest to `y`, ties going to the even one. */
  function RoundHalfEven(y: real): (k: int)
    ensures -0.5 <= k as real - y <= 0.5
  {
    var f := y.Floor;
    var frac := y - f as real;
    if frac < 0.5 then f else if frac > 0.5 then f + 1 else if f % 2 == 0 then f else f + 1
  }

  /** `round(x, 1)` on exact reals: the nearest tenth, ties to an even tenth. */
  function Round1(x: real): real
  {
    RoundHalfEven(x * 10.0) as real * 0.1
  }

  /** Rounding moves a value by at most half a tenth and lands on a tenth. */
  lemma Round1Bounds(x: real)
    ensures -0.05 <= Round1(x) - x <= 0.05
    ensures (Round1(x) * 10.0).Floor as real == Round1(x) * 10.0
  {
    var y := x * 10.0;
    var k := RoundHalfEven(y);
    assert Round1(x) == k as real * 0.1;
    assert Round1(x) * 10.0 == k as real;
  }

  /** A value that already is a tenth is left alone. */
  lemma Round1Exact(k: int)
    ensures Round1(k as real * 0.1) == k as real * 0.1
  {
    var y := (k as real * 0.1) * 10.0;
    assert y == k as real;
    assert y.Floor == k;
  }

  /** The unrounded power: `nominal * 0.01 * load`, the nominal power
      scaled by the load percentage. */
  function Watts(nominal: real, load: real): real
  {
    nominal * 0.01 * load
  }

  /** The power reading of `read`: a zero load is 0.0 without looking at
      the nominal power, otherwise nominal * 1% * load rounded to a tenth.
      A missing key raises KeyError, an unreadable number ValueError. */
  function LoadWatts(vars: Vars): Result<real>
  {
    if LoadKey !in vars then Err(KeyError(LoadKey))
    else
      match vars[LoadKey]
      case Malformed => Err(ValueError)
      case Number(load) =>
        if load == 0.0 then Ok(0.0)
        else if NominalKey !in vars then Err(KeyError(NominalKey))
        else
          match vars[NominalKey]
          case Malformed => Err(ValueError)
          case Number(nominal) => Ok(Round1(Watts(nominal, load)))
  }

  /** The body of `read`'s try block: the record built from the listing,
      with a KeyError turned into NutError. */
  function Reading(a: Agent, vars: Vars, now: Timestamp): Result<Record>
  {
    match LoadWatts(vars)
    case Ok(v) => Ok(PowerRecord(a.timescale, now, v, "WH", "homeflux.nut", a.hostName, map["ip_address" := a.ipAddress]))
    case Err(e) => if e.KeyError? then Err(NutError(KeyFailure)) else Err(e)
  }

  /** `read` as a transition: connect first when disconnected (a failed
      connect raises NutError), list the UPS's variables (PyNUTError,
      outside the try, is not translated), build the record, and
      disconnect again only after an automatic connect that succeeded. */
  function ReadOutcome(a: Agent, start: Option<Session>, net: Network, now: Timestamp): Outcome
  {
    if start.None? && a.Target() !in net then Outcome(Err(ConnectFailure(a.ipAddress)), start)
    else
      var s := if start.Some? then start.value else Session(a.Target());
      match ListVars(net, s.address)
      case Err(e) => Outcome(Err(e), Some(s))
      case Ok(vars) =>
        var r := Reading(a, vars, now);
        Outcome(r, if r.Ok? && start.None? then None else Some(s))
  }

  /** A zero load reads 0.0 whatever the nominal power says, even when it is absent. */
  lemma ZeroLoadIgnoresNominal(vars: Vars)
    requires LoadKey in vars && vars[LoadKey] == Number(0.0)
    ensures LoadWatts(vars) == Ok(0.0)
    ensures LoadWatts(vars) == LoadWatts(vars - {NominalKey})
  {
    assert LoadKey in vars - {NominalKey};
  }

  /** A non-zero load reads within half a tenth of nominal * 1% * load. */
  lemma NonZeroLoadWatts(vars: Vars, load: real, nominal: real)
    requires LoadKey in vars && vars[LoadKey] == Number(load) && load != 0.0
    requires NominalKey in vars && vars[NominalKey] == Number(nominal)
    ensures LoadWatts(vars).Ok?
    ensures LoadWatts(vars).value == Round1(Watts(nominal, load))
    ensures -0.05 <= LoadWatts(vars).value - Watts(nominal, load) <= 0.05
  {
    var x := Watts(nominal, load);
    assert LoadWatts(vars) == Ok(Round1(x));
    Round1Bounds(x);
  }

  /** The keys `read` needs: `ups.load` always, `ups.realpower.nominal`
      only for a non-zero load; a missing one becomes NutError. */
  lemma MissingKeys(a: Agent, vars: Vars, now: Timestamp)
    ensures LoadKey !in vars ==> Reading(a, vars, now) == Err(NutError(KeyFailure))
    ensures LoadKey in vars && vars[LoadKey].Number? && vars[LoadKey].value != 0.0 && NominalKey !in vars ==>
              Reading(a, vars, now) == Err(NutError(KeyFailure))
    ensures Reading(a, vars, now).Err? <==> LoadWatts(vars).Err?
  {
  }

  /** A successful reading is the client's record: its timescale, unit WH,
      source homeflux.nut, the host name as location, the address as the
      only tag, the clock reading as time and the load in watts as value. */
  lemma ReadingRecord(a: Agent, vars: Vars, now: Timestamp)
    requires Reading(a, vars, now).Ok?
    ensures var r := Reading(a, vars, now).value;
      r.PowerRecord? && r.timescale == a.timescale && r.time == now && r.unit == "WH"
      && r.source == "homeflux.nut" && r.location == a.hostName && r.tags == map["ip_address" := a.ipAddress]
      && r.Bucket() == BucketName(a.timescale) && r.Value() == LoadWatts(vars).value
  {
    var r := Reading(a, vars, now).value;
    PowerValueCases(r.rawValue, "WH");
  }

  /** Starting disconnected, a successful read ends disconnected again. */
  lemma ReadRestoresDisconnected(a: Agent, net: Network, now: Timestamp)
    ensures ReadOutcome(a, None, net, now).result.Ok? ==> ReadOutcome(a, None, net, now).client == None
  {
  }

  /** Starting connected, a read leaves the connection as it was. */
  lemma ReadKeepsConnection(a: Agent, s: Session, net: Network, now: Timestamp)
    ensures ReadOutcome(a, Some(s), net, now).client == Some(s)
    ensures ListVars(net, s.address).Ok? ==>
      ReadOutcome(a, Some(s), net, now).result == Reading(a, ListVars(net, s.address).value, now)
    ensures ListVars(net, s.address).Err? ==> ReadOutcome(a, Some(s), net, now).result == Err(PyNutError)
  {
  }

  /** A failed connect stays disconnected and raises NutError; an
      automatic connect followed by a failed listing or a failed reading
      stays connected, the listing's PyNUTError passing through. */
  lemma ReadFailureStates(a: Agent, net: Network, now: Timestamp)
    ensures a.Target() !in net ==>
      ReadOutcome(a, None, net, now) == Outcome(Err(ConnectFailure(a.ipAddress)), None)
    ensures a.Target() in net && net[a.Target()].None? ==>
      ReadOutcome(a, None, net, now) == Outcome(Err(PyNutError), Some(Session(a.Target())))
    ensures a.Target() in net && net[a.Target()].Some? && Reading(a, net[a.Target()].value, now).Err? ==>
      ReadOutcome(a, None, net, now) == Outcome(Reading(a, net[a.Target()].value, now), Some(Session(a.Target())))
  {
  }

  class NutClient {
    const hostName: string
    const ipAddress: string
    const timescale: string
    const port: int
    /** `nut_client` as reads of it see it: the instance attribute once one
        has been assigned, the class attribute None before that. */
    var nutClient: Option<Session>
    /** Whether `nut_client` has been assigned on the instance. Only a
        successful `connect` assigns it; `__init__` does not. */
    var instanceSet: bool

    /** Before any assignment reads see the class attribute None. */
    predicate Valid()
      reads this
    {
      !instanceSet ==> nutClient == None
    }

    /** `NutClient(host_name, ip_address, timescale, port=None)`: not
        connected, the port falling back to the environment's `NUT_PORT`. */
    constructor(hostName: string, ipAddress: string, timescale: string, port: Option<int>, envPort: int)
      ensures this.hostName == hostName && this.ipAddress == ipAddress && this.timescale == timescale
      ensures this.port == (if port.Some? then port.value else envPort)
      ensures nutClient == None && !instanceSet && Valid()
    {
      this.hostName := hostName;
      this.ipAddress := ipAddress;
      this.timescale := timescale;
      this.port := if port.Some? then port.value else envPort;
      nutClient := None;
      instanceSet := false;
    }

    function Config(): Agent
    {
      Agent(hostName, ipAddress, timescale, port)
    }

    /** `connect`: a new session to the configured address; when the
        server refuses, PyNUTError becomes NutError and nothing changes. */
    method Connect(net: Network) returns (r: Result<()>)
      modifies this
      ensures Config().Target() in net ==> r == Ok(()) && nutClient == Some(Session(Config().Target())) && instanceSet
      ensures Config().Target() !in net ==>
        r == Err(ConnectFailure(ipAddress)) && nutClient == old(nutClient) && instanceSet == old(instanceSet)
      ensures old(Valid()) ==> Valid()
    {
      var target := Address(ipAddress, port);
      if target !in net {
        return Err(ConnectFailure(ipAddress));
      }
      nutClient := Some(Session(target));
      instanceSet := true;
      r := Ok(());
    }

    /** `disconnect`: `del self.nut_client`, then `nut_client = None`. The
        `del` raises AttributeError when no instance attribute was ever
        assigned, before the reset runs. */
    method Disconnect() returns (r: Result<()>)
      modifies this
      ensures r == (if old(instanceSet) then Ok(()) else Err(AttributeError))
      ensures instanceSet == old(instanceSet)
      ensures old(instanceSet) ==> nutClient == None
      ensures !old(instanceSet) ==> nutClient == old(nutClient)
      ensures old(Valid()) ==> nutClient == None && Valid()
    {
      if !instanceSet {
        return Err(AttributeError);
      }
      nutClient := None;
      r := Ok(());
    }

    /** The disconnect the docstring promises: forget the session, whatever
        the state, without failing. */
    method SafeDisconnect() returns (r: Result<()>)
      modifies this
      ensures r == Ok(()) && nutClient == None && instanceSet && Valid()
    {
      nutClient := None;
      instanceSet := true;
      r := Ok(());
    }

    /** `read`: one record from the UPS, `now` standing for the clock. The
        disconnect after an automatic connect always finds the instance
        attribute that connect assigned. */
    method Read(net: Network, now: Timestamp) returns (r: Result<Record>)
      modifies this
      ensures Outcome(r, nutClient) == ReadOutcome(Config(), old(nutClient), net, now)
      ensures instanceSet == (old(instanceSet) || (old(nutClient).None? && Config().Target() in net))
      ensures old(Valid()) ==> Valid()
    {
      var dc := false;
      if nutClient.None? {
        var c := Connect(net);
        if c.Err? {
          return Err(c.error);
        }
        dc := true;
      }
      var session := nutClient.value;
      var rawData := ListVars(net, session.address);
      if rawData.Err? {
        return Err(rawData.error);
      }
      r := Reading(Config(), rawData.value, now);
      if r.Err? {
        return;
      }
      if dc {
        var d := Disconnect();
        assert d == Ok(());
      }
    }
  }

  /** A client that never connected cannot be disconnected: the `del`
      finds no instance attribute. */
  method FreshDisconnectFails(hostName: string, ipAddress: string, timescale: string, envPort: int)
    returns (r: Result<()>)
    ensures r == Err(AttributeError)
  {
    var client := new NutClient(hostName, ipAddress, timescale, None, envPort);
    r := client.Disconnect();
  }

  /** The intended disconnect succeeds on that same fresh client. */
  method FreshSafeDisconnect(hostName: string, ipAddress: string, timescale: string, envPort: int)
    returns (r: Result<()>)
    ensures r == Ok(())
  {
    var client := new NutClient(hostName, ipAddress, timescale, None, envPort);
    r := client.SafeDisconnect();
  }
}
