/**
 * The compute-node listener: it records when each node starts launching, and when the
 * node comes online it sends the bootstrap time, in seconds, as a `bootstrap` gauge
 * through a StatsD client that it creates on first use from the `host:port` daemon
 * address. The clock, the configured hostname and daemon address, and whether the
 * StatsD library manages to open its socket are parameters.
 */
module ComputerListener {
  import opened Wrappers
  import opened JavaLong
  import opened JavaString
  import opened Metrics

  /** The metric-name prefix every handle of this listener is created with. */
  const AgentPrefix := "jenkins.agent"

  /** The StatsD daemon's address as read from the configured `host:port` string. */
  datatype Address = Address(host: string, port: int)

  /**
   * `daemonHost.split(":")[0]` and `Integer.parseInt(daemonHost.split(":")[1])`;
   * `None` wherever Java throws instead: a null string, fewer than two pieces,
   * or a port that is not an `int` numeral.
   */
  function ParseAddress(daemonHost: Option<string>): (r: Option<Address>)
    ensures r.Some? ==> daemonHost.Some? && ':' in daemonHost.value
    ensures r.Some? ==> IsInt(r.value.port) && ':' !in r.value.host
  {
    match daemonHost
    case None => None
    case Some(s) =>
      var parts := Split(s, ':');
      if |parts| < 2 then None
      else
        match ParseInt(parts[1])
        case None => None
        case Some(port) =>
          assert parts[0] == Fields(s, ':')[0];
          Some(Address(parts[0], port))
  }

  /**
   * The outcome of the address parse, stated without `split`: the host is the text
   * before the first colon and the port is the text from there up to the next colon
   * or the end. Dropping trailing empty pieces never changes what the parse gives.
   */
  lemma ParseAddressCharacterized(s: string)
    ensures ':' !in s ==> ParseAddress(Some(s)) == None
    ensures ':' in s ==>
      var i := IndexOf(s, ':');
      ParseAddress(Some(s)) ==
        match ParseInt(Fields(s[i + 1..], ':')[0])
        case None => None
        case Some(port) => Some(Address(s[..i], port))
  {
    if ':' in s {
      var i := IndexOf(s, ':');
      var fields := Fields(s, ':');
      FieldsAtFirstSep(s, ':');
      var portText := Fields(s[i + 1..], ':')[0];
      assert fields[1] == portText;
      if portText != "" {
        SplitKeepsNonEmpty(s, ':', 1);
      } else {
        var parts := Split(s, ':');
        if |parts| >= 2 {
          assert parts[1] == fields[1];
        }
      }
    }
  }

  /** The daemon address text `host:port`. */
  function AddressText(host: string, port: string): string
  {
    host + ":" + port
  }

  /** Splitting `host:port` at its first colon gives back the host and the port text. */
  lemma AddressTextParts(host: string, port: string)
    requires ':' !in host
    ensures var s := AddressText(host, port);
      ':' in s && s[..IndexOf(s, ':')] == host && s[IndexOf(s, ':') + 1..] == port
  {
    var s := AddressText(host, port);
    assert s == host + [':'] + port;
    IndexOfAfterPrefix(host, ':', port);
    assert s[..|host|] == host && s[|host| + 1..] == port;
  }

  /** `host:port` with an `int` port is read back as that host and port. */
  lemma ParseAddressRoundTrip(host: string, port: int)
    requires ':' !in host && IsInt(port)
    ensures ParseAddress(Some(AddressText(host, Decimal(port)))) == Some(Address(host, port))
  {
    var s := AddressText(host, Decimal(port));
    AddressTextParts(host, Decimal(port));
    ParseAddressCharacterized(s);
    NoColonInDecimal(port);
    FieldsWithoutSep(Decimal(port), ':');
    ParseIntOfDecimal(port);
  }

  /** An address with an empty port, such as `localhost:`, is refused. */
  lemma ParseAddressEmptyPort(host: string)
    requires ':' !in host
    ensures ParseAddress(Some(host + ":")) == None
  {
    var s := host + ":";
    assert s == AddressText(host, "");
    AddressTextParts(host, "");
    ParseAddressCharacterized(s);
  }

  /** An address whose port piece is not an `int` numeral is refused. */
  lemma ParseAddressBadPort(host: string, port: string)
    requires ':' !in host && ':' !in port && ParseInt(port) == None
    ensures ParseAddress(Some(AddressText(host, port))) == None
  {
    var s := AddressText(host, port);
    AddressTextParts(host, port);
    ParseAddressCharacterized(s);
    FieldsWithoutSep(port, ':');
  }

  /**
   * `new NonBlockingStatsDClient("jenkins.agent", host, port)` from the configured address:
   * the arguments are evaluated first, so a malformed address throws before the library
   * is called; `transportOk` says whether the library's constructor returns.
   */
  function NewClient(daemonHost: Option<string>, transportOk: bool): (r: Option<Handle>)
    ensures r.Some? ==> transportOk && r.value.prefix == AgentPrefix
    ensures r.Some? ==> ParseAddress(daemonHost) == Some(Address(r.value.host, r.value.port))
    ensures r.None? ==> !transportOk || ParseAddress(daemonHost).None?
  {
    match ParseAddress(daemonHost)
    case None => None
    case Some(a) => if transportOk then Some(Handle(AgentPrefix, a.host, a.port)) else None
  }

  /** The client field after a lease: kept when set, otherwise a new client or still null. */
  function Leased(current: Option<Handle>, daemonHost: Option<string>, transportOk: bool): (r: Option<Handle>)
    ensures current.Some? ==> r == current
  {
    if current.Some? then current else NewClient(daemonHost, transportOk)
  }

  /** A port the library's socket address accepts. */
  predicate IsPort(port: int) { 0 <= port <= 65535 }

  /** A well-formed address and a working transport give the handle for that host and port. */
  lemma LeaseFromAddress(host: string, port: int)
    requires ':' !in host && IsPort(port)
    ensures Leased(None, Some(AddressText(host, Decimal(port))), true) == Some(Handle(AgentPrefix, host, port))
  {
    ParseAddressRoundTrip(host, port);
  }

  /** The `bootstrap` gauge: whole seconds from launch to online, tagged with the hostname. */
  function BootstrapGauge(start: Millis, end: Millis, hostname: Option<string>): (g: StatsdCall)
    ensures g.Gauge? && g.aspect == "bootstrap" && IsLong(g.value)
    ensures end >= start ==> g.value >= 0 && g.value * 1000 <= end - start < g.value * 1000 + 1000
    ensures end < start ==> g.value <= 0 && g.value * 1000 - 1000 < end - start <= g.value * 1000
    ensures g.tags == [Tag("host", ValueOf(hostname))]
  {
    Gauge("bootstrap", Seconds(end - start), [Tag("host", ValueOf(hostname))])
  }

  /** The single tag of the gauge names the configured host, or `null` when there is none. */
  lemma BootstrapTagNamesHost(start: Millis, end: Millis, hostname: Option<string>)
    ensures TagParts(BootstrapGauge(start, end, hostname).tags[0]) == Some(("host", ValueOf(hostname)))
  {
    TagRoundTrip("host", ValueOf(hostname));
  }

  /** One datagram: the call and the client handle it went through. */
  datatype Sent = Sent(via: Handle, call: StatsdCall)

  /** How `onOnline` ends: it returns, or the `NullPointerException` of a null client escapes. */
  datatype Outcome = Returned | NullPointerThrown

  class DatadogComputerListener {
    /** Launch start per node name. */
    var computers: map<string, Millis>
    /** The StatsD client, null until a lease succeeds. */
    var client: Option<Handle>
    /** Every call sent through the StatsD client, oldest first. */
    var sent: seq<Sent>

    /** Everything sent went through the one client the listener holds now. */
    ghost predicate Valid()
      reads this
    {
      forall i :: 0 <= i < |sent| ==> client == Some(sent[i].via)
    }

    /** Whatever this listener has sent, it sent through one and the same StatsD handle. */
    lemma AllSentThroughOneHandle()
      requires Valid()
      ensures forall i, j | 0 <= i < |sent| && 0 <= j < |sent| :: sent[i].via == sent[j].via
      ensures |sent| > 0 ==> client == Some(sent[0].via)
    {
    }

    constructor ()
      ensures Valid()
      ensures computers == map[] && client == None && sent == []
    {
      computers := map[];
      client := None;
      sent := [];
    }

    /** Records `now` as the launch start of `name`, replacing an earlier one. */
    method PreLaunch(name: string, now: Millis)
      requires Valid()
      modifies this
      ensures Valid()
      ensures computers == old(computers)[name := now]
      ensures client == old(client) && sent == old(sent)
    {
      computers := computers[name := now];
    }

    /**
     * Creates the client if there is none yet and returns the field. A failure to create
     * it is swallowed: the field and the result stay null, and a later lease tries again.
     */
    method LeaseStatsDClient(daemonHost: Option<string>, transportOk: bool) returns (r: Option<Handle>)
      requires Valid()
      modifies this
      ensures Valid()
      ensures client == Leased(old(client), daemonHost, transportOk) && r == client
      ensures computers == old(computers) && sent == old(sent)
    {
      if client.None? {
        client := NewClient(daemonHost, transportOk);
      }
      r := client;
    }

    /**
     * When `name` has a launch start, leases the client and sends the bootstrap gauge
     * through it; with a null client the gauge call throws. The start entry stays.
     */
    method OnOnline(name: string, now: Millis, hostname: Option<string>,
                    daemonHost: Option<string>, transportOk: bool)
      returns (outcome: Outcome)
      requires Valid()
      modifies this
      ensures Valid()
      ensures computers == old(computers)
      ensures name !in computers ==>
        outcome == Returned && client == old(client) && sent == old(sent)
      ensures name in computers ==> client == Leased(old(client), daemonHost, transportOk)
      ensures name in computers && client.None? ==>
        outcome == NullPointerThrown && sent == old(sent)
      ensures name in computers && client.Some? ==>
        outcome == Returned &&
        sent == old(sent) + [Sent(client.value, BootstrapGauge(computers[name], now, hostname))]
    {
      outcome := Returned;
      if name in computers {
        var start := computers[name];
        var statsd := LeaseStatsDClient(daemonHost, transportOk);
        match statsd
        case None =>
          outcome := NullPointerThrown;
        case Some(h) =>
          sent := sent + [Sent(h, BootstrapGauge(start, now, hostname))];
      }
    }
  }

  /**
   * A node launched once and reported online twice is measured twice from the same
   * start, through the same client, even if the daemon address changed in between.
   */
  method RepeatedOnline(name: string, launched: Millis, first: Millis, second: Millis,
                        hostname: Option<string>, address: string, laterAddress: Option<string>)
    returns (log: seq<Sent>)
    requires ParseAddress(Some(address)).Some?
    ensures |log| == 2 && log[0].via == log[1].via
    ensures log[0].via == Handle(AgentPrefix, ParseAddress(Some(address)).value.host,
                                 ParseAddress(Some(address)).value.port)
    ensures log[0].call == BootstrapGauge(launched, first, hostname)
    ensures log[1].call == BootstrapGauge(launched, second, hostname)
  {
    var listener := new DatadogComputerListener();
    listener.PreLaunch(name, launched);
    var o1 := listener.OnOnline(name, first, hostname, Some(address), true);
    var o2 := listener.OnOnline(name, second, hostname, laterAddress, false);
    log := listener.sent;
    listener.AllSentThroughOneHandle();
  }

  /** A later launch of the same node replaces its start; the gauge measures from the latest. */
  method RelaunchRestartsClock(name: string, launched: Millis, relaunched: Millis, online: Millis,
                               hostname: Option<string>, address: string)
    returns (log: seq<Sent>)
    requires ParseAddress(Some(address)).Some?
    ensures |log| == 1 && log[0].call == BootstrapGauge(relaunched, online, hostname)
  {
    var listener := new DatadogComputerListener();
    listener.PreLaunch(name, launched);
    listener.PreLaunch(name, relaunched);
    var o := listener.OnOnline(name, online, hostname, Some(address), true);
    log := listener.sent;
  }

  /** A node that comes online without a recorded launch sends nothing and leases nothing. */
  method OnlineWithoutLaunch(launchedName: string, onlineName: string, launched: Millis, online: Millis,
                             hostname: Option<string>, daemonHost: Option<string>, transportOk: bool)
    returns (outcome: Outcome, client: Option<Handle>, log: seq<Sent>)
    requires launchedName != onlineName
    ensures outcome == Returned && client == None && log == []
  {
    var listener := new DatadogComputerListener();
    listener.PreLaunch(launchedName, launched);
    outcome := listener.OnOnline(onlineName, online, hostname, daemonHost, transportOk);
    client, log := listener.client, listener.sent;
  }

  /**
   * With a malformed daemon address the lease yields null and `onOnline` throws a
   * `NullPointerException` out of the gauge call; nothing is sent.
   */
  method OnlineWithMalformedAddress(name: string, launched: Millis, online: Millis,
                                    hostname: Option<string>, daemonHost: Option<string>)
    returns (outcome: Outcome, log: seq<Sent>)
    requires ParseAddress(daemonHost).None?
    ensures outcome == NullPointerThrown && log == []
  {
    var listener := new DatadogComputerListener();
    listener.PreLaunch(name, launched);
    outcome := listener.OnOnline(name, online, hostname, daemonHost, true);
    log := listener.sent;
  }

  /**
   * A failed lease leaves the field null and a later lease retries: after a malformed
   * address, a well-formed one yields the client for its host and port.
   */
  method LeaseRetriesAfterFailure(bad: Option<string>, host: string, port: int)
    returns (first: Option<Handle>, second: Option<Handle>)
    requires ParseAddress(bad).None?
    requires ':' !in host && IsPort(port)
    ensures first == None
    ensures second == Some(Handle(AgentPrefix, host, port))
  {
    var listener := new DatadogComputerListener();
    first := listener.LeaseStatsDClient(bad, true);
    LeaseFromAddress(host, port);
    second := listener.LeaseStatsDClient(Some(AddressText(host, Decimal(port))), true);
  }

  /** Once set, the client is never replaced: every later lease returns the first handle. */
  method LeaseKeepsFirstClient(address: string, laterAddress: Option<string>, laterTransportOk: bool)
    returns (first: Option<Handle>, second: Option<Handle>)
    requires ParseAddress(Some(address)).Some?
    ensures first.Some? && second == first
  {
    var listener := new DatadogComputerListener();
    first := listener.LeaseStatsDClient(Some(address), true);
    second := listener.LeaseStatsDClient(laterAddress, laterTransportOk);
  }
}
