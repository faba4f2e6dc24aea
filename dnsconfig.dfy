/**
 * The resolver configuration main sets up before serving (main.go:196-230):
 * the `--dns` check, the two resolver modes, and the Dial function each mode
 * installs in the net.Resolver.
 */
module DnsConfig {
  import opened Wrappers
  import opened NetIP
  import opened GoStrings
  import opened StrConv
  import opened Dialer
  import Adapters

  const BadDnsAddressMessage := "bad dns address"
  const BadDnsIpMessage := "bad dns ip"
  const BadDnsPortMessage := "bad dns port"

  /** The verdict of the `--dns` check: a fatal log message, or acceptance. */
  datatype DnsVerdict = Fatal(message: string) | DnsAccepted

  /**
   * main.go:205-221: a colon is needed; then the host must be an IP; then the
   * port text must pass Atoi. Atoi runs first, but its verdict is looked at
   * only after the host's.
   */
  function ValidateDns(dns: string, parseIP: string -> Option<IP>): (v: DnsVerdict)
    ensures v == Fatal(BadDnsAddressMessage) <==> ':' !in dns
    ensures v == Fatal(BadDnsIpMessage) <==>
              ':' in dns && parseIP(SplitLastColon(dns).value.host).None?
    ensures v == Fatal(BadDnsPortMessage) <==>
              && ':' in dns && parseIP(SplitLastColon(dns).value.host).Some?
              && Atoi(SplitLastColon(dns).value.port).NumError?
    ensures v == DnsAccepted <==>
              && ':' in dns && parseIP(SplitLastColon(dns).value.host).Some?
              && Atoi(SplitLastColon(dns).value.port).Int?
  {
    match SplitLastColon(dns)
    case None => Fatal(BadDnsAddressMessage)
    case Some(HostPort(dnsAddr, dp)) =>
      var port := Atoi(dp);
      if parseIP(dnsAddr).None? then Fatal(BadDnsIpMessage)
      else if port.NumError? then Fatal(BadDnsPortMessage)
      else DnsAccepted
  }

  /** A host that is not an IP is reported as such, whatever the port: "example.com:dns" is a bad ip. */
  lemma IpCheckedBeforePort(host: string, port: string, parseIP: string -> Option<IP>)
    requires ':' !in port && parseIP(host).None?
    ensures ValidateDns(host + ":" + port, parseIP) == Fatal(BadDnsIpMessage)
  {
    SplitLastColonJoin(host, port);
  }

  /** An IP host with a port Atoi rejects is a bad port: "8.8.8.8:dns". */
  lemma BadPortAfterGoodIp(host: string, port: string, parseIP: string -> Option<IP>)
    requires ':' !in port && parseIP(host).Some? && Atoi(port).NumError?
    ensures ValidateDns(host + ":" + port, parseIP) == Fatal(BadDnsPortMessage)
  {
    SplitLastColonJoin(host, port);
  }

  /** How the resolver reaches DNS servers, or the fatal message that stops start-up. */
  datatype ResolverConfig =
    | ViaRequestedServer
    | ViaFixedServer(dns: string)
    | StartupFailure(message: string)

  /** main.go:196-230: no `--dns` uses the servers the resolver asks for; a `--dns` value is checked and then always used. */
  function Configure(dns: string, parseIP: string -> Option<IP>): (c: ResolverConfig)
    ensures dns == "" <==> c == ViaRequestedServer
    ensures c.ViaFixedServer? ==> c.dns == dns && ValidateDns(dns, parseIP) == DnsAccepted
    ensures c.StartupFailure? <==> dns != "" && ValidateDns(dns, parseIP).Fatal?
    ensures c.StartupFailure? ==> ValidateDns(dns, parseIP) == Fatal(c.message)
  {
    if dns == "" then ViaRequestedServer
    else
      match ValidateDns(dns, parseIP)
      case Fatal(m) => StartupFailure(m)
      case DnsAccepted => ViaFixedServer(dns)
  }

  /** The address a resolver dial asks DialUDP for (main.go:200, main.go:226). */
  function ServerAddress(c: ResolverConfig, requested: string): (a: string)
    requires !c.StartupFailure?
    ensures c.ViaFixedServer? ==> a == c.dns
    ensures c.ViaRequestedServer? ==> a == requested
  {
    if c.ViaFixedServer? then c.dns else requested
  }

  /** What a resolver dial hands back to net.Resolver. */
  datatype ResolverDialResult =
    | Bridged(calls: seq<Call>, conn: Adapters.UdpConn, pkt: Adapters.UdpPktConn)
    | ResolverFailed(calls: seq<Call>, failure: Failure)
    | Panicked(calls: seq<Call>)

  /**
   * The Dial function as written (main.go:199-202, main.go:225-228): it
   * asserts DialUDP's writeTo to be a *net.UDPAddr before looking at the
   * error, and DialUDP returns a nil writeTo when it fails before connecting,
   * so that assertion panics.
   */
  function ResolverDialAsWritten(p: ProxyDialer, c: ResolverConfig, network: string, requested: string, env: Env): (r: ResolverDialResult)
    requires !c.StartupFailure?
    ensures !r.ResolverFailed?
    ensures r.Panicked? <==> p.DialUDP(network, ServerAddress(c, requested), env).result.UdpFailed?
  {
    var o := p.DialUDP(network, ServerAddress(c, requested), env);
    match o.result
    case UdpFailed(_) => Panicked(o.calls)
    case UdpTarget(_, _, pkt, peer) => Bridged(o.calls, Adapters.UdpConn(peer), pkt)
  }

  /** A server host that is no IP and whose lookup fails makes the Dial as written panic after that one lookup. */
  lemma FailedServerLookupPanics(p: ProxyDialer, network: string, host: string, port: string, env: Env)
    requires ':' !in port && env.parseIP(host).None?
    requires env.lookupIP(LookupNetwork, host).LookupFailed?
    ensures ResolverDialAsWritten(p, ViaRequestedServer, network, host + ":" + port, env)
            == Panicked([Lookup(LookupNetwork, host)])
  {
    SplitLastColonJoin(host, port);
  }

  /**
   * Go's resolver asks for an IPv6 server as "[addr]:53". The bracketed host
   * is no IP, so DialUDP looks it up; when that lookup fails, the Dial as
   * written panics instead of returning the error.
   */
  lemma BracketedServerPanics(p: ProxyDialer, env: Env)
    requires env.parseIP("[::1]").None?
    requires env.lookupIP(LookupNetwork, "[::1]").LookupFailed?
    ensures ResolverDialAsWritten(p, ViaRequestedServer, "udp", "[::1]:53", env)
            == Panicked([Lookup(LookupNetwork, "[::1]")])
  {
    assert "[::1]:53" == "[::1]" + ":" + "53";
    FailedServerLookupPanics(p, "udp", "[::1]", "53", env);
  }

  /** The Dial function as intended: DialUDP's failure is returned, not asserted away. */
  function ResolverDial(p: ProxyDialer, c: ResolverConfig, network: string, requested: string, env: Env): (r: ResolverDialResult)
    requires !c.StartupFailure?
    ensures !r.Panicked?
    ensures var o := p.DialUDP(network, ServerAddress(c, requested), env);
            && r.calls == o.calls
            && (r.ResolverFailed? <==> o.result.UdpFailed?)
            && (r.ResolverFailed? ==> r.failure == o.result.failure)
            && (r.Bridged? ==> r.conn.addr == o.result.writeTo && r.pkt == o.result.conn)
  {
    var o := p.DialUDP(network, ServerAddress(c, requested), env);
    match o.result
    case UdpFailed(f) => ResolverFailed(o.calls, f)
    case UdpTarget(_, _, pkt, peer) => Bridged(o.calls, Adapters.UdpConn(peer), pkt)
  }

  /** The intended Dial agrees with the one as written whenever the latter does not panic. */
  lemma ResolverDialAgrees(p: ProxyDialer, c: ResolverConfig, network: string, requested: string, env: Env)
    requires !c.StartupFailure?
    requires !ResolverDialAsWritten(p, c, network, requested, env).Panicked?
    ensures ResolverDial(p, c, network, requested, env) == ResolverDialAsWritten(p, c, network, requested, env)
  {
  }

  /**
   * With a `--dns` value that passed the start-up check, every resolver dial
   * goes to that one server, makes no lookup of its own (so resolution never
   * re-enters the resolver), connects, and bridges to the server's address.
   */
  lemma FixedServerDialsDirectly(p: ProxyDialer, dns: string, network: string, requested: string, env: Env)
    requires Configure(dns, env.parseIP).ViaFixedServer?
    ensures var r := ResolverDial(p, Configure(dns, env.parseIP), network, requested, env);
            && r.Bridged? && NoLookup(r.calls) && |r.calls| == 1
            && r.calls[0].Connect? && r.calls[0].network == network
            && r.conn.addr.ip == Normalise(env.parseIP(SplitLastColon(dns).value.host).value)
            && Int(r.conn.addr.port) == Atoi(SplitLastColon(dns).value.port)
  {
    var hp := SplitLastColon(dns).value;
    var ip := env.parseIP(hp.host).value;
    assert HostIP(hp.host, env) == ([], Ok(ip));
    assert Resolve(dns, env) == Resolution([], Ok(Endpoint(Normalise(ip), hp.port, Atoi(hp.port).value)));
  }
}
