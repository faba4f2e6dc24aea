/**
 * ProxyDialer (main.go:58-147): the address handling of Dial and DialUDP.
 *
 * Both operations cut "host:port" at its last colon, take the host as a
 * literal IP or else as the first answer of one resolver lookup, replace the
 * IP by its 4-byte form when it has one, check the port text with Atoi, and
 * ask the underlying net.Dialer to connect to ip.String() + ":" + port. The
 * outcome of a call is the list of requests it makes of the outside world
 * (lookups and connects) together with its result; the connect itself is an
 * opaque request whose own success or failure is the net.Dialer's.
 */
module Dialer {
  import opened Wrappers
  import opened NetIP
  import opened GoStrings
  import opened StrConv
  import Adapters

  datatype LookupErr = LookupErr(message: string)

  /** The answer of r.LookupIP: a successful answer holds at least one address. */
  datatype LookupAnswer = Found(first: IP, rest: seq<IP>) | LookupFailed(err: LookupErr)

  /**
   * The library code and the process-wide resolver the dialer consults:
   * net.ParseIP, IP.String, and r.LookupIP(ctx, network, host).
   */
  datatype Env = Env(
    parseIP: string -> Option<IP>,
    ipString: IP -> string,
    lookupIP: (string, string) -> LookupAnswer)

  /** The network argument the dialer passes to every lookup. */
  const LookupNetwork := "ip"

  /** The text of the error returned for an address without a colon. */
  const BadAddressMessage := "bad address"

  /** A request made of the outside world: a resolver lookup, or a connect through net.Dialer. */
  datatype Call =
    | Lookup(network: string, host: string)
    | Connect(network: string, target: string, timeoutMs: int)

  predicate NoLookup(calls: seq<Call>) {
    forall i :: 0 <= i < |calls| ==> !calls[i].Lookup?
  }

  predicate NoConnect(calls: seq<Call>) {
    forall i :: 0 <= i < |calls| ==> !calls[i].Connect?
  }

  /** The errors Dial and DialUDP return before connecting. */
  datatype Failure =
    | BadAddress
    | LookupError(err: LookupErr)
    | PortError(num: string)

  /** The dial target: the normalised IP, the port text as given, and Atoi's value of it. */
  datatype Endpoint = Endpoint(ip: IP, portText: string, port: int)

  datatype Resolution = Resolution(calls: seq<Call>, result: Result<Endpoint, Failure>)

  /** The IP of a host: the literal IP, or the first address of one lookup (main.go:73-83). */
  function HostIP(host: string, env: Env): (seq<Call>, Result<IP, Failure>) {
    match env.parseIP(host)
    case Some(ip) => ([], Ok(ip))
    case None =>
      match env.lookupIP(LookupNetwork, host)
      case LookupFailed(e) => ([Lookup(LookupNetwork, host)], Err(LookupError(e)))
      case Found(first, _) => ([Lookup(LookupNetwork, host)], Ok(first))
  }

  /** The address handling Dial and DialUDP share (main.go:65-95, main.go:104-133). */
  function Resolve(addr: string, env: Env): (r: Resolution)
    ensures r.result == Err(BadAddress) <==> ':' !in addr
    ensures ':' !in addr ==> r.calls == []
    ensures |r.calls| <= 1 && NoConnect(r.calls)
    ensures ':' in addr ==>
              (r.calls == [] <==> env.parseIP(SplitLastColon(addr).value.host).Some?)
    ensures r.result.Ok? ==>
              var hp := SplitLastColon(addr).value;
              && r.result.value.portText == hp.port
              && Atoi(hp.port) == Int(r.result.value.port)
              && Normalise(r.result.value.ip) == r.result.value.ip
  {
    match SplitLastColon(addr)
    case None => Resolution([], Err(BadAddress))
    case Some(hp) =>
      var (calls, found) := HostIP(hp.host, env);
      match found
      case Err(f) => Resolution(calls, Err(f))
      case Ok(ip) =>
        match Atoi(hp.port)
        case NumError(num) => Resolution(calls, Err(PortError(num)))
        case Int(n) => Resolution(calls, Ok(Endpoint(Normalise(ip), hp.port, n)))
  }

  /** The text handed to net.Dialer.Dial: `fmt.Sprintf("%s:%s", ip.String(), port)`. */
  function TargetText(env: Env, ip: IP, portText: string): string {
    env.ipString(ip) + ":" + portText
  }

  datatype DialResult = DialFailed(failure: Failure) | DialTarget(ip: IP, portText: string)

  datatype DialOutcome = DialOutcome(calls: seq<Call>, result: DialResult)

  datatype UdpDialResult =
    | UdpFailed(failure: Failure)
    | UdpTarget(ip: IP, portText: string, conn: Adapters.UdpPktConn, writeTo: UDPAddr)

  datatype UdpDialOutcome = UdpDialOutcome(calls: seq<Call>, result: UdpDialResult)

  /** A ProxyDialer; its net.Dialer is given by the connect timeout it uses. */
  datatype ProxyDialer = ProxyDialer(timeoutMs: int) {

    /** Dial (main.go:62-99). */
    function Dial(network: string, addr: string, env: Env): (o: DialOutcome)
      ensures o.result == DialFailed(BadAddress) <==> ':' !in addr
      ensures ':' !in addr ==> o.calls == []
      ensures o.result.DialFailed? ==> NoConnect(o.calls) && |o.calls| <= 1
      ensures o.result.DialTarget? ==>
                && |o.calls| >= 1 && NoConnect(o.calls[..|o.calls| - 1])
                && o.calls[|o.calls| - 1]
                   == Connect(network, TargetText(env, o.result.ip, o.result.portText), timeoutMs)
                && o.result.portText == SplitLastColon(addr).value.port
                && Atoi(o.result.portText).Int?
    {
      var r := Resolve(addr, env);
      match r.result
      case Err(f) => DialOutcome(r.calls, DialFailed(f))
      case Ok(e) =>
        assert (r.calls + [Connect(network, TargetText(env, e.ip, e.portText), timeoutMs)])[..|r.calls|] == r.calls;
        DialOutcome(r.calls + [Connect(network, TargetText(env, e.ip, e.portText), timeoutMs)],
                    DialTarget(e.ip, e.portText))
    }

    /**
     * DialUDP (main.go:101-143): Dial's address handling; on reaching the
     * connect it returns the stream wrapped as a UdpPktConn bound to the
     * peer UDPAddr{ip, Atoi(port)}, and that same peer, whatever the connect's
     * own outcome.
     */
    function DialUDP(network: string, addr: string, env: Env): (o: UdpDialOutcome)
      ensures o.result == UdpFailed(BadAddress) <==> ':' !in addr
      ensures ':' !in addr ==> o.calls == []
      ensures o.result.UdpFailed? ==> NoConnect(o.calls) && |o.calls| <= 1
      ensures o.result.UdpTarget? ==>
                && |o.calls| >= 1 && NoConnect(o.calls[..|o.calls| - 1])
                && o.calls[|o.calls| - 1]
                   == Connect(network, TargetText(env, o.result.ip, o.result.portText), timeoutMs)
                && o.result.portText == SplitLastColon(addr).value.port
                && Atoi(o.result.portText) == Int(o.result.writeTo.port)
                && o.result.writeTo.ip == o.result.ip
                && o.result.conn.addr == o.result.writeTo
    {
      var r := Resolve(addr, env);
      match r.result
      case Err(f) => UdpDialOutcome(r.calls, UdpFailed(f))
      case Ok(e) =>
        var peer := UDPAddr(e.ip, e.port);
        assert (r.calls + [Connect(network, TargetText(env, e.ip, e.portText), timeoutMs)])[..|r.calls|] == r.calls;
        UdpDialOutcome(r.calls + [Connect(network, TargetText(env, e.ip, e.portText), timeoutMs)],
                       UdpTarget(e.ip, e.portText, Adapters.UdpPktConn(peer), peer))
    }

    /** Addr (main.go:145-147): the dialer has no address of its own. */
    function Addr(): (a: string)
      ensures |a| == 0
    {
      ""
    }
  }

  /** The outcome Dial has for "host:port" when host is a literal IP: no lookup. */
  function LiteralOutcome(p: ProxyDialer, network: string, env: Env, calls: seq<Call>, ip: IP, port: string): DialOutcome {
    match Atoi(port)
    case NumError(num) => DialOutcome(calls, DialFailed(PortError(num)))
    case Int(_) =>
      DialOutcome(calls + [Connect(network, TargetText(env, Normalise(ip), port), p.timeoutMs)],
                  DialTarget(Normalise(ip), port))
  }

  /**
   * A host that parses as an IP is used directly: no lookup is made, the
   * 4-byte form of the IP is dialed when it has one, and a port text Atoi
   * rejects ends the call with no connect.
   */
  lemma LiteralHostDial(p: ProxyDialer, network: string, host: string, port: string, env: Env)
    requires ':' !in port && env.parseIP(host).Some?
    ensures p.Dial(network, host + ":" + port, env)
            == LiteralOutcome(p, network, env, [], env.parseIP(host).value, port)
  {
    SplitLastColonJoin(host, port);
  }

  /**
   * A host that is not an IP costs exactly one lookup, made before the port
   * is looked at. A failed lookup is returned unchanged with no connect,
   * whatever the port; a successful one supplies its first address.
   */
  lemma NamedHostDial(p: ProxyDialer, network: string, host: string, port: string, env: Env)
    requires ':' !in port && env.parseIP(host).None?
    ensures var o := p.Dial(network, host + ":" + port, env);
            match env.lookupIP(LookupNetwork, host)
            case LookupFailed(e) =>
              o == DialOutcome([Lookup(LookupNetwork, host)], DialFailed(LookupError(e)))
            case Found(first, _) =>
              o == LiteralOutcome(p, network, env, [Lookup(LookupNetwork, host)], first, port)
  {
    SplitLastColonJoin(host, port);
  }

  /** The connect target always splits back into the IP's text and the caller's own port text. */
  lemma DialTargetSplits(p: ProxyDialer, network: string, addr: string, env: Env)
    requires p.Dial(network, addr, env).result.DialTarget?
    ensures var o := p.Dial(network, addr, env);
            SplitLastColon(o.calls[|o.calls| - 1].target)
            == Some(HostPort(env.ipString(o.result.ip), SplitLastColon(addr).value.port))
  {
    var o := p.Dial(network, addr, env);
    SplitLastColonJoin(env.ipString(o.result.ip), o.result.portText);
  }

  /**
   * The caller's port text is dialed as written, not re-rendered from its
   * number: "h:080" and "h:80" connect to different texts but bind the same
   * UDP peer.
   */
  lemma PortTextKept(p: ProxyDialer, network: string, host: string, digits: string, env: Env)
    requires |digits| > 0 && AllDigits(digits) && Atoi(digits).Int?
    requires env.parseIP(host).Some? || env.lookupIP(LookupNetwork, host).Found?
    ensures var a := p.DialUDP(network, host + ":" + digits, env);
            var b := p.DialUDP(network, host + ":" + ("0" + digits), env);
            && a.result.UdpTarget? && b.result.UdpTarget?
            && b.result.writeTo == a.result.writeTo
            && b.result.portText == "0" + digits
            && a.result.portText == digits
  {
    AtoiLeadingZero(digits);
    SplitLastColonJoin(host, digits);
    SplitLastColonJoin(host, "0" + digits);
    var a := Resolve(host + ":" + digits, env);
    var b := Resolve(host + ":" + ("0" + digits), env);
    assert HostIP(host, env).1.Ok? ==> b.result == Ok(Endpoint(Normalise(HostIP(host, env).1.value), "0" + digits, Atoi(digits).value));
  }

  /** Dial and DialUDP make the same requests and agree on the failure or on the target. */
  lemma DialAndDialUDPAgree(p: ProxyDialer, network: string, addr: string, env: Env)
    ensures var d := p.Dial(network, addr, env);
            var u := p.DialUDP(network, addr, env);
            && d.calls == u.calls
            && (d.result.DialFailed? <==> u.result.UdpFailed?)
            && (d.result.DialFailed? ==> d.result.failure == u.result.failure)
            && (d.result.DialTarget? ==> d.result.ip == u.result.ip && d.result.portText == u.result.portText)
  {
  }
}
