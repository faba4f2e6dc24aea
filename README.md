# socks5-proxy-mipsle: a Dafny model of the proxy dialer

The program is a local SOCKS5 front-end. All outbound traffic, including the
DNS queries of its own resolver, goes through one `ProxyDialer`. This project
models that dialer's address handling and the code around it, and proves
properties of the model:

- **ProxyDialer.Dial / DialUDP** (`dialer.dfy`). The dialer cuts `"host:port"`
  at its last colon. It uses the host as a literal IP, or else looks it up once
  and takes the first address. It replaces the IP by its 4-byte form when it
  has one, and checks the port text with `strconv.Atoi`. Then it asks
  `net.Dialer` to connect to `ip.String() + ":" + port`. Each call's outcome is
  the list of requests it makes (lookups, connects) plus its result:
  `BadAddress`, `LookupError`, `PortError`, or a dial target. For a UDP dial,
  the result also holds the peer `UDPAddr{ip, Atoi(port)}` and the
  `UdpPktConn` bound to that peer.
- **The fixed-peer adapters** (`adapters.dfy`). `UdpPktConn` makes a stream
  look like a packet channel, and `UdpConn` makes a packet channel look like a
  stream. Each adapter call is modelled by the underlying call it forwards and
  the reply it hands back. A session is a sequence of such calls.
- **SSRProxy** (`relay.dfy`): the single-upstream capability set given to the
  SOCKS5 server, and the proxy `main` builds with its 10-second connect
  timeout.
- **Resolver configuration** (`dnsconfig.dfy`). This covers the `--dns` check
  with its order of fatal messages, the choice between the two resolver modes,
  and the `Dial` function each mode installs in `net.Resolver`.
- **Library pieces** (`netip.dfy`, `gostrings.dfy`, `strconv.dfy`). These are
  written out: `IP.To4`, `strings.LastIndex`, and `strconv.Atoi` for a 32-bit
  `int`, which is Go's width on the mipsle target.
- **Abstract pieces.** `net.ParseIP`, `IP.String` and the resolver's
  `LookupIP` are fields of type arrow in the `Env` datatype. They are left
  abstract.

Where the design description and the code differ, the model follows the code:

- A host that is not an IP is looked up *before* the port text is checked. So
  `"example.org:http"` costs one lookup before it is refused
  (`Dialer.NamedHostDial`).
- The port is not checked against 0..65535. Anything `Atoi` accepts is dialed
  as written, e.g. `-1`, `+53`, `65536` or `080` (`StrConv.AtoiNoPortRange`,
  `Dialer.PortTextKept`).
- A bad port returns `Atoi`'s own `*NumError`, not a malformed-address error.
  A lookup error is returned unchanged.
- The code never handles an empty lookup answer; it indexes `ips[0]`. A
  successful `LookupAnswer` therefore holds at least one address by
  construction.

## Model

| member | source | states |
|---|---|---|
| `NetIP.To4` | main.go:85-89 | a result of To4 is always a 4-byte address |
| `NetIP.To4Exactly` | main.go:85-89 | To4 yields V4(a) exactly for V4(a) and for its mapped form ::ffff:a |
| `NetIP.Normalise` | main.go:85-89 | the dialed IP is 4-byte iff To4 has a form for it; otherwise it is the unchanged 16-byte address, which is not a mapped one |
| `NetIP.NormaliseIdempotent` | main.go:123-127 | normalising twice equals normalising once |
| `NetIP.NormaliseMapped` | main.go:85-89 | an IPv4 address and its mapped IPv6 form both become the same 4-byte address |
| `GoStrings.LastIndex` | main.go:65-69 | -1 iff the character is absent; otherwise an index of it with none after it |
| `GoStrings.SplitLastColon` | main.go:65-72 | None iff there is no colon; otherwise host + ":" + port is the input and port has no colon |
| `GoStrings.SplitLastColonJoin` | main.go:104-111 | any host joined by a colon to a colon-free port splits back into exactly that host and port |
| `StrConv.Atoi` | main.go:91-95 | an accepted text is non-empty, starts with a digit or with a sign followed by at least one more character, has only digits after its first character, holds no colon, and reads as an int in [-2^31, 2^31-1]; a rejection names the text |
| `StrConv.AtoiItoa` | main.go:129-133 | Atoi reads back every in-range number written by Itoa |
| `StrConv.AtoiLeadingZero` | main.go:129-140 | a leading zero changes neither acceptance nor the value read |
| `StrConv.AtoiNoPortRange` | main.go:129-133 | "65536", "-1" and "+53" are accepted, as 65536, -1 and 53: no port range is checked |
| `StrConv.AtoiRejectsPastInt` | main.go:129-133 | "2147483648", one past Go's 32-bit int, is rejected |
| `StrConv.AtoiRejectsNonNumbers` | main.go:91-95 | "", "+", "dns" and " 53" are rejected |
| `Dialer.Resolve` | main.go:65-95 | BadAddress iff no colon, with no request; at most one lookup, made iff the host is not an IP; on success the port text is the tail after the last colon, Atoi accepts it, and the IP is normalised |
| `Dialer.ProxyDialer.Dial` | main.go:62-99 | BadAddress iff no colon, with no request; a failure makes no connect; success ends with exactly one connect to ip.String() + ":" + the caller's port text, carrying the dialer's timeout |
| `Dialer.ProxyDialer.DialUDP` | main.go:101-143 | as Dial; on success the returned peer is UDPAddr{ip, Atoi(port)} and the returned UdpPktConn is bound to that same peer |
| `Dialer.ProxyDialer.Addr` | main.go:145-147 | the dialer's address is the empty string |
| `Dialer.LiteralHostDial` | main.go:73-97 | a literal-IP host causes no lookup; its normalised form is dialed, or the Atoi error is returned with no connect |
| `Dialer.NamedHostDial` | main.go:73-97 | a non-IP host causes exactly one lookup, made before the port check; a failed lookup is returned unchanged with no connect; otherwise the first answer is used |
| `Dialer.DialTargetSplits` | main.go:97 | the connect target splits at its last colon into the IP's text and the caller's own port text |
| `Dialer.PortTextKept` | main.go:129-142 | "h:080" and "h:80" dial different texts but yield the same UDP peer |
| `Dialer.DialAndDialUDPAgree` | main.go:62-143 | Dial and DialUDP make the same requests and agree on the failure, the IP and the port text |
| `Adapters.UdpPktConn.ReadFrom` | main.go:49-52 | forwards a stream Read of the same buffer; reports the fixed peer as the source, with the stream's count and error |
| `Adapters.UdpPktConn.WriteTo` | main.go:54-56 | forwards a stream Write of the same bytes, whatever the destination; returns the stream's count and error |
| `Adapters.UdpPktConn.Forward` | main.go:49-56 | ReadFrom becomes a stream Read of the same buffer length and WriteTo a stream Write of the same bytes, independent of any reply |
| `Adapters.UdpPktConn.Step` | main.go:49-56 | the stream call a packet call makes is exactly its Forward, whatever the stream replies |
| `Adapters.UdpPktConn.Forwarded` | main.go:49-56 | a session makes one stream call per packet call, in order |
| `Adapters.UdpPktConn.Replies` | main.go:49-56 | each packet reply comes from the stream's reply to that call |
| `Adapters.UdpConn.RemoteAddr` | main.go:40-42 | the remote address is the fixed peer |
| `Adapters.UdpConn.Read` | main.go:31-34 | forwards ReadFrom of the same buffer and keeps only its count and error |
| `Adapters.UdpConn.Write` | main.go:36-38 | forwards WriteTo of the same bytes to the fixed peer |
| `Adapters.UdpConn.Forward` | main.go:31-38 | Read becomes a ReadFrom of the same buffer length and Write a WriteTo of the same bytes addressed to the fixed peer, independent of any reply |
| `Adapters.UdpConn.Step` | main.go:31-38 | the packet call a stream call makes is exactly its Forward, whatever the packet channel replies |
| `Adapters.UdpConn.Forwarded` | main.go:31-38 | a session makes one packet call per stream call, in order |
| `Adapters.UdpConn.Replies` | main.go:31-38 | each stream reply comes from the packet channel's reply to that call |
| `Adapters.PktSessionReportsPeer` | main.go:49-52 | every read of a session reports the fixed peer |
| `Adapters.PktSessionIgnoresDestinations` | main.go:54-56 | two sessions that differ only in write destinations make the same stream calls and get the same replies |
| `Adapters.ConnSessionTargetsPeer` | main.go:36-42 | every write of a session goes to the fixed peer |
| `Adapters.ConnSessionDropsSources` | main.go:31-34 | the replies of a session do not depend on the sources the packet channel reports |
| `Adapters.BridgesCancel` | main.go:199-202 | a UdpConn over a UdpPktConn passes every stream call and every reply through unchanged |
| `Relay.SSRProxy.Dial` | main.go:153-156 | the ProxyDialer's Dial outcome, reported with that dialer |
| `Relay.SSRProxy.DialUDP` | main.go:158-161 | the ProxyDialer's DialUDP outcome, reported with that dialer |
| `Relay.SSRProxy.NextDialer` | main.go:163-166 | the one configured dialer, whatever the destination |
| `Relay.SingleUpstream` | main.go:145-166 | NextDialer is the same for all destinations, is the dialer Dial and DialUDP report, and has an empty Addr |
| `Relay.StartupConnectsTimeOut` | main.go:188-194 | every connect made by the proxy main builds carries a 10000 ms timeout |
| `DnsConfig.ValidateDns` | main.go:205-221 | "bad dns address" iff no colon; "bad dns ip" iff the host is not an IP; "bad dns port" iff the host is an IP and Atoi rejects the port; accepted otherwise |
| `DnsConfig.IpCheckedBeforePort` | main.go:211-217 | a non-IP host is reported as "bad dns ip" even when the port is bad too |
| `DnsConfig.BadPortAfterGoodIp` | main.go:213-221 | an IP host with a port Atoi rejects is reported as "bad dns port" |
| `DnsConfig.Configure` | main.go:196-230 | an empty --dns selects the requested servers; a non-empty one is fixed iff it passes the check, and is otherwise fatal with exactly the check's message |
| `DnsConfig.ServerAddress` | main.go:196-228 | a resolver dial goes to the fixed --dns value when set, and otherwise to the address the resolver asked for |
| `DnsConfig.ResolverDialAsWritten` | main.go:199-202 | the resolver's Dial as written panics exactly when DialUDP fails before connecting (main.go:227 is the same) |
| `DnsConfig.FailedServerLookupPanics` | main.go:199-202 | a requested server whose host is not an IP and whose lookup fails makes the dial as written panic after exactly that lookup |
| `DnsConfig.BracketedServerPanics` | main.go:199-202 | with "[::1]:53" requested and the lookup of "[::1]" failing, the dial as written panics after that one lookup |
| `DnsConfig.ResolverDial` | main.go:199-202 | the corrected dial never panics, returns DialUDP's requests and failure, and bridges to DialUDP's peer |
| `DnsConfig.ResolverDialAgrees` | main.go:225-228 | the corrected dial equals the one as written whenever the latter does not panic |
| `DnsConfig.FixedServerDialsDirectly` | main.go:223-228 | with a checked --dns value, every resolver dial makes no lookup, makes one connect, and bridges to the configured IP (normalised) and port |

## Findings

| source | as written | input that shows it | evidently intended | confidence | as-written member | corrected member |
|---|---|---|---|---|---|---|
| main.go:199-202 | `addr.(*net.UDPAddr)` is applied to DialUDP's `writeTo` before `err` is checked; DialUDP returns a nil `writeTo` when it fails before connecting, so the assertion panics | resolver in its default mode asked for the server `"[::1]:53"`, Go's bracketed form of an IPv6 server; `"[::1]"` is not an IP, so it is looked up, and when that lookup fails the process panics | return DialUDP's error to the resolver | medium, not executed; depends on Go's resolver passing bracketed IPv6 servers and failing the lookup of a bracketed name | `DnsConfig.ResolverDialAsWritten` | `DnsConfig.ResolverDial` |

## Left out

- `net.ParseIP`, `IP.String` and `net.Resolver.LookupIP` are foreign library code. They are abstract `Env` fields with no internals.
- The connect through `net.Dialer`, its outcome, and its 10-second timeout expiring are not modelled. A connect is an opaque request carrying the network, target text and timeout.
- How `net.Resolver` picks servers, retries, and runs its queries over the `Dial` function it is given is not modelled.
- Logging (`log.Printf`, `fmt.Println`), flag parsing, the help output and the glider SOCKS5 server in `main` are I/O and external library code. `log.Fatalln` is modelled as the `Fatal` verdict.
- `SSRProxy.Record` is an empty no-op. It has nothing to model.
- An empty successful lookup answer is left out. The code would index `ips[0]` of it, and the model's `Found` always holds a first address.
- `StrConv.Atoi`: does not distinguish a syntax error from a range error, because the dialer only checks that there is an error. `int` is fixed at 32 bits; on a 64-bit target `MinInt` and `MaxInt` are the only change.
- Buffer contents and the methods the adapters inherit by embedding (`Close`, `LocalAddr`, deadlines) are left out. A buffer is given by its length, passed on unchanged.
- The `Zone` field of `net.UDPAddr` is always empty here and is not modelled.
- Concurrency between sessions is left out. The dialer has no shared state besides the resolver, which is set once before serving.
