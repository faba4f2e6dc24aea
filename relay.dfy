/**
 * SSRProxy (main.go:149-166): the dialer capability set the SOCKS5 server is
 * given, over a single ProxyDialer; and the proxy main builds (main.go:188-194).
 */
module Relay {
  import opened Dialer

  datatype SSRProxy = SSRProxy(dialer: ProxyDialer) {

    /** Dial (main.go:153-156): the ProxyDialer's Dial, reporting that dialer as the one used. */
    function Dial(network: string, addr: string, env: Env): (r: (DialOutcome, ProxyDialer))
      ensures r.0 == dialer.Dial(network, addr, env) && r.1 == dialer
    {
      (dialer.Dial(network, addr, env), dialer)
    }

    /** DialUDP (main.go:158-161): the ProxyDialer's DialUDP, reporting that dialer as the one used. */
    function DialUDP(network: string, addr: string, env: Env): (r: (UdpDialOutcome, ProxyDialer))
      ensures r.0 == dialer.DialUDP(network, addr, env) && r.1 == dialer
    {
      (dialer.DialUDP(network, addr, env), dialer)
    }

    /** NextDialer (main.go:163-166): the one upstream, whatever the destination. */
    function NextDialer(dstAddr: string): (d: ProxyDialer)
      ensures d == dialer
    {
      dialer
    }
  }

  /** The connect timeout main configures: 10000 milliseconds. */
  const StartupTimeoutMs := 10000

  /** The proxy main hands to the SOCKS5 server. */
  const StartupProxy := SSRProxy(ProxyDialer(StartupTimeoutMs))

  /**
   * One upstream: whatever the destinations, NextDialer, Dial and DialUDP all
   * name the same dialer, whose Addr is empty.
   */
  lemma SingleUpstream(p: SSRProxy, dst1: string, dst2: string, network: string, addr: string, env: Env)
    ensures p.NextDialer(dst1) == p.NextDialer(dst2)
    ensures p.Dial(network, addr, env).1 == p.NextDialer(dst1)
    ensures p.DialUDP(network, addr, env).1 == p.NextDialer(dst1)
    ensures p.NextDialer(dst1).Addr() == ""
  {
  }

  /** Every connect the startup proxy requests, for either kind of dial, carries the 10-second timeout. */
  lemma StartupConnectsTimeOut(network: string, addr: string, env: Env)
    ensures var calls := StartupProxy.Dial(network, addr, env).0.calls;
            forall i :: 0 <= i < |calls| && calls[i].Connect? ==> calls[i].timeoutMs == 10000
    ensures var calls := StartupProxy.DialUDP(network, addr, env).0.calls;
            forall i :: 0 <= i < |calls| && calls[i].Connect? ==> calls[i].timeoutMs == 10000
  {
  }
}
