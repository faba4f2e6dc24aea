/**
 * The two fixed-peer adapters of main.go:26-56.
 *
 * UdpPktConn presents a byte stream (its embedded net.Conn) as a packet
 * channel bound to one peer; UdpConn presents a packet channel (its embedded
 * net.PacketConn) as a byte stream bound to one peer. The underlying channel
 * is abstract: each adapter call is modelled by the call it forwards and by
 * the reply it hands back, given the underlying channel's reply. A session is
 * a sequence of calls with the underlying replies they received.
 */
module Adapters {
  import opened Wrappers
  import opened NetIP

  datatype IoError = IoError(message: string)

  /** A net.Addr value: a *net.UDPAddr or any other address. */
  datatype Addr = UdpAddr(udp: UDPAddr) | OtherAddr(network: string, text: string)

  /** A call on a byte stream (net.Conn); a read buffer is given by its length. */
  datatype StreamCall = Read(bufLen: nat) | Write(data: seq<byte>)

  /** A call on a packet channel (net.PacketConn). */
  datatype PacketCall = ReadFrom(bufLen: nat) | WriteTo(data: seq<byte>, dest: Addr)

  /** What a stream call returns: a byte count and an error. */
  datatype StreamReply = StreamReply(n: int, err: Option<IoError>)

  /** What a packet call returns; `from` is the source a ReadFrom reports, None for a WriteTo. */
  datatype PacketReply = PacketReply(n: int, from: Option<Addr>, err: Option<IoError>)

  /** A stream used as a packet channel whose only peer is `addr` (main.go:44-56). */
  datatype UdpPktConn = UdpPktConn(addr: UDPAddr) {

    /** ReadFrom(b): reads the stream into b and reports the fixed peer as the source. */
    function ReadFrom(bufLen: nat, stream: StreamReply): (r: (StreamCall, PacketReply))
      ensures r.0 == Read(bufLen)
      ensures r.1.from == Some(UdpAddr(addr))
      ensures r.1.n == stream.n && r.1.err == stream.err
    {
      (Read(bufLen), PacketReply(stream.n, Some(UdpAddr(addr)), stream.err))
    }

    /** WriteTo(b, dest): writes b to the stream; dest plays no part. */
    function WriteTo(data: seq<byte>, dest: Addr, stream: StreamReply): (r: (StreamCall, PacketReply))
      ensures r.0 == Write(data)
      ensures r.1 == PacketReply(stream.n, None, stream.err)
    {
      (Write(data), PacketReply(stream.n, None, stream.err))
    }

    /** The stream call a packet call is forwarded as; it does not depend on any reply. */
    function Forward(call: PacketCall): (s: StreamCall)
      ensures s.Read? <==> call.ReadFrom?
      ensures call.ReadFrom? ==> s.bufLen == call.bufLen
      ensures call.WriteTo? ==> s.data == call.data
    {
      match call
      case ReadFrom(k) => Read(k)
      case WriteTo(data, _) => Write(data)
    }

    function Step(call: PacketCall, stream: StreamReply): (r: (StreamCall, PacketReply))
      ensures r.0 == Forward(call)
    {
      match call
      case ReadFrom(k) => ReadFrom(k, stream)
      case WriteTo(data, dest) => WriteTo(data, dest, stream)
    }

    /** The stream calls a session of packet calls makes, one for one. */
    function Forwarded(calls: seq<PacketCall>): (s: seq<StreamCall>)
      ensures |s| == |calls|
      ensures forall i :: 0 <= i < |calls| ==> s[i] == Forward(calls[i])
    {
      if calls == [] then []
      else Forwarded(calls[..|calls| - 1]) + [Forward(calls[|calls| - 1])]
    }

    /** The replies the session's packet calls return, given the stream's reply to each forwarded call. */
    function Replies(calls: seq<PacketCall>, stream: seq<StreamReply>): (r: seq<PacketReply>)
      requires |stream| == |calls|
      ensures |r| == |calls|
      ensures forall i :: 0 <= i < |calls| ==> r[i] == Step(calls[i], stream[i]).1
    {
      if calls == [] then []
      else
        Replies(calls[..|calls| - 1], stream[..|stream| - 1])
          + [Step(calls[|calls| - 1], stream[|stream| - 1]).1]
    }
  }

  /** A packet channel used as a stream whose only peer is `addr` (main.go:26-42). */
  datatype UdpConn = UdpConn(addr: UDPAddr) {

    /** RemoteAddr(): always the fixed peer. */
    function RemoteAddr(): (a: Addr)
      ensures a.UdpAddr? && a.udp == addr
    {
      UdpAddr(addr)
    }

    /** Read(b): ReadFrom(b) on the packet channel, keeping the count and error and dropping the source. */
    function Read(bufLen: nat, packet: PacketReply): (r: (PacketCall, StreamReply))
      ensures r.0 == ReadFrom(bufLen)
      ensures r.1 == StreamReply(packet.n, packet.err)
    {
      (ReadFrom(bufLen), StreamReply(packet.n, packet.err))
    }

    /** Write(b): WriteTo(b, RemoteAddr()) on the packet channel. */
    function Write(data: seq<byte>, packet: PacketReply): (r: (PacketCall, StreamReply))
      ensures r.0 == WriteTo(data, UdpAddr(addr))
      ensures r.1 == StreamReply(packet.n, packet.err)
    {
      (WriteTo(data, RemoteAddr()), StreamReply(packet.n, packet.err))
    }

    /** The packet call a stream call is forwarded as; it does not depend on any reply. */
    function Forward(call: StreamCall): (p: PacketCall)
      ensures p.ReadFrom? <==> call.Read?
      ensures call.Read? ==> p.bufLen == call.bufLen
      ensures call.Write? ==> p == WriteTo(call.data, UdpAddr(addr))
    {
      match call
      case Read(k) => ReadFrom(k)
      case Write(data) => WriteTo(data, RemoteAddr())
    }

    function Step(call: StreamCall, packet: PacketReply): (r: (PacketCall, StreamReply))
      ensures r.0 == Forward(call)
    {
      match call
      case Read(k) => Read(k, packet)
      case Write(data) => Write(data, packet)
    }

    /** The packet calls a session of stream calls makes, one for one. */
    function Forwarded(calls: seq<StreamCall>): (s: seq<PacketCall>)
      ensures |s| == |calls|
      ensures forall i :: 0 <= i < |calls| ==> s[i] == Forward(calls[i])
    {
      if calls == [] then []
      else Forwarded(calls[..|calls| - 1]) + [Forward(calls[|calls| - 1])]
    }

    /** The replies the session's stream calls return, given the packet channel's reply to each forwarded call. */
    function Replies(calls: seq<StreamCall>, packet: seq<PacketReply>): (r: seq<StreamReply>)
      requires |packet| == |calls|
      ensures |r| == |calls|
      ensures forall i :: 0 <= i < |calls| ==> r[i] == Step(calls[i], packet[i]).1
    {
      if calls == [] then []
      else
        Replies(calls[..|calls| - 1], packet[..|packet| - 1])
          + [Step(calls[|calls| - 1], packet[|packet| - 1]).1]
    }
  }

  /** Two packet sessions that differ at most in the destinations of their writes. */
  predicate SameButDestinations(a: seq<PacketCall>, b: seq<PacketCall>) {
    |a| == |b|
    && forall i :: 0 <= i < |a| ==>
         match a[i]
         case ReadFrom(k) => b[i] == ReadFrom(k)
         case WriteTo(data, _) => b[i].WriteTo? && b[i].data == data
  }

  /** Every read of a UdpPktConn session reports the fixed peer, whatever the stream did. */
  lemma PktSessionReportsPeer(p: UdpPktConn, calls: seq<PacketCall>, stream: seq<StreamReply>)
    requires |stream| == |calls|
    ensures forall i :: 0 <= i < |calls| && calls[i].ReadFrom? ==>
              p.Replies(calls, stream)[i].from == Some(UdpAddr(p.addr))
  {
  }

  /** A UdpPktConn session's effect on the stream, and its replies, do not depend on the destinations written to. */
  lemma PktSessionIgnoresDestinations(p: UdpPktConn, a: seq<PacketCall>, b: seq<PacketCall>, stream: seq<StreamReply>)
    requires SameButDestinations(a, b) && |stream| == |a|
    ensures p.Forwarded(a) == p.Forwarded(b)
    ensures p.Replies(a, stream) == p.Replies(b, stream)
  {
  }

  /** Every write of a UdpConn session goes to the fixed peer. */
  lemma ConnSessionTargetsPeer(u: UdpConn, calls: seq<StreamCall>)
    ensures forall i :: 0 <= i < |calls| && calls[i].Write? ==>
              u.Forwarded(calls)[i] == WriteTo(calls[i].data, UdpAddr(u.addr))
  {
  }

  /** A UdpConn session's replies do not depend on the sources the packet channel reported. */
  lemma ConnSessionDropsSources(u: UdpConn, calls: seq<StreamCall>, a: seq<PacketReply>, b: seq<PacketReply>)
    requires |a| == |calls| && |b| == |calls|
    requires forall i :: 0 <= i < |calls| ==> a[i].n == b[i].n && a[i].err == b[i].err
    ensures u.Replies(calls, a) == u.Replies(calls, b)
  {
  }

  lemma BridgedCallsCancel(u: UdpConn, p: UdpPktConn, calls: seq<StreamCall>)
    ensures p.Forwarded(u.Forwarded(calls)) == calls
  {
  }

  lemma BridgedRepliesCancel(u: UdpConn, p: UdpPktConn, calls: seq<StreamCall>, stream: seq<StreamReply>)
    requires |stream| == |calls|
    ensures u.Replies(calls, p.Replies(u.Forwarded(calls), stream)) == stream
  {
  }

  /**
   * The resolver's transport in main.go:199-202 and main.go:225-228 is a
   * UdpConn over the UdpPktConn DialUDP returns, over an upstream stream.
   * The two bridges cancel out: every stream call reaches the upstream stream
   * unchanged, and every reply of the upstream stream comes back unchanged.
   */
  lemma BridgesCancel(u: UdpConn, p: UdpPktConn, calls: seq<StreamCall>, stream: seq<StreamReply>)
    requires |stream| == |calls|
    ensures p.Forwarded(u.Forwarded(calls)) == calls
    ensures u.Replies(calls, p.Replies(u.Forwarded(calls), stream)) == stream
  {
    BridgedCallsCancel(u, p, calls);
    BridgedRepliesCancel(u, p, calls, stream);
  }
}
