/**
 * Go's net.IP and net.UDPAddr as values, and IP.To4, the normalisation the
 * dialer applies to every chosen address (main.go:85-89, main.go:123-127).
 */
module NetIP {
  import opened Wrappers

  newtype byte = b: int | 0 <= b < 256

  type Bytes4 = s: seq<byte> | |s| == 4 witness [0, 0, 0, 0]

  type Bytes16 = s: seq<byte> | |s| == 16
    witness [0, 0, 0, 0, 0, 0, 0, 0, 0, 0, 0, 0, 0, 0, 0, 0]

  /** A net.IP: a 4-byte slice or a 16-byte slice. */
  datatype IP = V4(b4: Bytes4) | V6(b16: Bytes16)

  /** A net.UDPAddr as the dialer builds it (its Zone is always empty). */
  datatype UDPAddr = UDPAddr(ip: IP, port: int)

  /** The first twelve bytes of an IPv4-mapped IPv6 address, ::ffff:0:0/96. */
  const MappedPrefix: seq<byte> := [0, 0, 0, 0, 0, 0, 0, 0, 0, 0, 0xff, 0xff]

  /** Go's test inside To4: ten zero bytes followed by 0xff, 0xff. */
  predicate IsMapped(b: Bytes16) {
    (forall i :: 0 <= i < 10 ==> b[i] == 0) && b[10] == 0xff && b[11] == 0xff
  }

  /** The IPv4-mapped IPv6 form ::ffff:a.b.c.d of a 4-byte address. */
  function Mapped(a: Bytes4): (b: Bytes16)
    ensures IsMapped(b) && b[12..] == a
  {
    MappedPrefix + a
  }

  /** IP.To4: the 4-byte form of an address that has one, None otherwise. */
  function To4(ip: IP): (r: Option<IP>)
    ensures r.Some? ==> r.value.V4?
  {
    match ip
    case V4(_) => Some(ip)
    case V6(b) => if IsMapped(b) then Some(V4(b[12..])) else None
  }

  /** The 4-byte forms To4 produces are exactly those of the plain IPv4 address and of its mapped form. */
  lemma To4Exactly(ip: IP, a: Bytes4)
    ensures To4(ip) == Some(V4(a)) <==> (ip == V4(a) || ip == V6(Mapped(a)))
  {
  }

  /** The rebinding `if ipv4 := ip.To4(); ipv4 != nil { ip = ipv4 }`. */
  function Normalise(ip: IP): (r: IP)
    ensures r.V4? <==> To4(ip).Some?
    ensures r.V6? ==> r == ip && !IsMapped(r.b16)
    ensures To4(r) == To4(ip)
  {
    match To4(ip)
    case Some(ip4) => ip4
    case None => ip
  }

  /** Normalising twice is normalising once. */
  lemma NormaliseIdempotent(ip: IP)
    ensures Normalise(Normalise(ip)) == Normalise(ip)
  {
  }

  /** An address and its mapped IPv6 form normalise to the same 4-byte address. */
  lemma NormaliseMapped(a: Bytes4)
    ensures Normalise(V6(Mapped(a))) == V4(a) && Normalise(V4(a)) == V4(a)
  {
  }
}
