/**
 * strings.LastIndex and the host/port split the dialer and the `--dns`
 * check both perform on it (main.go:65-72, main.go:104-111, main.go:205-210).
 */
module GoStrings {
  import opened Wrappers

  /** strings.LastIndex(s, string(c)): the index of the last c in s, or -1. */
  function LastIndex(s: string, c: char): (r: int)
    ensures -1 <= r < |s|
    ensures r == -1 <==> c !in s
    ensures r >= 0 ==> s[r] == c && forall j :: r < j < |s| ==> s[j] != c
  {
    if |s| == 0 then -1
    else if s[|s| - 1] == c then |s| - 1
    else
      var r := LastIndex(s[..|s| - 1], c);
      assert s == s[..|s| - 1] + [s[|s| - 1]];
      r
  }

  /** A "host:port" text cut at its last colon. */
  datatype HostPort = HostPort(host: string, port: string)

  /** `addr[:i]` and `addr[i+1:]` for i the last colon; None when there is no colon. */
  function SplitLastColon(s: string): (r: Option<HostPort>)
    ensures r.None? <==> ':' !in s
    ensures r.Some? ==> r.value.host + ":" + r.value.port == s && ':' !in r.value.port
  {
    var i := LastIndex(s, ':');
    if i == -1 then None
    else
      assert s == s[..i] + ":" + s[i + 1..];
      Some(HostPort(s[..i], s[i + 1..]))
  }

  /** Conversely, any host joined to a colon-free port splits back into exactly those two. */
  lemma SplitLastColonJoin(host: string, port: string)
    requires ':' !in port
    ensures SplitLastColon(host + ":" + port) == Some(HostPort(host, port))
  {
    var s := host + ":" + port;
    var i := LastIndex(s, ':');
    assert s[|host|] == ':';
    assert s[..i] == host;
    assert s[i + 1..] == port;
  }
}
