/** Which address a request is judged by: the `X-Forwarded-For` header when the
    request carries one, otherwise the host part of the peer's `host:port`. */
module Address {
  import opened Wrappers
  import opened Text
  import opened Ipv4

  /** What the filter reads of a request. `fwdFor` is the `X-Forwarded-For`
      header value, empty when the header is absent (as Go's `Header.Get` reports it). */
  datatype Request = Request(remoteAddr: string, fwdFor: string, path: string)

  /** The position of the last `c` in `s`, if any. */
  function LastIndexOf(s: string, c: char): (r: Option<nat>)
    ensures r.None? <==> c !in s
    ensures r.Some? ==> r.value < |s| && s[r.value] == c && c !in s[r.value + 1..]
    decreases |s|
  {
    if s == [] then None
    else if s[|s| - 1] == c then Some(|s| - 1)
    else
      var r := LastIndexOf(s[..|s| - 1], c);
      assert s == s[..|s| - 1] + [s[|s| - 1]];
      if r.Some? then
        assert s[r.value + 1..] == s[..|s| - 1][r.value + 1..] + [s[|s| - 1]];
        r
      else r
  }

  /** Go's `net.SplitHostPort` for addresses not written in brackets: the port
      follows the last colon; no colon (missing port), a second colon (too many
      colons) or any bracket is an error. */
  function SplitHostPort(addr: string): Option<(string, string)> {
    if '[' in addr || ']' in addr then None
    else match LastIndexOf(addr, ':')
      case None => None
      case Some(i) =>
        if ':' in addr[..i] then None else Some((addr[..i], addr[i + 1..]))
  }

  /** Host and port free of colons and brackets. */
  predicate PlainPart(s: string) {
    ':' !in s && '[' !in s && ']' !in s
  }

  /** SplitHostPort succeeds exactly on `host:port` with plain parts, and then
      returns those parts. */
  lemma SplitHostPortExact(addr: string, host: string, port: string)
    ensures SplitHostPort(addr) == Some((host, port))
        <==> addr == host + ":" + port && PlainPart(host) && PlainPart(port)
  {
    if addr == host + ":" + port && PlainPart(host) && PlainPart(port) {
      SplitPlainParts(host, port);
    }
    if SplitHostPort(addr) == Some((host, port)) {
      SplitResultShape(addr);
    }
  }

  lemma SplitPlainParts(host: string, port: string)
    requires PlainPart(host) && PlainPart(port)
    ensures SplitHostPort(host + ":" + port) == Some((host, port))
  {
    var addr := host + ":" + port;
    var i := |host|;
    assert addr[..i] == host && addr[i + 1..] == port;
    assert addr == addr[..i] + [addr[i]] + addr[i + 1..];
    assert '[' !in addr && ']' !in addr;
    assert LastIndexOf(addr, ':') == Some(i);
  }

  lemma SplitResultShape(addr: string)
    requires SplitHostPort(addr).Some?
    ensures var (host, port) := SplitHostPort(addr).value;
      addr == host + ":" + port && PlainPart(host) && PlainPart(port)
  {
    var i := LastIndexOf(addr, ':').value;
    assert addr == addr[..i] + [addr[i]] + addr[i + 1..];
  }

  /** The candidate client address of a request, None when the chosen text is
      not an IPv4 address (or the peer address has no port). */
  function ClientIP(req: Request): Option<Ip> {
    if req.fwdFor != "" then ParseIPv4(req.fwdFor)
    else match SplitHostPort(req.remoteAddr)
      case None => None
      case Some(hp) => ParseIPv4(hp.0)
  }

  /** A forwarded header overrides the peer address entirely: the peer address
      does not matter and the header's text alone decides. */
  lemma ForwardedOverridesPeer(req: Request, otherPeer: string)
    requires req.fwdFor != ""
    ensures ClientIP(req) == ClientIP(req.(remoteAddr := otherPeer))
    ensures forall ip: Ip :: ClientIP(req) == Some(ip) <==> req.fwdFor == FormatIPv4(ip)
  {
    forall ip: Ip ensures ClientIP(req) == Some(ip) <==> req.fwdFor == FormatIPv4(ip) {
      if ClientIP(req) == Some(ip) { FormatParse(req.fwdFor, ip); }
      if req.fwdFor == FormatIPv4(ip) { ParseFormat(ip); }
    }
  }

  /** Without a forwarded header, a peer `a.b.c.d:port` is judged by `a.b.c.d`,
      whatever the port text is (`12345`, `_`). */
  lemma PeerHostDecides(ip: Ip, port: string, path: string)
    requires PlainPart(port)
    ensures ClientIP(Request(FormatIPv4(ip) + ":" + port, "", path)) == Some(ip)
  {
    var host := FormatIPv4(ip);
    OctetTextIsValid(ip[0]);
    OctetTextIsValid(ip[1]);
    OctetTextIsValid(ip[2]);
    OctetTextIsValid(ip[3]);
    FormatIsPlain(ip);
    SplitHostPortExact(host + ":" + port, host, port);
    ParseFormat(ip);
  }

  /** Conversely, without a forwarded header a request is judged by `ip` only
      when its peer text is the dotted text of `ip`, a colon and a plain port. */
  lemma PeerHostOnly(req: Request, ip: Ip)
    requires req.fwdFor == "" && ClientIP(req) == Some(ip)
    ensures exists port :: PlainPart(port) && req.remoteAddr == FormatIPv4(ip) + ":" + port
  {
    var (host, port) := SplitHostPort(req.remoteAddr).value;
    SplitResultShape(req.remoteAddr);
    FormatParse(host, ip);
    assert PlainPart(port) && req.remoteAddr == FormatIPv4(ip) + ":" + port;
  }

  /** Dotted-decimal text holds no colon or bracket. */
  lemma FormatIsPlain(ip: Ip)
    ensures PlainPart(FormatIPv4(ip))
  {
    var s := FormatIPv4(ip);
    forall i | 0 <= i < |s| ensures s[i] != ':' && s[i] != '[' && s[i] != ']' {
      JoinDigitsAndDots(ip, i);
    }
  }

  lemma JoinDigitsAndDots(ip: Ip, i: nat)
    requires i < |FormatIPv4(ip)|
    ensures IsDigit(FormatIPv4(ip)[i]) || FormatIPv4(ip)[i] == '.'
  {
    OctetTextIsValid(ip[0]);
    OctetTextIsValid(ip[1]);
    OctetTextIsValid(ip[2]);
    OctetTextIsValid(ip[3]);
  }
}
