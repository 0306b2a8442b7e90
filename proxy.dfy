/**
 * The request routing decision of `src/bin/ssl-proxy.rs` (`proxy` and
 * `host_addr`).  A decrypted request is either a CONNECT (the method of
 * section 9.3.6 of RFC 9110), answered with an empty 200 and tunnelled, or
 * rejected with 400 when its target has no authority; or it is forwarded to
 * the hard-coded backend host on the URI's port, 8080 by default.  Dialling,
 * the upgrade and the byte relay are I/O and are not part of this model.
 */
module SslProxy {
  import opened Wrappers

  type u16 = x: int | 0 <= x < 0x1_0000

  /** A request method, by its token; the token is case-sensitive. */
  datatype Method = Method(token: string)

  predicate IsConnect(m: Method) {
    m.token == "CONNECT"
  }

  /** The authority of a URI: host, and the port text after the colon if there is one. */
  datatype Authority = Authority(host: string, port: Option<string>)

  /** The part of a request target the router looks at. */
  datatype Uri = Uri(authority: Option<Authority>, path: string)

  datatype Request = Request(verb: Method, uri: Uri)

  /** Response bodies: `empty()` and `full(chunk)`. */
  datatype Body = Empty | Full(chunk: string)

  datatype Response = Response(status: nat, body: Body)

  /** What the proxy does with one request. */
  datatype Route =
    | Tunnel(reply: Response, target: string)  // reply, then upgrade and relay bytes to target
    | Reject(reply: Response)                  // reply, no tunnel, no backend
    | Forward(backend: string)                 // re-send the request to backend, relay its response

  const StatusOk: nat := 200
  const StatusBadRequest: nat := 400
  const BackendHost: string := "0.0.0.0"
  const DefaultPort: u16 := 8080
  const TunnelTarget: string := "0.0.0.0:8080"
  const ConnectRejection: string := "CONNECT must be to a socket address"

  /** `Response::new(body)`: status 200. */
  function NewResponse(body: Body): Response {
    Response(StatusOk, body)
  }

  predicate IsDigit(c: char) {
    '0' <= c <= '9'
  }

  predicate AllDigits(s: string) {
    forall i :: 0 <= i < |s| ==> IsDigit(s[i])
  }

  /** The number a string of decimal digits denotes. */
  function DigitsValue(s: string): nat
    requires AllDigits(s)
  {
    if s == [] then 0
    else DigitsValue(s[..|s| - 1]) * 10 + (s[|s| - 1] as int - '0' as int)
  }

  /** A number written in decimal without leading zeros (`{}` formatting). */
  function DecimalString(n: nat): (s: string)
    ensures |s| >= 1 && AllDigits(s)
    ensures (s[0] == '0') <==> n == 0
  {
    var last := ('0' as int + n % 10) as char;
    if n < 10 then [last] else DecimalString(n / 10) + [last]
  }

  /** Reading back what `DecimalString` writes gives the number. */
  lemma {:induction false} DecimalStringValue(n: nat)
    ensures DigitsValue(DecimalString(n)) == n
  {
    if n >= 10 {
      var s := DecimalString(n);
      assert s[..|s| - 1] == DecimalString(n / 10);
      DecimalStringValue(n / 10);
    }
  }

  /**
   * The port number in a port text: a non-empty string of decimal digits
   * whose value fits in 16 bits; anything else gives no port.
   */
  function ParsePort(text: string): (p: Option<u16>)
    ensures p.Some? <==> text != [] && AllDigits(text) && DigitsValue(text) < 0x1_0000
    ensures p.Some? ==> p.value == DigitsValue(text)
    // text without a leading zero is exactly how the parsed port is written back
    ensures p.Some? && (|text| == 1 || text[0] != '0') ==> DecimalString(p.value) == text
  {
    if text != [] && AllDigits(text) && DigitsValue(text) < 0x1_0000 then
      if |text| == 1 || text[0] != '0' then
        CanonicalDigitsRoundTrip(text);
        Some(DigitsValue(text))
      else Some(DigitsValue(text))
    else None
  }

  /** A digit string with a leading non-zero digit denotes a positive number. */
  lemma {:induction false} LeadingDigitPositive(s: string)
    requires s != [] && AllDigits(s) && s[0] != '0'
    ensures DigitsValue(s) >= 1
    decreases |s|
  {
    if |s| > 1 {
      LeadingDigitPositive(s[..|s| - 1]);
    }
  }

  /** A digit string without a leading zero is how its own value is written. */
  lemma {:induction false} CanonicalDigitsRoundTrip(s: string)
    requires s != [] && AllDigits(s) && (|s| == 1 || s[0] != '0')
    ensures DecimalString(DigitsValue(s)) == s
    decreases |s|
  {
    if |s| > 1 {
      var init := s[..|s| - 1];
      LeadingDigitPositive(init);
      CanonicalDigitsRoundTrip(init);
      var v := DigitsValue(s);
      assert v / 10 == DigitsValue(init) && v % 10 == s[|s| - 1] as int - '0' as int;
      assert s == init + [s[|s| - 1]];
    }
  }

  /** A port written with `{}` parses back to itself. */
  lemma PortRoundTrip(p: u16)
    ensures ParsePort(DecimalString(p)) == Some(p)
  {
    DecimalStringValue(p);
  }

  /** `Uri::port_u16`: the explicit port of the authority, if it parses. */
  function PortU16(uri: Uri): (p: Option<u16>)
    ensures p.Some? ==> uri.authority.Some? && uri.authority.value.port.Some?
    ensures uri.authority.Some? && uri.authority.value.port.Some? ==>
      p == ParsePort(uri.authority.value.port.value)
  {
    match uri.authority
    case None => None
    case Some(a) =>
      match a.port
      case None => None
      case Some(text) => ParsePort(text)
  }

  /** `host_addr`: the fixed tunnel target whenever there is an authority, whatever it says. */
  function HostAddr(uri: Uri): (addr: Option<string>)
    ensures addr.None? <==> uri.authority.None?
    ensures addr.Some? ==> addr.value == TunnelTarget
  {
    match uri.authority
    case Some(_) => Some(TunnelTarget)
    case None => None
  }

  /** Whatever two authorities say, `host_addr` gives the same target for both. */
  lemma HostAddrIgnoresAuthority(u1: Uri, u2: Uri)
    requires u1.authority.Some? && u2.authority.Some?
    ensures HostAddr(u1) == HostAddr(u2) == Some(TunnelTarget)
  {
  }

  /** The port the forward path dials: the URI's explicit port, or 8080. */
  function ForwardPort(uri: Uri): (p: u16)
    ensures PortU16(uri).Some? ==> p == PortU16(uri).value
    ensures PortU16(uri).None? ==> p == DefaultPort
  {
    PortU16(uri).UnwrapOr(DefaultPort)
  }

  /** `proxy`: the routing decision for one request. */
  function Proxy(req: Request): (route: Route)
    // routing is exclusive: CONNECT never forwards, other methods never tunnel or get rejected
    ensures route.Forward? <==> !IsConnect(req.verb)
    ensures route.Tunnel? <==> IsConnect(req.verb) && req.uri.authority.Some?
    ensures route.Reject? <==> IsConnect(req.verb) && req.uri.authority.None?
  {
    if IsConnect(req.verb) then
      match HostAddr(req.uri)
      case Some(addr) => Tunnel(NewResponse(Empty), addr)
      case None =>
        var resp := NewResponse(Full(ConnectRejection));
        Reject(resp.(status := StatusBadRequest))
    else
      Forward(BackendHost + ":" + DecimalString(ForwardPort(req.uri)))
  }

  /** A CONNECT with an authority gets an empty 200 and a tunnel to 0.0.0.0:8080. */
  lemma ConnectWithAuthorityTunnels(req: Request)
    requires IsConnect(req.verb) && req.uri.authority.Some?
    ensures Proxy(req) == Tunnel(Response(200, Empty), "0.0.0.0:8080")
  {
  }

  /** A CONNECT without an authority gets a 400 with the fixed message and no tunnel. */
  lemma ConnectWithoutAuthorityRejected(req: Request)
    requires IsConnect(req.verb) && req.uri.authority.None?
    ensures Proxy(req) == Reject(Response(400, Full("CONNECT must be to a socket address")))
  {
  }

  /**
   * Any other method is forwarded to "0.0.0.0:" followed by the URI's
   * explicit port, or 8080 when it has none; the port text reads back as
   * that port (its type `u16` keeps it in 0..65535).
   */
  lemma NonConnectForwarded(req: Request)
    requires !IsConnect(req.verb)
    ensures var route := Proxy(req);
      var p := ForwardPort(req.uri);
      route.Forward? &&
      route.backend == "0.0.0.0:" + DecimalString(p) &&
      route.backend[..8] == "0.0.0.0:" &&
      ParsePort(route.backend[8..]) == Some(p) &&
      (PortU16(req.uri).None? ==> p == 8080)
  {
    var route := Proxy(req);
    var p := ForwardPort(req.uri);
    assert route.backend[8..] == DecimalString(p);
    PortRoundTrip(p);
  }

  /** Without an explicit port, a forwarded request dials the same address as a tunnel. */
  lemma DefaultForwardIsTunnelTarget(req: Request)
    requires !IsConnect(req.verb) && PortU16(req.uri).None?
    ensures Proxy(req) == Forward(TunnelTarget)
  {
  }

  /** An explicit, well-formed port in the authority is the port that is dialled. */
  lemma ExplicitPortForwarded(req: Request, host: string, p: u16)
    requires !IsConnect(req.verb)
    requires req.uri.authority == Some(Authority(host, Some(DecimalString(p))))
    ensures Proxy(req) == Forward("0.0.0.0:" + DecimalString(p))
  {
    PortRoundTrip(p);
  }
}
