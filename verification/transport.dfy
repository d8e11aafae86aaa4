/**
 * The transport base class (engineio/Transport.kt): its options, the
 * Engine.IO packets it carries, the lifecycle guards of `open`, `send` and
 * `close`, and the request URI it renders.
 *
 * The packet codec is not modelled: packets are values of `Packet`, with
 * message payloads kept as opaque text.
 */
module Transport {
  import opened Common
  import ParseQS

  /** The options a transport is created with. */
  datatype Options = Options(
    secure: bool,
    hostname: string,
    port: int,
    path: string,
    timestampRequests: bool,
    timestampParam: string,
    query: Entries<string, string>,
    extraHeaders: Entries<string, seq<string>>)

  /** The defaults of `Transport.Options`. */
  function DefaultOptions(): Options
  {
    Options(false, "", -1, "", false, "", [], [])
  }

  /** The content of an Engine.IO `open` packet. */
  datatype Handshake = Handshake(sid: string, upgrades: seq<string>, pingInterval: int, pingTimeout: int, maxPayload: int)

  /** The Engine.IO packet kinds. */
  datatype Packet =
    | OpenPacket(handshake: Handshake)
    | ClosePacket
    | PingPacket(ping: Option<string>)
    | PongPacket(pong: Option<string>)
    | MessagePacket(message: Option<string>)
    | BinaryDataPacket(bytes: seq<bv8>)
    | UpgradePacket
    | NoopPacket

  const EventOpen := "open"
  const EventClose := "close"
  const EventPacket := "packet"
  const EventDrain := "drain"
  const EventError := "error"
  const EventRequestHeaders := "requestHeaders"
  const EventResponseHeaders := "responseHeaders"

  const NotOpen := "Transport not open"

  /** `open()`: from INIT or CLOSED moves to OPENING and asks for `doOpen`; otherwise does nothing. */
  function OpenGuard(s: State): (r: (State, bool))
    ensures r.1 <==> s == Init || s == Closed
    ensures r.1 ==> r.0 == Opening
    ensures !r.1 ==> r.0 == s
  {
    if s == Closed || s == Init then (Opening, true) else (s, false)
  }

  /** `send(packets)`: reaches `doSend` only when OPEN, and fails with "Transport not open" otherwise. */
  function SendGuard(s: State): (r: Result<()>)
    ensures r.Ok? <==> s == Open
    ensures r.Failure? ==> r.error == NotOpen
  {
    if s == Open then Ok(()) else Failure(NotOpen)
  }

  /**
   * `close()`: reaches `doClose` only from OPENING or OPEN. The subclass
   * needs to know which, so the result carries `fromOpenState`.
   */
  function CloseGuard(s: State): (r: Option<bool>)
    ensures r.Some? <==> s == Opening || s == Open
    ensures r.Some? ==> (r.value <==> s == Open)
  {
    if s == Opening || s == Open then Some(s == Open) else None
  }

  /** `:port`, present exactly when the port is positive and not the scheme's default. */
  function PortPart(secure: bool, port: int): (r: string)
    ensures r != "" <==> port > 0 && port != (if secure then 443 else 80)
    ensures r != "" ==> r[0] == ':' && DigitsValue(r[1..]) == port
  {
    if port > 0 && ((secure && port != 443) || (!secure && port != 80)) then
      DecimalValue(port);
      assert (":" + Decimal(port))[1..] == Decimal(port);
      ":" + Decimal(port)
    else ""
  }

  /** An explicit port is rendered as `:` and its decimal digits. */
  lemma PortPartDigits(secure: bool, port: int)
    requires port > 0 && port != (if secure then 443 else 80)
    ensures PortPart(secure, port) == ":" + Decimal(port)
  {
  }

  /** The hostname, bracketed exactly when it contains `:` (an IPv6 literal, section 3.2.2 of RFC 3986). */
  function HostPart(hostname: string): (r: string)
    ensures ':' in hostname ==> r == "[" + hostname + "]"
    ensures ':' !in hostname ==> r == hostname
  {
    if ':' in hostname then "[" + hostname + "]" else hostname
  }

  /**
   * The query sent with a request: a copy of the options' query, with the
   * timestamp parameter set when `timestampRequests` is on.
   */
  function RequestQuery(opt: Options, timestamp: string): (q: Entries<string, string>)
    ensures opt.timestampRequests ==> Lookup(q, opt.timestampParam) == Some(timestamp)
    ensures forall k :: k != opt.timestampParam ==> Lookup(q, k) == Lookup(opt.query, k)
    ensures !opt.timestampRequests ==> q == opt.query
    ensures DistinctKeys(opt.query) ==> DistinctKeys(q)
  {
    if opt.timestampRequests then Put(opt.query, opt.timestampParam, timestamp) else opt.query
  }

  /** `?` and the encoded query, or nothing when the encoding is empty. */
  function QueryPart(q: Entries<string, string>, enc: string -> string): (r: string)
    ensures |q| == 0 <==> r == ""
    ensures |q| > 0 ==> r == "?" + ParseQS.Encode(q, enc)
  {
    var encoded := ParseQS.Encode(q, enc);
    ParseQS.EncodeNonEmpty(q, enc);
    if |encoded| > 0 then "?" + encoded else ""
  }

  /** The scheme, `://` and the host. */
  function Origin(opt: Options, secureSchema: string, insecureSchema: string): (r: string)
  {
    (if opt.secure then secureSchema else insecureSchema) + "://" + HostPart(opt.hostname)
  }

  /**
   * `uri(secureSchema, insecureSchema)`: scheme://host[:port]path[?query].
   * The timestamp (the current time in base 36 in the source) and the
   * component encoder are parameters.
   */
  function Uri(opt: Options, secureSchema: string, insecureSchema: string, timestamp: string, enc: string -> string): (r: string)
    ensures var prefix := Origin(opt, secureSchema, insecureSchema);
            var port := PortPart(opt.secure, opt.port);
            var query := QueryPart(RequestQuery(opt, timestamp), enc);
            && |r| == |prefix| + |port| + |opt.path| + |query|
            && r[..|prefix|] == prefix
            && r[|prefix|..|prefix| + |port|] == port
            && r[|prefix| + |port|..|prefix| + |port| + |opt.path|] == opt.path
            && r[|r| - |query|..] == query
  {
    var prefix := Origin(opt, secureSchema, insecureSchema);
    var port := PortPart(opt.secure, opt.port);
    var query := QueryPart(RequestQuery(opt, timestamp), enc);
    Slices4(prefix, port, opt.path, query);
    prefix + port + opt.path + query
  }

  /** The four consecutive pieces of a concatenation can be cut back out of it. */
  lemma Slices4(a: string, b: string, c: string, d: string)
    ensures var r := a + b + c + d;
            && |r| == |a| + |b| + |c| + |d|
            && r[..|a|] == a
            && r[|a|..|a| + |b|] == b
            && r[|a| + |b|..|a| + |b| + |c|] == c
            && r[|r| - |d|..] == d
  {
    var r := a + b + c + d;
    assert r == a + (b + (c + d));
    assert r[|a|..] == b + (c + d);
    assert r[|a| + |b|..] == c + d;
  }

  /**
   * Reading a request URI back, explicit port: after the scheme and the host
   * come `:` and the digits of the port part (which read back as the port,
   * by `PortPart`'s contract), and then the path.
   */
  lemma UriPortShape(opt: Options, secureSchema: string, insecureSchema: string, timestamp: string, enc: string -> string)
    requires opt.port > 0 && opt.port != (if opt.secure then 443 else 80)
    ensures var r := Uri(opt, secureSchema, insecureSchema, timestamp, enc);
            var n := |Origin(opt, secureSchema, insecureSchema)|;
            var k := n + |PortPart(opt.secure, opt.port)|;
            && n < k && k + |opt.path| <= |r|
            && r[n] == ':' && r[n + 1..k] == PortPart(opt.secure, opt.port)[1..]
            && r[k..k + |opt.path|] == opt.path
  {
    var query := QueryPart(RequestQuery(opt, timestamp), enc);
    PieceShape(Origin(opt, secureSchema, insecureSchema), PortPart(opt.secure, opt.port), opt.path, query);
  }

  /** In a + b + c + d with b non-empty, b's first character stands at |a|, the rest of b follows, then c. */
  lemma PieceShape(a: string, b: string, c: string, d: string)
    requires |b| > 0
    ensures var r := a + b + c + d;
            var k := |a| + |b|;
            && |a| < k && k + |c| <= |r|
            && r[|a|] == b[0] && r[|a| + 1..k] == b[1..]
            && r[k..k + |c|] == c
  {
    var r := a + b + c + d;
    Slices4(a, b, c, d);
    assert r[|a|] == r[|a|..|a| + |b|][0];
  }

  /**
   * Reading a request URI back, default or absent port: the path follows
   * the scheme and the host directly.
   */
  lemma UriPathShape(opt: Options, secureSchema: string, insecureSchema: string, timestamp: string, enc: string -> string)
    requires !(opt.port > 0 && opt.port != (if opt.secure then 443 else 80))
    ensures var r := Uri(opt, secureSchema, insecureSchema, timestamp, enc);
            var n := |Origin(opt, secureSchema, insecureSchema)|;
            n + |opt.path| <= |r| && r[n..n + |opt.path|] == opt.path
  {
    assert PortPart(opt.secure, opt.port) == "";
  }

  /** The query part is empty exactly when there is no query parameter and no timestamp. */
  lemma QueryPartEmpty(opt: Options, timestamp: string, enc: string -> string)
    ensures QueryPart(RequestQuery(opt, timestamp), enc) == "" <==> |opt.query| == 0 && !opt.timestampRequests
  {
  }

  /** A URI with a query parameter ends in `?` and the encoded query. */
  lemma UriQueryShape(opt: Options, secureSchema: string, insecureSchema: string, timestamp: string, enc: string -> string)
    requires |opt.query| > 0 || opt.timestampRequests
    ensures var r := Uri(opt, secureSchema, insecureSchema, timestamp, enc);
            var encoded := ParseQS.Encode(RequestQuery(opt, timestamp), enc);
            |r| > |encoded| && r[|r| - |encoded| - 1] == '?' && r[|r| - |encoded|..] == encoded
  {
    var r := Uri(opt, secureSchema, insecureSchema, timestamp, enc);
    var encoded := ParseQS.Encode(RequestQuery(opt, timestamp), enc);
    QueryPartEmpty(opt, timestamp, enc);
    QueryMark(r, encoded);
  }

  /** A URI ending in `?` and the encoded query has the `?` just before the encoding. */
  lemma QueryMark(r: string, encoded: string)
    requires |"?" + encoded| <= |r| && r[|r| - |"?" + encoded|..] == "?" + encoded
    ensures |r| > |encoded| && r[|r| - |encoded| - 1] == '?' && r[|r| - |encoded|..] == encoded
  {
    assert r[|r| - |encoded| - 1] == r[|r| - |"?" + encoded|..][0];
    assert r[|r| - |encoded|..] == r[|r| - |"?" + encoded|..][1..];
  }

  /**
   * With timestamps on, a secure transport on the default port 443 and an
   * empty query renders as exactly https://host/path?t=<timestamp>, given an
   * encoder that leaves the parameter name and the timestamp alone.
   */
  lemma UriDefaultSecurePort(host: string, path: string, ts: string, enc: string -> string)
    requires ':' !in host
    requires enc("t") == "t" && enc(ts) == ts
    ensures Uri(Options(true, host, 443, path, true, "t", [], []), "https", "http", ts, enc)
            == "https://" + host + path + "?t=" + ts
  {
    var q := RequestQuery(Options(true, host, 443, path, true, "t", [], []), ts);
    assert q == [("t", ts)];
    assert ParseQS.Encode(q, enc) == "t=" + ts by {
      assert ParseQS.Segment(q[0], enc) == "t" + "=" + ts;
      assert "t" + "=" + ts == "t=" + ts;
      assert ParseQS.Segments(q, enc) == ["t=" + ts];
    }
  }
}
