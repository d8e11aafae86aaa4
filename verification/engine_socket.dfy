/**
 * The Engine.IO client socket (engineio/EngineSocket.kt): transport
 * selection, the write buffer and its flush watermark, deferred close,
 * handshake and heartbeat, and the upgrade probe.
 *
 * A step takes the socket and one input (a call from the user, an event of
 * one of its transports, the completion of a pause, the expiry of the ping
 * timer) and returns the new socket and the ordered outputs: events for the
 * socket's external listeners, and calls to transports and to the timer.
 *
 * The socket's own listeners on itself are explicit state: the waiters of
 * a deferred `close()` are counted (they all do the same thing), the
 * heartbeat listener is a flag, and each probe records which of its
 * listeners are still registered. An `Emitted` output stands for the
 * external listeners of that event; the internal ones run after it.
 *
 * `priorWebsocketSuccess`, a process-wide variable in the source, is the
 * field `prior`; a caller creating the next socket passes it on.
 */
module EngineSocket {
  import opened Common
  import T = Transport

  const PollingName := "polling"
  const WebSocketName := "websocket"
  const ProbePayload := "probe"
  const ProbeError := "probe error"
  const SidKey := "sid"
  const EioKey := "EIO"
  const EioVersion := "4"
  const TransportKey := "transport"
  const DefaultPath := "/engine.io/"
  const DefaultTimestampParam := "t"

  const ForceClose := "force close"
  const TransportClose := "transport close"
  const PingTimeout := "ping timeout"
  const EmptyBuffer := "remove from an empty buffer"

  const EventOpen := "open"
  const EventClose := "close"
  const EventData := "data"
  const EventError := "error"
  const EventUpgradeError := "upgradeError"
  const EventFlush := "flush"
  const EventDrain := "drain"
  const EventHandshake := "handshake"
  const EventUpgrading := "upgrading"
  const EventUpgrade := "upgrade"
  const EventPacket := "packet"
  const EventPacketCreate := "packetCreate"
  const EventHeartbeat := "heartbeat"
  const EventPing := "ping"
  const EventTransport := "transport"

  /** `EngineSocket.Options`: the transport options plus the transport list and upgrade switches. */
  datatype Options = Options(
    base: T.Options,
    transports: seq<string>,
    upgrade: bool,
    rememberUpgrade: bool,
    transportOptions: Entries<string, T.Options>)

  /** The parsed components of the URI the socket is created with. */
  datatype Url = Url(protocol: string, host: string, port: int, parameters: Entries<string, string>)

  /** A transport the socket created, known by a serial number. */
  datatype TransportRef = TransportRef(tid: nat, name: string, opts: T.Options)

  /**
   * Where a probe stands. `Rejected`: its first packet was not the probe
   * pong; `Stopped`: it was found failed (or the socket closed) when its
   * next callback came; `Upgraded`: its transport replaced the active one.
   */
  datatype Phase = AwaitOpen | AwaitPong | Rejected | Pausing | AwaitUpgradeDrain | Upgraded | Stopped

  /**
   * One `probe(name)`: its transport, phase and `failed` flag; `hooked`
   * while its error/close listeners and its listener on the socket's close
   * event are registered (the cleanup removes them together), and
   * `upgradingHooked` while its once-listener on `upgrading` is.
   */
  datatype Probe = Probe(transport: TransportRef, phase: Phase, failed: bool, hooked: bool, upgradingHooked: bool)

  datatype Arg =
    | NoArg
    | CountArg(count: int)
    | TextArg(text: string)
    | PacketArg(packet: T.Packet)
    | BytesArg(bytes: seq<bv8>)
    | HandshakeArg(handshake: T.Handshake)
    | TransportArg(tid: nat, name: string)

  datatype Output =
    | Emitted(event: string, arg: Arg)
    | Created(tid: nat, name: string, opts: T.Options)  // the transport factory is asked for a transport
    | OpenTransport(tid: nat)
    | SendTo(tid: nat, packets: seq<T.Packet>)
    | CloseTransport(tid: nat)
    | PauseTransport(tid: nat, probe: nat)              // pause, resuming probe `probe` when done
    | StartPingTimer(timer: nat, delay: int)
    | CancelPingTimer
    | Fault(message: string)                           // an exception escapes the step

  datatype Input =
    | OpenCalled
    | SendCalled(packets: seq<T.Packet>)
    | CloseCalled
    | TransportOpened(tid: nat)
    | TransportDrained(tid: nat, count: int)
    | TransportPacket(tid: nat, packet: T.Packet)
    | TransportError(tid: nat, message: string)
    | TransportClosed(tid: nat)
    | PauseCompleted(probe: nat)
    | PingTimerFired(timer: nat)

  /** The `writable` flag of each transport, as the socket finds it during a step. */
  datatype Env = Env(writable: nat -> bool)

  datatype Engine = Engine(
    opt: Options,
    state: State,
    id: string,
    upgrades: seq<string>,
    pingInterval: int,
    pingTimeout: int,
    transport: Option<TransportRef>,
    subscribed: bool,          // `subs` holds the listeners on `transport`
    upgrading: bool,
    writeBuffer: seq<T.Packet>,
    prevBufferLen: int,
    heartbeat: bool,           // the heartbeat listener is registered
    pingTimer: Option<nat>,
    nextTimer: nat,
    drainWaiters: nat,         // `close()` listeners waiting for drain
    upgradeWaiters: nat,       // `close()` listeners waiting for upgrade or upgradeError
    probes: seq<Probe>,
    nextTransport: nat,
    prior: bool)

  /** The watermark lies within the buffer. */
  predicate Valid(e: Engine)
  {
    0 <= e.prevBufferLen <= |e.writeBuffer|
  }

  /** `inactive()` negated. */
  predicate Active(e: Engine)
  {
    e.state == Opening || e.state == Open || e.state == Closing
  }

  // ---------------------------------------------------------------------
  // Construction

  /** Position of the first `c` in `s`. */
  function FirstIndex(s: string, c: char): (i: nat)
    requires c in s
    ensures i < |s| && s[i] == c && c !in s[..i]
  {
    if s[0] == c then 0
    else
      var j := FirstIndex(s[1..], c);
      assert s[..j + 1] == [s[0]] + s[1..][..j];
      j + 1
  }

  /** Position of the last `c` in `s`. */
  function LastIndex(s: string, c: char): (i: nat)
    requires c in s
    ensures i < |s| && s[i] == c && c !in s[i + 1..]
  {
    if s[|s| - 1] == c then |s| - 1
    else
      assert s == s[..|s| - 1] + [s[|s| - 1]];
      var j := LastIndex(s[..|s| - 1], c);
      assert s[j + 1..] == s[..|s| - 1][j + 1..] + [s[|s| - 1]];
      j
  }

  function Occurrences(s: string, c: char): nat
  {
    if |s| == 0 then 0 else (if s[0] == c then 1 else 0) + Occurrences(s[1..], c)
  }

  /**
   * The hostname of the URI: a host with more than one `:` (an IPv6
   * literal) loses what lies before its first `[` and from its last `]` on.
   */
  function Hostname(host: string): (r: string)
    ensures Occurrences(host, ':') < 2 ==> r == host
    ensures |r| <= |host|
  {
    if Occurrences(host, ':') >= 2 then
      var h := if '[' in host then host[FirstIndex(host, '[') + 1..] else host;
      if ']' in h then h[..LastIndex(h, ']')] else h
    else host
  }

  lemma {:induction false} OccurrencesAppend(a: string, b: string, c: char)
    ensures Occurrences(a + b, c) == Occurrences(a, c) + Occurrences(b, c)
  {
    if |a| > 0 {
      assert (a + b)[1..] == a[1..] + b;
      OccurrencesAppend(a[1..], b, c);
    } else {
      assert a + b == b;
    }
  }

  /**
   * A bracketed IPv6 literal comes out without its brackets, so that the
   * transport's URI, which brackets every host holding `:`, restores it.
   */
  lemma HostnameUnbrackets(h: string)
    requires Occurrences(h, ':') >= 2 && '[' !in h && ']' !in h
    ensures Hostname("[" + h + "]") == h
    ensures T.HostPart(Hostname("[" + h + "]")) == "[" + h + "]"
  {
    var s := "[" + h + "]";
    BracketedOccurrences(h);
    assert FirstIndex(s, '[') == 0;
    StripClosing(h);
    if ':' !in h {
      NoOccurrences(h, ':');
    }
  }

  lemma BracketedOccurrences(h: string)
    ensures Occurrences("[" + h + "]", ':') == Occurrences(h, ':')
  {
    OccurrencesAppend("[" + h, "]", ':');
    OccurrencesAppend("[", h, ':');
  }

  lemma StripClosing(h: string)
    requires ']' !in h
    ensures var h1 := ("[" + h + "]")[1..]; ']' in h1 && h1[..LastIndex(h1, ']')] == h
  {
    var h1 := ("[" + h + "]")[1..];
    assert h1 == h + "]";
    assert LastIndex(h1, ']') == |h|;
  }

  lemma {:induction false} NoOccurrences(s: string, c: char)
    requires c !in s
    ensures Occurrences(s, c) == 0
  {
    if |s| > 0 {
      NoOccurrences(s[1..], c);
    }
  }

  /**
   * The constructor's changes to the transport options: security from the
   * protocol, the hostname unbracketed, the port, and defaults for the path,
   * the timestamp parameter and the query (the URI's parameters when it has
   * any).
   */
  function ConfiguredBase(b: T.Options, url: Url): (r: T.Options)
    ensures r.secure <==> url.protocol == "https" || url.protocol == "wss"
    ensures r.hostname == Hostname(url.host) && r.port == url.port
    ensures r.path != "" && (b.path != "" ==> r.path == b.path)
    ensures r.timestampParam != "" && (b.timestampParam != "" ==> r.timestampParam == b.timestampParam)
    ensures |url.parameters| > 0 ==> r.query == url.parameters
    ensures |url.parameters| == 0 ==> r.query == b.query
    ensures r.timestampRequests == b.timestampRequests && r.extraHeaders == b.extraHeaders
  {
    b.(secure := url.protocol == "https" || url.protocol == "wss",
       hostname := Hostname(url.host),
       port := url.port,
       path := if b.path == "" then DefaultPath else b.path,
       timestampParam := if b.timestampParam == "" then DefaultTimestampParam else b.timestampParam,
       query := if |url.parameters| > 0 then url.parameters else b.query)
  }

  /** The constructor: configured options, polling then websocket when no transports are listed, and state INIT. */
  function New(opt: Options, url: Url, prior: bool): (e: Engine)
    ensures e.state == Init && e.writeBuffer == [] && e.prevBufferLen == 0 && e.transport.None?
    ensures e.opt.base == ConfiguredBase(opt.base, url)
    ensures |opt.transports| == 0 ==> e.opt.transports == [PollingName, WebSocketName]
    ensures |opt.transports| > 0 ==> e.opt.transports == opt.transports
  {
    var o := opt.(base := ConfiguredBase(opt.base, url),
                  transports := if |opt.transports| == 0 then [PollingName, WebSocketName] else opt.transports);
    Engine(o, Init, "", [], 0, 0, None, false, false, [], 0, false, None, 0, 0, 0, [], 0, prior)
  }

  // ---------------------------------------------------------------------
  // Transports

  /**
   * The query a new transport is created with: the socket's query with
   * EIO=4, the transport's name and the session id, if any; every other
   * parameter is the socket's.
   */
  function TransportQuery(opt: Options, id: string, name: string): (q: Entries<string, string>)
    ensures Lookup(q, EioKey) == Some(EioVersion) && Lookup(q, TransportKey) == Some(name)
    ensures id != "" ==> Lookup(q, SidKey) == Some(id)
    ensures id == "" ==> Lookup(q, SidKey) == Lookup(opt.base.query, SidKey)
    ensures forall k :: k != EioKey && k != TransportKey && k != SidKey ==> Lookup(q, k) == Lookup(opt.base.query, k)
  {
    var q := Put(Put(opt.base.query, EioKey, EioVersion), TransportKey, name);
    if id != "" then Put(q, SidKey, id) else q
  }

  /**
   * `createTransport(name)`: the options for the transport. A per-transport
   * entry, when present, supplies every scalar option; the query and the
   * extra headers always come from the socket.
   */
  function TransportOptions(opt: Options, id: string, name: string): T.Options
  {
    var src := match Lookup(opt.transportOptions, name)
      case Some(o) => o
      case None => opt.base;
    T.Options(src.secure, src.hostname, src.port, src.path, src.timestampRequests, src.timestampParam,
              TransportQuery(opt, id, name), opt.base.extraHeaders)
  }

  /** Where a created transport's options come from. */
  lemma TransportOptionsSource(opt: Options, id: string, name: string)
    ensures var o := TransportOptions(opt, id, name);
            var src := if Lookup(opt.transportOptions, name).Some? then Lookup(opt.transportOptions, name).value else opt.base;
            o.secure == src.secure && o.hostname == src.hostname && o.port == src.port && o.path == src.path
            && o.timestampRequests == src.timestampRequests && o.timestampParam == src.timestampParam
            && o.extraHeaders == opt.base.extraHeaders && o.query == TransportQuery(opt, id, name)
  {
  }

  /** `createTransport(name)`: the next transport, announced by the transport event. */
  function CreateTransport(e: Engine, name: string): (r: (Engine, TransportRef, seq<Output>))
    ensures r.1.tid == e.nextTransport && r.1.name == name && r.1.opts == TransportOptions(e.opt, e.id, name)
    ensures r.0 == e.(nextTransport := e.nextTransport + 1)
    ensures r.2 == [Created(r.1.tid, name, r.1.opts), Emitted(EventTransport, TransportArg(r.1.tid, name))]
  {
    var t := TransportRef(e.nextTransport, name, TransportOptions(e.opt, e.id, name));
    (e.(nextTransport := e.nextTransport + 1), t, [Created(t.tid, name, t.opts), Emitted(EventTransport, TransportArg(t.tid, name))])
  }

  /** `setTransport(t)`: the listeners move from the old transport to `t`. */
  function SetTransport(e: Engine, t: TransportRef): (r: Engine)
    ensures r.transport == Some(t) && r.subscribed
  {
    e.(transport := Some(t), subscribed := true)
  }

  /** The transport `open()` starts with: websocket when a previous websocket connection succeeded and upgrades are remembered, else the first listed. */
  function ChooseTransport(opt: Options, prior: bool): (name: string)
    requires |opt.transports| > 0
    ensures name == WebSocketName <==>
              (opt.rememberUpgrade && prior && WebSocketName in opt.transports) || opt.transports[0] == WebSocketName
    ensures name in opt.transports
  {
    if opt.rememberUpgrade && prior && WebSocketName in opt.transports then WebSocketName else opt.transports[0]
  }

  /** `open()`: from INIT or CLOSED, OPENING with a new transport, which is opened. */
  function OpenSocket(e: Engine): (r: (Engine, seq<Output>))
    ensures !(e.state == Init || e.state == Closed) ==> r == (e, [])
    ensures (e.state == Init || e.state == Closed) && |e.opt.transports| > 0 ==>
              r.0.state == Opening && r.0.subscribed && r.0.transport == Some(TransportRef(e.nextTransport,
                ChooseTransport(e.opt, e.prior), TransportOptions(e.opt, e.id, ChooseTransport(e.opt, e.prior))))
              && |r.1| == 3 && r.1[2] == OpenTransport(e.nextTransport)
              && r.0.writeBuffer == e.writeBuffer && r.0.prevBufferLen == e.prevBufferLen
  {
    if !(e.state == Init || e.state == Closed) then (e, [])
    else if |e.opt.transports| == 0 then (e, [Fault("index out of bounds")])
    else
      var name := ChooseTransport(e.opt, e.prior);
      var (e1, t, outs) := CreateTransport(e.(state := Opening), name);
      (SetTransport(e1, t), outs + [OpenTransport(t.tid)])
  }

  /** `filterUpgrades(upgrades)`: in order, the names the socket may use other than the active transport's. */
  function FilterUpgrades(transports: seq<string>, current: Option<string>, upgrades: seq<string>): (r: seq<string>)
    ensures |r| <= |upgrades|
  {
    if |upgrades| == 0 then []
    else
      var rest := FilterUpgrades(transports, current, upgrades[1..]);
      if upgrades[0] in transports && Some(upgrades[0]) != current then [upgrades[0]] + rest else rest
  }

  /** A name survives the filter exactly when the server offered it, the socket may use it, and it is not the active transport. */
  lemma {:induction false} FilterUpgradesMembers(transports: seq<string>, current: Option<string>, upgrades: seq<string>, x: string)
    ensures x in FilterUpgrades(transports, current, upgrades) <==> x in upgrades && x in transports && Some(x) != current
  {
    if |upgrades| > 0 {
      FilterUpgradesMembers(transports, current, upgrades[1..], x);
      assert upgrades == [upgrades[0]] + upgrades[1..];
    }
  }

  /** Filtering distributes over concatenation, so it keeps the server's order. */
  lemma {:induction false} FilterUpgradesAppend(transports: seq<string>, current: Option<string>, a: seq<string>, b: seq<string>)
    ensures FilterUpgrades(transports, current, a + b)
            == FilterUpgrades(transports, current, a) + FilterUpgrades(transports, current, b)
  {
    if |a| > 0 {
      assert (a + b)[0] == a[0];
      assert (a + b)[1..] == a[1..] + b;
      FilterUpgradesAppend(transports, current, a[1..], b);
    } else {
      assert a + b == b;
    }
  }

  // ---------------------------------------------------------------------
  // Writing

  /** The packets of the `SendTo` outputs, in order. */
  function Sent(outs: seq<Output>): seq<T.Packet>
  {
    if |outs| == 0 then []
    else (if outs[0].SendTo? then outs[0].packets else []) + Sent(outs[1..])
  }

  lemma {:induction false} SentAppend(a: seq<Output>, b: seq<Output>)
    ensures Sent(a + b) == Sent(a) + Sent(b)
  {
    if |a| > 0 {
      assert (a + b)[0] == a[0];
      assert (a + b)[1..] == a[1..] + b;
      SentAppend(a[1..], b);
    } else {
      assert a + b == b;
    }
  }

  lemma SentOne(x: Output)
    ensures Sent([x]) == if x.SendTo? then x.packets else []
  {
    assert [x][1..] == [];
  }

  /** The conditions under which `flush()` hands packets over. */
  predicate CanFlush(e: Engine, env: Env)
  {
    e.state != Closed && e.transport.Some? && env.writable(e.transport.value.tid) && !e.upgrading
    && |e.writeBuffer| > e.prevBufferLen
  }

  /**
   * `flush()`: when the socket is not CLOSED, the transport is writable, no
   * upgrade runs and unflushed packets exist, exactly the unflushed packets
   * go to the transport and the watermark moves to the end of the buffer.
   * A negative watermark makes the slice fail.
   */
  function Flush(e: Engine, env: Env): (r: (Engine, seq<Output>))
    ensures Valid(e) ==> Valid(r.0)
    ensures r.0 == e.(prevBufferLen := r.0.prevBufferLen)
    ensures Valid(e) && CanFlush(e, env) ==>
              r.0 == e.(prevBufferLen := |e.writeBuffer|)
              && r.1 == [SendTo(e.transport.value.tid, e.writeBuffer[e.prevBufferLen..]), Emitted(EventFlush, NoArg)]
    ensures !CanFlush(e, env) ==> r == (e, [])
    ensures Valid(e) ==> Sent(r.1) + r.0.writeBuffer[r.0.prevBufferLen..] == e.writeBuffer[e.prevBufferLen..]
  {
    if CanFlush(e, env) then
      if e.prevBufferLen < 0 then (e, [Fault("index out of bounds")])
      else
        var packets := e.writeBuffer[e.prevBufferLen..];
        var outs := [SendTo(e.transport.value.tid, packets), Emitted(EventFlush, NoArg)];
        SentOne(outs[0]);
        SentOne(outs[1]);
        SentAppend([outs[0]], [outs[1]]);
        assert outs == [outs[0]] + [outs[1]];
        (e.(prevBufferLen := |e.writeBuffer|), outs)
    else (e, [])
  }

  /**
   * `sendPackets(packets)`: dropped unless OPENING or OPEN; otherwise
   * announced by packetCreate, appended to the buffer in order and flushed.
   */
  function SendPackets(e: Engine, packets: seq<T.Packet>, env: Env): (r: (Engine, seq<Output>))
    ensures Valid(e) ==> Valid(r.0)
    ensures r.0 == e.(writeBuffer := r.0.writeBuffer, prevBufferLen := r.0.prevBufferLen)
    ensures !(e.state == Opening || e.state == Open) ==> r == (e, [])
    ensures (e.state == Opening || e.state == Open) ==>
              r.0.writeBuffer == e.writeBuffer + packets
              && |r.1| > 0 && r.1[0] == Emitted(EventPacketCreate, CountArg(|packets|))
  {
    if !(e.state == Opening || e.state == Open) then (e, [])
    else
      var (e2, o2) := Flush(e.(writeBuffer := e.writeBuffer + packets), env);
      (e2, [Emitted(EventPacketCreate, CountArg(|packets|))] + o2)
  }

  /**
   * What `sendPackets` hands to the transport followed by what it leaves
   * unflushed is what was unflushed before followed by the new packets:
   * nothing is lost, duplicated or reordered.
   */
  lemma SendPacketsConserves(e: Engine, packets: seq<T.Packet>, env: Env)
    requires Valid(e) && (e.state == Opening || e.state == Open)
    ensures var (e', outs) := SendPackets(e, packets, env);
            Sent(outs) + e'.writeBuffer[e'.prevBufferLen..] == e.writeBuffer[e.prevBufferLen..] + packets
  {
    var e1 := e.(writeBuffer := e.writeBuffer + packets);
    assert e1.writeBuffer[e.prevBufferLen..] == e.writeBuffer[e.prevBufferLen..] + packets;
    var (e2, o2) := Flush(e1, env);
    var head := Emitted(EventPacketCreate, CountArg(|packets|));
    SentOne(head);
    SentAppend([head], o2);
  }

  /** The waiters of `close()` that run when drain is emitted: each waits on for the upgrade if one runs, else closes. */
  function RunDrainWaiters(e: Engine): (r: (Engine, seq<Output>))
    ensures Valid(e) ==> Valid(r.0)
    ensures r.0.drainWaiters == 0
    ensures e.drainWaiters == 0 ==> r == (e, [])
    ensures e.drainWaiters > 0 && e.upgrading ==> r == (e.(drainWaiters := 0, upgradeWaiters := e.upgradeWaiters + e.drainWaiters), [])
    ensures e.drainWaiters > 0 && !e.upgrading && Active(e) ==> r.0.state == Closed && Emitted(EventClose, TextArg(ForceClose)) in r.1
  {
    var n := e.drainWaiters;
    var e1 := e.(drainWaiters := 0);
    if n == 0 then (e, [])
    else if e.upgrading then (e1.(upgradeWaiters := e.upgradeWaiters + n), [])
    else CloseActions(e1, n)
  }

  /** The loop of `onDrain(len)`: `len` packets leave the front of the buffer (none for a negative `len`) and the watermark drops by `len`. */
  function RemoveDrained(e: Engine, len: int): (r: Engine)
    requires len <= |e.writeBuffer|
    ensures len >= 0 ==> r.writeBuffer == e.writeBuffer[len..]
    ensures r.prevBufferLen == e.prevBufferLen - len
    ensures r == e.(writeBuffer := r.writeBuffer, prevBufferLen := r.prevBufferLen)
  {
    e.(writeBuffer := e.writeBuffer[if len > 0 then len else 0..], prevBufferLen := e.prevBufferLen - len)
  }

  /**
   * `onDrain(len)`: the drained packets are removed; then drain is emitted
   * if the buffer is empty, and otherwise unflushed packets are flushed.
   * Removing more packets than the buffer holds fails after emptying it.
   */
  function OnDrain(e: Engine, len: int, env: Env): (r: (Engine, seq<Output>))
    ensures len > |e.writeBuffer| ==> r == (e.(writeBuffer := []), [Fault(EmptyBuffer)])
    ensures 0 <= len == |e.writeBuffer| ==> |r.1| > 0 && r.1[0] == Emitted(EventDrain, NoArg) && r.0.drainWaiters == 0
  {
    if len > |e.writeBuffer| then (e.(writeBuffer := []), [Fault(EmptyBuffer)])
    else
      var e1 := RemoveDrained(e, len);
      if |e1.writeBuffer| == 0 then
        var (e2, o2) := RunDrainWaiters(e1);
        (e2, [Emitted(EventDrain, NoArg)] + o2)
      else if |e1.writeBuffer| > e1.prevBufferLen then Flush(e1, env)
      else (e1, [])
  }

  /**
   * A drain of at most the flushed packets keeps the watermark in the
   * buffer; while packets remain, it hands on exactly the unflushed ones, so
   * what was sent followed by what is still unsent is what was unsent before.
   */
  lemma OnDrainKeepsOrder(e: Engine, len: int, env: Env)
    requires Valid(e) && 0 <= len <= e.prevBufferLen
    ensures Valid(OnDrain(e, len, env).0)
    ensures len < |e.writeBuffer| || e.drainWaiters == 0 ==>
              var (e', outs) := OnDrain(e, len, env);
              e' == e.(writeBuffer := e.writeBuffer[len..], prevBufferLen := e'.prevBufferLen)
              && Sent(outs) + e'.writeBuffer[e'.prevBufferLen..] == e.writeBuffer[e.prevBufferLen..]
  {
    var e1 := RemoveDrained(e, len);
    assert Valid(e1);
    assert e1.writeBuffer[e1.prevBufferLen..] == e.writeBuffer[e.prevBufferLen..];
    if |e1.writeBuffer| == 0 && e.drainWaiters == 0 {
      SentOne(Emitted(EventDrain, NoArg));
      assert [Emitted(EventDrain, NoArg)] + [] == [Emitted(EventDrain, NoArg)];
    } else if len < |e.writeBuffer| && |e1.writeBuffer| <= e1.prevBufferLen {
      assert Sent([]) == [];
    }
  }

  // ---------------------------------------------------------------------
  // Closing

  /**
   * `onClose(reason)`: nothing unless OPENING, OPEN or CLOSING. Otherwise
   * the ping timer stops, the transport is told to close and unsubscribed,
   * the socket becomes CLOSED without an id, close is emitted (so probes
   * still hooked on it fail), and only then the buffer is emptied.
   */
  function OnClose(e: Engine, reason: string): (r: (Engine, seq<Output>))
    ensures !Active(e) ==> r == (e, [])
    ensures Active(e) ==> r.0.state == Closed && r.0.id == "" && !r.0.subscribed && r.0.pingTimer.None?
                          && r.0.writeBuffer == [] && r.0.prevBufferLen == 0 && r.0.upgradeWaiters <= e.upgradeWaiters
    ensures Active(e) && e.transport.Some? ==> CloseTransport(e.transport.value.tid) in r.1
    ensures Active(e) ==> Emitted(EventClose, TextArg(reason)) in r.1
    ensures r.0.transport == e.transport && r.0.upgrading == e.upgrading && r.0.drainWaiters == e.drainWaiters
    ensures |r.0.probes| == |e.probes| && r.0.prior == e.prior && r.0.heartbeat == e.heartbeat
    ensures Active(e) && NoneHooked(e, 0) ==> r.1 == CloseStops(e) + [Emitted(EventClose, TextArg(reason))]
    ensures ProbesKept(e, r.0)
  {
    if !Active(e) then (e, [])
    else
      var stop := CloseStops(e);
      var e1 := e.(pingTimer := None, subscribed := false, state := Closed, id := "");
      var (e2, o2) := FailProbesOnClose(e1, 0);
      var outs := stop + [Emitted(EventClose, TextArg(reason))] + o2;
      assert Emitted(EventClose, TextArg(reason)) == outs[|stop|];
      assert e.transport.Some? ==> CloseTransport(e.transport.value.tid) == outs[|stop| - 1];
      (e2.(writeBuffer := [], prevBufferLen := 0), outs)
  }

  /** What `onClose` tells the ping timer and the transport. */
  function CloseStops(e: Engine): (r: seq<Output>)
  {
    (if e.pingTimer.Some? then [CancelPingTimer] else [])
    + (if e.transport.Some? then [CloseTransport(e.transport.value.tid)] else [])
  }

  /**
   * `freezeTransport` on one probe: a probe not yet failed fails, loses its
   * listeners and has its transport closed; a failed probe stays as it is.
   */
  function FreezeProbe(p: Probe): (r: (Probe, seq<Output>))
    ensures r.0.failed && r.0.phase == p.phase && r.0.transport == p.transport
    ensures !p.failed ==> !r.0.hooked && !r.0.upgradingHooked && r.1 == [CloseTransport(p.transport.tid)]
    ensures p.failed ==> r == (p, [])
  {
    if p.failed then (p, [])
    else (p.(failed := true, hooked := false, upgradingHooked := false), [CloseTransport(p.transport.tid)])
  }

  /** `freezeTransport` of probe `i`; the other probes are untouched. */
  function Freeze(e: Engine, i: nat): (r: (Engine, seq<Output>))
    requires i < |e.probes|
    ensures r == (e.(probes := e.probes[i := FreezeProbe(e.probes[i]).0]), FreezeProbe(e.probes[i]).1)
  {
    var (p, outs) := FreezeProbe(e.probes[i]);
    (e.(probes := e.probes[i := p]), outs)
  }

  /**
   * The reaction of the probes to the socket's close event, from probe `i`
   * on: each probe still hooked fails and reports upgradeError. The close
   * waiters that upgradeError wakes call `onClose`, which finds the socket
   * CLOSED and does nothing (`OnCloseWhenClosed`), so they are only dropped.
   */
  function FailProbesOnClose(e: Engine, i: nat): (r: (Engine, seq<Output>))
    requires e.state == Closed
    requires i <= |e.probes|
    ensures r.0 == e.(probes := r.0.probes, upgradeWaiters := r.0.upgradeWaiters)
    ensures r.0.upgradeWaiters <= e.upgradeWaiters
    ensures NoneHooked(e, i) ==> r == (e, [])
    ensures ProbesKept(e, r.0)
    decreases |e.probes| - i
  {
    if i == |e.probes| then (e, [])
    else if e.probes[i].hooked then
      var (e1, o1) := Freeze(e, i);
      var e2 := e1.(upgradeWaiters := 0);
      var (e3, o3) := FailProbesOnClose(e2, i + 1);
      (e3, o1 + [Emitted(EventUpgradeError, TextArg(ProbeError))] + o3)
    else
      FailProbesOnClose(e, i + 1)
  }

  /**
   * From `e` to `e2` no probe was added or removed, every probe kept its
   * transport and phase, and the probes without listeners are untouched.
   */
  predicate ProbesKept(e: Engine, e2: Engine)
  {
    |e2.probes| == |e.probes|
    && forall j :: 0 <= j < |e.probes| ==>
         e2.probes[j].transport == e.probes[j].transport && e2.probes[j].phase == e.probes[j].phase
         && (!e.probes[j].hooked ==> e2.probes[j] == e.probes[j])
  }

  /** No probe from `i` on still listens to the socket's close event. */
  predicate NoneHooked(e: Engine, i: nat)
  {
    forall j :: i <= j < |e.probes| ==> !e.probes[j].hooked
  }

  /** A socket that is not active ignores `onClose`; this is why the nested close actions above are no-ops. */
  lemma OnCloseWhenClosed(e: Engine, reason: string)
    requires e.state == Closed
    ensures OnClose(e, reason) == (e, [])
  {
  }

  /** `n` close actions of `close()` waiters: `onClose("force close")` each time. */
  function CloseActions(e: Engine, n: nat): (r: (Engine, seq<Output>))
    ensures n == 0 ==> r == (e, [])
    ensures n > 0 && Active(e) ==> r.0.state == Closed && r.0.writeBuffer == [] && r.0.prevBufferLen == 0
    ensures n > 0 && !Active(e) ==> r == (e, [])
    ensures r.0.transport == e.transport && r.0.upgrading == e.upgrading && r.0.drainWaiters == e.drainWaiters
    ensures |r.0.probes| == |e.probes| && r.0.upgradeWaiters <= e.upgradeWaiters && r.0.prior == e.prior
    ensures Valid(e) ==> Valid(r.0)
    ensures n > 0 && Active(e) ==> !r.0.subscribed && Emitted(EventClose, TextArg(ForceClose)) in r.1
    ensures n > 0 && Active(e) && e.transport.Some? ==> CloseTransport(e.transport.value.tid) in r.1
    ensures n > 0 && Active(e) && NoneHooked(e, 0) ==> r.1 == CloseStops(e) + [Emitted(EventClose, TextArg(ForceClose))]
    ensures ProbesKept(e, r.0)
    decreases n
  {
    if n == 0 then (e, [])
    else
      var (e1, o1) := OnClose(e, ForceClose);
      var (e2, o2) := CloseActions(e1, n - 1);
      assert !Active(e) ==> o1 + o2 == [];
      (e2, o1 + o2)
  }

  /** Emitting upgrade or upgradeError: the external listeners, then every `close()` waiter for either, which closes. */
  function EmitUpgradeEvent(e: Engine, event: string, arg: Arg): (r: (Engine, seq<Output>))
    ensures r.0.upgradeWaiters == 0 || !Active(e)
    ensures |r.1| > 0 && r.1[0] == Emitted(event, arg)
    ensures e.upgradeWaiters > 0 && Active(e) ==> r.0.state == Closed
    ensures e.upgradeWaiters == 0 ==> r == (e, [Emitted(event, arg)])
    ensures r.0.transport == e.transport && r.0.upgrading == e.upgrading && r.0.drainWaiters == e.drainWaiters
    ensures |r.0.probes| == |e.probes| && r.0.prior == e.prior
    ensures e.upgradeWaiters > 0 && Active(e) ==> !r.0.subscribed
    ensures e.upgradeWaiters > 0 && Active(e) && e.transport.Some? ==> CloseTransport(e.transport.value.tid) in r.1
    ensures ProbesKept(e, r.0)
  {
    var (e1, o1) := CloseActions(e.(upgradeWaiters := 0), e.upgradeWaiters);
    assert e.upgradeWaiters == 0 ==> e.(upgradeWaiters := 0) == e && [Emitted(event, arg)] + o1 == [Emitted(event, arg)];
    (e1, [Emitted(event, arg)] + o1)
  }

  /**
   * `close()`: nothing unless OPENING or OPEN; otherwise CLOSING, and the
   * socket closes now, or after the buffer drains, or after the running
   * upgrade ends, whichever applies first in that order.
   */
  function Close(e: Engine): (r: (Engine, seq<Output>))
    ensures !(e.state == Opening || e.state == Open) ==> r == (e, [])
    ensures (e.state == Opening || e.state == Open) && |e.writeBuffer| > 0 ==>
              r == (e.(state := Closing, drainWaiters := e.drainWaiters + 1), [])
    ensures (e.state == Opening || e.state == Open) && |e.writeBuffer| == 0 && e.upgrading ==>
              r == (e.(state := Closing, upgradeWaiters := e.upgradeWaiters + 1), [])
    ensures (e.state == Opening || e.state == Open) && |e.writeBuffer| == 0 && !e.upgrading ==>
              r.0.state == Closed && Emitted(EventClose, TextArg(ForceClose)) in r.1
  {
    if !(e.state == Opening || e.state == Open) then (e, [])
    else
      var e1 := e.(state := Closing);
      if |e.writeBuffer| > 0 then (e1.(drainWaiters := e.drainWaiters + 1), [])
      else if e.upgrading then (e1.(upgradeWaiters := e.upgradeWaiters + 1), [])
      else OnClose(e1, ForceClose)
  }

  /** The reason `onError` closes with. */
  function ErrorReason(msg: string): string
  {
    "transport onError: `" + msg + "`"
  }

  /** `onError(msg)`: websocket success is forgotten, error is emitted and the socket closes. */
  function OnError(e: Engine, msg: string): (r: (Engine, seq<Output>))
    ensures !r.0.prior
    ensures |r.1| > 0 && r.1[0] == Emitted(EventError, TextArg(msg))
    ensures Active(e) ==> r.0.state == Closed && Emitted(EventClose, TextArg(ErrorReason(msg))) in r.1
  {
    var (e1, o1) := OnClose(e.(prior := false), ErrorReason(msg));
    (e1, [Emitted(EventError, TextArg(msg))] + o1)
  }

  // ---------------------------------------------------------------------
  // Receiving

  /**
   * `onHeartBeat()`: the ping timer restarts with the server's interval plus
   * timeout. Both are `Int`s, added in 32 bits before the widening to `Long`,
   * so a sum above `Int.MAX_VALUE` gives a negative delay (which `delay`
   * treats as none at all).
   */
  function OnHeartBeat(e: Engine): (r: (Engine, seq<Output>))
    ensures r.0 == e.(pingTimer := Some(e.nextTimer), nextTimer := e.nextTimer + 1)
    ensures |r.1| > 0 && r.1[|r.1| - 1] == StartPingTimer(e.nextTimer, AddInt32(e.pingInterval, e.pingTimeout))
    ensures e.pingTimer.Some? <==> r.1[0] == CancelPingTimer
  {
    var stop := if e.pingTimer.Some? then [CancelPingTimer] else [];
    (e.(pingTimer := Some(e.nextTimer), nextTimer := e.nextTimer + 1), stop + [StartPingTimer(e.nextTimer, AddInt32(e.pingInterval, e.pingTimeout))])
  }

  /**
   * A server whose interval and timeout add up to more than `Int.MAX_VALUE`
   * milliseconds gets a ping timer with a negative delay, one that expires at once.
   */
  lemma PingDelayWraps(e: Engine)
    requires 0 <= e.pingInterval < 0x8000_0000 && 0 <= e.pingTimeout < 0x8000_0000
    ensures var last := OnHeartBeat(e).1[|OnHeartBeat(e).1| - 1];
            && (last.delay < 0 <==> e.pingInterval + e.pingTimeout >= 0x8000_0000)
            && (last.delay >= 0 ==> last.delay == e.pingInterval + e.pingTimeout)
  {
    AddInt32Overflows(e.pingInterval, e.pingTimeout);
  }

  /** Emitting heartbeat: the external listeners, then the heartbeat listener once the handshake registered it. */
  function EmitHeartbeat(e: Engine): (r: (Engine, seq<Output>))
    ensures |r.1| > 0 && r.1[0] == Emitted(EventHeartbeat, NoArg)
    ensures e.heartbeat ==> r.0.pingTimer == Some(e.nextTimer)
    ensures !e.heartbeat ==> r == (e, [Emitted(EventHeartbeat, NoArg)])
    ensures r.0 == e.(pingTimer := r.0.pingTimer, nextTimer := r.0.nextTimer)
  {
    if e.heartbeat then
      var (e1, o1) := OnHeartBeat(e);
      (e1, [Emitted(EventHeartbeat, NoArg)] + o1)
    else (e, [Emitted(EventHeartbeat, NoArg)])
  }

  /** `probe(name)`: a new transport, hooked and opened; a previous websocket success is forgotten. */
  function StartProbe(e: Engine, name: string): (r: (Engine, seq<Output>))
    ensures |r.0.probes| == |e.probes| + 1 && r.0.probes[..|e.probes|] == e.probes
    ensures r.0.probes[|e.probes|] == Probe(TransportRef(e.nextTransport, name, TransportOptions(e.opt, e.id, name)), AwaitOpen, false, true, true)
    ensures r.0 == e.(probes := r.0.probes, nextTransport := e.nextTransport + 1, prior := false)
    ensures r.1 == [Created(e.nextTransport, name, TransportOptions(e.opt, e.id, name)),
                    Emitted(EventTransport, TransportArg(e.nextTransport, name)), OpenTransport(e.nextTransport)]
  {
    var c := CreateTransport(e, name);
    var probe := Probe(c.1, AwaitOpen, false, true, true);
    assert (e.probes + [probe])[..|e.probes|] == e.probes;
    (c.0.(probes := e.probes + [probe], prior := false), c.2 + [OpenTransport(c.1.tid)])
  }

  /** One probe per name, in order. */
  function StartProbes(e: Engine, names: seq<string>): (r: (Engine, seq<Output>))
    ensures |r.0.probes| == |e.probes| + |names| && r.0.probes[..|e.probes|] == e.probes
    ensures r.0 == e.(probes := r.0.probes, nextTransport := e.nextTransport + |names|, prior := r.0.prior)
    ensures |names| > 0 ==> !r.0.prior
    decreases |names|
  {
    if |names| == 0 then (e, [])
    else
      var (e1, o1) := StartProbe(e, names[0]);
      var (e2, o2) := StartProbes(e1, names[1..]);
      assert e2.probes[..|e.probes|] == e2.probes[..|e1.probes|][..|e.probes|];
      (e2, o1 + o2)
  }

  /**
   * `onOpen()`: OPEN, websocket success remembered iff the transport is a
   * websocket, open emitted, the buffer flushed, and probes started for the
   * upgrades when upgrading is enabled and the transport is polling.
   */
  function OnOpenSocket(e: Engine, env: Env): (r: (Engine, seq<Output>))
    ensures r.0.state == Open
    ensures |r.1| > 0 && r.1[0] == Emitted(EventOpen, NoArg)
    ensures var starts := e.opt.upgrade && e.transport.Some? && e.transport.value.name == PollingName && |e.upgrades| > 0;
            |r.0.probes| == |e.probes| + (if starts then |e.upgrades| else 0)
    ensures r.0.prior <==> e.transport.Some? && e.transport.value.name == WebSocketName
    ensures r.0 == e.(state := Open, prior := r.0.prior, prevBufferLen := r.0.prevBufferLen, probes := r.0.probes,
                      nextTransport := r.0.nextTransport)
  {
    var cur := e.transport;
    var e1 := e.(state := Open, prior := cur.Some? && cur.value.name == WebSocketName);
    var (e2, o2) := Flush(e1, env);
    if e.opt.upgrade && cur.Some? && cur.value.name == PollingName && |e.upgrades| > 0 then
      var (e3, o3) := StartProbes(e2, e.upgrades);
      (e3, [Emitted(EventOpen, NoArg)] + o2 + o3)
    else (e2, [Emitted(EventOpen, NoArg)] + o2)
  }

  /** `transport?.opt?.query?.set(SID, id)`: the transport's query gets the session id. */
  function WithSid(t: Option<TransportRef>, sid: string): (r: Option<TransportRef>)
    ensures r.Some? <==> t.Some?
    ensures t.Some? ==> r.value.tid == t.value.tid && r.value.name == t.value.name
                        && Lookup(r.value.opts.query, SidKey) == Some(sid)
  {
    match t
    case Some(cur) => Some(cur.(opts := cur.opts.(query := Put(cur.opts.query, SidKey, sid))))
    case None => None
  }

  /**
   * The handshake's effect before the socket opens: the session id recorded
   * (and set in the transport's query), the server's upgrades filtered and
   * its intervals taken.
   */
  function Negotiate(e: Engine, h: T.Handshake): (r: Engine)
    ensures r.id == h.sid && r.pingInterval == h.pingInterval && r.pingTimeout == h.pingTimeout
    ensures r.upgrades == FilterUpgrades(e.opt.transports, if e.transport.Some? then Some(e.transport.value.name) else None, h.upgrades)
    ensures r.transport == WithSid(e.transport, h.sid)
    ensures r == e.(id := r.id, transport := r.transport, upgrades := r.upgrades, pingInterval := r.pingInterval,
                    pingTimeout := r.pingTimeout)
  {
    var cur := e.transport;
    e.(id := h.sid, transport := WithSid(cur, h.sid),
       upgrades := FilterUpgrades(e.opt.transports, if cur.Some? then Some(cur.value.name) else None, h.upgrades),
       pingInterval := h.pingInterval, pingTimeout := h.pingTimeout)
  }

  /**
   * `onHandshake(open)`: handshake emitted, the session negotiated, the
   * socket opened; then the heartbeat listener is registered and the ping
   * timer started with the server's interval plus timeout, added in 32 bits.
   */
  function OnHandshake(e: Engine, h: T.Handshake, env: Env): (r: (Engine, seq<Output>))
    ensures r.0.state == Open && r.0.id == h.sid && r.0.heartbeat
    ensures r.0.pingTimer == Some(e.nextTimer)
    ensures |r.1| > 1 && r.1[0] == Emitted(EventHandshake, HandshakeArg(h)) && r.1[1] == Emitted(EventOpen, NoArg)
    ensures r.1[|r.1| - 1] == StartPingTimer(e.nextTimer, AddInt32(h.pingInterval, h.pingTimeout))
  {
    var (e2, o2) := OnOpenSocket(Negotiate(e, h), env);
    var (e3, o3) := OnHeartBeat(e2);
    var outs := [Emitted(EventHandshake, HandshakeArg(h))] + o2 + o3;
    assert outs[1] == o2[0];
    assert outs[|outs| - 1] == o3[|o3| - 1];
    (e3.(heartbeat := true), outs)
  }

  /**
   * `onPacket(packet)`: ignored unless OPENING, OPEN or CLOSING; otherwise
   * packet and heartbeat are emitted (restarting the ping timer once the
   * handshake is done), and then an open packet is the handshake, a ping is
   * answered with a pong, and a message or binary payload is emitted as
   * data. A message without payload and every other kind emit nothing more.
   */
  function OnPacket(e: Engine, p: T.Packet, env: Env): (r: (Engine, seq<Output>))
    ensures !Active(e) ==> r == (e, [])
    ensures Active(e) ==> |r.1| >= 2 && r.1[0] == Emitted(EventPacket, PacketArg(p)) && r.1[1] == Emitted(EventHeartbeat, NoArg)
    ensures Active(e) && e.heartbeat && !p.OpenPacket? ==> r.0.pingTimer == Some(e.nextTimer)
    ensures Active(e) && p.OpenPacket? ==> r.0.state == Open && r.0.id == p.handshake.sid
    ensures Active(e) && p.PingPacket? ==> Emitted(EventPing, NoArg) in r.1
    ensures Active(e) && p.PingPacket? && e.state != Closing ==> r.0.writeBuffer == e.writeBuffer + [T.PongPacket(None)]
    ensures Active(e) && !p.OpenPacket? && !(p.PingPacket? && e.state != Closing) ==>
              r.0.writeBuffer == e.writeBuffer && r.0.state == e.state
    ensures Active(e) && p.MessagePacket? && p.message.Some? ==> r.1[|r.1| - 1] == Emitted(EventData, TextArg(p.message.value))
    ensures Active(e) && p.BinaryDataPacket? ==> r.1[|r.1| - 1] == Emitted(EventData, BytesArg(p.bytes))
    ensures Active(e) && (p == T.MessagePacket(None) || p.ClosePacket? || p.PongPacket? || p.UpgradePacket? || p.NoopPacket?) ==>
              forall k :: 0 <= k < |r.1| && r.1[k].Emitted? ==> r.1[k].event == EventPacket || r.1[k].event == EventHeartbeat
  {
    if !Active(e) then (e, [])
    else
      var (e1, o1) := EmitHeartbeat(e);
      var head := [Emitted(EventPacket, PacketArg(p))] + o1;
      assert head[1] == Emitted(EventHeartbeat, NoArg);
      match p
      case OpenPacket(h) =>
        var (e2, o2) := OnHandshake(e1, h, env);
        (e2, head + o2)
      case PingPacket(_) =>
        var (e2, o2) := SendPackets(e1, [T.PongPacket(None)], env);
        (e2, head + [Emitted(EventPing, NoArg)] + o2)
      case BinaryDataPacket(b) => (e1, head + [Emitted(EventData, BytesArg(b))])
      case MessagePacket(m) => if m.Some? then (e1, head + [Emitted(EventData, TextArg(m.value))]) else (e1, head)
      case _ => (e1, head)
  }

  // ---------------------------------------------------------------------
  // Upgrade probes

  /** The first probe running transport `tid`, if any. */
  function ProbeIndex(e: Engine, tid: nat): (r: Option<nat>)
    ensures r.Some? ==> r.value < |e.probes| && e.probes[r.value].transport.tid == tid
    ensures r.None? ==> forall j :: 0 <= j < |e.probes| ==> e.probes[j].transport.tid != tid
  {
    ProbeFrom(e.probes, tid, 0)
  }

  function ProbeFrom(probes: seq<Probe>, tid: nat, i: nat): (r: Option<nat>)
    requires i <= |probes|
    ensures r.Some? ==> i <= r.value < |probes| && probes[r.value].transport.tid == tid
    ensures r.None? ==> forall j :: i <= j < |probes| ==> probes[j].transport.tid != tid
    decreases |probes| - i
  {
    if i == |probes| then None
    else if probes[i].transport.tid == tid then Some(i)
    else ProbeFrom(probes, tid, i + 1)
  }

  function SetPhase(e: Engine, i: nat, phase: Phase): (r: Engine)
    requires i < |e.probes|
  {
    e.(probes := e.probes[i := e.probes[i].(phase := phase)])
  }

  /** The probe's open listener: unless the probe failed, its transport is sent a ping carrying "probe". */
  function ProbeOpened(e: Engine, i: nat): (r: (Engine, seq<Output>))
    requires i < |e.probes|
    ensures r.0 == e.(probes := r.0.probes) && |r.0.probes| == |e.probes|
    ensures e.probes[i].phase == AwaitOpen && !e.probes[i].failed ==>
              r.0.probes[i].phase == AwaitPong && r.1 == [SendTo(e.probes[i].transport.tid, [T.PingPacket(Some(ProbePayload))])]
    ensures !(e.probes[i].phase == AwaitOpen && !e.probes[i].failed) ==> r == (e, [])
  {
    var p := e.probes[i];
    if p.phase == AwaitOpen && !p.failed then
      (SetPhase(e, i, AwaitPong), [SendTo(p.transport.tid, [T.PingPacket(Some(ProbePayload))])])
    else (e, [])
  }

  /**
   * A probe's once-listener on upgrading, when the transport named `name`
   * emits it: the listener is consumed, and a probe of another transport
   * gives up (it is frozen, without upgradeError).
   */
  function UpgradingHook(p: Probe, name: string): (r: (Probe, seq<Output>))
    ensures r.0.phase == p.phase && r.0.transport == p.transport && !r.0.upgradingHooked
    ensures !p.upgradingHooked ==> r == (p, [])
    ensures p.upgradingHooked && p.transport.name == name ==> r == (p.(upgradingHooked := false), [])
    ensures p.upgradingHooked && p.transport.name != name ==> r.0.failed
  {
    if !p.upgradingHooked then (p, [])
    else if p.transport.name == name then (p.(upgradingHooked := false), [])
    else FreezeProbe(p.(upgradingHooked := false))
  }

  /** The upgrading listeners of all probes, in order. */
  function UpgradingHooks(probes: seq<Probe>, name: string): (r: (seq<Probe>, seq<Output>))
    ensures |r.0| == |probes|
    ensures forall k :: 0 <= k < |probes| ==> r.0[k] == UpgradingHook(probes[k], name).0
  {
    if |probes| == 0 then ([], [])
    else
      var (p, o) := UpgradingHook(probes[0], name);
      var (ps, os) := UpgradingHooks(probes[1..], name);
      ([p] + ps, o + os)
  }

  /** Emitting upgrading: the external listeners, then the probes' listeners. */
  function EmitUpgrading(e: Engine, t: TransportRef): (r: (Engine, seq<Output>))
    ensures r.0 == e.(probes := r.0.probes) && |r.0.probes| == |e.probes|
    ensures forall k :: 0 <= k < |e.probes| ==> r.0.probes[k] == UpgradingHook(e.probes[k], t.name).0
    ensures |r.1| > 0 && r.1[0] == Emitted(EventUpgrading, TransportArg(t.tid, t.name))
  {
    var (ps, o1) := UpgradingHooks(e.probes, t.name);
    (e.(probes := ps), [Emitted(EventUpgrading, TransportArg(t.tid, t.name))] + o1)
  }

  /**
   * The probe's once-listener on its transport's next packet. A pong
   * carrying "probe" starts the upgrade: upgrading is set and emitted, a
   * probe that did not fail meanwhile records whether it is a websocket and
   * pauses the current transport. Any other packet rejects the probe with
   * upgradeError. A failed probe ignores the packet.
   */
  function ProbePacket(e: Engine, i: nat, packet: T.Packet): (r: (Engine, seq<Output>))
    requires i < |e.probes|
    ensures |r.0.probes| == |e.probes|
    ensures e.probes[i].phase != AwaitPong ==> r == (e, [])
    ensures e.probes[i].phase == AwaitPong && e.probes[i].failed ==> r == (SetPhase(e, i, Stopped), [])
    ensures e.probes[i].phase == AwaitPong && !e.probes[i].failed && packet == T.PongPacket(Some(ProbePayload)) ==>
              r == ProbeAccepted(e, i)
    ensures e.probes[i].phase == AwaitPong && !e.probes[i].failed && packet != T.PongPacket(Some(ProbePayload)) ==>
              r.0.probes[i].phase == Rejected && |r.1| > 0 && r.1[0] == Emitted(EventUpgradeError, TextArg(ProbeError))
  {
    var p := e.probes[i];
    if p.phase != AwaitPong then (e, [])
    else if p.failed then (SetPhase(e, i, Stopped), [])
    else if packet == T.PongPacket(Some(ProbePayload)) then ProbeAccepted(e, i)
    else EmitUpgradeEvent(SetPhase(e, i, Rejected), EventUpgradeError, TextArg(ProbeError))
  }

  /**
   * The probe's pong arrived: upgrading is set and emitted; a probe that did
   * not fail meanwhile records whether it is a websocket and pauses the
   * current transport, if there is one.
   */
  function ProbeAccepted(e: Engine, i: nat): (r: (Engine, seq<Output>))
    requires i < |e.probes|
    ensures |r.0.probes| == |e.probes| && r.0.upgrading && r.0.probes[i].phase == Pausing
    ensures r.0 == e.(probes := r.0.probes, upgrading := true, prior := r.0.prior)
    ensures forall k :: 0 <= k < |e.probes| ==> r.0.probes[k].transport == e.probes[k].transport
    ensures var p := e.probes[i];
            !p.failed ==>
              !r.0.probes[i].failed && (r.0.prior <==> p.transport.name == WebSocketName)
              && |r.1| > 0 && r.1[0] == Emitted(EventUpgrading, TransportArg(p.transport.tid, p.transport.name))
              && (e.transport.Some? ==> r.1[|r.1| - 1] == PauseTransport(e.transport.value.tid, i))
  {
    var p := e.probes[i];
    var (e1, o1) := EmitUpgrading(SetPhase(e, i, Pausing).(upgrading := true), p.transport);
    if e1.probes[i].failed then (e1, o1)
    else
      var e2 := e1.(prior := p.transport.name == WebSocketName);
      match e2.transport
      case None => (e2, o1)
      case Some(cur) => (e2, o1 + [PauseTransport(cur.tid, i)])
  }

  /**
   * The pause callback: unless the probe failed or the socket closed, the
   * probe's listeners are removed and its transport is sent the upgrade
   * packet, whose drain completes the upgrade.
   */
  function ProbePaused(e: Engine, i: nat): (r: (Engine, seq<Output>))
    requires i < |e.probes|
    ensures r.0 == e.(probes := r.0.probes) && |r.0.probes| == |e.probes|
    ensures e.probes[i].phase != Pausing ==> r == (e, [])
    ensures e.probes[i].phase == Pausing && (e.probes[i].failed || e.state == Closed) ==> r == (SetPhase(e, i, Stopped), [])
    ensures var p := e.probes[i];
            p.phase == Pausing && !p.failed && e.state != Closed ==>
              r.0.probes[i] == p.(phase := AwaitUpgradeDrain, hooked := false, upgradingHooked := false)
              && r.1 == [SendTo(p.transport.tid, [T.UpgradePacket])]
  {
    var p := e.probes[i];
    if p.phase != Pausing then (e, [])
    else if p.failed || e.state == Closed then (SetPhase(e, i, Stopped), [])
    else
      (e.(probes := e.probes[i := p.(phase := AwaitUpgradeDrain, hooked := false, upgradingHooked := false)]),
       [SendTo(p.transport.tid, [T.UpgradePacket])])
  }

  /** The probe's error or close listener: the probe is frozen and upgradeError emitted. */
  function ProbeFail(e: Engine, i: nat): (r: (Engine, seq<Output>))
    requires i < |e.probes|
    ensures |r.0.probes| == |e.probes|
    ensures !e.probes[i].hooked ==> r == (e, [])
    ensures e.probes[i].hooked ==> Emitted(EventUpgradeError, TextArg(ProbeError)) in r.1
    ensures e.probes[i].hooked && !e.probes[i].failed ==>
              r.0.probes[i] == e.probes[i].(failed := true, hooked := false, upgradingHooked := false)
              && r.1[0] == CloseTransport(e.probes[i].transport.tid)
  {
    if !e.probes[i].hooked then (e, [])
    else
      var (e1, o1) := Freeze(e, i);
      var (e2, o2) := EmitUpgradeEvent(e1, EventUpgradeError, TextArg(ProbeError));
      (e2, o1 + o2)
  }

  /**
   * The probe's drain listener, in the order of the source: upgrade is
   * emitted first, so the `close()` waiters it wakes close the socket while
   * the old transport is still the current one; only then does the socket
   * switch to the probe's transport (subscribing to it), end the upgrade and
   * flush.
   */
  function SwapAsWritten(e: Engine, i: nat, env: Env): (r: (Engine, seq<Output>))
    requires i < |e.probes|
    ensures |r.0.probes| == |e.probes|
    ensures e.probes[i].phase != AwaitUpgradeDrain ==> r == (e, [])
    ensures var p := e.probes[i];
            p.phase == AwaitUpgradeDrain ==>
              r.0.transport == Some(p.transport) && r.0.subscribed && !r.0.upgrading && r.0.probes[i].phase == Upgraded
              && |r.1| > 0 && r.1[0] == Emitted(EventUpgrade, TransportArg(p.transport.tid, p.transport.name))
    ensures e.probes[i].phase == AwaitUpgradeDrain && e.upgradeWaiters == 0 ==>
              r.0.state == e.state && r.0.writeBuffer == e.writeBuffer
    ensures e.probes[i].phase == AwaitUpgradeDrain && e.upgradeWaiters > 0 && Active(e) ==>
              r.0.state == Closed && r.0.subscribed
  {
    var p := e.probes[i];
    if p.phase != AwaitUpgradeDrain then (e, [])
    else
      var (e1, o1) := EmitUpgradeEvent(SetPhase(e, i, Upgraded), EventUpgrade, TransportArg(p.transport.tid, p.transport.name));
      var (e2, o2) := Flush(SetTransport(e1, p.transport).(upgrading := false), env);
      (e2, o1 + o2)
  }

  /**
   * The probe's drain listener with the switch made before upgrade is
   * emitted: the probe's transport becomes current and the upgrade ends.
   * Without `close()` waiters the socket stays as it was, subscribed to the
   * new transport; with waiters on an active socket the socket closes, and
   * it is the new transport that it tells to close.
   */
  function Swap(e: Engine, i: nat, env: Env): (r: (Engine, seq<Output>))
    requires i < |e.probes|
    ensures |r.0.probes| == |e.probes|
    ensures e.probes[i].phase != AwaitUpgradeDrain ==> r == (e, [])
    ensures var p := e.probes[i];
            p.phase == AwaitUpgradeDrain ==>
              r.0.transport == Some(p.transport) && !r.0.upgrading && r.0.probes[i].phase == Upgraded
              && |r.1| > 0 && r.1[0] == Emitted(EventUpgrade, TransportArg(p.transport.tid, p.transport.name))
    ensures e.probes[i].phase == AwaitUpgradeDrain && e.upgradeWaiters == 0 ==>
              r.0.subscribed && r.0.state == e.state && r.0.writeBuffer == e.writeBuffer
    ensures e.probes[i].phase == AwaitUpgradeDrain && e.upgradeWaiters > 0 && Active(e) ==>
              r.0.state == Closed && !r.0.subscribed && CloseTransport(e.probes[i].transport.tid) in r.1
  {
    var p := e.probes[i];
    if p.phase != AwaitUpgradeDrain then (e, [])
    else
      var e1 := SetTransport(SetPhase(e, i, Upgraded), p.transport);
      var (e2, o2) := EmitUpgradeEvent(e1, EventUpgrade, TransportArg(p.transport.tid, p.transport.name));
      var (e3, o3) := Flush(e2.(upgrading := false), env);
      (e3, o2 + o3)
  }

  /**
   * A `close()` that waits for a running upgrade, with the drain listener as
   * written: the socket ends CLOSED yet subscribed to the probe's transport,
   * which it never tells to close (only the old transport is told).
   */
  lemma SwapAsWrittenLeaksTransport(e: Engine, i: nat, env: Env)
    requires i < |e.probes| && e.probes[i].phase == AwaitUpgradeDrain
    requires e.state == Closing && e.upgradeWaiters > 0 && NoneHooked(e, 0)
    requires e.transport.Some? && e.transport.value.tid != e.probes[i].transport.tid
    ensures var (e', outs) := SwapAsWritten(e, i, env);
            e'.state == Closed && e'.transport == Some(e.probes[i].transport) && e'.subscribed
            && CloseTransport(e.probes[i].transport.tid) !in outs
  {
    var p := e.probes[i];
    var e0 := SetPhase(e, i, Upgraded).(upgradeWaiters := 0);
    assert NoneHooked(e0, 0);
    var (e1, o1) := CloseActions(e0, e.upgradeWaiters);
    assert o1 == CloseStops(e0) + [Emitted(EventClose, TextArg(ForceClose))];
    var outs := [Emitted(EventUpgrade, TransportArg(p.transport.tid, p.transport.name))] + o1;
    assert CloseTransport(p.transport.tid) !in outs;
    var (e2, o2) := Flush(SetTransport(e1, p.transport).(upgrading := false), env);
    assert o2 == [];
    assert SwapAsWritten(e, i, env) == (e2, outs + o2);
    assert outs + o2 == outs;
  }

  /** The ping timer: only the timer last started acts, and it closes a socket still active. */
  function OnPingTimer(e: Engine, timer: nat): (r: (Engine, seq<Output>))
    ensures e.pingTimer != Some(timer) || !Active(e) ==> r == (e, [])
    ensures e.pingTimer == Some(timer) && Active(e) ==>
              r.0.state == Closed && Emitted(EventClose, TextArg(PingTimeout)) in r.1
  {
    if e.pingTimer == Some(timer) then OnClose(e, PingTimeout) else (e, [])
  }

  /** The current transport is `tid` and the socket listens to it. */
  predicate Current(e: Engine, tid: nat)
  {
    e.subscribed && e.transport.Some? && e.transport.value.tid == tid
  }

  /**
   * One step of the socket: a call of its API, an event of the current
   * transport (handled by the socket's subscriptions) or of a probe's
   * transport (handled by that probe's listeners), a completed pause, or a
   * ping timer firing.
   */
  function Step(e: Engine, input: Input, env: Env): (Engine, seq<Output>)
  {
    match input
    case OpenCalled => OpenSocket(e)
    case SendCalled(packets) => SendPackets(e, packets, env)
    case CloseCalled => Close(e)
    case TransportOpened(tid) =>
      (match ProbeIndex(e, tid)
       case Some(i) => ProbeOpened(e, i)
       case None => (e, []))
    case TransportDrained(tid, count) =>
      if Current(e, tid) then OnDrain(e, count, env)
      else (match ProbeIndex(e, tid)
            case Some(i) => SwapAsWritten(e, i, env)
            case None => (e, []))
    case TransportPacket(tid, packet) =>
      if Current(e, tid) then OnPacket(e, packet, env)
      else (match ProbeIndex(e, tid)
            case Some(i) => ProbePacket(e, i, packet)
            case None => (e, []))
    case TransportError(tid, message) =>
      if Current(e, tid) then OnError(e, message)
      else (match ProbeIndex(e, tid)
            case Some(i) => ProbeFail(e, i)
            case None => (e, []))
    case TransportClosed(tid) =>
      if Current(e, tid) then OnClose(e, TransportClose)
      else (match ProbeIndex(e, tid)
            case Some(i) => ProbeFail(e, i)
            case None => (e, []))
    case PauseCompleted(i) => if i < |e.probes| then ProbePaused(e, i) else (e, [])
    case PingTimerFired(timer) => OnPingTimer(e, timer)
  }

  // ---------------------------------------------------------------------
  // Runs of writes

  /** What a writer does to an open socket: send calls, and drains reported by the current transport. */
  datatype Write = Send(packets: seq<T.Packet>) | Drain(count: int)

  /** The step of a write: exactly the step of the input it stands for (`WriteStepIsStep`). */
  function WriteStep(e: Engine, w: Write, env: Env): (Engine, seq<Output>)
  {
    match w
    case Send(packets) => SendPackets(e, packets, env)
    case Drain(count) => OnDrain(e, count, env)
  }

  /** A write as the socket receives it from transport `tid`. */
  function AsInput(w: Write, tid: nat): Input
  {
    match w
    case Send(packets) => SendCalled(packets)
    case Drain(count) => TransportDrained(tid, count)
  }

  /** Sends are the API call, and drains of the current transport reach its drain listener. */
  lemma WriteStepIsStep(e: Engine, w: Write, tid: nat, env: Env)
    requires Current(e, tid)
    ensures WriteStep(e, w, env) == Step(e, AsInput(w, tid), env)
  {
  }

  /** The steps for `ws` in order, with their outputs concatenated. */
  function Writes(e: Engine, ws: seq<Write>, env: Env): (Engine, seq<Output>)
    decreases |ws|
  {
    if |ws| == 0 then (e, [])
    else
      var first := WriteStep(e, ws[0], env);
      var rest := Writes(first.0, ws[1..], env);
      (rest.0, first.1 + rest.1)
  }

  /** The packets of the sends among `ws`, in order. */
  function Offered(ws: seq<Write>): seq<T.Packet>
    decreases |ws|
  {
    if |ws| == 0 then []
    else (if ws[0].Send? then ws[0].packets else []) + Offered(ws[1..])
  }

  /** Each drain reports no more packets than were flushed by then. */
  predicate Orderly(e: Engine, ws: seq<Write>, env: Env)
    decreases |ws|
  {
    |ws| == 0
    || ((ws[0].Drain? ==> 0 <= ws[0].count <= e.prevBufferLen) && Orderly(WriteStep(e, ws[0], env).0, ws[1..], env))
  }

  /** Open, with the watermark in the buffer and no `close()` waiting for a drain. */
  predicate Calm(e: Engine)
  {
    Valid(e) && e.state == Open && e.drainWaiters == 0
  }

  /** The packets not yet handed to the transport. */
  function Unsent(e: Engine): seq<T.Packet>
  {
    if Valid(e) then e.writeBuffer[e.prevBufferLen..] else []
  }

  /**
   * On an open socket nobody is closing, any orderly run of sends and
   * drains hands the transport exactly the packets that were unflushed and
   * offered, in order, except those still unflushed at the end: nothing is
   * lost, duplicated or reordered.
   */
  lemma {:induction false} WritesConserve(e: Engine, ws: seq<Write>, env: Env)
    requires Calm(e) && Orderly(e, ws, env)
    ensures var r := Writes(e, ws, env);
            Calm(r.0) && Sent(r.1) + Unsent(r.0) == Unsent(e) + Offered(ws)
    decreases |ws|
  {
    if |ws| > 0 {
      var first := WriteStep(e, ws[0], env);
      WriteConserves(e, ws[0], env);
      WritesConserve(first.0, ws[1..], env);
      var rest := Writes(first.0, ws[1..], env);
      OfferedCons(ws);
      Compose(Unsent(e), first, rest, Offered([ws[0]]), Offered(ws[1..]));
    }
  }

  lemma OfferedCons(ws: seq<Write>)
    requires |ws| > 0
    ensures Offered(ws) == Offered([ws[0]]) + Offered(ws[1..])
  {
    var h: seq<T.Packet> := if ws[0].Send? then ws[0].packets else [];
    assert [ws[0]][1..] == [];
    assert Offered([ws[0]]) == h + Offered([]);
    assert h + [] == h;
  }

  /** The conservation of a first step and of the steps after it give that of both. */
  lemma Compose(u0: seq<T.Packet>, first: (Engine, seq<Output>), rest: (Engine, seq<Output>), in1: seq<T.Packet>, in2: seq<T.Packet>)
    requires Sent(first.1) + Unsent(first.0) == u0 + in1
    requires Sent(rest.1) + Unsent(rest.0) == Unsent(first.0) + in2
    ensures Sent(first.1 + rest.1) + Unsent(rest.0) == u0 + (in1 + in2)
  {
    SentAppend(first.1, rest.1);
    Chain(Sent(first.1), Sent(rest.1), u0, Unsent(first.0), Unsent(rest.0), in1, in2);
  }

  /** Two conservation equations compose: what the first step left unsent is what the second starts from. */
  lemma Chain<X>(s1: seq<X>, s2: seq<X>, u0: seq<X>, u1: seq<X>, u2: seq<X>, in1: seq<X>, in2: seq<X>)
    requires s1 + u1 == u0 + in1
    requires s2 + u2 == u1 + in2
    ensures (s1 + s2) + u2 == u0 + (in1 + in2)
  {
    calc {
      (s1 + s2) + u2;
      s1 + (u1 + in2);
      (u0 + in1) + in2;
    }
  }

  /** One orderly write on an open socket: the step of `WritesConserve`. */
  lemma WriteConserves(e: Engine, w: Write, env: Env)
    requires Calm(e)
    requires w.Drain? ==> 0 <= w.count <= e.prevBufferLen
    ensures var r := WriteStep(e, w, env);
            Calm(r.0) && Sent(r.1) + Unsent(r.0) == Unsent(e) + Offered([w])
  {
    assert Offered([w]) == (if w.Send? then w.packets else []) + Offered([]);
    if w.Send? {
      SendPacketsConserves(e, w.packets, env);
    } else {
      OnDrainKeepsOrder(e, w.count, env);
    }
  }

  /**
   * `close()` with packets in the buffer waits for their drain: the socket
   * is CLOSING and further sends are dropped.
   */
  lemma CloseWaitsForDrain(e: Engine, ps: seq<T.Packet>, env: Env)
    requires e.state == Open && |e.writeBuffer| > 0
    ensures var r := Step(e, CloseCalled, env);
            r == (e.(state := Closing, drainWaiters := e.drainWaiters + 1), []) && Step(r.0, SendCalled(ps), env) == (r.0, [])
  {
  }

  /** The drain of the last packets then emits drain and closes the socket. */
  lemma DrainThenClose(e: Engine, env: Env)
    requires e.state == Closing && !e.upgrading && e.drainWaiters > 0 && e.transport.Some? && Current(e, e.transport.value.tid)
    ensures var r := Step(e, TransportDrained(e.transport.value.tid, |e.writeBuffer|), env);
            r.0.state == Closed && |r.1| > 0 && r.1[0] == Emitted(EventDrain, NoArg)
            && Emitted(EventClose, TextArg(ForceClose)) in r.1
  {
    var e1 := RemoveDrained(e, |e.writeBuffer|);
    assert e1.writeBuffer == [];
    var w := RunDrainWaiters(e1);
    assert OnDrain(e, |e.writeBuffer|, env) == (w.0, [Emitted(EventDrain, NoArg)] + w.1);
  }

  // ---------------------------------------------------------------------
  // A successful upgrade, step by step

  /** The probes run the same transports, which is all `ProbeIndex` looks at. */
  predicate SameTids(a: seq<Probe>, b: seq<Probe>)
  {
    |a| == |b| && forall k :: 0 <= k < |a| ==> a[k].transport.tid == b[k].transport.tid
  }

  lemma {:induction false} ProbeFromTids(a: seq<Probe>, b: seq<Probe>, tid: nat, i: nat)
    requires i <= |a| && SameTids(a, b)
    ensures ProbeFrom(a, tid, i) == ProbeFrom(b, tid, i)
    decreases |a| - i
  {
    if i < |a| {
      ProbeFromTids(a, b, tid, i + 1);
    }
  }

  /** The probe of transport `tid` is probe `i`, and the socket is open on another, current transport. */
  predicate Probing(e: Engine, i: nat, tid: nat)
  {
    i < |e.probes| && e.probes[i].transport.tid == tid && ProbeIndex(e, tid) == Some(i)
    && e.state == Open && e.transport.Some? && e.transport.value.tid != tid
  }

  /** Its transport opened, a fresh probe sends the ping probe. */
  lemma ProbeStepOpen(e: Engine, i: nat, tid: nat, env: Env)
    requires Probing(e, i, tid) && e.probes[i].phase == AwaitOpen && !e.probes[i].failed
    ensures var r := Step(e, TransportOpened(tid), env);
            Probing(r.0, i, tid) && r.0.probes[i] == e.probes[i].(phase := AwaitPong)
            && r.0 == e.(probes := r.0.probes)
            && r.1 == [SendTo(tid, [T.PingPacket(Some(ProbePayload))])]
  {
    var r := ProbeOpened(e, i);
    assert SameTids(r.0.probes, e.probes);
    ProbeFromTids(r.0.probes, e.probes, tid, 0);
  }

  /** The pong probe answers: upgrading is emitted and the current transport paused. */
  lemma ProbeStepPong(e: Engine, i: nat, tid: nat, env: Env)
    requires Probing(e, i, tid) && e.probes[i].phase == AwaitPong && !e.probes[i].failed
    ensures var r := Step(e, TransportPacket(tid, T.PongPacket(Some(ProbePayload))), env);
            Probing(r.0, i, tid) && r.0.upgrading && r.0.probes[i].phase == Pausing && !r.0.probes[i].failed
            && r.0.upgradeWaiters == e.upgradeWaiters && r.0.subscribed == e.subscribed
            && (r.0.prior <==> e.probes[i].transport.name == WebSocketName)
            && |r.1| > 0 && r.1[0] == Emitted(EventUpgrading, TransportArg(tid, e.probes[i].transport.name))
            && r.1[|r.1| - 1] == PauseTransport(e.transport.value.tid, i)
  {
    var r := ProbeAccepted(e, i);
    assert SameTids(r.0.probes, e.probes);
    ProbeFromTids(r.0.probes, e.probes, tid, 0);
  }

  /** The pause done, the probe takes over its listeners and sends the upgrade packet. */
  lemma ProbeStepPaused(e: Engine, i: nat, tid: nat, env: Env)
    requires Probing(e, i, tid) && e.probes[i].phase == Pausing && !e.probes[i].failed
    ensures var r := Step(e, PauseCompleted(i), env);
            Probing(r.0, i, tid) && r.0.probes[i].phase == AwaitUpgradeDrain && r.0 == e.(probes := r.0.probes)
            && r.1 == [SendTo(tid, [T.UpgradePacket])]
  {
    var r := ProbePaused(e, i);
    assert SameTids(r.0.probes, e.probes);
    ProbeFromTids(r.0.probes, e.probes, tid, 0);
  }

  /**
   * The upgrade packet drained: upgrade is emitted, the probe's transport is
   * current and the upgrade over; the socket stays OPEN when nobody waits to
   * close it.
   */
  lemma ProbeStepDrained(e: Engine, i: nat, tid: nat, count: int, env: Env)
    requires Probing(e, i, tid) && e.probes[i].phase == AwaitUpgradeDrain && e.upgradeWaiters == 0
    ensures var r := Step(e, TransportDrained(tid, count), env);
            r.0.transport == Some(e.probes[i].transport) && Current(r.0, tid) && r.0.state == Open && !r.0.upgrading
            && |r.1| > 0 && r.1[0] == Emitted(EventUpgrade, TransportArg(tid, e.probes[i].transport.name))
  {
  }

  /**
   * A failed probe no longer acts: the events of its transport and the end
   * of a pause it asked for output nothing and change nothing but its own
   * phase, unless it already reached the upgrade drain.
   */
  lemma FailedProbeIgnored(e: Engine, i: nat, tid: nat, input: Input, env: Env)
    requires i < |e.probes| && e.probes[i].transport.tid == tid && ProbeIndex(e, tid) == Some(i) && !Current(e, tid)
    requires e.probes[i].failed && !e.probes[i].hooked && e.probes[i].phase != AwaitUpgradeDrain
    requires ((input.TransportOpened? || input.TransportDrained? || input.TransportPacket? || input.TransportError?
               || input.TransportClosed?) && input.tid == tid)
             || input == PauseCompleted(i)
    ensures var r := Step(e, input, env);
            r.1 == [] && r.0 == e.(probes := r.0.probes) && |r.0.probes| == |e.probes|
            && (forall k :: 0 <= k < |e.probes| && k != i ==> r.0.probes[k] == e.probes[k])
            && r.0.probes[i].transport == e.probes[i].transport
  {
  }
}
