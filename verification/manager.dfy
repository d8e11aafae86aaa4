/**
 * The Socket.IO manager (socketio/Manager.kt): one engine connection shared
 * by the namespace sockets, with the open / connect-timeout / reconnect loop
 * driven by the backoff, and the namespace registry.
 *
 * The manager is a value and each handler returns the next value with the
 * ordered list of what it asks of the outside world. The engine is referred
 * to by a generation number; its events reach the manager only through the
 * listeners the manager has registered on the current engine (`hooked`).
 * Timers are started and cancelled by outputs and fire as inputs; a fired
 * timer's handle leaves `subs`, since cancelling a finished job does nothing.
 * The random draw a backoff delay needs comes with each input.
 */
module Manager {
  import opened Common
  import B = Backoff
  import S = Socket

  datatype Options = Options(
    path: string,
    reconnection: bool,
    reconnectionAttempts: int,
    reconnectionDelay: int,
    reconnectionDelayMax: int,
    randomizationFactor: real,
    timeout: int)

  /** The defaults of `Manager.Options`. */
  function DefaultOptions(): Options
  {
    Options("", true, 0x7fff_ffff, 1000, 5000, 0.5, 20000)
  }

  /** A listener the manager registers on its engine; the open attempt's two remember whether a reconnect callback was given. */
  datatype Listener =
    | OpenListener(callback: bool)
    | OpenErrorListener(callback: bool)
    | DataListener
    | ErrorListener
    | CloseListener

  /** A handle in `subs`: a listener to remove, or a timer to cancel. */
  datatype Sub =
    | Listening(listener: Listener)
    | ConnectTimer(timer: nat, engine: nat)
    | ReconnectTimer(timer: nat)

  datatype Arg = NoArg | Text(text: string) | Count(count: int) | Data(packet: S.Packet)

  datatype Output =
    | CreateEngine(engine: nat)
    | OpenEngine(engine: nat)
    | CloseEngine(engine: nat)
    | SendToEngine(engine: nat, packets: seq<S.Packet>)
    | StartTimer(timer: nat, delay: int)
    | CancelTimer(timer: nat)
    | Emitted(event: string, arg: Arg)

  datatype Manager = Manager(
    opts: Options,
    state: State,
    engine: Option<nat>,
    engines: nat,                       // engines created so far; the next one gets this number
    hooked: seq<Listener>,              // the manager's listeners on the current engine
    subs: seq<Sub>,
    timers: nat,                        // timers started so far; the next one gets this number
    skipReconnect: bool,
    reconnecting: bool,
    backoff: B.Backoff,
    nsps: Entries<string, S.Socket>)

  datatype Input =
    | OpenCalled(callback: bool)
    | CloseCalled
    | EngineOpened
    | EngineFailed(message: string)
    | EngineClosed(reason: string)
    | EngineData(packet: S.Packet)
    | TimerFired(timer: nat)
    | SocketRequested(nsp: string, auth: Entries<string, string>)
    | PacketsCalled(packets: seq<S.Packet>)
    | DestroyCalled(active: set<string>)      // the namespaces whose sockets are still active

  const DefaultPath := "/socket.io/"
  const EventOpen := "open"
  const EventClose := "close"
  const EventPacket := "packet"
  const EventError := "error"
  const EventReconnect := "reconnect"
  const EventReconnectError := "reconnect_error"
  const EventReconnectFailed := "reconnect_failed"
  const EventReconnectAttempt := "reconnect_attempt"
  const TimeoutError := "timeout"
  const ConnectionError := "Connection error"

  /** A backoff draw as `Random.nextDouble()` returns it. */
  predicate Draw(d: real)
  {
    0.0 <= d < 1.0
  }

  /**
   * The constructor: an empty path becomes "/socket.io/", and the backoff
   * starts from the reconnection delays and the randomization factor, which
   * must lie in [0, 1].
   */
  function New(opts: Options): (r: Result<Manager>)
    ensures r.Ok? <==> 0.0 <= opts.randomizationFactor <= 1.0
    ensures r.Failure? ==> r.error == B.JitterError
    ensures r.Ok? ==> && r.value.state == Init && r.value.engine == None && r.value.nsps == []
                      && r.value.opts.path == (if opts.path == "" then DefaultPath else opts.path)
                      && r.value.opts == opts.(path := r.value.opts.path)
                      && r.value.backoff == B.Backoff(opts.reconnectionDelay, opts.reconnectionDelayMax, opts.randomizationFactor, 2, 0)
                      && Valid(r.value)
  {
    var o := if opts.path == "" then opts.(path := DefaultPath) else opts;
    match B.New(o.reconnectionDelay, o.reconnectionDelayMax, o.randomizationFactor, 2)
    case Ok(b) => Ok(Manager(o, Init, None, 0, [], [], 0, false, false, b, []))
    case Failure(e) => Failure(e)
  }

  /**
   * The registry holds at most one socket per namespace, every live timer
   * has been numbered, and the attempts since the last reset never exceed
   * `reconnectionAttempts`.
   */
  predicate Valid(m: Manager)
  {
    && DistinctKeys(m.nsps)
    && (m.backoff.attempts == 0 || m.backoff.attempts <= m.opts.reconnectionAttempts)
    && (forall i :: 0 <= i < |m.subs| && !m.subs[i].Listening? ==> m.subs[i].timer < m.timers)
  }

  /** The `reconnectionDelay` setter: the backoff's minimum follows the option. */
  function SetReconnectionDelay(m: Manager, delay: int): (r: Manager)
    ensures r.opts.reconnectionDelay == delay && r.backoff.min == delay
    ensures r == m.(opts := r.opts, backoff := r.backoff)
    ensures r.opts == m.opts.(reconnectionDelay := delay) && r.backoff == m.backoff.(min := delay)
  {
    m.(opts := m.opts.(reconnectionDelay := delay), backoff := m.backoff.(min := delay))
  }

  /** The `reconnectionDelayMax` setter: the backoff's maximum follows the option. */
  function SetReconnectionDelayMax(m: Manager, delayMax: int): (r: Manager)
    ensures r.opts.reconnectionDelayMax == delayMax && r.backoff.max == delayMax
    ensures r.opts == m.opts.(reconnectionDelayMax := delayMax) && r.backoff == m.backoff.(max := delayMax)
    ensures r == m.(opts := r.opts, backoff := r.backoff)
  {
    m.(opts := m.opts.(reconnectionDelayMax := delayMax), backoff := m.backoff.(max := delayMax))
  }

  /** The `randomizationFactor` setter: the backoff's jitter setter throws first for a value outside [0, 1], leaving both unchanged. */
  function SetRandomizationFactor(m: Manager, factor: real): (r: Result<Manager>)
    ensures r.Ok? <==> 0.0 <= factor <= 1.0
    ensures r.Ok? ==> r.value == m.(opts := m.opts.(randomizationFactor := factor), backoff := m.backoff.(jitter := factor))
  {
    match B.SetJitter(m.backoff, factor)
    case Ok(b) => Ok(m.(opts := m.opts.(randomizationFactor := factor), backoff := b))
    case Failure(e) => Failure(e)
  }

  // ---------------------------------------------------------------------------
  // Handles

  /** The hooked listeners whose handles are not in `subs`, in order. */
  function Unhook(hooked: seq<Listener>, subs: seq<Sub>): (r: seq<Listener>)
    ensures forall l :: l in r <==> l in hooked && Listening(l) !in subs
  {
    if |hooked| == 0 then []
    else (if Listening(hooked[0]) in subs then [] else [hooked[0]]) + Unhook(hooked[1..], subs)
  }

  /** The timer cancellations of `cleanUp`, one per timer handle, in order. */
  function Cancels(subs: seq<Sub>): (r: seq<Output>)
    ensures forall o :: o in r ==> o.CancelTimer? && exists i :: 0 <= i < |subs| && !subs[i].Listening? && subs[i].timer == o.timer
    ensures forall i :: 0 <= i < |subs| && !subs[i].Listening? ==> CancelTimer(subs[i].timer) in r
  {
    if |subs| == 0 then []
    else
      var head := if subs[0].Listening? then [] else [CancelTimer(subs[0].timer)];
      var rest := Cancels(subs[1..]);
      forall o | o in head + rest
        ensures exists i :: 0 <= i < |subs| && !subs[i].Listening? && subs[i].timer == o.timer
      {
        if o !in head {
          var i :| 0 <= i < |subs[1..]| && !subs[1..][i].Listening? && subs[1..][i].timer == o.timer;
          assert subs[i + 1] == subs[1..][i];
        }
      }
      head + rest
  }

  /** `cleanUp()`: every handle in `subs` is destroyed (listeners removed, timers cancelled) and `subs` emptied. */
  function CleanUp(m: Manager): (r: (Manager, seq<Output>))
    ensures r.0 == m.(subs := [], hooked := Unhook(m.hooked, m.subs))
    ensures r.1 == Cancels(m.subs)
    ensures Valid(m) ==> Valid(r.0)
  {
    (m.(subs := [], hooked := Unhook(m.hooked, m.subs)), Cancels(m.subs))
  }

  /** The open attempt's listener for the engine's open event, if still registered, with whether it carries a callback. */
  function OpenCallback(hooked: seq<Listener>): (r: Option<bool>)
    ensures r.Some? <==> OpenListener(true) in hooked || OpenListener(false) in hooked
    ensures r.Some? ==> OpenListener(r.value) in hooked
  {
    if OpenListener(true) in hooked then Some(true)
    else if OpenListener(false) in hooked then Some(false)
    else None
  }

  /** The open attempt's listener for the engine's error event, if still registered. */
  function ErrorCallback(hooked: seq<Listener>): (r: Option<bool>)
    ensures r.Some? <==> OpenErrorListener(true) in hooked || OpenErrorListener(false) in hooked
    ensures r.Some? ==> OpenErrorListener(r.value) in hooked
  {
    if OpenErrorListener(true) in hooked then Some(true)
    else if OpenErrorListener(false) in hooked then Some(false)
    else None
  }

  /** The hooked listeners without the open attempt's open listener (`openSub.destroy()`). */
  function WithoutOpenListener(hooked: seq<Listener>): (r: seq<Listener>)
    ensures forall l :: l in r <==> l in hooked && !l.OpenListener?
  {
    if |hooked| == 0 then []
    else (if hooked[0].OpenListener? then [] else [hooked[0]]) + WithoutOpenListener(hooked[1..])
  }

  // ---------------------------------------------------------------------------
  // Reconnecting

  /**
   * `reconnect()`: nothing while already reconnecting or once reconnection
   * is to be skipped. When the attempts are used up, the backoff starts
   * over and `reconnect_failed` is emitted. Otherwise one backoff delay is
   * consumed and a timer for the next attempt is started.
   */
  function Reconnect(m: Manager, draw: real): (r: (Manager, seq<Output>))
    requires Draw(draw)
    ensures m.reconnecting || m.skipReconnect ==> r == (m, [])
    ensures !m.reconnecting && !m.skipReconnect && m.backoff.attempts >= m.opts.reconnectionAttempts ==>
              && r.0 == m.(backoff := m.backoff.(attempts := 0))
              && !r.0.reconnecting
              && r.1 == [Emitted(EventReconnectFailed, NoArg)]
    ensures !m.reconnecting && !m.skipReconnect && m.backoff.attempts < m.opts.reconnectionAttempts ==>
              && r.0 == m.(reconnecting := true, backoff := m.backoff.(attempts := m.backoff.attempts + 1),
                           subs := m.subs + [ReconnectTimer(m.timers)], timers := m.timers + 1)
              && |r.1| == 1 && r.1[0].StartTimer? && r.1[0].timer == m.timers
              && r.1[0].delay >= m.backoff.min && (m.backoff.min <= m.backoff.max ==> r.1[0].delay <= m.backoff.max)
    ensures Valid(m) ==> Valid(r.0)
  {
    if m.reconnecting || m.skipReconnect then (m, [])
    else if m.backoff.attempts >= m.opts.reconnectionAttempts then
      (m.(backoff := B.Reset(m.backoff).1, reconnecting := false), [Emitted(EventReconnectFailed, NoArg)])
    else
      var (delay, b) := B.Duration(m.backoff, draw);
      (m.(backoff := b, reconnecting := true, subs := m.subs + [ReconnectTimer(m.timers)], timers := m.timers + 1),
       [StartTimer(m.timers, delay)])
  }

  /** `maybeReconnectOnOpen()`: a failed first connection starts reconnecting, unless reconnecting already or disabled. */
  function MaybeReconnectOnOpen(m: Manager, draw: real): (r: (Manager, seq<Output>))
    requires Draw(draw)
    ensures !m.reconnecting && m.opts.reconnection && m.backoff.attempts == 0 ==> r == Reconnect(m, draw)
    ensures !(!m.reconnecting && m.opts.reconnection && m.backoff.attempts == 0) ==> r == (m, [])
  {
    if !m.reconnecting && m.opts.reconnection && m.backoff.attempts == 0 then Reconnect(m, draw) else (m, [])
  }

  /** The reconnect callback told of a failed attempt: reconnect again, then report `reconnect_error`. */
  function AttemptFailed(m: Manager, draw: real): (r: (Manager, seq<Output>))
    requires Draw(draw)
    ensures r.0 == Reconnect(m.(reconnecting := false), draw).0
    ensures r.1 == Reconnect(m.(reconnecting := false), draw).1 + [Emitted(EventReconnectError, Text(ConnectionError))]
  {
    var (m1, out) := Reconnect(m.(reconnecting := false), draw);
    (m1, out + [Emitted(EventReconnectError, Text(ConnectionError))])
  }

  /** The reconnect callback told of a successful attempt: `reconnect` carries the attempts made, and the backoff starts over. */
  function AttemptSucceeded(m: Manager): (r: (Manager, seq<Output>))
    ensures r.0 == m.(reconnecting := false, backoff := m.backoff.(attempts := 0))
    ensures r.1 == [Emitted(EventReconnect, Count(m.backoff.attempts))]
  {
    var (attempts, b) := B.Reset(m.backoff);
    (m.(reconnecting := false, backoff := b), [Emitted(EventReconnect, Count(attempts))])
  }

  // ---------------------------------------------------------------------------
  // Opening

  /**
   * The open attempt's error listener: everything is cleaned up, the
   * manager is CLOSED and reports the error; then the reconnect callback
   * hears of the failure, or without one a first connection may start
   * reconnecting.
   */
  function OpenFailed(m: Manager, callback: bool, message: string, draw: real): (r: (Manager, seq<Output>))
    requires Draw(draw)
    ensures r.0.state == Closed
    ensures Cancels(m.subs) + [Emitted(EventError, Text(message))] <= r.1
    ensures forall o :: o in r.1 ==> !o.OpenEngine?
    ensures Valid(m) ==> Valid(r.0)
  {
    var (m1, cancels) := CleanUp(m);
    var m2 := m1.(state := Closed);
    var after := if callback then AttemptFailed(m2, draw) else MaybeReconnectOnOpen(m2, draw);
    (after.0, cancels + [Emitted(EventError, Text(message))] + after.1)
  }

  /**
   * The connect timeout's action: the open listener goes, the engine is
   * told to close, and the engine's error event "timeout" reaches the open
   * attempt's error listener.
   */
  function ConnectTimeout(m: Manager, engine: nat, draw: real): (r: (Manager, seq<Output>))
    requires Draw(draw)
    ensures |r.1| > 0 && r.1[0] == CloseEngine(engine)
    ensures ErrorCallback(WithoutOpenListener(m.hooked)).Some? ==>
              && r.0.state == Closed
              && Emitted(EventError, Text(TimeoutError)) in r.1
    ensures ErrorCallback(WithoutOpenListener(m.hooked)).None? ==> r == (m.(hooked := WithoutOpenListener(m.hooked)), [CloseEngine(engine)])
    ensures forall o :: o in r.1 ==> !o.OpenEngine?
    ensures Valid(m) ==> Valid(r.0)
  {
    var m1 := m.(hooked := WithoutOpenListener(m.hooked));
    var callback := ErrorCallback(m1.hooked);
    if callback.Some? then
      var failed := OpenFailed(m1, callback.value, TimeoutError, draw);
      assert Emitted(EventError, Text(TimeoutError)) in failed.1 by {
        assert failed.1[|Cancels(m1.subs)|] == Emitted(EventError, Text(TimeoutError));
      }
      (failed.0, [CloseEngine(engine)] + failed.1)
    else (m1, [CloseEngine(engine)])
  }

  /**
   * `open(callback)` with the rule for starting the connect timer as a
   * parameter: only from INIT or CLOSED, a fresh engine is created, the
   * manager is OPENING and reconnection is no longer skipped. A timeout of
   * 0 fails the attempt at once without opening the engine.
   */
  function Attempt(m: Manager, callback: bool, startsTimer: bool, draw: real): (r: (Manager, seq<Output>))
    requires Draw(draw)
    ensures m.state != Init && m.state != Closed ==> r == (m, [])
    ensures m.state == Init || m.state == Closed ==>
              && |r.1| > 1 && r.1[0] == CreateEngine(m.engines)
              && (OpenEngine(m.engines) in r.1 <==> m.opts.timeout != 0)
    ensures (m.state == Init || m.state == Closed) && m.opts.timeout == 0 ==>
              && r.0.state == Closed
              && r.1[1] == CloseEngine(m.engines)
              && Emitted(EventError, Text(TimeoutError)) in r.1
    ensures (m.state == Init || m.state == Closed) && m.opts.timeout != 0 ==>
              && r.0.state == Opening && !r.0.skipReconnect
              && r.0.engine == Some(m.engines) && r.0.engines == m.engines + 1
              && r.0.hooked == [OpenListener(callback), OpenErrorListener(callback)]
              && (startsTimer ==> r.1 == [CreateEngine(m.engines), StartTimer(m.timers, m.opts.timeout), OpenEngine(m.engines)]
                                  && ConnectTimer(m.timers, m.engines) in r.0.subs)
              && (!startsTimer ==> r.1 == [CreateEngine(m.engines), OpenEngine(m.engines)])
    ensures Valid(m) ==> Valid(r.0)
  {
    if m.state != Init && m.state != Closed then (m, [])
    else if m.opts.timeout == 0 then Expire(m, callback, draw)
    else
      var a := Arm(Begin(m, callback), m.engines, callback, startsTimer, m.opts.timeout);
      (a.0, [CreateEngine(m.engines)] + a.1)
  }

  /** `open` with a timeout of 0: the engine is created and the attempt times out before it is opened. */
  function Expire(m: Manager, callback: bool, draw: real): (r: (Manager, seq<Output>))
    requires Draw(draw)
    ensures |r.1| > 1 && r.1[0] == CreateEngine(m.engines) && r.1[1] == CloseEngine(m.engines)
    ensures OpenEngine(m.engines) !in r.1
    ensures r.0.state == Closed && Emitted(EventError, Text(TimeoutError)) in r.1
    ensures Valid(m) ==> Valid(r.0)
  {
    var b := Begin(m, callback);
    var t := ConnectTimeout(b, m.engines, draw);
    assert ErrorCallback(WithoutOpenListener(b.hooked)).Some?;
    assert t.0.state == Closed && Emitted(EventError, Text(TimeoutError)) in t.1;
    assert forall o :: o in [CreateEngine(m.engines)] + t.1 ==> o == CreateEngine(m.engines) || o in t.1;
    (t.0, [CreateEngine(m.engines)] + t.1)
  }

  /** The first half of `open`: a fresh engine with the open attempt's two listeners. */
  function Begin(m: Manager, callback: bool): (r: Manager)
    ensures r == m.(engine := Some(m.engines), engines := m.engines + 1, state := Opening, skipReconnect := false,
                    hooked := [OpenListener(callback), OpenErrorListener(callback)])
    ensures ErrorCallback(WithoutOpenListener(r.hooked)) == Some(callback)
    ensures Valid(m) ==> Valid(r)
  {
    var r := m.(engine := Some(m.engines), engines := m.engines + 1, state := Opening, skipReconnect := false,
                hooked := [OpenListener(callback), OpenErrorListener(callback)]);
    assert OpenErrorListener(callback) in WithoutOpenListener(r.hooked);
    r
  }

  /** The second half of `open` for a non-zero timeout: perhaps a connect timer, the listeners' handles, then the engine opens. */
  function Arm(m: Manager, engine: nat, callback: bool, startsTimer: bool, timeout: int): (r: (Manager, seq<Output>))
    ensures startsTimer ==> && r.1 == [StartTimer(m.timers, timeout), OpenEngine(engine)]
                            && r.0 == m.(subs := m.subs + [ConnectTimer(m.timers, engine), Listening(OpenListener(callback)), Listening(OpenErrorListener(callback))],
                                         timers := m.timers + 1)
    ensures !startsTimer ==> && r.1 == [OpenEngine(engine)]
                             && r.0 == m.(subs := m.subs + [Listening(OpenListener(callback)), Listening(OpenErrorListener(callback))])
    ensures Valid(m) ==> Valid(r.0)
  {
    var listening := [Listening(OpenListener(callback)), Listening(OpenErrorListener(callback))];
    if startsTimer then
      (m.(subs := m.subs + [ConnectTimer(m.timers, engine)] + listening, timers := m.timers + 1),
       [StartTimer(m.timers, timeout), OpenEngine(engine)])
    else (m.(subs := m.subs + listening), [OpenEngine(engine)])
  }

  /** `open(callback)` as written: any non-zero timeout starts the connect timer, -1 included. */
  function OpenAsWritten(m: Manager, callback: bool, draw: real): (r: (Manager, seq<Output>))
    requires Draw(draw)
    ensures m.state != Init && m.state != Closed ==> r == (m, [])
    ensures (m.state == Init || m.state == Closed) && m.opts.timeout != 0 ==>
              && r.1 == [CreateEngine(m.engines), StartTimer(m.timers, m.opts.timeout), OpenEngine(m.engines)]
              && ConnectTimer(m.timers, m.engines) in r.0.subs
              && r.0.state == Opening
    ensures (m.state == Init || m.state == Closed) && m.opts.timeout == 0 ==>
              r.0.state == Closed && OpenEngine(m.engines) !in r.1 && Emitted(EventError, Text(TimeoutError)) in r.1
    ensures Valid(m) ==> Valid(r.0)
  {
    Attempt(m, callback, true, draw)
  }

  /** `open(callback)`, with a negative timeout disabling the connect timer as the option documents. */
  function Open(m: Manager, callback: bool, draw: real): (r: (Manager, seq<Output>))
    requires Draw(draw)
    ensures (m.state == Init || m.state == Closed) && m.opts.timeout < 0 ==>
              && r.1 == [CreateEngine(m.engines), OpenEngine(m.engines)]
              && r.0.state == Opening
    ensures (m.state == Init || m.state == Closed) && m.opts.timeout > 0 ==>
              && r.1 == [CreateEngine(m.engines), StartTimer(m.timers, m.opts.timeout), OpenEngine(m.engines)]
              && r.0.state == Opening
  {
    Attempt(m, callback, m.opts.timeout > 0, draw)
  }

  /**
   * `onOpen()`: only while OPENING. Everything of the attempt is cleaned
   * up, the manager is OPEN and says so, and the engine's data, error and
   * close events are listened to from now on.
   */
  function OnOpen(m: Manager): (r: (Manager, seq<Output>))
    ensures m.state != Opening ==> r == (m, [])
    ensures m.state == Opening ==> && r.0.state == State.Open
                                   && r.1 == Cancels(m.subs) + [Emitted(EventOpen, NoArg)]
                                   && (forall l :: l in r.0.hooked && l !in Unhook(m.hooked, m.subs) ==> Listening(l) in r.0.subs)
    ensures m.state == Opening && m.engine.Some? ==>
              r.0.subs == [Listening(DataListener), Listening(ErrorListener), Listening(CloseListener)]
    ensures Valid(m) ==> Valid(r.0)
  {
    if m.state != Opening then (m, [])
    else
      var (m1, cancels) := CleanUp(m);
      var listeners := if m.engine.Some? then [DataListener, ErrorListener, CloseListener] else [];
      var subs := if m.engine.Some? then [Listening(DataListener), Listening(ErrorListener), Listening(CloseListener)] else [];
      (m1.(state := State.Open, hooked := m1.hooked + listeners, subs := subs), cancels + [Emitted(EventOpen, NoArg)])
  }

  /**
   * The engine's open event reaches the open attempt's listener: `onOpen`,
   * then the reconnect callback, if any, hears of the success.
   */
  function OnEngineOpen(m: Manager): (r: (Manager, seq<Output>))
    ensures OpenCallback(m.hooked).None? ==> r == (m, [])
    ensures OpenCallback(m.hooked) == Some(false) ==> r == OnOpen(m)
    ensures OpenCallback(m.hooked) == Some(true) ==>
              && r.1 == OnOpen(m).1 + [Emitted(EventReconnect, Count(m.backoff.attempts))]
              && !r.0.reconnecting && r.0.backoff.attempts == 0
              && r.0.state == (if m.state == Opening then State.Open else m.state)
    ensures Valid(m) ==> Valid(r.0)
  {
    match OpenCallback(m.hooked)
    case None => (m, [])
    case Some(callback) =>
      var (m1, out) := OnOpen(m);
      if callback then
        var (m2, out2) := AttemptSucceeded(m1);
        (m2, out + out2)
      else (m1, out)
  }

  /**
   * The engine's error event: the open attempt's error listener fails the
   * attempt; once open, the error is only reported.
   */
  function OnEngineError(m: Manager, message: string, draw: real): (r: (Manager, seq<Output>))
    requires Draw(draw)
    ensures ErrorCallback(m.hooked).Some? ==> r == OpenFailed(m, ErrorCallback(m.hooked).value, message, draw)
    ensures ErrorCallback(m.hooked).None? && ErrorListener in m.hooked ==> r == (m, [Emitted(EventError, Text(message))])
    ensures ErrorCallback(m.hooked).None? && ErrorListener !in m.hooked ==> r == (m, [])
  {
    match ErrorCallback(m.hooked)
    case Some(callback) => OpenFailed(m, callback, message, draw)
    case None => if ErrorListener in m.hooked then (m, [Emitted(EventError, Text(message))]) else (m, [])
  }

  /** The engine's data event: the packet is re-emitted as `packet` while the data listener is registered. */
  function OnEngineData(m: Manager, packet: S.Packet): (r: (Manager, seq<Output>))
    ensures r.0 == m
    ensures r.1 == (if DataListener in m.hooked then [Emitted(EventPacket, Data(packet))] else [])
  {
    (m, if DataListener in m.hooked then [Emitted(EventPacket, Data(packet))] else [])
  }

  /**
   * `onClose(reason)`: everything is cleaned up, the backoff starts over,
   * the manager is CLOSED and says why; then it reconnects unless
   * reconnection is off or was given up by `close()`.
   */
  function OnClose(m: Manager, reason: string, draw: real): (r: (Manager, seq<Output>))
    requires Draw(draw)
    ensures r.0.state == Closed && r.0.hooked == Unhook(m.hooked, m.subs)
    ensures Cancels(m.subs) + [Emitted(EventClose, Text(reason))] <= r.1
    ensures (exists i :: 0 <= i < |r.1| && r.1[i].StartTimer?) <==> m.opts.reconnection && !m.skipReconnect && !m.reconnecting && 0 < m.opts.reconnectionAttempts
    ensures !m.opts.reconnection || m.skipReconnect ==> r.0.subs == [] && r.0.backoff.attempts == 0
    ensures Valid(m) ==> Valid(r.0)
  {
    var (m1, cancels) := CleanUp(m);
    var m2 := m1.(backoff := B.Reset(m1.backoff).1, state := Closed);
    var out := cancels + [Emitted(EventClose, Text(reason))];
    assert forall i :: 0 <= i < |out| ==> !out[i].StartTimer? by {
      assert forall o :: o in cancels ==> o.CancelTimer?;
    }
    if m.opts.reconnection && !m.skipReconnect then
      var (m3, more) := Reconnect(m2, draw);
      assert forall i :: 0 <= i < |more| && more[i].StartTimer? ==> (out + more)[|out| + i].StartTimer?;
      assert forall i :: |out| <= i < |out + more| ==> (out + more)[i] == more[i - |out|];
      (m3, out + more)
    else (m2, out)
  }

  /** The engine's close event reaches `onClose` while the close listener is registered. */
  function OnEngineClose(m: Manager, reason: string, draw: real): (r: (Manager, seq<Output>))
    requires Draw(draw)
    ensures CloseListener in m.hooked ==> r == OnClose(m, reason, draw)
    ensures CloseListener !in m.hooked ==> r == (m, [])
  {
    if CloseListener in m.hooked then OnClose(m, reason, draw) else (m, [])
  }

  /**
   * `close()`: reconnection is given up, everything is cleaned up, the
   * backoff starts over, the manager is CLOSED and its engine is told to
   * close and forgotten.
   */
  function Close(m: Manager): (r: (Manager, seq<Output>))
    ensures r.0 == m.(skipReconnect := true, reconnecting := false, subs := [], hooked := Unhook(m.hooked, m.subs),
                      backoff := m.backoff.(attempts := 0), state := Closed, engine := None)
    ensures r.1 == Cancels(m.subs) + (if m.engine.Some? then [CloseEngine(m.engine.value)] else [])
    ensures Valid(m) ==> Valid(r.0)
  {
    var (m1, cancels) := CleanUp(m);
    var m2 := m1.(skipReconnect := true, reconnecting := false, backoff := B.Reset(m1.backoff).1, state := Closed, engine := None);
    (m2, cancels + (if m.engine.Some? then [CloseEngine(m.engine.value)] else []))
  }

  // ---------------------------------------------------------------------------
  // Timers

  /** The position of the live timer `t` among the handles, if it is one. */
  function FindTimer(subs: seq<Sub>, t: nat): (r: Option<nat>)
    ensures r.Some? ==> r.value < |subs| && !subs[r.value].Listening? && subs[r.value].timer == t
    ensures r.None? <==> forall i :: 0 <= i < |subs| && !subs[i].Listening? ==> subs[i].timer != t
  {
    if |subs| == 0 then None
    else if !subs[0].Listening? && subs[0].timer == t then Some(0)
    else match FindTimer(subs[1..], t)
      case None => None
      case Some(i) => Some(i + 1)
  }

  /**
   * The reconnect timer's job: unless reconnection was given up meanwhile,
   * `reconnect_attempt` carries the attempts so far and a new open attempt
   * starts with the reconnect callback.
   */
  function ReconnectAttempt(m: Manager, draw: real): (r: (Manager, seq<Output>))
    requires Draw(draw)
    ensures m.skipReconnect ==> r == (m, [])
    ensures !m.skipReconnect ==> && |r.1| > 0 && r.1[0] == Emitted(EventReconnectAttempt, Count(m.backoff.attempts))
                                 && r == (OpenAsWritten(m, true, draw).0, r.1[..1] + OpenAsWritten(m, true, draw).1)
    ensures Valid(m) ==> Valid(r.0)
  {
    if m.skipReconnect then (m, [])
    else
      var (m1, out) := OpenAsWritten(m, true, draw);
      (m1, [Emitted(EventReconnectAttempt, Count(m.backoff.attempts))] + out)
  }

  /**
   * A timer fires: a live one leaves the handles and runs its job; one
   * cancelled or unknown does nothing. The connect timer closes the engine
   * and fails the attempt with "timeout"; the reconnect timer, unless
   * reconnection was given up, reports `reconnect_attempt`.
   */
  function OnTimer(m: Manager, t: nat, draw: real): (r: (Manager, seq<Output>))
    requires Draw(draw)
    ensures FindTimer(m.subs, t).None? ==> r == (m, [])
    ensures FindTimer(m.subs, t).Some? && m.subs[FindTimer(m.subs, t).value].ConnectTimer? ==>
              && |r.1| > 0 && r.1[0] == CloseEngine(m.subs[FindTimer(m.subs, t).value].engine)
              && (ErrorCallback(WithoutOpenListener(m.hooked)).Some? ==>
                    r.0.state == Closed && Emitted(EventError, Text(TimeoutError)) in r.1)
              && forall o :: o in r.1 ==> !o.OpenEngine?
    ensures FindTimer(m.subs, t).Some? && m.subs[FindTimer(m.subs, t).value].ReconnectTimer? ==>
              && (m.skipReconnect ==> r.1 == [])
              && (!m.skipReconnect ==> |r.1| > 0 && r.1[0] == Emitted(EventReconnectAttempt, Count(m.backoff.attempts)))
    ensures Valid(m) ==> Valid(r.0)
  {
    match FindTimer(m.subs, t)
    case None => (m, [])
    case Some(i) =>
      var sub := m.subs[i];
      var m1 := m.(subs := m.subs[..i] + m.subs[i + 1..]);
      assert Valid(m) ==> Valid(m1) by {
        assert forall j :: 0 <= j < |m1.subs| ==> m1.subs[j] in m.subs;
      }
      if sub.ConnectTimer? then ConnectTimeout(m1, sub.engine, draw) else ReconnectAttempt(m1, draw)
  }

  // ---------------------------------------------------------------------------
  // Namespaces and the rest

  /** `socket(nsp, auth)`: the registered socket for the namespace, or a new one registered under it. */
  function SocketFor(m: Manager, nsp: string, auth: Entries<string, string>): (r: (Manager, S.Socket))
    ensures Lookup(r.0.nsps, nsp) == Some(r.1)
    ensures Lookup(m.nsps, nsp).Some? ==> r == (m, Lookup(m.nsps, nsp).value)
    ensures Lookup(m.nsps, nsp).None? ==> r.1 == S.New(nsp, auth) && Keys(r.0.nsps) == Keys(m.nsps) + {nsp}
    ensures forall k :: k != nsp ==> Lookup(r.0.nsps, k) == Lookup(m.nsps, k)
    ensures r.0 == m.(nsps := r.0.nsps)
    ensures Valid(m) ==> Valid(r.0)
  {
    var found: Option<S.Socket> := Lookup(m.nsps, nsp);
    if found.Some? then (m, found.value)
    else
      var s := S.New(nsp, auth);
      (m.(nsps := Put(m.nsps, nsp, s)), s)
  }

  /** Whether a socket registered under one of the namespaces in `active` is still active. */
  predicate AnyActive(nsps: Entries<string, S.Socket>, active: set<string>)
  {
    exists i :: 0 <= i < |nsps| && nsps[i].0 in active
  }

  /**
   * `destroy()`, called when a socket closes: the manager closes only once
   * none of its sockets is active. Which sockets are active (`active()`,
   * they still hold subscriptions) is the sockets' own state, so it comes
   * with the call as the set of their namespaces.
   */
  function Destroy(m: Manager, active: set<string>): (r: (Manager, seq<Output>))
    ensures (exists nsp :: nsp in active && Lookup(m.nsps, nsp).Some?) ==> r == (m, [])
    ensures (forall nsp :: nsp in active ==> Lookup(m.nsps, nsp).None?) ==>
              && r.0.state == Closed && r.0.skipReconnect && r.0.engine == None && r.0.subs == []
              && r.1 == Cancels(m.subs) + (if m.engine.Some? then [CloseEngine(m.engine.value)] else [])
  {
    if AnyActive(m.nsps, active) then
      var i :| 0 <= i < |m.nsps| && m.nsps[i].0 in active;
      assert Lookup(m.nsps, m.nsps[i].0).Some?;
      (m, [])
    else Close(m)
  }

  /** A socket that was handed out and is still active keeps its manager open. */
  lemma DestroySparesActiveSocket(m: Manager, nsp: string, auth: Entries<string, string>, active: set<string>)
    requires nsp in active
    ensures var m1 := SocketFor(m, nsp, auth).0;
            Destroy(m1, active) == (m1, [])
  {
    var m1 := SocketFor(m, nsp, auth).0;
    assert Lookup(m1.nsps, nsp).Some?;
  }

  /** With every handed-out socket inactive, `destroy()` is `close()`: reconnection is given up and the engine closed. */
  lemma DestroyIdleCloses(m: Manager, active: set<string>)
    requires forall nsp :: nsp in active ==> Lookup(m.nsps, nsp).None?
    ensures Destroy(m, active) == Close(m)
  {
    forall i | 0 <= i < |m.nsps| ensures m.nsps[i].0 !in active {
      assert Lookup(m.nsps, m.nsps[i].0).Some?;
    }
  }

  /** `packets(list)`: handed to the current engine, if any. */
  function Packets(m: Manager, packets: seq<S.Packet>): (r: (Manager, seq<Output>))
    ensures r.0 == m
    ensures m.engine.Some? ==> r.1 == [SendToEngine(m.engine.value, packets)]
    ensures m.engine.None? ==> r.1 == []
  {
    (m, if m.engine.Some? then [SendToEngine(m.engine.value, packets)] else [])
  }

  /** One input, dispatched to its handler. */
  function Step(m: Manager, input: Input, draw: real): (r: (Manager, seq<Output>))
    requires Draw(draw)
  {
    match input
    case OpenCalled(callback) => OpenAsWritten(m, callback, draw)
    case CloseCalled => Close(m)
    case EngineOpened => OnEngineOpen(m)
    case EngineFailed(message) => OnEngineError(m, message, draw)
    case EngineClosed(reason) => OnEngineClose(m, reason, draw)
    case EngineData(packet) => OnEngineData(m, packet)
    case TimerFired(t) => OnTimer(m, t, draw)
    case SocketRequested(nsp, auth) => (SocketFor(m, nsp, auth).0, [])
    case PacketsCalled(packets) => Packets(m, packets)
    case DestroyCalled(active) => Destroy(m, active)
  }

  // ---------------------------------------------------------------------------
  // Properties

  /** Every input keeps the manager valid: one socket per namespace, numbered timers, bounded attempts. */
  lemma StepPreservesValid(m: Manager, input: Input, draw: real)
    requires Draw(draw) && Valid(m)
    ensures Valid(Step(m, input, draw).0)
  {
  }

  /**
   * A live reconnect timer, unless reconnection was given up, first reports
   * `reconnect_attempt` with the attempts so far, then opens again with the
   * reconnect callback. The bound on the attempts reported is the one that
   * `Valid` keeps (see `StepPreservesValid`); `Reconnect` arms no timer once
   * the attempts reach `reconnectionAttempts`.
   */
  lemma ReconnectTimerAttempts(m: Manager, t: nat, draw: real)
    requires Draw(draw) && Valid(m) && !m.skipReconnect
    requires FindTimer(m.subs, t).Some? && m.subs[FindTimer(m.subs, t).value].ReconnectTimer?
    ensures var r := OnTimer(m, t, draw);
            && |r.1| > 0 && r.1[0] == Emitted(EventReconnectAttempt, Count(m.backoff.attempts))
            && (m.backoff.attempts == 0 || m.backoff.attempts <= m.opts.reconnectionAttempts)
            && r.0 == OpenAsWritten(m.(subs := m.subs[..FindTimer(m.subs, t).value] + m.subs[FindTimer(m.subs, t).value + 1..]), true, draw).0
  {
    var i := FindTimer(m.subs, t).value;
    var m1 := m.(subs := m.subs[..i] + m.subs[i + 1..]);
    OnReconnectTimer(m, t, draw);
    assert m1.backoff == m.backoff && !m1.skipReconnect;
  }

  /** A live connect timer runs `ConnectTimeout` on the manager without its handle. */
  lemma OnConnectTimer(m: Manager, t: nat, draw: real)
    requires Draw(draw)
    requires FindTimer(m.subs, t).Some? && m.subs[FindTimer(m.subs, t).value].ConnectTimer?
    ensures var i := FindTimer(m.subs, t).value;
            OnTimer(m, t, draw) == ConnectTimeout(m.(subs := m.subs[..i] + m.subs[i + 1..]), m.subs[i].engine, draw)
  {
  }

  /** A live reconnect timer runs `ReconnectAttempt` on the manager without its handle. */
  lemma OnReconnectTimer(m: Manager, t: nat, draw: real)
    requires Draw(draw)
    requires FindTimer(m.subs, t).Some? && m.subs[FindTimer(m.subs, t).value].ReconnectTimer?
    ensures var i := FindTimer(m.subs, t).value;
            OnTimer(m, t, draw) == ReconnectAttempt(m.(subs := m.subs[..i] + m.subs[i + 1..]), draw)
  {
  }

  /**
   * After `close()`, no engine event and no timer makes the manager create
   * or open an engine or start a timer: reconnection stays given up.
   */
  lemma CloseGivesUp(m: Manager, input: Input, draw: real)
    requires Draw(draw)
    requires !input.OpenCalled? && !input.CloseCalled? && !input.DestroyCalled?
    ensures var c := Close(m).0;
            var r := Step(c, input, draw);
            && r.0.state == Closed && r.0.skipReconnect
            && forall o :: o in r.1 ==> !o.StartTimer? && !o.CreateEngine? && !o.OpenEngine?
  {
    var c := Close(m).0;
    assert c.subs == [] && c.skipReconnect && c.state == Closed;
    match input
    case EngineFailed(message) =>
      if ErrorCallback(c.hooked).Some? {
        OpenFailedWhenSkipping(c, ErrorCallback(c.hooked).value, message, draw);
      }
    case EngineClosed(reason) =>
      assert Reconnect(c.(backoff := B.Reset(c.backoff).1, state := Closed), draw).1 == [];
    case TimerFired(t) =>
      assert FindTimer(c.subs, t).None?;
    case _ =>
  }

  /** Once reconnection is given up, a failed open attempt reports the failure and schedules nothing. */
  lemma OpenFailedWhenSkipping(m: Manager, callback: bool, message: string, draw: real)
    requires Draw(draw) && m.skipReconnect
    ensures var r := OpenFailed(m, callback, message, draw);
            && r.0.state == Closed && r.0.skipReconnect
            && forall o :: o in r.1 ==> !o.StartTimer? && !o.CreateEngine? && !o.OpenEngine?
  {
    var m2 := m.(subs := [], hooked := Unhook(m.hooked, m.subs), state := Closed);
    assert Reconnect(m2.(reconnecting := false), draw).1 == [];
    assert forall o :: o in Cancels(m.subs) ==> o.CancelTimer?;
  }

  /**
   * As written, `open` starts the connect timer for any non-zero timeout:
   * with the documented "-1 disables" value the timer is armed with a
   * negative delay, which the coroutine `delay` treats as zero, and firing it
   * fails the attempt with "timeout".
   */
  lemma NegativeTimeoutFailsAsWritten(m: Manager, callback: bool, draw: real)
    requires Draw(draw) && Valid(m)
    requires m.state == Init || m.state == Closed
    requires m.opts.timeout == -1
    ensures var o := OpenAsWritten(m, callback, draw);
            var f := OnTimer(o.0, m.timers, draw);
            && StartTimer(m.timers, -1) in o.1
            && f.0.state == Closed
            && Emitted(EventError, Text(TimeoutError)) in f.1
  {
    var g := m.engines;
    var b := Begin(m, callback);
    var o := OpenAsWritten(m, callback, draw);
    assert o.0 == Arm(b, g, callback, true, -1).0;
    var i := |m.subs|;
    assert o.0.subs[i] == ConnectTimer(m.timers, g);
    FindTimerFirst(o.0.subs, m.timers, i);
    var m1 := o.0.(subs := o.0.subs[..i] + o.0.subs[i + 1..]);
    assert m1.hooked == [OpenListener(callback), OpenErrorListener(callback)];
    assert ErrorCallback(WithoutOpenListener(m1.hooked)).Some? by {
      assert OpenErrorListener(callback) in WithoutOpenListener(m1.hooked);
    }
    assert OnTimer(o.0, m.timers, draw) == ConnectTimeout(m1, g, draw);
  }

  /** `FindTimer` finds the first live timer with the number. */
  lemma FindTimerFirst(subs: seq<Sub>, t: nat, i: nat)
    requires i < |subs| && !subs[i].Listening? && subs[i].timer == t
    requires forall j :: 0 <= j < i && !subs[j].Listening? ==> subs[j].timer != t
    ensures FindTimer(subs, t) == Some(i)
    decreases i
  {
    if i > 0 {
      FindTimerFirst(subs[1..], t, i - 1);
    }
  }

  /**
   * Corrected: a negative timeout starts no connect timer, so the attempt
   * stays OPENING until the engine opens or fails, and the timer number the
   * written version would have used is not live.
   */
  lemma NegativeTimeoutNeverTimesOut(m: Manager, callback: bool, draw: real)
    requires Draw(draw) && Valid(m)
    requires m.state == Init || m.state == Closed
    requires m.opts.timeout < 0
    ensures var o := Open(m, callback, draw);
            && o.1 == [CreateEngine(m.engines), OpenEngine(m.engines)]
            && o.0.state == Opening
            && OnTimer(o.0, m.timers, draw) == (o.0, [])
  {
    var o := Open(m, callback, draw);
    assert o.0 == Arm(Begin(m, callback), m.engines, callback, false, m.opts.timeout).0;
    assert FindTimer(o.0.subs, m.timers).None? by {
      forall i | 0 <= i < |o.0.subs| && !o.0.subs[i].Listening?
        ensures o.0.subs[i].timer != m.timers
      {
        assert i < |m.subs|;
        assert o.0.subs[i] == m.subs[i];
      }
    }
  }

  /** Asking twice for the same namespace gives the same socket and registers nothing more. */
  lemma SocketForIdempotent(m: Manager, nsp: string, auth: Entries<string, string>, auth': Entries<string, string>)
    ensures var first := SocketFor(m, nsp, auth);
            SocketFor(first.0, nsp, auth') == first
  {
  }
}
