/**
 * A Socket.IO namespace socket (socketio/Socket.kt): ack-id allocation, the
 * pending-ack map, the send and receive buffers, and the per-kind dispatch of
 * incoming packets.
 *
 * The socket is a value. Each handler returns the next value and, in order,
 * what it asks of the outside world: packets handed to the manager, events
 * emitted to the application's listeners, and the effects of ack callbacks.
 * What the socket reads from its manager (`reconnecting`, and the manager's
 * state right after `open`) arrives with the input. The manager's events
 * reach the socket only while it is subscribed to them.
 */
module Socket {
  import opened Common
  import A = Ack

  /** A JSON element of a payload: a primitive (string, number, boolean or null) with its content, or anything else. */
  datatype Json = Primitive(content: string) | Structured(text: string)

  /** A Socket.IO packet; each one names the namespace it belongs to. */
  datatype Packet =
    | Connect(nsp: string, payload: Option<Entries<string, Json>>)
    | Disconnect(nsp: string)
    | ConnectError(nsp: string, errorData: Option<Json>)
    | Event(nsp: string, ackId: Option<int>, data: seq<Json>)
    | AckPacket(nsp: string, id: int, data: seq<Json>)
    | BinaryEvent(nsp: string)
    | BinaryAck(nsp: string)

  /** An element of a received event's argument list: a payload element, or the reply ack created for it. */
  datatype Item = JsonItem(json: Json) | ReplyItem(reply: nat)

  /** A reply ack given to the application: the id the server asked for, and whether it has been sent. */
  datatype Reply = Reply(ackId: int, sent: bool)

  /** What the application passes as a trailing ack argument of `emit`. */
  datatype AckRequest = NoAck | PlainAck | TimedAck(timeout: int)

  /** A pending ack: a plain callback, or an `AckWithTimeout` with its timer state. */
  datatype Pending = Plain | Timed(ack: A.AckWithTimeout)

  /** The argument of an event the socket itself emits. */
  datatype Arg = NoArg | Reason(text: string) | ErrorData(json: Json)

  datatype Output =
    | ToManager(packet: Packet)                     // `io.packet(Message(packet))`
    | OpenManager                                   // `io.open()`
    | DestroyManager                                // `io.destroy()`
    | Emitted(event: string, arg: Arg)              // the socket's own events
    | Fired(event: string, args: seq<Item>)         // an event received from the server
    | AckEffect(ackId: int, effect: A.Effect<seq<Json>>)
    | Fault(message: string)                        // an exception escapes the handler

  datatype Socket = Socket(
    nsp: string,
    auth: Entries<string, string>,
    connected: bool,
    subscribed: bool,                    // `subs` non-empty: listening to the manager's events
    id: string,
    ackId: int,                          // the id the next ack will get
    acks: Entries<int, Pending>,         // the `ack` map, in registration order
    orphans: map<int, A.AckWithTimeout>, // timed acks dropped from the map while their timer still runs
    sendBuffer: seq<Packet>,
    recvBuffer: seq<seq<Item>>,
    replies: seq<Reply>)

  datatype Input =
    | OpenCalled(ioReconnecting: bool, ioOpenAfterOpen: bool)
    | CloseCalled
    | EmitCalled(event: string, args: seq<Json>, ack: AckRequest)
    | ManagerOpened
    | ManagerPacket(packet: Packet)
    | ManagerError(message: string)
    | ManagerClosed(reason: string)
    | AckTimerFired(ackId: int)
    | ReplyCalled(reply: nat, args: seq<Json>)

  const EventConnect := "connect"
  const EventDisconnect := "disconnect"
  const EventConnectError := "connect_error"
  const EventMessage := "message"
  const Reserved: set<string> := {EventConnect, EventConnectError, EventDisconnect, "disconnecting", "newListener", "removeListener"}
  const Sid := "sid"
  const ClientDisconnect := "io client disconnect"
  const ServerDisconnect := "io server disconnect"
  const BadEvent := "bad event"
  const NoEvent := "no event name"
  const EmptyObject := Structured("{}")

  /** The pending acks' ids are below the next id and strictly increasing in registration order. */
  predicate Increasing(acks: Entries<int, Pending>)
  {
    forall i, j :: 0 <= i < j < |acks| ==> acks[i].0 < acks[j].0
  }

  predicate Valid(s: Socket)
  {
    && 0 <= s.ackId
    && (forall i :: 0 <= i < |s.acks| ==> 0 <= s.acks[i].0 < s.ackId)
    && Increasing(s.acks)
    && (forall i :: 0 <= i < |s.acks| && s.acks[i].1.Timed? ==> s.acks[i].1.ack.job == A.Pending)
    && (forall k :: k in s.orphans ==> 0 <= k < s.ackId)
    && (forall i :: 0 <= i < |s.acks| ==> s.acks[i].0 !in s.orphans)
  }

  function New(nsp: string, auth: Entries<string, string>): (s: Socket)
    ensures Valid(s) && !s.connected && !Active(s)
    ensures s.sendBuffer == [] && s.recvBuffer == [] && s.acks == []
  {
    Socket(nsp, auth, false, false, "", 0, [], map[], [], [], [])
  }

  /** `active()`: the socket listens to its manager. */
  predicate Active(s: Socket)
  {
    s.subscribed
  }

  /** The Connect packet's payload: the auth map as a JSON object, or none when it is empty. */
  function AuthPayload(auth: Entries<string, string>): (r: Option<Entries<string, Json>>)
    ensures r.None? <==> |auth| == 0
    ensures r.Some? ==> |r.value| == |auth|
                        && forall i :: 0 <= i < |auth| ==> r.value[i] == (auth[i].0, Primitive(auth[i].1))
  {
    if |auth| == 0 then None
    else Some(seq(|auth|, i requires 0 <= i < |auth| => (auth[i].0, Primitive(auth[i].1))))
  }

  // ---------------------------------------------------------------------------
  // Sending

  /**
   * The ack half of `emitWithAck`: a requested ack is stored under the
   * current `ackId` (an `AckWithTimeout` with its timer started), and
   * `ackId` moves on by one.
   */
  function Register(s: Socket, ack: AckRequest): (r: (Socket, seq<Output>))
    requires !ack.NoAck?
    ensures r.0 == s.(ackId := s.ackId + 1, acks := s.acks + [(s.ackId, if ack.PlainAck? then Plain else Timed(A.AckWithTimeout(ack.timeout, A.Pending)))])
    ensures ack.PlainAck? ==> r.1 == []
    ensures ack.TimedAck? ==> r.1 == [AckEffect(s.ackId, A.StartTimer(ack.timeout))]
    ensures Valid(s) ==> Valid(r.0)
  {
    if ack.PlainAck? then (s.(acks := s.acks + [(s.ackId, Plain)], ackId := s.ackId + 1), [])
    else
      var sched := A.ScheduleAck<seq<Json>>(A.New(ack.timeout));
      (s.(acks := s.acks + [(s.ackId, Timed(sched.0))], ackId := s.ackId + 1), [AckEffect(s.ackId, sched.1[0])])
  }

  /** The Event packet `emit` builds: the event's name, then its arguments, with the ack id when one is requested. */
  function EventPacket(s: Socket, event: string, args: seq<Json>, ack: AckRequest): Packet
  {
    Event(s.nsp, if ack.NoAck? then None else Some(s.ackId), [Primitive(event)] + args)
  }

  /**
   * `emit(event, args…)`: a reserved name throws and nothing is queued.
   * Otherwise the ack, if any, is registered, and the Event packet goes to
   * the manager when connected and to `sendBuffer` otherwise.
   */
  function Emit(s: Socket, event: string, args: seq<Json>, ack: AckRequest): (r: (Socket, seq<Output>))
    ensures event in Reserved ==> r == (s, [Fault("emit reserved event: " + event)])
    ensures event !in Reserved && ack.NoAck? ==> r.0.ackId == s.ackId && r.0.acks == s.acks
    ensures event !in Reserved && !ack.NoAck? ==> r.0.(sendBuffer := s.sendBuffer) == Register(s, ack).0
                                                  && |Register(s, ack).1| <= |r.1| && r.1[..|Register(s, ack).1|] == Register(s, ack).1
    ensures event !in Reserved && s.connected ==>
              r.0.sendBuffer == s.sendBuffer && |r.1| > 0 && r.1[|r.1| - 1] == ToManager(EventPacket(s, event, args, ack))
    ensures event !in Reserved && !s.connected ==>
              r.0.sendBuffer == s.sendBuffer + [EventPacket(s, event, args, ack)] && r.1 == (if ack.TimedAck? then Register(s, ack).1 else [])
    ensures r.0 == s.(sendBuffer := r.0.sendBuffer, ackId := r.0.ackId, acks := r.0.acks)
    ensures Valid(s) ==> Valid(r.0)
  {
    if event in Reserved then (s, [Fault("emit reserved event: " + event)])
    else
      var p := EventPacket(s, event, args, ack);
      var (s1, start) := if ack.NoAck? then (s, []) else Register(s, ack);
      if s.connected then (s1, start + [ToManager(p)])
      else (s1.(sendBuffer := s.sendBuffer + [p]), start)
  }

  /** Whether a buffered packet is the Event that asked for ack `id`. */
  predicate Carries(p: Packet, id: int)
  {
    p.Event? && p.ackId == Some(id)
  }

  /** The index of the first buffered packet that carries ack `id`, or the buffer's length when none does. */
  function FirstCarrier(buf: seq<Packet>, id: int): (k: nat)
    ensures k <= |buf|
    ensures forall i :: 0 <= i < k ==> !Carries(buf[i], id)
    ensures k < |buf| ==> Carries(buf[k], id)
  {
    if |buf| == 0 || Carries(buf[0], id) then 0 else 1 + FirstCarrier(buf[1..], id)
  }

  /** The iterator loop of the cleanup: removes the first buffered packet that carries ack `id`, if any. */
  function RemoveBuffered(buf: seq<Packet>, id: int): (r: seq<Packet>)
    ensures |r| <= |buf|
  {
    if |buf| == 0 then []
    else if Carries(buf[0], id) then buf[1..]
    else [buf[0]] + RemoveBuffered(buf[1..], id)
  }

  /** The cleanup removes exactly the first buffered packet carrying the ack id, and keeps the rest in order. */
  lemma {:induction false} RemoveBufferedFirst(buf: seq<Packet>, id: int)
    ensures var k := FirstCarrier(buf, id);
            && (k == |buf| ==> RemoveBuffered(buf, id) == buf)
            && (k < |buf| ==> RemoveBuffered(buf, id) == buf[..k] + buf[k + 1..])
  {
    if |buf| > 0 && !Carries(buf[0], id) {
      RemoveBufferedFirst(buf[1..], id);
      var k := FirstCarrier(buf[1..], id);
      assert FirstCarrier(buf, id) == k + 1;
      assert buf == [buf[0]] + buf[1..];
      if k < |buf| - 1 {
        SpliceCons(buf[0], buf[1..], k);
      }
    }
  }

  /** `ack.remove(id)` on the entries: drops the entry for `id` and keeps the others in order. */
  function RemoveAck(acks: Entries<int, Pending>, id: int): (r: Entries<int, Pending>)
    ensures Lookup(r, id) == None
    ensures forall k :: k != id ==> Lookup(r, k) == Lookup(acks, k)
    ensures forall x :: x in r ==> x in acks
    ensures Increasing(acks) ==> Increasing(r)
  {
    if |acks| == 0 then []
    else
      var rest := RemoveAck(acks[1..], id);
      if acks[0].0 == id then rest
      else
        var r := [acks[0]] + rest;
        assert forall x :: x in r ==> x in acks by {
          forall x | x in r ensures x in acks {
            if x != acks[0] { assert x in acks[1..]; }
          }
        }
        assert Increasing(acks) ==> Increasing(r) by {
          if Increasing(acks) {
            forall i, j | 0 <= i < j < |r| ensures r[i].0 < r[j].0 {
              if i == 0 {
                assert r[j] in acks[1..];
                var m :| 0 <= m < |acks[1..]| && acks[1..][m] == r[j];
                assert acks[m + 1] == r[j];
              }
            }
          }
        }
        r
  }

  /**
   * The cleanup block an `AckWithTimeout` runs when its timer fires: the
   * pending entry for `id` and the first buffered packet carrying `id` go,
   * and nothing else changes.
   */
  function Cleanup(s: Socket, id: int): (r: Socket)
    ensures r == s.(acks := r.acks, sendBuffer := r.sendBuffer)
    ensures Lookup(r.acks, id) == None
    ensures forall k :: k != id ==> Lookup(r.acks, k) == Lookup(s.acks, k)
    ensures var k := FirstCarrier(s.sendBuffer, id);
            && (k == |s.sendBuffer| ==> r.sendBuffer == s.sendBuffer)
            && (k < |s.sendBuffer| ==> r.sendBuffer == s.sendBuffer[..k] + s.sendBuffer[k + 1..])
    ensures Valid(s) ==> Valid(r)
  {
    var acks := RemoveAck(s.acks, id);
    var r := s.(acks := acks, sendBuffer := RemoveBuffered(s.sendBuffer, id));
    RemoveBufferedFirst(s.sendBuffer, id);
    assert Valid(s) ==> Valid(r) by {
      if Valid(s) {
        forall i | 0 <= i < |acks| ensures 0 <= acks[i].0 < s.ackId && acks[i].0 !in s.orphans
          && (acks[i].1.Timed? ==> acks[i].1.ack.job == A.Pending)
        {
          assert acks[i] in s.acks;
        }
      }
    }
    r
  }

  /**
   * An ack timer fires. A pending `AckWithTimeout`, whether still in the map
   * or dropped from it by `clearAck`, runs the cleanup and then `onTimeout`;
   * a timer that was cancelled or has already run does nothing.
   */
  function OnAckTimer(s: Socket, id: int): (r: (Socket, seq<Output>))
    ensures var l := Lookup(s.acks, id);
            (l.Some? && l.value.Timed? && l.value.ack.job == A.Pending)
              ==> r == (Cleanup(s, id), [AckEffect(id, A.RunCleanup), AckEffect(id, A.OnTimeout)])
    ensures (Lookup(s.acks, id) == None && id in s.orphans && s.orphans[id].job == A.Pending)
              ==> r == (Cleanup(s, id).(orphans := s.orphans[id := s.orphans[id].(job := A.Completed)]),
                        [AckEffect(id, A.RunCleanup), AckEffect(id, A.OnTimeout)])
    ensures Lookup(s.acks, id) == Some(Plain) ==> r == (s, [])
    ensures Lookup(s.acks, id) == None && (id !in s.orphans || s.orphans[id].job != A.Pending) ==> r == (s, [])
    ensures Valid(s) ==> Valid(r.0)
  {
    var l := Lookup(s.acks, id);
    if l.Some? then
      if l.value.Timed? && l.value.ack.job == A.Pending then
        var fired := A.FireAck<seq<Json>>(l.value.ack);
        (Cleanup(s, id), [AckEffect(id, fired.1[0]), AckEffect(id, fired.1[1])])
      else (s, [])
    else if id in s.orphans && s.orphans[id].job == A.Pending then
      var fired := A.FireAck<seq<Json>>(s.orphans[id]);
      (Cleanup(s, id).(orphans := s.orphans[id := fired.0]), [AckEffect(id, fired.1[0]), AckEffect(id, fired.1[1])])
    else (s, [])
  }

  // ---------------------------------------------------------------------------
  // Receiving

  /** An argument list that names its event: its first element is a JSON primitive. */
  predicate Named(data: seq<Item>)
  {
    |data| > 0 && data[0].JsonItem? && data[0].json.Primitive?
  }

  /**
   * `fireEvent(data)`: the first element, removed from the list, names the
   * event and the rest are its arguments. A list whose first element is not
   * a primitive throws; so does an empty one.
   */
  function FireEvent(data: seq<Item>): (r: Output)
    ensures Named(data) <==> r.Fired?
    ensures Named(data) ==> r == Fired(data[0].json.content, data[1..])
    ensures !Named(data) ==> r.Fault?
  {
    if |data| == 0 then Fault(NoEvent)
    else match data[0]
      case JsonItem(Primitive(name)) => Fired(name, data[1..])
      case _ => Fault(BadEvent)
  }

  /** The index of the first buffered argument list that does not name its event, or the buffer's length. */
  function FirstUnnamed(buf: seq<seq<Item>>): (k: nat)
    ensures k <= |buf|
    ensures forall i :: 0 <= i < k ==> Named(buf[i])
    ensures k < |buf| ==> !Named(buf[k])
  {
    if |buf| == 0 || !Named(buf[0]) then 0 else 1 + FirstUnnamed(buf[1..])
  }

  /**
   * Firing the received buffer, each entry taken off the buffer before it is
   * fired: the events are fired in arrival order, and the buffer ends up
   * empty. An entry that throws stops the loop, leaving the entries after it.
   */
  function FireQueued(buf: seq<seq<Item>>): (r: (seq<seq<Item>>, seq<Output>))
    ensures var k := FirstUnnamed(buf);
            && |r.1| == (if k < |buf| then k + 1 else k)
            && (forall i :: 0 <= i < k ==> r.1[i] == Fired(buf[i][0].json.content, buf[i][1..]))
            && (k < |buf| ==> r.1[k].Fault? && r.0 == buf[k + 1..])
            && (k == |buf| ==> r.0 == [])
  {
    if |buf| == 0 then ([], [])
    else
      var out := FireEvent(buf[0]);
      if out.Fault? then (buf[1..], [out])
      else
        var rest := FireQueued(buf[1..]);
        ([] + rest.0, [out] + rest.1)
  }

  /**
   * The loop of `onConnect` as written: `fireEvent` removes the first
   * element of each entry in place and the entries stay in the buffer. An
   * entry that throws stops the loop.
   */
  function FireInPlace(buf: seq<seq<Item>>): (r: (seq<seq<Item>>, seq<Output>))
    ensures |r.0| == |buf|
    ensures (forall i :: 0 <= i < |buf| ==> Named(buf[i]))
              ==> && |r.1| == |buf|
                  && (forall i :: 0 <= i < |buf| ==> r.1[i] == FireEvent(buf[i]) && r.0[i] == buf[i][1..])
  {
    if |buf| == 0 then ([], [])
    else
      var out := FireEvent(buf[0]);
      var first := if |buf[0]| == 0 then buf[0] else buf[0][1..];
      if out.Fault? then ([first] + buf[1..], [out])
      else
        var rest := FireInPlace(buf[1..]);
        ([first] + rest.0, [out] + rest.1)
  }

  /** Every buffered packet handed to the manager, in order. */
  function SendAll(ps: seq<Packet>): (r: seq<Output>)
    ensures |r| == |ps|
    ensures forall i :: 0 <= i < |ps| ==> r[i] == ToManager(ps[i])
  {
    if |ps| == 0 then [] else [ToManager(ps[0])] + SendAll(ps[1..])
  }

  /**
   * `onConnect(id)`, with the received buffer emptied as it is fired: the
   * socket is connected under the server's id; the buffered received events
   * fire in arrival order, then the buffered outgoing packets go to the
   * manager in order, then `connect` is emitted. Both buffers end up empty.
   */
  function OnConnect(s: Socket, sid: string): (r: (Socket, seq<Output>))
    ensures r.0.connected && r.0.id == sid
    ensures r.0 == s.(connected := true, id := sid, recvBuffer := r.0.recvBuffer, sendBuffer := r.0.sendBuffer)
    ensures (forall i :: 0 <= i < |s.recvBuffer| ==> Named(s.recvBuffer[i])) ==>
              && r.0.recvBuffer == [] && r.0.sendBuffer == []
              && |r.1| == |s.recvBuffer| + |s.sendBuffer| + 1
              && (forall i :: 0 <= i < |s.recvBuffer| ==> r.1[i] == FireEvent(s.recvBuffer[i]))
              && (forall i :: 0 <= i < |s.sendBuffer| ==> r.1[|s.recvBuffer| + i] == ToManager(s.sendBuffer[i]))
              && r.1[|r.1| - 1] == Emitted(EventConnect, NoArg)
    ensures |r.0.recvBuffer| < |s.recvBuffer| || r.0.recvBuffer == []
  {
    var s1 := s.(connected := true, id := sid);
    var (left, fired) := FireQueued(s.recvBuffer);
    if |fired| > 0 && fired[|fired| - 1].Fault? then (s1.(recvBuffer := left), fired)
    else (s1.(recvBuffer := [], sendBuffer := []), fired + SendAll(s.sendBuffer) + [Emitted(EventConnect, NoArg)])
  }

  /** `onConnect(id)` as written: the received buffer is fired in place and never cleared. */
  function OnConnectAsWritten(s: Socket, sid: string): (r: (Socket, seq<Output>))
    ensures r.0.connected && r.0.id == sid
    ensures r.0 == s.(connected := true, id := sid, recvBuffer := r.0.recvBuffer, sendBuffer := r.0.sendBuffer)
    ensures |r.0.recvBuffer| == |s.recvBuffer|
    ensures (forall i :: 0 <= i < |s.recvBuffer| ==> Named(s.recvBuffer[i])) ==>
              && (forall i :: 0 <= i < |s.recvBuffer| ==> r.0.recvBuffer[i] == s.recvBuffer[i][1..])
              && r.0.sendBuffer == []
              && |r.1| == |s.recvBuffer| + |s.sendBuffer| + 1
              && (forall i :: 0 <= i < |s.recvBuffer| ==> r.1[i] == FireEvent(s.recvBuffer[i]))
              && (forall i :: 0 <= i < |s.sendBuffer| ==> r.1[|s.recvBuffer| + i] == ToManager(s.sendBuffer[i]))
              && r.1[|r.1| - 1] == Emitted(EventConnect, NoArg)
  {
    var s1 := s.(connected := true, id := sid);
    var (left, fired) := FireInPlace(s.recvBuffer);
    if |fired| > 0 && fired[|fired| - 1].Fault? then (s1.(recvBuffer := left), fired)
    else (s1.(recvBuffer := left, sendBuffer := []), fired + SendAll(s.sendBuffer) + [Emitted(EventConnect, NoArg)])
  }

  /** The payload elements as argument-list items. */
  function Items(payload: seq<Json>): (r: seq<Item>)
    ensures |r| == |payload|
    ensures forall i :: 0 <= i < |payload| ==> r[i] == JsonItem(payload[i])
  {
    seq(|payload|, i requires 0 <= i < |payload| => JsonItem(payload[i]))
  }

  /**
   * `onEvent(packet)`: the payload, followed by a fresh reply ack when the
   * server asked for one; an empty list is dropped. The event fires at once
   * when connected and is appended to the received buffer otherwise.
   */
  function OnEvent(s: Socket, ackId: Option<int>, payload: seq<Json>): (r: (Socket, seq<Output>))
    ensures var data := Items(payload) + (if ackId.Some? then [ReplyItem(|s.replies|)] else []);
            && (ackId.Some? ==> r.0.replies == s.replies + [Reply(ackId.value, false)])
            && (ackId.None? ==> r.0.replies == s.replies)
            && (|data| == 0 ==> r == (s, []))
            && (|data| > 0 && s.connected ==> r.1 == [FireEvent(data)] && r.0.recvBuffer == s.recvBuffer)
            && (|data| > 0 && !s.connected ==> r.1 == [] && r.0.recvBuffer == s.recvBuffer + [data])
    ensures r.0 == s.(replies := r.0.replies, recvBuffer := r.0.recvBuffer)
  {
    var data := Items(payload) + (if ackId.Some? then [ReplyItem(|s.replies|)] else []);
    var s1 := if ackId.Some? then s.(replies := s.replies + [Reply(ackId.value, false)]) else s;
    if |data| == 0 then (s1, [])
    else if s.connected then (s1, [FireEvent(data)])
    else (s1.(recvBuffer := s.recvBuffer + [data]), [])
  }

  /**
   * A reply ack is called: it sends one Ack packet with the server's id and
   * the arguments the first time, and nothing afterwards.
   */
  function OnReply(s: Socket, reply: nat, args: seq<Json>): (r: (Socket, seq<Output>))
    ensures reply < |s.replies| && !s.replies[reply].sent ==>
              && r.1 == [ToManager(AckPacket(s.nsp, s.replies[reply].ackId, args))]
              && r.0 == s.(replies := s.replies[reply := Reply(s.replies[reply].ackId, true)])
    ensures !(reply < |s.replies| && !s.replies[reply].sent) ==> r == (s, [])
  {
    if reply < |s.replies| && !s.replies[reply].sent then
      (s.(replies := s.replies[reply := s.replies[reply].(sent := true)]),
       [ToManager(AckPacket(s.nsp, s.replies[reply].ackId, args))])
    else (s, [])
  }

  /**
   * `onAck(packet)`: the pending ack is removed from the map and then
   * called with the payload (an `AckWithTimeout` first stops its timer);
   * an unknown id is dropped.
   */
  function OnAck(s: Socket, id: int, data: seq<Json>): (r: (Socket, seq<Output>))
    ensures Lookup(s.acks, id).None? ==> r == (s, [])
    ensures Lookup(s.acks, id).Some? ==>
              && Lookup(r.0.acks, id) == None
              && (forall k :: k != id ==> Lookup(r.0.acks, k) == Lookup(s.acks, k))
              && |r.1| > 0 && r.1[|r.1| - 1] == AckEffect(id, A.OnSuccess(data))
              && (forall i :: 0 <= i < |r.1| - 1 ==> r.1[i] == AckEffect(id, A.StopTimer))
              && r.0 == s.(acks := r.0.acks)
    ensures Valid(s) ==> Valid(r.0)
  {
    var l := Lookup(s.acks, id);
    if l.None? then (s, [])
    else
      var s1 := Cleanup(s, id).(sendBuffer := s.sendBuffer);
      match l.value
      case Plain => (s1, [AckEffect(id, A.OnSuccess(data))])
      case Timed(a) =>
        var called := A.CallAck(a, data);
        (s1, AckEffects(id, called.1))
  }

  function AckEffects(id: int, effects: seq<A.Effect<seq<Json>>>): (r: seq<Output>)
    ensures |r| == |effects|
    ensures forall i :: 0 <= i < |effects| ==> r[i] == AckEffect(id, effects[i])
  {
    seq(|effects|, i requires 0 <= i < |effects| => AckEffect(id, effects[i]))
  }

  // ---------------------------------------------------------------------------
  // Closing

  /** The `onTimeout` calls of `clearAck`: one per pending `AckWithTimeout`, in map order. */
  function Timeouts(acks: Entries<int, Pending>): (r: seq<Output>)
    ensures forall o :: o in r ==> o.AckEffect? && o.effect == A.OnTimeout
    ensures forall i :: 0 <= i < |acks| && acks[i].1.Timed? ==> AckEffect(acks[i].0, A.OnTimeout) in r
    ensures forall j :: 0 <= j < |r| ==> exists i :: 0 <= i < |acks| && acks[i].1.Timed? && r[j] == AckEffect(acks[i].0, A.OnTimeout)
  {
    if |acks| == 0 then []
    else
      var head := if acks[0].1.Timed? then [AckEffect(acks[0].0, A.OnTimeout)] else [];
      var rest := Timeouts(acks[1..]);
      forall j | 0 <= j < |head + rest|
        ensures exists i :: 0 <= i < |acks| && acks[i].1.Timed? && (head + rest)[j] == AckEffect(acks[i].0, A.OnTimeout)
      {
        if j < |head| {
          assert acks[0].1.Timed? && (head + rest)[j] == AckEffect(acks[0].0, A.OnTimeout);
        } else {
          var i :| 0 <= i < |acks[1..]| && acks[1..][i].1.Timed? && rest[j - |head|] == AckEffect(acks[1..][i].0, A.OnTimeout);
          assert acks[i + 1] == acks[1..][i];
        }
      }
      head + rest
  }

  /**
   * The timed acks `clearAck` drops from the map: their timers are not
   * cancelled, so they keep their state, pending included.
   */
  function Orphan(acks: Entries<int, Pending>, orphans: map<int, A.AckWithTimeout>): (r: map<int, A.AckWithTimeout>)
    ensures Increasing(acks) ==>
              forall i :: 0 <= i < |acks| && acks[i].1.Timed? ==> acks[i].0 in r && r[acks[i].0] == acks[i].1.ack
    ensures forall k :: k in orphans && Lookup(acks, k).None? ==> k in r && r[k] == orphans[k]
    ensures forall k :: k in r ==> k in orphans || Lookup(acks, k).Some?
  {
    if |acks| == 0 then orphans
    else
      var next := if acks[0].1.Timed? then orphans[acks[0].0 := acks[0].1.ack] else orphans;
      var r := Orphan(acks[1..], next);
      assert Increasing(acks) ==> Lookup(acks[1..], acks[0].0).None?;
      r
  }

  /**
   * `onClose(reason)`: disconnected with no id, `disconnect` emitted, then
   * `clearAck`: `onTimeout` runs for every pending `AckWithTimeout`
   * without its timer being cancelled, and the map is emptied. The buffers
   * stay as they are.
   */
  function OnClose(s: Socket, reason: string): (r: (Socket, seq<Output>))
    ensures !r.0.connected && r.0.id == "" && r.0.acks == []
    ensures r.0 == s.(connected := false, id := "", acks := [], orphans := r.0.orphans)
    ensures |r.1| > 0 && r.1[0] == Emitted(EventDisconnect, Reason(reason)) && r.1[1..] == Timeouts(s.acks)
    ensures Increasing(s.acks) ==>
              forall i :: 0 <= i < |s.acks| && s.acks[i].1.Timed? ==> s.acks[i].0 in r.0.orphans && r.0.orphans[s.acks[i].0] == s.acks[i].1.ack
    ensures Valid(s) ==> Valid(r.0)
  {
    var orphans := Orphan(s.acks, s.orphans);
    var r := s.(connected := false, id := "", acks := [], orphans := orphans);
    assert Valid(s) ==> Valid(r) by {
      if Valid(s) {
        forall k | k in orphans ensures 0 <= k < s.ackId {
          if k !in s.orphans {
            var i :| 0 <= i < |s.acks| && s.acks[i].0 == k;
          }
        }
      }
    }
    (r, [Emitted(EventDisconnect, Reason(reason))] + Timeouts(s.acks))
  }

  /** `destroy()`: stop listening to the manager and let it close if no socket is active any more. */
  function Destroy(s: Socket): (r: (Socket, seq<Output>))
    ensures !Active(r.0) && r.0 == s.(subscribed := false) && r.1 == [DestroyManager]
  {
    (s.(subscribed := false), [DestroyManager])
  }

  /**
   * `close()`: when connected, a Disconnect packet goes out first; the
   * socket stops listening to the manager and destroys it; when it was
   * connected it then closes with "io client disconnect".
   */
  function Close(s: Socket): (r: (Socket, seq<Output>))
    ensures !Active(r.0) && !r.0.connected
    ensures s.connected ==> |r.1| >= 3 && r.1[..3] == [ToManager(Disconnect(s.nsp)), DestroyManager, Emitted(EventDisconnect, Reason(ClientDisconnect))]
    ensures !s.connected ==> r == (s.(subscribed := false), [DestroyManager])
    ensures r.0.replies == s.replies && r.0.sendBuffer == s.sendBuffer && r.0.recvBuffer == s.recvBuffer
    ensures Valid(s) ==> Valid(r.0)
  {
    var (s1, destroyed) := Destroy(s);
    if s.connected then
      var (s2, closed) := OnClose(s1, ClientDisconnect);
      (s2, [ToManager(Disconnect(s.nsp))] + destroyed + closed)
    else (s1, destroyed)
  }

  /** The Connect packet asking the server to join this namespace. */
  function ConnectRequest(s: Socket): (r: Packet)
    ensures r.Connect? && r.nsp == s.nsp
    ensures r.payload.None? <==> |s.auth| == 0
    ensures r.payload.Some? ==>
              && |r.payload.value| == |s.auth|
              && forall i :: 0 <= i < |s.auth| ==> r.payload.value[i] == (s.auth[i].0, Primitive(s.auth[i].1))
  {
    Connect(s.nsp, AuthPayload(s.auth))
  }

  /**
   * `open()`: nothing when connected or while the manager reconnects.
   * Otherwise the socket listens to the manager and opens it; when the
   * manager is open right after that, the Connect packet goes out at once.
   */
  function Open(s: Socket, ioReconnecting: bool, ioOpenAfterOpen: bool): (r: (Socket, seq<Output>))
    ensures s.connected || ioReconnecting ==> r == (s, [])
    ensures !(s.connected || ioReconnecting) ==>
              && Active(r.0) && r.0 == s.(subscribed := true)
              && r.1 == [OpenManager] + (if ioOpenAfterOpen then [ToManager(ConnectRequest(s))] else [])
  {
    if s.connected || ioReconnecting then (s, [])
    else (s.(subscribed := true), [OpenManager] + (if ioOpenAfterOpen then [ToManager(ConnectRequest(s))] else []))
  }

  /** The sid a server's Connect payload carries, when it is a JSON primitive. */
  function SidOf(payload: Option<Entries<string, Json>>): (r: Option<string>)
    ensures r.Some? <==> payload.Some? && Lookup(payload.value, Sid).Some? && Lookup(payload.value, Sid).value.Primitive?
    ensures r.Some? ==> Lookup(payload.value, Sid) == Some(Primitive(r.value))
  {
    if payload.None? then None
    else
      var sid: Option<Json> := Lookup(payload.value, Sid);
      if sid.Some? && sid.value.Primitive? then Some(sid.value.content) else None
  }

  /**
   * `onPacket(packet)`: packets for other namespaces are ignored; the
   * others are dispatched on their kind, binary ones doing nothing.
   */
  function OnPacket(s: Socket, p: Packet): (r: (Socket, seq<Output>))
    ensures p.nsp != s.nsp ==> r == (s, [])
    ensures p.nsp == s.nsp && p.Connect? ==>
              (SidOf(p.payload).Some? ==> r == OnConnectAsWritten(s, SidOf(p.payload).value))
              && (SidOf(p.payload).None? ==> r == (s, []))
    ensures p.nsp == s.nsp && p.Disconnect? ==>
              && !Active(r.0) && !r.0.connected && r.0.acks == []
              && |r.1| >= 2 && r.1[..2] == [DestroyManager, Emitted(EventDisconnect, Reason(ServerDisconnect))]
    ensures p.nsp == s.nsp && p.ConnectError? ==>
              && r.0 == s.(subscribed := false)
              && r.1 == [DestroyManager, Emitted(EventConnectError, ErrorData(if p.errorData.Some? then p.errorData.value else EmptyObject))]
    ensures p.nsp == s.nsp && p.Event? ==> r == OnEvent(s, p.ackId, p.data)
    ensures p.nsp == s.nsp && p.AckPacket? ==> r == OnAck(s, p.id, p.data)
    ensures p.nsp == s.nsp && (p.BinaryEvent? || p.BinaryAck?) ==> r == (s, [])
  {
    if p.nsp != s.nsp then (s, [])
    else match p
      case Connect(_, payload) =>
        var sid := SidOf(payload);
        if sid.Some? then OnConnectAsWritten(s, sid.value) else (s, [])
      case Disconnect(_) =>
        var (s1, destroyed) := Destroy(s);
        var (s2, closed) := OnClose(s1, ServerDisconnect);
        (s2, destroyed + closed)
      case ConnectError(_, data) =>
        var (s1, destroyed) := Destroy(s);
        (s1, destroyed + [Emitted(EventConnectError, ErrorData(if data.Some? then data.value else EmptyObject))])
      case Event(_, ackId, data) => OnEvent(s, ackId, data)
      case AckPacket(_, id, data) => OnAck(s, id, data)
      case BinaryEvent(_) => (s, [])
      case BinaryAck(_) => (s, [])
  }

  /** A manager error reaches the application as `connect_error` only while not connected. */
  function OnManagerError(s: Socket, message: string): (r: seq<Output>)
    ensures s.connected <==> r == []
    ensures !s.connected ==> r == [Emitted(EventConnectError, Reason(message))]
  {
    if s.connected then [] else [Emitted(EventConnectError, Reason(message))]
  }

  /** One input; the manager's events count only while the socket listens to them. */
  function Step(s: Socket, input: Input): (Socket, seq<Output>)
  {
    match input
    case OpenCalled(reconnecting, openAfter) => Open(s, reconnecting, openAfter)
    case CloseCalled => Close(s)
    case EmitCalled(event, args, ack) => Emit(s, event, args, ack)
    case ManagerOpened => if s.subscribed then (s, [ToManager(ConnectRequest(s))]) else (s, [])
    case ManagerPacket(p) => if s.subscribed then OnPacket(s, p) else (s, [])
    case ManagerError(message) => if s.subscribed then (s, OnManagerError(s, message)) else (s, [])
    case ManagerClosed(reason) => if s.subscribed then OnClose(s, reason) else (s, [])
    case AckTimerFired(id) => OnAckTimer(s, id)
    case ReplyCalled(reply, args) => OnReply(s, reply, args)
  }

  // ---------------------------------------------------------------------------
  // Properties

  /** Every input keeps the pending acks' ids distinct, increasing and below the next id. */
  lemma StepPreservesValid(s: Socket, input: Input)
    requires Valid(s)
    ensures Valid(Step(s, input).0)
  {
  }

  /** The state and the per-step outputs after a run of inputs. */
  function Run(s: Socket, inputs: seq<Input>): (r: (Socket, seq<seq<Output>>))
    ensures |r.1| == |inputs|
    decreases |inputs|
  {
    if |inputs| == 0 then (s, [])
    else
      var first := Step(s, inputs[0]);
      var rest := Run(first.0, inputs[1..]);
      (rest.0, [first.1] + rest.1)
  }

  /** Reply acks are only ever added, keep the id they answer, and once sent stay sent. */
  predicate RepliesGrow(s: Socket, t: Socket)
  {
    && |s.replies| <= |t.replies|
    && forall i :: 0 <= i < |s.replies| ==> t.replies[i].ackId == s.replies[i].ackId && (s.replies[i].sent ==> t.replies[i].sent)
  }

  lemma StepGrowsReplies(s: Socket, input: Input)
    ensures RepliesGrow(s, Step(s, input).0)
  {
    if input.ManagerPacket? && s.subscribed && input.packet.nsp == s.nsp && input.packet.Disconnect? {
      assert Step(s, input).0.replies == s.replies;
    }
  }

  /** The number of steps of a run at which reply ack `reply` sent something. */
  function ReplySends(s: Socket, inputs: seq<Input>, reply: nat): nat
    decreases |inputs|
  {
    if |inputs| == 0 then 0
    else
      var first := Step(s, inputs[0]);
      (if inputs[0].ReplyCalled? && inputs[0].reply == reply && first.1 != [] then 1 else 0)
        + ReplySends(first.0, inputs[1..], reply)
  }

  /**
   * A reply ack sends at most one Ack packet however often the application
   * calls it, and none once it has been sent.
   */
  lemma {:induction false} ReplyAtMostOnce(s: Socket, inputs: seq<Input>, reply: nat)
    requires reply < |s.replies|
    ensures ReplySends(s, inputs, reply) <= (if s.replies[reply].sent then 0 else 1)
    decreases |inputs|
  {
    if |inputs| > 0 {
      var first := Step(s, inputs[0]);
      StepGrowsReplies(s, inputs[0]);
      ReplyAtMostOnce(first.0, inputs[1..], reply);
      if inputs[0].ReplyCalled? && inputs[0].reply == reply && first.1 != [] {
        assert first.0.replies[reply].sent;
      }
    }
  }

  /**
   * `clearAck` runs `onTimeout` of every pending `AckWithTimeout` but does
   * not cancel its timer, so that timer survives the close: `onTimeout`
   * runs once when the socket closes and again when the timer fires.
   */
  lemma TimeoutRunsTwice(s: Socket, reason: string, id: int)
    requires Valid(s)
    requires Lookup(s.acks, id).Some? && Lookup(s.acks, id).value.Timed?
    ensures var closed := OnClose(s, reason);
            && AckEffect(id, A.OnTimeout) in closed.1
            && OnAckTimer(closed.0, id).1 == [AckEffect(id, A.RunCleanup), AckEffect(id, A.OnTimeout)]
  {
    var i :| 0 <= i < |s.acks| && s.acks[i].0 == id;
    LookupAt(s.acks, i);
    var closed := OnClose(s, reason);
    assert AckEffect(id, A.OnTimeout) in closed.1[1..];
    assert id in closed.0.orphans && closed.0.orphans[id].job == A.Pending;
  }

  lemma {:induction false} LookupAt(acks: Entries<int, Pending>, i: nat)
    requires i < |acks| && Increasing(acks)
    ensures Lookup(acks, acks[i].0) == Some(acks[i].1)
    decreases i
  {
    if i > 0 {
      LookupAt(acks[1..], i - 1);
    }
  }

  /** An `AckWithTimeout` acknowledged by the server stops its timer, and a late expiry then does nothing. */
  lemma AckedInTime(s: Socket, event: string, args: seq<Json>, timeout: int, data: seq<Json>)
    requires Valid(s) && event !in Reserved
    ensures var emitted := Emit(s, event, args, TimedAck(timeout));
            var acked := OnAck(emitted.0, s.ackId, data);
            && emitted.1[0] == AckEffect(s.ackId, A.StartTimer(timeout))
            && acked.1 == [AckEffect(s.ackId, A.StopTimer), AckEffect(s.ackId, A.OnSuccess(data))]
            && OnAckTimer(acked.0, s.ackId).1 == []
  {
    var e := Emit(s, event, args, TimedAck(timeout));
    LookupAt(e.0.acks, |s.acks|);
    assert e.0.acks[|s.acks|] == (s.ackId, Timed(A.AckWithTimeout(timeout, A.Pending)));
    assert s.ackId !in e.0.orphans;
  }

  // ---------------------------------------------------------------------------
  // The received buffer across reconnections

  /**
   * As written, an event buffered before the first connection fires again
   * on the next one: `fireEvent` shifted its arguments in place and the
   * buffer was never cleared, so the old first argument is taken as the
   * event's name.
   */
  lemma RefiredAsWritten(s: Socket, reason: string, sid1: string, sid2: string)
    requires |s.recvBuffer| > 0 && forall i :: 0 <= i < |s.recvBuffer| ==> Named(s.recvBuffer[i])
    requires Named(s.recvBuffer[0]) && Named(s.recvBuffer[0][1..])
    ensures var first := OnConnectAsWritten(s, sid1);
            var closed := OnClose(first.0, reason);
            var second := OnConnectAsWritten(closed.0, sid2);
            && first.1[0] == Fired(s.recvBuffer[0][0].json.content, s.recvBuffer[0][1..])
            && second.1[0] == Fired(s.recvBuffer[0][1].json.content, s.recvBuffer[0][2..])
  {
    var first := OnConnectAsWritten(s, sid1);
    var fired := FireInPlace(s.recvBuffer);
    assert first.0.recvBuffer == fired.0;
    assert fired.0[0] == s.recvBuffer[0][1..];
    var closed := OnClose(first.0, reason);
    assert FireInPlace(closed.0.recvBuffer).1[0] == FireEvent(s.recvBuffer[0][1..]);
  }

  /**
   * With the buffer emptied as it is fired, a buffered event fires on the
   * first connection only: a later connection fires nothing from before.
   */
  lemma FiredOnce(s: Socket, reason: string, sid1: string, sid2: string)
    requires forall i :: 0 <= i < |s.recvBuffer| ==> Named(s.recvBuffer[i])
    ensures var first := OnConnect(s, sid1);
            var closed := OnClose(first.0, reason);
            var second := OnConnect(closed.0, sid2);
            && (forall i :: 0 <= i < |s.recvBuffer| ==> first.1[i] == FireEvent(s.recvBuffer[i]))
            && second.1 == [Emitted(EventConnect, NoArg)]
  {
    var first := OnConnect(s, sid1);
    var closed := OnClose(first.0, reason);
    assert closed.0.recvBuffer == [] && closed.0.sendBuffer == [];
  }
}
