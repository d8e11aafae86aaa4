/**
 * The HTTP long-polling transport (engineio/transports/PollingXHR.kt) with
 * the lifecycle it inherits from engineio/Transport.kt.
 *
 * A step takes the transport and one input (a call from the engine socket,
 * or the completion of an HTTP request) and returns the new transport and
 * the ordered outputs: events for the engine socket's listeners, HTTP
 * requests to perform, and the completion of a pause.
 *
 * The transport's own once-listeners (the pause barrier and the deferred
 * close) are kept in an `Emitter` of `Waiter`s. External listeners are
 * represented by the `Emitted` output; the internal waiters run after it,
 * as once-listeners run after persistent ones in `Emitter.emit`.
 */
module PollingXHR {
  import opened Common
  import T = Transport
  import E = Emitter

  const Name := "polling"
  const SecureSchema := "https"
  const InsecureSchema := "http"
  const EventPoll := "poll"
  const EventPollComplete := "pollComplete"

  /** The transport's own once-listeners. */
  datatype Waiter =
    | PauseStep(pause: nat)   // one awaited job of the pause barrier numbered `pause`
    | CloseAfterDrain         // `onClose()` once the close packet has been written
    | CloseWhenOpen           // the deferred close of `doClose` from OPENING

  /** A pause barrier still waiting for `counter` jobs, then to call `onPause`. */
  datatype PendingPause = PendingPause(counter: int, onPause: nat)

  datatype Method = Get | Post

  datatype Arg =
    | NoArg
    | PacketArg(packet: T.Packet)
    | CountArg(count: nat)
    | TextArg(text: string)
    | HeadersArg(headers: Entries<string, seq<string>>)

  datatype Output =
    | Emitted(event: string, arg: Arg)
    | HttpGet(request: nat, uri: string, headers: Entries<string, seq<string>>)
    | HttpPost(request: nat, uri: string, headers: Entries<string, seq<string>>, packets: seq<T.Packet>)
    | PauseDone(onPause: nat)
    | Fault(message: string)

  /** An HTTP status: its code and reason phrase. */
  datatype Status = Status(code: nat, description: string)

  datatype Input =
    | OpenRequested
    | SendRequested(packets: seq<T.Packet>)
    | CloseRequested
    | PauseRequested(onPause: nat)
    | PollResponse(request: nat, status: Status, responseHeaders: Entries<string, seq<string>>, batch: seq<T.Packet>)
    | PostResponse(request: nat, status: Status, responseHeaders: Entries<string, seq<string>>)

  /** What a step needs from outside: the current timestamp rendering and the URI component encoder. */
  datatype Env = Env(timestamp: string, enc: string -> string)

  datatype Polling = Polling(
    opt: T.Options,
    state: State,
    writable: bool,
    polling: bool,
    waiters: E.Emitter<Waiter>,
    pauses: map<nat, PendingPause>,
    nextPause: nat,
    gets: set<nat>,
    posts: map<nat, nat>,
    nextRequest: nat)

  function New(opt: T.Options): Polling
  {
    Polling(opt, Init, false, false, E.Empty(), map[], 0, {}, map[], 0)
  }

  predicate IsSuccess(s: Status)
  {
    200 <= s.code < 300
  }

  const HttpErrorPrefix := "HTTP error: "

  /**
   * The error reported for a failed request; a status renders as its code
   * and reason phrase, so the code can be read back from the message.
   */
  function HttpError(s: Status): (msg: string)
    ensures var n := |HttpErrorPrefix|;
            var k := n + |Decimal(s.code)|;
            && |msg| == k + 1 + |s.description|
            && msg[..n] == HttpErrorPrefix
            && DigitsValue(msg[n..k]) == s.code
            && msg[k] == ' '
            && msg[k + 1..] == s.description
  {
    var d := Decimal(s.code);
    var msg := HttpErrorPrefix + d + " " + s.description;
    var k := |HttpErrorPrefix| + |d|;
    DecimalValue(s.code);
    T.Slices4(HttpErrorPrefix, d, " ", s.description);
    assert msg[k] == msg[k..k + 1][0];
    msg
  }

  const ContentType := "Content-type"
  const TextPlain := ["text/plain;charset=UTF-8"]
  const Accept := "Accept"
  const AnyType := ["*/*"]

  // `prepareRequestHeaders`: the extra headers, a content type for POST, and an Accept header for any type.
  function RequestHeaders(opt: T.Options, verb: Method): (h: Entries<string, seq<string>>)
    ensures Lookup(h, Accept) == Some(AnyType)
    ensures verb == Post ==> Lookup(h, ContentType) == Some(TextPlain)
    ensures verb == Get ==> Lookup(h, ContentType) == Lookup(opt.extraHeaders, ContentType)
    ensures forall k :: k != Accept && k != ContentType ==> Lookup(h, k) == Lookup(opt.extraHeaders, k)
  {
    var withType := if verb == Post then Put(opt.extraHeaders, ContentType, TextPlain) else opt.extraHeaders;
    Put(withType, Accept, AnyType)
  }

  function Uri(t: Polling, env: Env): string
  {
    T.Uri(t.opt, SecureSchema, InsecureSchema, env.timestamp, env.enc)
  }

  /** What the requests of one step are sent with: the URI and the headers of each method. */
  datatype Context = Context(uri: string, getHeaders: Entries<string, seq<string>>, postHeaders: Entries<string, seq<string>>)

  function ContextOf(t: Polling, env: Env): Context
  {
    Context(Uri(t, env), RequestHeaders(t.opt, Get), RequestHeaders(t.opt, Post))
  }

  predicate IsPacketEmission(o: Output)
  {
    o.Emitted? && o.event == T.EventPacket
  }

  /** The packets handed to the engine socket, in order. */
  function PacketsOf(outs: seq<Output>): seq<T.Packet>
  {
    if |outs| == 0 then []
    else (if IsPacketEmission(outs[0]) && outs[0].arg.PacketArg? then [outs[0].arg.packet] else []) + PacketsOf(outs[1..])
  }

  predicate NoPackets(outs: seq<Output>)
  {
    forall i :: 0 <= i < |outs| ==> !IsPacketEmission(outs[i])
  }

  /** The number of GETs (polls) among the outputs. */
  function GetCount(outs: seq<Output>): nat
  {
    if |outs| == 0 then 0 else (if outs[0].HttpGet? then 1 else 0) + GetCount(outs[1..])
  }

  /** The number of pause completions among the outputs. */
  function PauseDoneCount(outs: seq<Output>): nat
  {
    if |outs| == 0 then 0 else (if outs[0].PauseDone? then 1 else 0) + PauseDoneCount(outs[1..])
  }

  predicate NoPauseDone(outs: seq<Output>)
  {
    PauseDoneCount(outs) == 0
  }

  predicate HasGet(outs: seq<Output>)
  {
    GetCount(outs) > 0
  }

  lemma {:induction false} PacketsOfAppend(a: seq<Output>, b: seq<Output>)
    ensures PacketsOf(a + b) == PacketsOf(a) + PacketsOf(b)
  {
    if |a| > 0 {
      assert (a + b)[0] == a[0];
      assert (a + b)[1..] == a[1..] + b;
      PacketsOfAppend(a[1..], b);
    } else {
      assert a + b == b;
    }
  }

  lemma {:induction false} CountsAppend(a: seq<Output>, b: seq<Output>)
    ensures GetCount(a + b) == GetCount(a) + GetCount(b)
    ensures PauseDoneCount(a + b) == PauseDoneCount(a) + PauseDoneCount(b)
  {
    if |a| > 0 {
      assert (a + b)[0] == a[0];
      assert (a + b)[1..] == a[1..] + b;
      CountsAppend(a[1..], b);
    } else {
      assert a + b == b;
    }
  }

  lemma CountsOne(x: Output)
    ensures GetCount([x]) == (if x.HttpGet? then 1 else 0)
    ensures PauseDoneCount([x]) == (if x.PauseDone? then 1 else 0)
  {
    assert [x][1..] == [];
  }

  lemma Counts2(x: Output, y: Output)
    ensures GetCount([x, y]) == GetCount([x]) + GetCount([y])
    ensures PauseDoneCount([x, y]) == PauseDoneCount([x]) + PauseDoneCount([y])
    ensures GetCount([x]) == (if x.HttpGet? then 1 else 0) && GetCount([y]) == (if y.HttpGet? then 1 else 0)
    ensures PauseDoneCount([x]) == (if x.PauseDone? then 1 else 0) && PauseDoneCount([y]) == (if y.PauseDone? then 1 else 0)
  {
    CountsOne(x);
    CountsOne(y);
    assert [x, y] == [x] + [y];
    CountsAppend([x], [y]);
  }

  lemma Counts3(x: Output, y: Output, z: Output)
    ensures GetCount([x, y, z]) == (if x.HttpGet? then 1 else 0) + (if y.HttpGet? then 1 else 0) + (if z.HttpGet? then 1 else 0)
    ensures PauseDoneCount([x, y, z]) == (if x.PauseDone? then 1 else 0) + (if y.PauseDone? then 1 else 0) + (if z.PauseDone? then 1 else 0)
  {
    Counts2(x, y);
    CountsOne(z);
    assert [x, y, z] == [x, y] + [z];
    CountsAppend([x, y], [z]);
  }

  lemma HasGetAppend(a: seq<Output>, b: seq<Output>)
    ensures HasGet(a + b) <==> HasGet(a) || HasGet(b)
  {
    CountsAppend(a, b);
  }

  /** Dropping the last element of `a + (b + [x, y])` leaves `a + b + [x]`. */
  lemma DropLast(a: seq<Output>, b: seq<Output>, x: Output, y: Output)
    ensures var s := a + (b + [x, y]); s[..|s| - 1] == a + b + [x] && s[|s| - 1] == y
  {
  }

  lemma ForgetPause(m: map<nat, PendingPause>, k: nat, v: PendingPause, w: PendingPause)
    requires k !in m
    ensures m[k := v] - {k} == m
    ensures m[k := v][k := w] - {k} == m
  {
  }

  lemma NoPauseDoneAppend(a: seq<Output>, b: seq<Output>)
    ensures NoPauseDone(a + b) <==> NoPauseDone(a) && NoPauseDone(b)
  {
    CountsAppend(a, b);
  }

  lemma {:induction false} PacketsOfNone(a: seq<Output>)
    requires NoPackets(a)
    ensures PacketsOf(a) == []
  {
    if |a| > 0 {
      PacketsOfNone(a[1..]);
    }
  }

  /** `poll()`: a GET is issued and the poll event emitted; `polling` is set. */
  function Poll(t: Polling, ctx: Context): (r: (Polling, seq<Output>))
    ensures r.0.polling && r.0.state == t.state && r.0.writable == t.writable
    ensures r.0.waiters == t.waiters && r.0.pauses == t.pauses
    ensures t.nextRequest in r.0.gets && r.0.posts == t.posts
    ensures NoPackets(r.1) && GetCount(r.1) == 1 && NoPauseDone(r.1)
    ensures |r.1| == 3 && r.1[1] == HttpGet(t.nextRequest, ctx.uri, ctx.getHeaders) && r.1[2] == Emitted(EventPoll, NoArg)
  {
    var rid := t.nextRequest;
    var h := ctx.getHeaders;
    var outs := [Emitted(T.EventRequestHeaders, HeadersArg(h)), HttpGet(rid, ctx.uri, h), Emitted(EventPoll, NoArg)];
    Counts3(outs[0], outs[1], outs[2]);
    (t.(polling := true, gets := t.gets + {rid}, nextRequest := rid + 1), outs)
  }

  /** `doSend(packets)`: the transport stops being writable and the batch is POSTed. */
  function DoSend(t: Polling, packets: seq<T.Packet>, ctx: Context): (r: (Polling, seq<Output>))
    ensures !r.0.writable && r.0.state == t.state && r.0.polling == t.polling
    ensures r.0.waiters == t.waiters && r.0.pauses == t.pauses && r.0.gets == t.gets
    ensures t.nextRequest in r.0.posts && r.0.posts[t.nextRequest] == |packets|
    ensures |r.1| == 2 && r.1[1] == HttpPost(t.nextRequest, ctx.uri, ctx.postHeaders, packets)
    ensures NoPackets(r.1) && !HasGet(r.1) && NoPauseDone(r.1)
  {
    var rid := t.nextRequest;
    var h := ctx.postHeaders;
    Counts2(Emitted(T.EventRequestHeaders, HeadersArg(h)), HttpPost(rid, ctx.uri, h, packets));
    (t.(writable := false, posts := t.posts[rid := |packets|], nextRequest := rid + 1),
     [Emitted(T.EventRequestHeaders, HeadersArg(h)), HttpPost(rid, ctx.uri, h, packets)])
  }

  /** `onClose()`: CLOSED, then the close event. */
  function OnClose(t: Polling): (r: (Polling, seq<Output>))
    ensures r.0 == t.(state := Closed)
    ensures r.1 == [Emitted(T.EventClose, NoArg)]
  {
    (t.(state := Closed), [Emitted(T.EventClose, NoArg)])
  }

  /** The closure of `doClose` that writes the close packet and closes once it has drained. */
  function CloseByWriting(t: Polling, ctx: Context): (r: (Polling, seq<Output>))
    ensures r.0.waiters == E.Once(t.waiters, T.EventDrain, CloseAfterDrain)
    ensures |r.1| == 2 && r.1[1].HttpPost? && r.1[1].packets == [T.ClosePacket]
    ensures r.1[1].request in r.0.posts && r.0.posts[r.1[1].request] == 1
    ensures !r.0.writable && r.0.state == t.state
    ensures NoPackets(r.1) && !HasGet(r.1) && NoPauseDone(r.1)
  {
    DoSend(t.(waiters := E.Once(t.waiters, T.EventDrain, CloseAfterDrain)), [T.ClosePacket], ctx)
  }

  /** The reaction of one internal waiter. */
  function RunWaiter(t: Polling, w: Waiter, ctx: Context): (r: (Polling, seq<Output>))
    ensures NoPackets(r.1) && !HasGet(r.1)
    ensures r.0.polling == t.polling && r.0.gets == t.gets
    ensures w.PauseStep? ==> r.0.waiters == t.waiters
    ensures w.PauseStep? && w.pause in t.pauses && t.pauses[w.pause].counter == 1 ==>
              r.1 == [PauseDone(t.pauses[w.pause].onPause)] && r.0.state == Paused
    ensures w.PauseStep? && !(w.pause in t.pauses && t.pauses[w.pause].counter == 1) ==> r.1 == [] && r.0.state == t.state
    ensures w.PauseStep? ==> r.0.writable == t.writable && r.0.posts == t.posts
    ensures w.CloseAfterDrain? ==> r.0.state == Closed
    ensures !w.CloseWhenOpen? ==> r.0.writable == t.writable && r.0.posts == t.posts
  {
    match w
    case PauseStep(pid) =>
      if pid in t.pauses then
        var p := t.pauses[pid];
        if p.counter - 1 == 0 then
          // `paused()`: PAUSED (again) and the caller's callback
          CountsOne(PauseDone(p.onPause));
          (t.(state := Paused, pauses := t.pauses - {pid}), [PauseDone(p.onPause)])
        else (t.(pauses := t.pauses[pid := p.(counter := p.counter - 1)]), [])
      else (t, [])
    case CloseAfterDrain =>
      // nothing internal listens for close, so only the external event is produced
      CountsOne(Emitted(T.EventClose, NoArg));
      OnClose(t)
    case CloseWhenOpen =>
      CloseByWriting(t, ctx)
  }

  function RunWaiters(t: Polling, ws: seq<Waiter>, ctx: Context): (r: (Polling, seq<Output>))
    ensures NoPackets(r.1) && !HasGet(r.1)
    ensures r.0.polling == t.polling && r.0.gets == t.gets
    ensures (forall i :: 0 <= i < |ws| ==> !ws[i].CloseWhenOpen?) ==> r.0.writable == t.writable && r.0.posts == t.posts
    decreases |ws|
  {
    if |ws| == 0 then (t, [])
    else
      var (t1, o1) := RunWaiter(t, ws[0], ctx);
      var (t2, o2) := RunWaiters(t1, ws[1..], ctx);
      CountsAppend(o1, o2);
      (t2, o1 + o2)
  }

  /** `emit(event, arg)`: the external listeners' event, then the internal once-waiters of that event. */
  function Emit(t: Polling, event: string, arg: Arg, ctx: Context): (r: (Polling, seq<Output>))
    ensures |r.1| > 0 && r.1[0] == Emitted(event, arg)
    ensures NoPackets(r.1[1..]) && !HasGet(r.1)
    ensures r.0.polling == t.polling && r.0.gets == t.gets
    ensures (forall w :: w in E.Listeners(t.waiters, event) ==> !w.CloseWhenOpen?) ==> r.0.writable == t.writable && r.0.posts == t.posts
  {
    var (calls, w) := E.Emit(t.waiters, event);
    var (t1, o1) := RunWaiters(t.(waiters := w), calls, ctx);
    CountsOne(Emitted(event, arg));
    CountsAppend([Emitted(event, arg)], o1);
    assert ([Emitted(event, arg)] + o1)[1..] == o1;
    (t1, [Emitted(event, arg)] + o1)
  }

  /** `onOpen()`: OPEN and writable, then the open event. */
  function OnOpen(t: Polling, ctx: Context): (r: (Polling, seq<Output>))
    ensures NoPackets(r.1) && !HasGet(r.1)
    ensures |r.1| > 0 && r.1[0] == Emitted(T.EventOpen, NoArg)
    ensures r.0.polling == t.polling && r.0.gets == t.gets
    ensures E.Listeners(t.waiters, T.EventOpen) == [] ==>
              && r.0 == t.(state := Open, writable := true, waiters := E.Emit(t.waiters, T.EventOpen).1)
              && r.1 == [Emitted(T.EventOpen, NoArg)]
    ensures (forall w :: w in E.Listeners(t.waiters, T.EventOpen) ==> !w.CloseWhenOpen?) ==> r.0.writable
  {
    Emit(t.(state := Open, writable := true), T.EventOpen, NoArg, ctx)
  }

  /** Position of the first close packet of a batch, or its length. */
  function FirstClose(batch: seq<T.Packet>): (k: nat)
    ensures k <= |batch|
    ensures forall i :: 0 <= i < k ==> !batch[i].ClosePacket?
    ensures k < |batch| ==> batch[k].ClosePacket?
  {
    if |batch| == 0 then 0
    else if batch[0].ClosePacket? then 0
    else 1 + FirstClose(batch[1..])
  }

  lemma FirstCloseCons(batch: seq<T.Packet>)
    requires |batch| > 0 && !batch[0].ClosePacket?
    ensures batch[..FirstClose(batch)] == [batch[0]] + batch[1..][..FirstClose(batch[1..])]
  {
  }

  /**
   * The loop of `onPollComplete`: each packet in order, an open packet seen
   * while OPENING or CLOSING first opening the transport, and a close packet
   * closing it and ending the batch.
   */
  /** An open packet that arrives while OPENING or CLOSING first opens the transport. */
  function Arrive(t: Polling, p: T.Packet, ctx: Context): (r: (Polling, seq<Output>))
    ensures NoPackets(r.1) && !HasGet(r.1)
    ensures r.0.polling == t.polling && r.0.gets == t.gets
    ensures t.state != Opening && t.state != Closing ==> r == (t, [])
  {
    if (t.state == Opening || t.state == Closing) && p.OpenPacket? then OnOpen(t, ctx) else (t, [])
  }

  function Deliver(t: Polling, batch: seq<T.Packet>, ctx: Context): (r: (Polling, seq<Output>))
    ensures !HasGet(r.1)
    ensures r.0.polling == t.polling && r.0.gets == t.gets
    ensures FirstClose(batch) < |batch| ==> r.0.state == Closed
    ensures t.state != Opening && t.state != Closing && FirstClose(batch) == |batch| ==> r.0 == t && NoPauseDone(r.1)
    decreases |batch|
  {
    if |batch| == 0 then (t, [])
    else
      var p := batch[0];
      var (t1, o1) := Arrive(t, p, ctx);
      if p.ClosePacket? then
        var (t2, o2) := OnClose(t1);
        CountsOne(o2[0]);
        CountsAppend(o1, o2);
        (t2, o1 + o2)
      else
        var (t3, o3) := Deliver(t1, batch[1..], ctx);
        var mine := [Emitted(T.EventPacket, PacketArg(p))];
        CountsOne(mine[0]);
        CountsAppend(o1, mine);
        CountsAppend(o1 + mine, o3);
        (t3, o1 + mine + o3)
  }

  /** One delivered packet between outputs that hand on none and the rest of the batch's packets. */
  lemma PacketsOfDelivered(o1: seq<Output>, batch: seq<T.Packet>, o3: seq<Output>)
    requires |batch| > 0 && !batch[0].ClosePacket? && NoPackets(o1)
    requires PacketsOf(o3) == batch[1..][..FirstClose(batch[1..])]
    ensures PacketsOf(o1 + [Emitted(T.EventPacket, PacketArg(batch[0]))] + o3) == batch[..FirstClose(batch)]
  {
    var mine := [Emitted(T.EventPacket, PacketArg(batch[0]))];
    PacketsOfNone(o1);
    PacketsOfAppend(o1 + mine, o3);
    PacketsOfAppend(o1, mine);
    FirstCloseCons(batch);
  }

  /**
   * The packets a batch hands to the engine socket are exactly those before
   * its first close packet, in order.
   */
  lemma {:induction false} DeliverInOrder(t: Polling, batch: seq<T.Packet>, ctx: Context)
    ensures PacketsOf(Deliver(t, batch, ctx).1) == batch[..FirstClose(batch)]
    decreases |batch|
  {
    if |batch| > 0 {
      var a := Arrive(t, batch[0], ctx);
      if batch[0].ClosePacket? {
        var o2 := OnClose(a.0).1;
        PacketsOfNone(a.1 + o2);
        assert Deliver(t, batch, ctx).1 == a.1 + o2;
      } else {
        var o3 := Deliver(a.0, batch[1..], ctx).1;
        assert Deliver(t, batch, ctx).1 == a.1 + [Emitted(T.EventPacket, PacketArg(batch[0]))] + o3;
        DeliverInOrder(a.0, batch[1..], ctx);
        PacketsOfDelivered(a.1, batch, o3);
      }
    }
  }

  /**
   * `onPollComplete(data)`: the batch is delivered; unless the transport is
   * now CLOSED, `polling` is cleared, pollComplete emitted, and a new poll
   * started exactly when the transport is OPEN.
   */
  function OnPollComplete(t: Polling, batch: seq<T.Packet>, ctx: Context): (r: (Polling, seq<Output>))
    ensures HasGet(r.1) <==> r.0.state == Open
    ensures r.0.state != Closed ==> (r.0.polling <==> r.0.state == Open)
    ensures FirstClose(batch) < |batch| ==> r.0.state == Closed
  {
    var (t1, o1) := Deliver(t, batch, ctx);
    if t1.state == Closed then (t1, o1)
    else
      var (t2, o2) := Emit(t1.(polling := false), EventPollComplete, NoArg, ctx);
      HasGetAppend(o1, o2);
      if t2.state == Open then
        var (t3, o3) := Poll(t2, ctx);
        HasGetAppend(o1 + o2, o3);
        (t3, o1 + o2 + o3)
      else (t2, o1 + o2)
  }

  /** The only packets `onPollComplete` hands on are the batch's, up to its first close packet. */
  lemma PollCompleteInOrder(t: Polling, batch: seq<T.Packet>, ctx: Context)
    ensures PacketsOf(OnPollComplete(t, batch, ctx).1) == batch[..FirstClose(batch)]
  {
    var (t1, o1) := Deliver(t, batch, ctx);
    DeliverInOrder(t, batch, ctx);
    if t1.state != Closed {
      var (t2, o2) := Emit(t1.(polling := false), EventPollComplete, NoArg, ctx);
      assert o2 == [o2[0]] + o2[1..];
      PacketsOfNone(o2[1..]);
      PacketsOfAppend([o2[0]], o2[1..]);
      PacketsOfAppend(o1, o2);
      if t2.state == Open {
        var (t3, o3) := Poll(t2, ctx);
        PacketsOfNone(o3);
        PacketsOfAppend(o1 + o2, o3);
      }
    }
  }

  /**
   * `pause(onPause)`: PAUSED at once; the callback runs immediately when no
   * poll is in flight and the transport is writable, otherwise once each
   * awaited pollComplete and drain has fired.
   */
  function DoPause(t: Polling, onPause: nat): (r: (Polling, seq<Output>))
    ensures r.0.state == Paused
    ensures !t.polling && t.writable ==> r.1 == [PauseDone(onPause)] && r.0 == t.(state := Paused)
    ensures t.polling || !t.writable ==> r.1 == []
    ensures t.polling || !t.writable ==>
              r.0.pauses == t.pauses[t.nextPause := PendingPause((if t.polling then 1 else 0) + (if t.writable then 0 else 1), onPause)]
    ensures t.polling ==> E.Get(r.0.waiters.onceCallbacks, EventPollComplete) == E.Get(t.waiters.onceCallbacks, EventPollComplete) + [PauseStep(t.nextPause)]
    ensures !t.writable ==> E.Get(r.0.waiters.onceCallbacks, T.EventDrain) == E.Get(t.waiters.onceCallbacks, T.EventDrain) + [PauseStep(t.nextPause)]
    ensures r.0.polling == t.polling && r.0.writable == t.writable && r.0.gets == t.gets && r.0.posts == t.posts
    ensures r.0.waiters.callbacks == t.waiters.callbacks
  {
    var t1 := t.(state := Paused);
    if t.polling || !t.writable then
      var pid := t.nextPause;
      var w1 := if t.polling then E.Once(t1.waiters, EventPollComplete, PauseStep(pid)) else t1.waiters;
      var w2 := if !t.writable then E.Once(w1, T.EventDrain, PauseStep(pid)) else w1;
      var counter := (if t.polling then 1 else 0) + (if t.writable then 0 else 1);
      (t1.(waiters := w2, pauses := t.pauses[pid := PendingPause(counter, onPause)], nextPause := pid + 1), [])
    else (t1, [PauseDone(onPause)])
  }

  /** `doClose(fromOpenState)`: from OPEN write the close packet now; from OPENING once open fires. */
  function DoClose(t: Polling, fromOpenState: bool, ctx: Context): (r: (Polling, seq<Output>))
    ensures fromOpenState ==> r == CloseByWriting(t, ctx)
    ensures !fromOpenState ==> r.1 == [] && r.0 == t.(waiters := E.Once(t.waiters, T.EventOpen, CloseWhenOpen))
  {
    if fromOpenState then CloseByWriting(t, ctx)
    else (t.(waiters := E.Once(t.waiters, T.EventOpen, CloseWhenOpen)), [])
  }

  /**
   * The end of a GET: the response headers are reported; a successful body
   * is handled as a poll batch, a failure reported as an error (and the
   * transport stays `polling`).
   */
  function OnPollResponse(t: Polling, rid: nat, status: Status, headers: Entries<string, seq<string>>, batch: seq<T.Packet>, ctx: Context): (r: (Polling, seq<Output>))
    ensures rid !in t.gets ==> r == (t, [])
    ensures rid in t.gets && !IsSuccess(status) ==>
              r.1 == [Emitted(T.EventResponseHeaders, HeadersArg(headers)), Emitted(T.EventError, TextArg(HttpError(status)))]
              && r.0.polling == t.polling && r.0.state == t.state
    ensures rid in t.gets && IsSuccess(status) ==>
              |r.1| > 0 && r.1[0] == Emitted(T.EventResponseHeaders, HeadersArg(headers))
              && (HasGet(r.1) <==> r.0.state == Open)
  {
    if rid !in t.gets then (t, [])
    else
      var t1 := t.(gets := t.gets - {rid});
      var head := [Emitted(T.EventResponseHeaders, HeadersArg(headers))];
      if IsSuccess(status) then
        var (t2, o2) := OnPollComplete(t1, batch, ctx);
        HasGetAppend(head, o2);
        (t2, head + o2)
      else (t1, head + [Emitted(T.EventError, TextArg(HttpError(status)))])
  }

  /**
   * The end of a POST: the response headers are reported; on success the
   * transport is writable again and drain is emitted with the batch size, on
   * failure an error is reported and the transport stays unwritable.
   */
  function OnPostResponse(t: Polling, rid: nat, status: Status, headers: Entries<string, seq<string>>, ctx: Context): (r: (Polling, seq<Output>))
    ensures rid !in t.posts ==> r == (t, [])
    ensures rid in t.posts && !IsSuccess(status) ==>
              r.1 == [Emitted(T.EventResponseHeaders, HeadersArg(headers)), Emitted(T.EventError, TextArg(HttpError(status)))]
              && r.0 == t.(posts := t.posts - {rid})
    ensures rid in t.posts && IsSuccess(status) ==>
              |r.1| > 1 && r.1[1] == Emitted(T.EventDrain, CountArg(t.posts[rid]))
    ensures rid in t.posts && IsSuccess(status) && (forall w :: w in E.Listeners(t.waiters, T.EventDrain) ==> !w.CloseWhenOpen?) ==>
              r.0.writable && rid !in r.0.posts
    ensures rid in t.posts && IsSuccess(status) && E.Listeners(t.waiters, T.EventDrain) == [] ==>
              && r.0 == t.(posts := t.posts - {rid}, writable := true, waiters := E.Emit(t.waiters, T.EventDrain).1)
              && r.1 == [Emitted(T.EventResponseHeaders, HeadersArg(headers)), Emitted(T.EventDrain, CountArg(t.posts[rid]))]
  {
    if rid !in t.posts then (t, [])
    else
      var n := t.posts[rid];
      var t1 := t.(posts := t.posts - {rid});
      var head := [Emitted(T.EventResponseHeaders, HeadersArg(headers))];
      if IsSuccess(status) then
        var (t2, o2) := Emit(t1.(writable := true), T.EventDrain, CountArg(n), ctx);
        (t2, head + o2)
      else (t1, head + [Emitted(T.EventError, TextArg(HttpError(status)))])
  }

  /** One input handled on the transport's scope. */
  function Step(t: Polling, input: Input, env: Env): (r: (Polling, seq<Output>))
    ensures input.SendRequested? && t.state != Open ==> r == (t, [Fault(T.NotOpen)])
    ensures input.SendRequested? && t.state == Open ==> r == DoSend(t, input.packets, ContextOf(t, env))
    ensures input.OpenRequested? && t.state != Init && t.state != Closed ==> r == (t, [])
    ensures input.OpenRequested? && (t.state == Init || t.state == Closed) ==> r.0.state == Opening && r.0.polling && HasGet(r.1)
    ensures input.CloseRequested? && t.state != Opening && t.state != Open ==> r == (t, [])
    ensures input.CloseRequested? && (t.state == Opening || t.state == Open) ==> r == DoClose(t, t.state == Open, ContextOf(t, env))
  {
    var ctx := ContextOf(t, env);
    match input
    case OpenRequested =>
      var (s, go) := T.OpenGuard(t.state);
      if go then Poll(t.(state := s), ctx) else (t, [])
    case SendRequested(packets) =>
      (match T.SendGuard(t.state)
       case Ok(_) => DoSend(t, packets, ctx)
       case Failure(e) => (t, [Fault(e)]))
    case CloseRequested =>
      (match T.CloseGuard(t.state)
       case Some(fromOpenState) => DoClose(t, fromOpenState, ctx)
       case None => (t, []))
    case PauseRequested(onPause) => DoPause(t, onPause)
    case PollResponse(rid, status, headers, batch) => OnPollResponse(t, rid, status, headers, batch, ctx)
    case PostResponse(rid, status, headers) => OnPostResponse(t, rid, status, headers, ctx)
  }

  /** An emit whose only internal waiter is `w` runs just that waiter, after the external event. */
  lemma EmitOne(t: Polling, event: string, arg: Arg, w: Waiter, ctx: Context)
    requires E.Get(t.waiters.callbacks, event) == [] && E.Get(t.waiters.onceCallbacks, event) == [w]
    ensures var t' := t.(waiters := E.Emit(t.waiters, event).1);
            Emit(t, event, arg, ctx) == (RunWaiter(t', w, ctx).0, [Emitted(event, arg)] + RunWaiter(t', w, ctx).1)
  {
    assert E.Listeners(t.waiters, event) == [w];
    var t' := t.(waiters := E.Emit(t.waiters, event).1);
    var (t1, o1) := RunWaiter(t', w, ctx);
    assert RunWaiters(t1, [w][1..], ctx) == (t1, []);
    assert o1 + [] == o1;
  }

  /** An emit without internal waiters only reports the event. */
  lemma EmitNone(t: Polling, event: string, arg: Arg, ctx: Context)
    requires E.Get(t.waiters.callbacks, event) == [] && E.Get(t.waiters.onceCallbacks, event) == []
    ensures Emit(t, event, arg, ctx).1 == [Emitted(event, arg)]
    ensures Emit(t, event, arg, ctx).0 == t.(waiters := E.Emit(t.waiters, event).1)
  {
    assert E.Listeners(t.waiters, event) == [];
  }

  /**
   * A batch without a close packet, handled while PAUSED with one pause
   * barrier waiting only for pollComplete: the packets, pollComplete, then
   * the pause callback; no new poll.
   */
  lemma PollCompleteFinishesPause(t: Polling, pid: nat, onPause: nat, batch: seq<T.Packet>, ctx: Context)
    requires t.state == Paused && FirstClose(batch) == |batch|
    requires pid in t.pauses && t.pauses[pid] == PendingPause(1, onPause)
    requires E.Get(t.waiters.callbacks, EventPollComplete) == [] && E.Get(t.waiters.onceCallbacks, EventPollComplete) == [PauseStep(pid)]
    ensures var (t2, o2) := OnPollComplete(t, batch, ctx);
            o2 == Deliver(t, batch, ctx).1 + [Emitted(EventPollComplete, NoArg), PauseDone(onPause)]
            && t2.state == Paused && !t2.polling && t2.pauses == t.pauses - {pid}
    ensures NoPauseDone(Deliver(t, batch, ctx).1) && !HasGet(Deliver(t, batch, ctx).1)
  {
    var (td, od) := Deliver(t, batch, ctx);
    assert td == t;
    EmitOne(t.(polling := false), EventPollComplete, NoArg, PauseStep(pid), ctx);
  }

  /** The same barrier, but with a drain still awaited: pollComplete only counts down. */
  lemma PollCompleteCountsDown(t: Polling, pid: nat, onPause: nat, batch: seq<T.Packet>, ctx: Context)
    requires t.state == Paused && FirstClose(batch) == |batch|
    requires pid in t.pauses && t.pauses[pid] == PendingPause(2, onPause)
    requires E.Get(t.waiters.callbacks, EventPollComplete) == [] && E.Get(t.waiters.onceCallbacks, EventPollComplete) == [PauseStep(pid)]
    ensures var (t2, o2) := OnPollComplete(t, batch, ctx);
            o2 == Deliver(t, batch, ctx).1 + [Emitted(EventPollComplete, NoArg)]
            && NoPauseDone(Deliver(t, batch, ctx).1) && !HasGet(Deliver(t, batch, ctx).1)
            && t2.state == Paused && !t2.polling && t2.pauses == t.pauses[pid := PendingPause(1, onPause)]
            && t2.waiters.onceCallbacks == E.Emit(t.waiters, EventPollComplete).1.onceCallbacks
            && t2.waiters.callbacks == t.waiters.callbacks && t2.posts == t.posts
  {
    var (td, od) := Deliver(t, batch, ctx);
    assert td == t;
    EmitOne(t.(polling := false), EventPollComplete, NoArg, PauseStep(pid), ctx);
  }

  /** A successful GET is its response headers followed by the handling of its batch. */
  lemma PollResponseSuccess(t: Polling, rid: nat, status: Status, headers: Entries<string, seq<string>>, batch: seq<T.Packet>, ctx: Context)
    requires rid in t.gets && IsSuccess(status)
    ensures var c := OnPollComplete(t.(gets := t.gets - {rid}), batch, ctx);
            OnPollResponse(t, rid, status, headers, batch, ctx) == (c.0, [Emitted(T.EventResponseHeaders, HeadersArg(headers))] + c.1)
  {
  }

  /** Output facts for `head + (body + [x, y])` built from parts without GETs or pause completions. */
  lemma OutputsTail(head: seq<Output>, body: seq<Output>, x: Output, y: Output)
    requires NoPauseDone(head) && NoPauseDone(body) && !x.PauseDone?
    requires !HasGet(head) && !HasGet(body) && !x.HttpGet? && !y.HttpGet?
    ensures var s := head + (body + [x, y]);
            s[|s| - 1] == y && s[..|s| - 1] == head + body + [x]
            && NoPauseDone(s[..|s| - 1]) && !HasGet(s)
  {
    DropLast(head, body, x, y);
    CountsOne(x);
    CountsOne(y);
    CountsAppend([x], [y]);
    assert [x] + [y] == [x, y];
    CountsAppend(head, body);
    CountsAppend(head + body, [x]);
    CountsAppend(head, body + [x, y]);
    CountsAppend(body, [x, y]);
  }

  /** Output facts for `head + (body + [x])` built from parts without GETs or pause completions. */
  lemma OutputsAppendOne(head: seq<Output>, body: seq<Output>, x: Output)
    requires NoPauseDone(head) && NoPauseDone(body) && !x.PauseDone?
    requires !HasGet(head) && !HasGet(body) && !x.HttpGet?
    ensures NoPauseDone(head + (body + [x])) && !HasGet(head + (body + [x]))
  {
    CountsOne(x);
    CountsAppend(body, [x]);
    CountsAppend(head, body + [x]);
  }

  /** The GET that a pause barrier waits for (and only it) succeeds: the callback runs last. */
  lemma PollResponseFinishesPause(t: Polling, pid: nat, onPause: nat, rid: nat, status: Status, headers: Entries<string, seq<string>>, batch: seq<T.Packet>, ctx: Context)
    requires t.state == Paused && FirstClose(batch) == |batch| && rid in t.gets && IsSuccess(status)
    requires pid in t.pauses && t.pauses[pid] == PendingPause(1, onPause)
    requires E.Get(t.waiters.callbacks, EventPollComplete) == [] && E.Get(t.waiters.onceCallbacks, EventPollComplete) == [PauseStep(pid)]
    ensures var (t2, o2) := OnPollResponse(t, rid, status, headers, batch, ctx);
            |o2| > 0 && o2[|o2| - 1] == PauseDone(onPause) && NoPauseDone(o2[..|o2| - 1])
            && t2.state == Paused && !t2.polling && !HasGet(o2) && t2.pauses == t.pauses - {pid}
  {
    var t1 := t.(gets := t.gets - {rid});
    PollCompleteFinishesPause(t1, pid, onPause, batch, ctx);
    PollResponseSuccess(t, rid, status, headers, batch, ctx);
    var head := [Emitted(T.EventResponseHeaders, HeadersArg(headers))];
    CountsOne(head[0]);
    OutputsTail(head, Deliver(t1, batch, ctx).1, Emitted(EventPollComplete, NoArg), PauseDone(onPause));
  }

  /** The GET of a barrier that also awaits a drain succeeds: nothing but the countdown happens to the barrier. */
  lemma PollResponseCountsDown(t: Polling, pid: nat, onPause: nat, rid: nat, status: Status, headers: Entries<string, seq<string>>, batch: seq<T.Packet>, ctx: Context)
    requires t.state == Paused && FirstClose(batch) == |batch| && rid in t.gets && IsSuccess(status)
    requires pid in t.pauses && t.pauses[pid] == PendingPause(2, onPause)
    requires E.Get(t.waiters.callbacks, EventPollComplete) == [] && E.Get(t.waiters.onceCallbacks, EventPollComplete) == [PauseStep(pid)]
    ensures var (t2, o2) := OnPollResponse(t, rid, status, headers, batch, ctx);
            NoPauseDone(o2) && !HasGet(o2) && t2.state == Paused && !t2.polling
            && t2.pauses == t.pauses[pid := PendingPause(1, onPause)]
            && t2.waiters.callbacks == t.waiters.callbacks
            && t2.waiters.onceCallbacks == E.Emit(t.waiters, EventPollComplete).1.onceCallbacks
            && t2.posts == t.posts
  {
    var t1 := t.(gets := t.gets - {rid});
    PollCompleteCountsDown(t1, pid, onPause, batch, ctx);
    PollResponseSuccess(t, rid, status, headers, batch, ctx);
    var head := [Emitted(T.EventResponseHeaders, HeadersArg(headers))];
    CountsOne(head[0]);
    OutputsAppendOne(head, Deliver(t1, batch, ctx).1, Emitted(EventPollComplete, NoArg));
  }

  /** The POST that a pause barrier waits for last succeeds: drain, then the callback. */
  lemma PostResponseFinishesPause(t: Polling, pid: nat, onPause: nat, rid: nat, status: Status, headers: Entries<string, seq<string>>, ctx: Context)
    requires rid in t.posts && IsSuccess(status)
    requires pid in t.pauses && t.pauses[pid] == PendingPause(1, onPause)
    requires E.Get(t.waiters.callbacks, T.EventDrain) == [] && E.Get(t.waiters.onceCallbacks, T.EventDrain) == [PauseStep(pid)]
    ensures var (t2, o2) := OnPostResponse(t, rid, status, headers, ctx);
            o2 == [Emitted(T.EventResponseHeaders, HeadersArg(headers)), Emitted(T.EventDrain, CountArg(t.posts[rid])), PauseDone(onPause)]
            && t2.state == Paused && t2.writable && t2.pauses == t.pauses - {pid}
  {
    var t1 := t.(posts := t.posts - {rid}, writable := true);
    EmitOne(t1, T.EventDrain, CountArg(t.posts[rid]), PauseStep(pid), ctx);
    var (te, oe) := Emit(t1, T.EventDrain, CountArg(t.posts[rid]), ctx);
    assert OnPostResponse(t, rid, status, headers, ctx) == (te, [Emitted(T.EventResponseHeaders, HeadersArg(headers))] + oe);
  }

  /**
   * A pause asked for while a poll is in flight (and nothing is being
   * written) completes when that poll's batch has been handled: the callback
   * runs once, last, the transport stays PAUSED and no new poll starts.
   */
  lemma PauseWaitsForPoll(t: Polling, onPause: nat, rid: nat, status: Status, headers: Entries<string, seq<string>>, batch: seq<T.Packet>, ctx: Context)
    requires t.state == Open && t.polling && t.writable && t.nextPause !in t.pauses
    requires E.Get(t.waiters.callbacks, EventPollComplete) == [] && E.Get(t.waiters.onceCallbacks, EventPollComplete) == []
    requires rid in t.gets && IsSuccess(status) && FirstClose(batch) == |batch|
    ensures DoPause(t, onPause).1 == []
    ensures var (t2, o2) := OnPollResponse(DoPause(t, onPause).0, rid, status, headers, batch, ctx);
            |o2| > 0 && o2[|o2| - 1] == PauseDone(onPause) && NoPauseDone(o2[..|o2| - 1])
            && t2.state == Paused && !t2.polling && !HasGet(o2) && t2.pauses == t.pauses
  {
    var pid := t.nextPause;
    PollResponseFinishesPause(DoPause(t, onPause).0, pid, onPause, rid, status, headers, batch, ctx);
    ForgetPause(t.pauses, pid, PendingPause(1, onPause), PendingPause(1, onPause));
  }

  /**
   * A pause asked for while a POST is in flight (and no poll) completes
   * when that POST succeeds: drain is emitted, then the callback runs.
   */
  lemma PauseWaitsForDrain(t: Polling, onPause: nat, rid: nat, status: Status, headers: Entries<string, seq<string>>, ctx: Context)
    requires t.state == Open && !t.polling && !t.writable && t.nextPause !in t.pauses
    requires E.Get(t.waiters.callbacks, T.EventDrain) == [] && E.Get(t.waiters.onceCallbacks, T.EventDrain) == []
    requires rid in t.posts && IsSuccess(status)
    ensures DoPause(t, onPause).1 == []
    ensures var (t2, o2) := OnPostResponse(DoPause(t, onPause).0, rid, status, headers, ctx);
            o2 == [Emitted(T.EventResponseHeaders, HeadersArg(headers)), Emitted(T.EventDrain, CountArg(t.posts[rid])), PauseDone(onPause)]
            && t2.state == Paused && t2.writable && t2.pauses == t.pauses
  {
    var pid := t.nextPause;
    PostResponseFinishesPause(DoPause(t, onPause).0, pid, onPause, rid, status, headers, ctx);
    ForgetPause(t.pauses, pid, PendingPause(1, onPause), PendingPause(1, onPause));
  }

  /**
   * With both a poll and a POST in flight, the poll's completion alone does
   * not finish the pause; the POST's drain then does, exactly once.
   */
  lemma PauseWaitsForBoth(t: Polling, onPause: nat, g: nat, p: nat, status: Status, headers: Entries<string, seq<string>>, batch: seq<T.Packet>, ctx: Context)
    requires t.state == Open && t.polling && !t.writable && t.nextPause !in t.pauses
    requires E.Get(t.waiters.callbacks, EventPollComplete) == [] && E.Get(t.waiters.onceCallbacks, EventPollComplete) == []
    requires E.Get(t.waiters.callbacks, T.EventDrain) == [] && E.Get(t.waiters.onceCallbacks, T.EventDrain) == []
    requires g in t.gets && p in t.posts && IsSuccess(status) && FirstClose(batch) == |batch|
    ensures DoPause(t, onPause).1 == []
    ensures var (t2, o2) := OnPollResponse(DoPause(t, onPause).0, g, status, headers, batch, ctx);
            NoPauseDone(o2) && t2.state == Paused && !HasGet(o2)
            && var (t3, o3) := OnPostResponse(t2, p, status, headers, ctx);
            o3 == [Emitted(T.EventResponseHeaders, HeadersArg(headers)), Emitted(T.EventDrain, CountArg(t.posts[p])), PauseDone(onPause)]
            && t3.state == Paused && t3.pauses == t.pauses
  {
    var pid := t.nextPause;
    var t1 := DoPause(t, onPause).0;
    PollResponseCountsDown(t1, pid, onPause, g, status, headers, batch, ctx);
    var t2 := OnPollResponse(t1, g, status, headers, batch, ctx).0;
    assert E.Get(t2.waiters.onceCallbacks, T.EventDrain) == [PauseStep(pid)];
    PostResponseFinishesPause(t2, pid, onPause, p, status, headers, ctx);
    ForgetPause(t.pauses, pid, PendingPause(2, onPause), PendingPause(1, onPause));
  }

  /**
   * Closing from OPEN writes a single close packet; when that POST succeeds
   * the drain closes the transport and close is its last event.
   */
  lemma CloseFromOpen(t: Polling, status: Status, headers: Entries<string, seq<string>>, ctx: Context)
    requires t.state == Open
    requires E.Get(t.waiters.callbacks, T.EventDrain) == [] && E.Get(t.waiters.onceCallbacks, T.EventDrain) == []
    requires IsSuccess(status)
    ensures var (t1, o1) := DoClose(t, true, ctx);
            o1[1] == HttpPost(t.nextRequest, ctx.uri, ctx.postHeaders, [T.ClosePacket])
            && var (t2, o2) := OnPostResponse(t1, t.nextRequest, status, headers, ctx);
            t2.state == Closed && o2 == [Emitted(T.EventResponseHeaders, HeadersArg(headers)), Emitted(T.EventDrain, CountArg(1)), Emitted(T.EventClose, NoArg)]
  {
    var t1 := DoClose(t, true, ctx).0;
    var t1' := t1.(posts := t1.posts - {t.nextRequest}, writable := true);
    EmitOne(t1', T.EventDrain, CountArg(1), CloseAfterDrain, ctx);
    var (te, oe) := Emit(t1', T.EventDrain, CountArg(1), ctx);
    assert OnPostResponse(t1, t.nextRequest, status, headers, ctx) == (te, [Emitted(T.EventResponseHeaders, HeadersArg(headers))] + oe);
  }

  /**
   * Closing from OPENING writes nothing at once; the close packet is POSTed
   * as soon as the open packet arrives.
   */
  lemma CloseFromOpening(t: Polling, rid: nat, status: Status, headers: Entries<string, seq<string>>, h: T.Handshake, ctx: Context)
    requires t.state == Opening && rid in t.gets && IsSuccess(status)
    requires E.Get(t.waiters.callbacks, T.EventOpen) == [] && E.Get(t.waiters.onceCallbacks, T.EventOpen) == []
    ensures DoClose(t, false, ctx).1 == []
    ensures var (t2, o2) := OnPollResponse(DoClose(t, false, ctx).0, rid, status, headers, [T.OpenPacket(h)], ctx);
            exists i :: 0 <= i < |o2| && o2[i] == HttpPost(t.nextRequest, ctx.uri, ctx.postHeaders, [T.ClosePacket])
  {
    var t1 := DoClose(t, false, ctx).0;
    var t1' := t1.(gets := t1.gets - {rid});
    var batch := [T.OpenPacket(h)];
    OpenRunsCloseWhenOpen(t1', ctx);
    var oa := OnOpen(t1', ctx).1;
    assert Arrive(t1', batch[0], ctx).1 == oa;
    DeliverStartsWithArrival(t1', batch, ctx);
    var od := Deliver(t1', batch, ctx).1;
    PollCompleteStartsWithDelivery(t1', batch, ctx);
    var oc := OnPollComplete(t1', batch, ctx).1;
    assert oc[2] == od[2] == oa[2];
    var o2 := OnPollResponse(t1, rid, status, headers, batch, ctx).1;
    assert o2 == [Emitted(T.EventResponseHeaders, HeadersArg(headers))] + oc;
    assert o2[3] == oc[2];
  }

  /** Opening with only the close-when-open waiter writes the close packet as the open event's reaction. */
  lemma OpenRunsCloseWhenOpen(t: Polling, ctx: Context)
    requires E.Get(t.waiters.callbacks, T.EventOpen) == [] && E.Get(t.waiters.onceCallbacks, T.EventOpen) == [CloseWhenOpen]
    ensures |OnOpen(t, ctx).1| == 3 && OnOpen(t, ctx).1[2] == HttpPost(t.nextRequest, ctx.uri, ctx.postHeaders, [T.ClosePacket])
  {
    var to := t.(state := Open, writable := true);
    EmitOne(to, T.EventOpen, NoArg, CloseWhenOpen, ctx);
  }

  /** A batch's outputs: its first packet's arrival, then the close event or the packet and the rest of the batch. */
  lemma DeliverCons(t: Polling, batch: seq<T.Packet>, ctx: Context)
    requires |batch| > 0
    ensures var a := Arrive(t, batch[0], ctx);
            batch[0].ClosePacket? ==> Deliver(t, batch, ctx).1 == a.1 + OnClose(a.0).1
    ensures var a := Arrive(t, batch[0], ctx);
            !batch[0].ClosePacket? ==>
              Deliver(t, batch, ctx).1 == a.1 + ([Emitted(T.EventPacket, PacketArg(batch[0]))] + Deliver(a.0, batch[1..], ctx).1)
  {
    var a := Arrive(t, batch[0], ctx);
    var mine := [Emitted(T.EventPacket, PacketArg(batch[0]))];
    if !batch[0].ClosePacket? {
      var o3 := Deliver(a.0, batch[1..], ctx).1;
      assert a.1 + mine + o3 == a.1 + (mine + o3);
    }
  }

  /** The outputs of a batch begin with those of its first packet's arrival. */
  lemma DeliverStartsWithArrival(t: Polling, batch: seq<T.Packet>, ctx: Context)
    requires |batch| > 0
    ensures var a := Arrive(t, batch[0], ctx).1;
            var d := Deliver(t, batch, ctx).1;
            |a| <= |d| && d[..|a|] == a
  {
    var a := Arrive(t, batch[0], ctx);
    var rest := if batch[0].ClosePacket? then OnClose(a.0).1
                else [Emitted(T.EventPacket, PacketArg(batch[0]))] + Deliver(a.0, batch[1..], ctx).1;
    DeliverCons(t, batch, ctx);
    PrefixOfAppend(a.1, rest);
  }

  /** The outputs of `onPollComplete` begin with those of the delivery. */
  lemma {:induction false} PollCompleteStartsWithDelivery(t: Polling, batch: seq<T.Packet>, ctx: Context)
    ensures var d := Deliver(t, batch, ctx).1;
            var c := OnPollComplete(t, batch, ctx).1;
            |d| <= |c| && c[..|d|] == d
  {
    var (t1, o1) := Deliver(t, batch, ctx);
    if t1.state != Closed {
      var (t2, o2) := Emit(t1.(polling := false), EventPollComplete, NoArg, ctx);
      if t2.state == Open {
        PrefixOfAppend3(o1, o2, Poll(t2, ctx).1);
      } else {
        PrefixOfAppend(o1, o2);
      }
    }
  }
}
