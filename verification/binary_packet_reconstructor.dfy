/**
 * Reassembly of a binary Socket.IO message from its attachments
 * (socketio/BinaryPacketReconstructor.kt).
 *
 * JSON elements are opaque values of type `J` and attachment buffers opaque
 * values of type `B`; the message's header is decoded elsewhere.
 */
module BinaryPacketReconstructor {
  import opened Common

  datatype Kind = BinaryEvent | BinaryAck

  /** A payload element: an inline JSON value or a reference to the attachment with that index. */
  datatype Element<J> = JsonElement(json: J) | AttachmentRef(index: int)

  datatype BinaryMessage<J> = BinaryMessage(kind: Kind, ackId: Option<int>, payload: seq<Element<J>>, nBinaryAttachments: int)

  /** One item of the reassembled argument list. */
  datatype Datum<J, B> = Json(json: J) | Buffer(buffer: B)

  /** The call made to the `emitter` callback. */
  datatype Emission<J, B> = Emission(isAck: bool, ackId: Option<int>, data: seq<Datum<J, B>>)

  datatype Reconstructor<J, B> = Reconstructor(packet: BinaryMessage<J>, buffers: seq<B>)

  function New<J, B>(packet: BinaryMessage<J>): Reconstructor<J, B>
  {
    Reconstructor(packet, [])
  }

  predicate InRange<J, B>(e: Element<J>, buffers: seq<B>)
  {
    e.AttachmentRef? ==> 0 <= e.index < |buffers|
  }

  /** Number of references in `payload` that point outside `buffers`. */
  function BadRefs<J, B>(payload: seq<Element<J>>, buffers: seq<B>): nat
  {
    if |payload| == 0 then 0
    else (if InRange(payload[0], buffers) then 0 else 1) + BadRefs(payload[1..], buffers)
  }

  /**
   * The `forEach` over the payload: JSON copied, a reference in range
   * replaced by its buffer, a reference out of range logged and skipped.
   */
  function Assemble<J, B>(payload: seq<Element<J>>, buffers: seq<B>): (data: seq<Datum<J, B>>)
    ensures |data| == |payload| - BadRefs(payload, buffers)
  {
    if |payload| == 0 then []
    else
      var head := match payload[0]
        case JsonElement(j) => [Json(j)]
        case AttachmentRef(i) => if 0 <= i < |buffers| then [Buffer(buffers[i])] else [];
      head + Assemble(payload[1..], buffers)
  }

  /**
   * `add(buffer)`: records the buffer and, exactly when the count of buffers
   * reaches `nBinaryAttachments`, calls the emitter with the reassembled data.
   */
  function Add<J, B>(r: Reconstructor<J, B>, buffer: B): (res: (Reconstructor<J, B>, Option<Emission<J, B>>))
    ensures res.0 == r.(buffers := r.buffers + [buffer])
    ensures res.1.Some? <==> |r.buffers| + 1 == r.packet.nBinaryAttachments
    ensures res.1.Some? ==> (res.1.value.isAck <==> r.packet.kind == BinaryAck)
    ensures res.1.Some? ==> res.1.value.ackId == r.packet.ackId
    ensures res.1.Some? ==> res.1.value.data == Assemble(r.packet.payload, res.0.buffers)
  {
    var buffers := r.buffers + [buffer];
    var r' := r.(buffers := buffers);
    if |buffers| == r.packet.nBinaryAttachments then
      (r', Some(Emission(r.packet.kind == BinaryAck, r.packet.ackId, Assemble(r.packet.payload, buffers))))
    else (r', None)
  }

  /** With every reference in range, the data lines up with the payload element by element. */
  lemma {:induction false} AssembleInRange<J, B>(payload: seq<Element<J>>, buffers: seq<B>, i: nat)
    requires forall k :: 0 <= k < |payload| && payload[k].AttachmentRef? ==> 0 <= payload[k].index < |buffers|
    requires i < |payload|
    ensures BadRefs(payload, buffers) == 0
    ensures |Assemble(payload, buffers)| == |payload|
    ensures payload[i].JsonElement? ==> Assemble(payload, buffers)[i] == Json(payload[i].json)
    ensures payload[i].AttachmentRef? ==> Assemble(payload, buffers)[i] == Buffer(buffers[payload[i].index])
  {
    if |payload| > 1 {
      AssembleInRange(payload[1..], buffers, if i == 0 then 0 else i - 1);
    }
  }

  /** A bad reference is dropped rather than stopping the reassembly: the data is one element shorter per bad reference. */
  lemma BadRefShortens<J, B>(payload: seq<Element<J>>, buffers: seq<B>, k: nat)
    requires k < |payload| && !InRange(payload[k], buffers)
    ensures |Assemble(payload, buffers)| < |payload|
  {
    BadRefPositive(payload, buffers, k);
  }

  lemma {:induction false} BadRefPositive<J, B>(payload: seq<Element<J>>, buffers: seq<B>, k: nat)
    requires k < |payload| && !InRange(payload[k], buffers)
    ensures BadRefs(payload, buffers) > 0
  {
    if k > 0 {
      BadRefPositive(payload[1..], buffers, k - 1);
    }
  }

  /** The emitter calls made while adding `bufs` one by one. */
  function Feed<J, B>(r: Reconstructor<J, B>, bufs: seq<B>): seq<Emission<J, B>>
    decreases |bufs|
  {
    if |bufs| == 0 then []
    else
      var (r', e) := Add(r, bufs[0]);
      (if e.Some? then [e.value] else []) + Feed(r', bufs[1..])
  }

  /**
   * The emitter is called once when the buffer count reaches
   * `nBinaryAttachments` and never otherwise, so at most once per reconstructor.
   */
  lemma {:induction false} FeedEmitsAtMostOnce<J, B>(r: Reconstructor<J, B>, bufs: seq<B>)
    ensures |Feed(r, bufs)| == if |r.buffers| < r.packet.nBinaryAttachments <= |r.buffers| + |bufs| then 1 else 0
    decreases |bufs|
  {
    if |bufs| > 0 {
      FeedEmitsAtMostOnce(Add(r, bufs[0]).0, bufs[1..]);
    }
  }

  /** Starting fresh, nothing is emitted before `nBinaryAttachments` buffers arrived. */
  lemma NoEmissionBeforeAll<J, B>(packet: BinaryMessage<J>, bufs: seq<B>)
    requires |bufs| < packet.nBinaryAttachments
    ensures Feed(New(packet), bufs) == []
  {
    FeedEmitsAtMostOnce(New<J, B>(packet), bufs);
  }
}
