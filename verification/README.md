# kmp-socketio client core in Dafny

This project models the client-side protocol machinery of kmp-socketio. kmp-socketio is a Kotlin Multiplatform client for Engine.IO protocol revision 4 and Socket.IO protocol revision 5. The model covers these parts:

- **Leaf helpers:**
  - the exponential reconnection backoff;
  - the event emitter and its subscription handle;
  - the reassembly of binary messages;
  - acknowledgements with a timeout;
  - query-string encoding and decoding.
- **Engine.IO transport layer:**
  - the lifecycle guards of the base transport and the URI it renders;
  - the HTTP long-polling transport: its poll loop, the pause barrier and the deferred close.
- **Engine.IO socket:**
  - the write buffer and its flush watermark;
  - the deferred close, the handshake and the heartbeat;
  - the upgrade probe.
- **Socket.IO manager:**
  - the open / connect-timeout / reconnect loop driven by the backoff;
  - the namespace registry.
- **Socket.IO namespace socket:**
  - ack-id allocation and the pending-ack map;
  - the send and receive buffers;
  - the per-kind dispatch of incoming packets.
- **The `IO.socket` entry point:** the decision to reuse a cached manager or create one.

The source runs every protocol object on one serialized coroutine scope. So each component is a record value and each operation is a pure function, which returns the next value and the ordered list of what it asks of the outside world:

- events for listeners;
- packets to send;
- HTTP requests;
- timers to start or cancel.

Timer expiries, HTTP completions and events from a neighbouring component arrive as inputs. Components are modelled one at a time and each sees its neighbours only through inputs and outputs. Hash maps are ordered entry lists (`Common.Entries`), read with `Lookup` and written with `Put`. The process-wide state is an explicit value: the remembered websocket success (`prior`) and the manager cache (`IO.Registry`).

One module per source file:

| module | file | source |
|---|---|---|
| `Common` | common.dfy | shared `Option`, `Result`, the `State` enum of `engineio/defs.kt`, decimal rendering, entry lists |
| `Backoff` | backoff.dfy | `socketio/Backoff.kt` |
| `Emitter` | emitter.dfy | `emitter/Emitter.kt` and `engineio/On.kt` |
| `BinaryPacketReconstructor` | binary_packet_reconstructor.dfy | `socketio/BinaryPacketReconstructor.kt` |
| `Ack` | ack.dfy | `socketio/Ack.kt` |
| `ParseQS` | parseqs.dfy | `parseqs/ParseQS.kt` |
| `Transport` | transport.dfy | `engineio/Transport.kt` |
| `PollingXHR` | polling_xhr.dfy | `engineio/transports/PollingXHR.kt` |
| `EngineSocket` | engine_socket.dfy | `engineio/EngineSocket.kt` |
| `Socket` | socket.dfy | `socketio/Socket.kt` |
| `Manager` | manager.dfy | `socketio/Manager.kt` |
| `IO` | io.dfy | `socketio/IO.kt` |

Inputs and outputs stand in for the following:

- **Clock:**
  - Timers are `StartTimer`/`CancelTimer` outputs, and their expiry is an input.
  - The ping timeout, the connect timeout, the reconnect delay and the ack timeout all work this way.
  - The base-36 timestamp of a request is a string parameter.
- **Randomness:** the backoff's random draw is a real parameter in [0, 1).
- **Component encoders:** `encodeURIComponent`/`decodeURIComponent` are function parameters.
- **Network:** HTTP requests are outputs, and their responses are inputs.
- **Ktor URL parser:** the parsed URL components are inputs.

## Model

| member | source | states |
|---|---|---|
| Backoff.New | kmp-socketio/src/commonMain/kotlin/com/piasy/kmp/socketio/socketio/Backoff.kt:17-27 | construction succeeds exactly when the jitter lies in [0, 1], and then starts with no attempts and the given bounds |
| Backoff.SetJitter | kmp-socketio/src/commonMain/kotlin/com/piasy/kmp/socketio/socketio/Backoff.kt:32-36 | assigning a jitter outside [0, 1] fails; otherwise only the jitter changes |
| Backoff.Duration | kmp-socketio/src/commonMain/kotlin/com/piasy/kmp/socketio/socketio/Backoff.kt:39-48 | each read records exactly one more attempt; the delay is at least `min`, at most `max` whenever `min <= max`, and without jitter equals max(min(min·factor^attempts, max), min) |
| Backoff.Clamp | kmp-socketio/src/commonMain/kotlin/com/piasy/kmp/socketio/socketio/Backoff.kt:47 | the clamp never goes below the lower bound, never above an upper bound that is not below it, and leaves a value already in range alone |
| Backoff.Reset | kmp-socketio/src/commonMain/kotlin/com/piasy/kmp/socketio/socketio/Backoff.kt:51-55 | returns the attempt count it had and leaves zero attempts, nothing else changed |
| Backoff.DelaysClosedForm | kmp-socketio/src/commonMain/kotlin/com/piasy/kmp/socketio/socketio/Backoff.kt:39-48 | the i-th of n successive jitter-free delays is the clamped undeviated delay of attempt `attempts + i` |
| Backoff.DelaysNonDecreasing | kmp-socketio/src/commonMain/kotlin/com/piasy/kmp/socketio/socketio/Backoff.kt:39-48 | without jitter and with factor at least 1, successive delays between resets never decrease |
| Backoff.DefaultDelays | kmp-socketio/src/commonMain/kotlin/com/piasy/kmp/socketio/socketio/Backoff.kt:17-22 | the defaults give the delays 100, 200, 400, 800 |
| Emitter.Append | kmp-socketio/src/commonMain/kotlin/com/piasy/kmp/socketio/emitter/Emitter.kt:35-45 | `addListener` appends to the event's list, creating it, and leaves every other event's list alone |
| Emitter.On | kmp-socketio/src/commonMain/kotlin/com/piasy/kmp/socketio/emitter/Emitter.kt:30-33 | the listener becomes the last persistent listener of the event; no other list changes |
| Emitter.Once | kmp-socketio/src/commonMain/kotlin/com/piasy/kmp/socketio/emitter/Emitter.kt:55-58 | the listener becomes the last once-listener of the event; no other list changes |
| Emitter.OffAll | kmp-socketio/src/commonMain/kotlin/com/piasy/kmp/socketio/emitter/Emitter.kt:66-70 | afterwards no event has any listener |
| Emitter.OffEvent | kmp-socketio/src/commonMain/kotlin/com/piasy/kmp/socketio/emitter/Emitter.kt:79-83 | the event loses both lists and every other event keeps both of its lists |
| Emitter.RemoveFirst | kmp-socketio/src/commonMain/kotlin/com/piasy/kmp/socketio/emitter/Emitter.kt:93-97 | list removal drops exactly the first occurrence of the listener, or nothing when it is absent |
| Emitter.OffListener | kmp-socketio/src/commonMain/kotlin/com/piasy/kmp/socketio/emitter/Emitter.kt:93-97 | the first occurrence of the listener leaves the event's persistent and once lists; other events are untouched |
| Emitter.HasListeners | kmp-socketio/src/commonMain/kotlin/com/piasy/kmp/socketio/emitter/Emitter.kt:126-142 | holds exactly when the persistent list followed by the once list is non-empty |
| Emitter.Emit | kmp-socketio/src/commonMain/kotlin/com/piasy/kmp/socketio/emitter/Emitter.kt:107-117 | the listeners called are the persistent ones then the once ones, each in registration order; afterwards the persistent table is unchanged and only this event's once list is gone |
| Emitter.EmitWithoutListeners | kmp-socketio/src/commonMain/kotlin/com/piasy/kmp/socketio/emitter/Emitter.kt:107-117 | emitting an event nobody listens to calls nobody and changes no event's listeners |
| Emitter.EmitTimesAfterFirst | kmp-socketio/src/commonMain/kotlin/com/piasy/kmp/socketio/emitter/Emitter.kt:107-117 | once an event's once list is gone, repeated emits never call a listener that is not persistent |
| Emitter.OnceFiresOnce | kmp-socketio/src/commonMain/kotlin/com/piasy/kmp/socketio/emitter/Emitter.kt:55-58 | a listener registered only with `once` is called exactly once over any positive number of emits |
| Emitter.Subscribe | kmp-socketio/src/commonMain/kotlin/com/piasy/kmp/socketio/engineio/On.kt:6-13 | the subscription puts the listener after the event's persistent listeners and before its once-listeners |
| Emitter.SubscribeThenDestroy | kmp-socketio/src/commonMain/kotlin/com/piasy/kmp/socketio/engineio/On.kt:6-13 | destroying the handle of a fresh subscription restores every event's listeners |
| BinaryPacketReconstructor.Assemble | kmp-socketio/src/commonMain/kotlin/com/piasy/kmp/socketio/socketio/BinaryPacketReconstructor.kt:17-31 | the data is one element shorter than the payload per reference outside the buffers |
| BinaryPacketReconstructor.Add | kmp-socketio/src/commonMain/kotlin/com/piasy/kmp/socketio/socketio/BinaryPacketReconstructor.kt:14-34 | the buffer is recorded; the emitter is called exactly when the count reaches `nBinaryAttachments`, with `isAck` iff the packet is a BinaryAck, the packet's ack id and the reassembled data |
| BinaryPacketReconstructor.AssembleInRange | kmp-socketio/src/commonMain/kotlin/com/piasy/kmp/socketio/socketio/BinaryPacketReconstructor.kt:17-31 | with every reference in range the data follows the payload element by element: JSON copied, the i-th reference replaced by the i-th buffer |
| BinaryPacketReconstructor.BadRefShortens | kmp-socketio/src/commonMain/kotlin/com/piasy/kmp/socketio/socketio/BinaryPacketReconstructor.kt:19-27 | a reference out of range is dropped, not fatal: the data comes out shorter than the payload |
| BinaryPacketReconstructor.FeedEmitsAtMostOnce | kmp-socketio/src/commonMain/kotlin/com/piasy/kmp/socketio/socketio/BinaryPacketReconstructor.kt:14-16 | over any sequence of adds the emitter is called once if the count passes `nBinaryAttachments` and never otherwise |
| BinaryPacketReconstructor.NoEmissionBeforeAll | kmp-socketio/src/commonMain/kotlin/com/piasy/kmp/socketio/socketio/BinaryPacketReconstructor.kt:14-16 | a fresh reconstructor emits nothing before `nBinaryAttachments` buffers arrived |
| Ack.CancelJob | kmp-socketio/src/commonMain/kotlin/com/piasy/kmp/socketio/socketio/Ack.kt:18 | only a pending timer is stopped; afterwards no timer is pending |
| Ack.CallAck | kmp-socketio/src/commonMain/kotlin/com/piasy/kmp/socketio/socketio/Ack.kt:16-20 | every call ends by running `onSuccess` with its own arguments; the timer is stopped first exactly when the job was pending, and otherwise the ack is left as it was; nothing stays pending and the timeout is kept |
| Ack.ScheduleAck | kmp-socketio/src/commonMain/kotlin/com/piasy/kmp/socketio/socketio/Ack.kt:22-34 | a second schedule logs an error and leaves the existing job; the first starts the timer |
| Ack.FireAck | kmp-socketio/src/commonMain/kotlin/com/piasy/kmp/socketio/socketio/Ack.kt:28-33 | an expiry of a pending job runs the caller's cleanup before `onTimeout`; any other expiry does nothing |
| Ack.CancelAck | kmp-socketio/src/commonMain/kotlin/com/piasy/kmp/socketio/socketio/Ack.kt:36-39 | cancelling calls neither `onSuccess` nor `onTimeout` and leaves nothing pending |
| Ack.SettledStaysSettled | kmp-socketio/src/commonMain/kotlin/com/piasy/kmp/socketio/socketio/Ack.kt:22-39 | once the job is cancelled or completed, no later input starts a timer or times out |
| Ack.AckedInTimeNeverTimesOut | kmp-socketio/src/commonMain/kotlin/com/piasy/kmp/socketio/socketio/Ack.kt:16-39 | an ack scheduled and then called or cancelled before expiry never times out, whatever follows |
| ParseQS.Split | kmp-socketio/src/commonMain/kotlin/com/piasy/kmp/socketio/parseqs/ParseQS.kt:24-25 | splitting gives at least one piece and no piece holds the separator |
| ParseQS.SplitJoin | kmp-socketio/src/commonMain/kotlin/com/piasy/kmp/socketio/parseqs/ParseQS.kt:24-25 | splitting inverts joining when no piece holds the separator |
| ParseQS.Segments | kmp-socketio/src/commonMain/kotlin/com/piasy/kmp/socketio/parseqs/ParseQS.kt:14-16 | one `enc(k)=enc(v)` rendering per entry, in order, each key and value encoded once |
| ParseQS.Encode | kmp-socketio/src/commonMain/kotlin/com/piasy/kmp/socketio/parseqs/ParseQS.kt:8-19 | no entries give ""; otherwise the segments joined by single `&` with none leading or trailing |
| ParseQS.EncodeNonEmpty | kmp-socketio/src/commonMain/kotlin/com/piasy/kmp/socketio/parseqs/ParseQS.kt:8-19 | the encoding is empty exactly when there are no entries |
| ParseQS.EncodeFromAppend | kmp-socketio/src/commonMain/kotlin/com/piasy/kmp/socketio/parseqs/ParseQS.kt:10-17 | the builder loop, once non-empty, appends `&` and the remaining segments joined by `&` |
| ParseQS.Decode | kmp-socketio/src/commonMain/kotlin/com/piasy/kmp/socketio/parseqs/ParseQS.kt:22-33 | every `&`-piece's decoded key is in the map, and each key holds the value of the last piece with that key |
| ParseQS.DecodePieces | kmp-socketio/src/commonMain/kotlin/com/piasy/kmp/socketio/parseqs/ParseQS.kt:24-31 | the loop over the pieces keeps every key seen so far, each with the value of its last piece |
| ParseQS.DecodeEmpty | kmp-socketio/src/commonMain/kotlin/com/piasy/kmp/socketio/parseqs/ParseQS.kt:22-33 | decoding "" gives the single entry dec("") to "" |
| ParseQS.EncodeEmptyNotInverted | kmp-socketio/src/commonMain/kotlin/com/piasy/kmp/socketio/parseqs/ParseQS.kt:8-33 | decoding the encoding of the empty map is not the empty map |
| ParseQS.DecodeSegment | kmp-socketio/src/commonMain/kotlin/com/piasy/kmp/socketio/parseqs/ParseQS.kt:25-30 | a piece with exactly one `=` decodes to the entry it renders, given a safe encoder |
| ParseQS.DecodeSegments | kmp-socketio/src/commonMain/kotlin/com/piasy/kmp/socketio/parseqs/ParseQS.kt:24-31 | decoding the pieces gives the map of the entries, a later entry overwriting an earlier one with the same key |
| ParseQS.DecodeEncode | kmp-socketio/src/commonMain/kotlin/com/piasy/kmp/socketio/parseqs/ParseQS.kt:8-33 | for a non-empty map and an encoder that never yields `&` or `=` and is inverted by the decoder, decoding the encoding gives back the map |
| Transport.OpenGuard | kmp-socketio/src/commonMain/kotlin/com/piasy/kmp/socketio/engineio/Transport.kt:49-58 | `doOpen` runs exactly from INIT or CLOSED, and then the state is OPENING; otherwise nothing changes |
| Transport.SendGuard | kmp-socketio/src/commonMain/kotlin/com/piasy/kmp/socketio/engineio/Transport.kt:61-70 | `doSend` is reached exactly in OPEN; in any other state the send fails with "Transport not open" |
| Transport.CloseGuard | kmp-socketio/src/commonMain/kotlin/com/piasy/kmp/socketio/engineio/Transport.kt:73-81 | `doClose` is reached exactly from OPENING or OPEN, told whether it was OPEN |
| Transport.PortPart | kmp-socketio/src/commonMain/kotlin/com/piasy/kmp/socketio/engineio/Transport.kt:130-134 | `:port` appears exactly when the port is positive and not the scheme's default (443 secure, 80 otherwise), and then renders the port's value |
| Transport.HostPart | kmp-socketio/src/commonMain/kotlin/com/piasy/kmp/socketio/engineio/Transport.kt:147-151 | the hostname is bracketed exactly when it holds `:` |
| Transport.RequestQuery | kmp-socketio/src/commonMain/kotlin/com/piasy/kmp/socketio/engineio/Transport.kt:126-140 | the request query is the options' query with only the timestamp parameter set when timestamps are on; the options' own query is not changed |
| Transport.QueryPart | kmp-socketio/src/commonMain/kotlin/com/piasy/kmp/socketio/engineio/Transport.kt:142-145 | `?` and the encoded query appear exactly when the query is non-empty |
| Transport.Uri | kmp-socketio/src/commonMain/kotlin/com/piasy/kmp/socketio/engineio/Transport.kt:125-153 | the URI is cut, in order, into the scheme chosen by `secure` with "://" and the host part, the port part, the path, and the query part |
| Transport.QueryPartEmpty | kmp-socketio/src/commonMain/kotlin/com/piasy/kmp/socketio/engineio/Transport.kt:126-145 | the query part is absent exactly when the query is empty and timestamps are off |
| Transport.UriPortShape | kmp-socketio/src/commonMain/kotlin/com/piasy/kmp/socketio/engineio/Transport.kt:125-152 | with a positive port other than the scheme's default (443 or 80), the host is followed by `:`, the port part's digits (which read back as the port) and then the path |
| Transport.UriPathShape | kmp-socketio/src/commonMain/kotlin/com/piasy/kmp/socketio/engineio/Transport.kt:125-152 | with the default or no port, the path follows the host directly |
| Transport.UriQueryShape | kmp-socketio/src/commonMain/kotlin/com/piasy/kmp/socketio/engineio/Transport.kt:136-152 | a URI with a query parameter or a timestamp ends in `?` followed by the encoded query |
| Transport.PortPartDigits | kmp-socketio/src/commonMain/kotlin/com/piasy/kmp/socketio/engineio/Transport.kt:130-134 | an explicit port is rendered as `:` and its decimal digits |
| Transport.UriDefaultSecurePort | kmp-socketio/src/commonMain/kotlin/com/piasy/kmp/socketio/engineio/Transport.kt:125-153 | a secure transport on port 443 with only a timestamp renders as https://host/path?t=<timestamp> |
| PollingXHR.HttpError | kmp-socketio/src/commonMain/kotlin/com/piasy/kmp/socketio/engineio/transports/PollingXHR.kt:127-131 | the message is "HTTP error: ", then digits that read back as the status code, a space and the reason phrase |
| PollingXHR.RequestHeaders | kmp-socketio/src/commonMain/kotlin/com/piasy/kmp/socketio/engineio/transports/PollingXHR.kt:84-93 | every request accepts any type, a POST is text/plain, and every other header comes from the extra headers |
| PollingXHR.Poll | kmp-socketio/src/commonMain/kotlin/com/piasy/kmp/socketio/engineio/transports/PollingXHR.kt:71-81 | one GET is issued, `polling` is set and the poll event follows; nothing else changes |
| PollingXHR.DoSend | kmp-socketio/src/commonMain/kotlin/com/piasy/kmp/socketio/engineio/transports/PollingXHR.kt:168-193 | the transport stops being writable and one POST carries the batch, its size remembered for the drain |
| PollingXHR.OnOpen | kmp-socketio/src/commonMain/kotlin/com/piasy/kmp/socketio/engineio/Transport.kt:84-89 | open is the first event emitted and no poll request or packet results from it; the transport ends OPEN and writable unless an open listener closes it, and with no open listener that is all that changes |
| PollingXHR.OnClose | kmp-socketio/src/commonMain/kotlin/com/piasy/kmp/socketio/engineio/Transport.kt:109-113 | the transport is CLOSED before close is emitted |
| PollingXHR.Deliver | kmp-socketio/src/commonMain/kotlin/com/piasy/kmp/socketio/engineio/transports/PollingXHR.kt:142-153 | a batch with a close packet leaves the transport CLOSED; one without, seen outside OPENING and CLOSING, changes nothing |
| PollingXHR.DeliverInOrder | kmp-socketio/src/commonMain/kotlin/com/piasy/kmp/socketio/engineio/transports/PollingXHR.kt:142-153 | the packets handed on are exactly those before the first close packet, in order |
| PollingXHR.OnPollComplete | kmp-socketio/src/commonMain/kotlin/com/piasy/kmp/socketio/engineio/transports/PollingXHR.kt:135-165 | a new poll starts exactly when the transport ends OPEN; unless CLOSED, `polling` holds exactly then |
| PollingXHR.PollCompleteInOrder | kmp-socketio/src/commonMain/kotlin/com/piasy/kmp/socketio/engineio/transports/PollingXHR.kt:135-165 | the only packets handed on are the batch's up to its first close packet, in order |
| PollingXHR.PollCompleteFinishesPause | kmp-socketio/src/commonMain/kotlin/com/piasy/kmp/socketio/engineio/transports/PollingXHR.kt:40-51 | a poll completion that is the last thing a pause waits for emits pollComplete and then finishes the pause, without polling again |
| PollingXHR.PollCompleteCountsDown | kmp-socketio/src/commonMain/kotlin/com/piasy/kmp/socketio/engineio/transports/PollingXHR.kt:40-51 | a poll completion while the pause also waits for a drain only counts the pause down |
| PollingXHR.PollResponseSuccess | kmp-socketio/src/commonMain/kotlin/com/piasy/kmp/socketio/engineio/transports/PollingXHR.kt:117-126 | a successful GET announces the response headers and then handles the batch as a poll completion |
| PollingXHR.PollResponseFinishesPause | kmp-socketio/src/commonMain/kotlin/com/piasy/kmp/socketio/engineio/transports/PollingXHR.kt:40-51 | a successful GET that is the last thing a pause waits for ends with the pause finished and no new poll |
| PollingXHR.PollResponseCountsDown | kmp-socketio/src/commonMain/kotlin/com/piasy/kmp/socketio/engineio/transports/PollingXHR.kt:40-51 | a successful GET while the pause also waits for a drain only counts the pause down |
| PollingXHR.PostResponseFinishesPause | kmp-socketio/src/commonMain/kotlin/com/piasy/kmp/socketio/engineio/transports/PollingXHR.kt:185-191 | a successful POST that is the last thing a pause waits for emits drain and then finishes the pause, leaving the transport writable |
| PollingXHR.DoPause | kmp-socketio/src/commonMain/kotlin/com/piasy/kmp/socketio/engineio/transports/PollingXHR.kt:29-63 | PAUSED at once; the callback runs immediately exactly when no poll is in flight and the transport is writable, otherwise a barrier waits on pollComplete and/or drain |
| PollingXHR.DoClose | kmp-socketio/src/commonMain/kotlin/com/piasy/kmp/socketio/engineio/transports/PollingXHR.kt:196-218 | from OPEN the close packet is written now; from OPENING nothing happens until open fires |
| PollingXHR.CloseByWriting | kmp-socketio/src/commonMain/kotlin/com/piasy/kmp/socketio/engineio/transports/PollingXHR.kt:197-205 | the close packet is POSTed alone, and a one-time drain listener will close the transport |
| PollingXHR.RunWaiter | kmp-socketio/src/commonMain/kotlin/com/piasy/kmp/socketio/engineio/transports/PollingXHR.kt:43-50 | a pause step finishes its pause exactly when it is the last one counted, and a close step closes the transport |
| PollingXHR.OnPollResponse | kmp-socketio/src/commonMain/kotlin/com/piasy/kmp/socketio/engineio/transports/PollingXHR.kt:96-132 | an unknown request is ignored; a failure is reported as an HTTP error instead of delivering a body; a success is the batch handled |
| PollingXHR.OnPostResponse | kmp-socketio/src/commonMain/kotlin/com/piasy/kmp/socketio/engineio/transports/PollingXHR.kt:185-191 | an unknown request is ignored; a successful POST forgets the request, leaves the transport writable unless a drain listener closes it, and emits response headers and then drain with the batch size; a failed one reports the HTTP error and forgets the request |
| PollingXHR.Step | kmp-socketio/src/commonMain/kotlin/com/piasy/kmp/socketio/engineio/Transport.kt:49-81 | the base class's guards: a send outside OPEN fails, an open outside INIT/CLOSED and a close outside OPENING/OPEN do nothing, an open starts a poll |
| PollingXHR.PauseWaitsForPoll | kmp-socketio/src/commonMain/kotlin/com/piasy/kmp/socketio/engineio/transports/PollingXHR.kt:29-63 | a pause during a poll completes once, last, when that poll's batch is handled, and no new poll starts |
| PollingXHR.PauseWaitsForDrain | kmp-socketio/src/commonMain/kotlin/com/piasy/kmp/socketio/engineio/transports/PollingXHR.kt:29-63 | a pause during a POST completes when that POST drains, after the drain event |
| PollingXHR.PauseWaitsForBoth | kmp-socketio/src/commonMain/kotlin/com/piasy/kmp/socketio/engineio/transports/PollingXHR.kt:29-63 | with a poll and a POST in flight the poll alone does not finish the pause; the drain then does, exactly once |
| PollingXHR.CloseFromOpen | kmp-socketio/src/commonMain/kotlin/com/piasy/kmp/socketio/engineio/transports/PollingXHR.kt:196-218 | closing from OPEN POSTs one close packet and, when it drains, the transport closes with close as its last event |
| PollingXHR.CloseFromOpening | kmp-socketio/src/commonMain/kotlin/com/piasy/kmp/socketio/engineio/transports/PollingXHR.kt:196-218 | closing from OPENING writes nothing until the open packet arrives, then POSTs the close packet |
| EngineSocket.ConfiguredBase | kmp-socketio/src/commonMain/kotlin/com/piasy/kmp/socketio/engineio/EngineSocket.kt:64-96 | security follows https/wss, the port is the URL's, empty path and timestamp parameter get defaults, and URL parameters replace the query |
| EngineSocket.Hostname | kmp-socketio/src/commonMain/kotlin/com/piasy/kmp/socketio/engineio/EngineSocket.kt:69-79 | a host with fewer than two `:` is kept as it is, and the result is never longer than the host |
| EngineSocket.HostnameUnbrackets | kmp-socketio/src/commonMain/kotlin/com/piasy/kmp/socketio/engineio/EngineSocket.kt:69-79 | a bracketed IPv6 literal loses its brackets, which the transport's URI puts back |
| EngineSocket.New | kmp-socketio/src/commonMain/kotlin/com/piasy/kmp/socketio/engineio/EngineSocket.kt:64-101 | a new socket is INIT with an empty buffer and no transport, its options configured from the URL, and its transport list the given one or, when none is given, exactly polling then websocket |
| EngineSocket.TransportQuery | kmp-socketio/src/commonMain/kotlin/com/piasy/kmp/socketio/engineio/EngineSocket.kt:200-210 | a created transport's query carries EIO=4, the transport's name and, when known, the session id, and the socket's query otherwise |
| EngineSocket.TransportOptionsSource | kmp-socketio/src/commonMain/kotlin/com/piasy/kmp/socketio/engineio/EngineSocket.kt:200-224 | a per-transport entry supplies the scalar options, while the query and extra headers come from the socket |
| EngineSocket.CreateTransport | kmp-socketio/src/commonMain/kotlin/com/piasy/kmp/socketio/engineio/EngineSocket.kt:200-224 | a new transport of that name is created and announced with the transport event |
| EngineSocket.SetTransport | kmp-socketio/src/commonMain/kotlin/com/piasy/kmp/socketio/engineio/EngineSocket.kt:227-273 | the given transport becomes current and the socket listens to it |
| EngineSocket.ChooseTransport | kmp-socketio/src/commonMain/kotlin/com/piasy/kmp/socketio/engineio/EngineSocket.kt:109-129 | always a listed name; websocket exactly when it is listed first, or when upgrades are remembered, a websocket succeeded before and websocket is listed |
| EngineSocket.OpenSocket | kmp-socketio/src/commonMain/kotlin/com/piasy/kmp/socketio/engineio/EngineSocket.kt:109-129 | acts only from INIT or CLOSED, which become OPENING with the chosen transport created and opened |
| EngineSocket.FilterUpgradesMembers | kmp-socketio/src/commonMain/kotlin/com/piasy/kmp/socketio/engineio/EngineSocket.kt:355-356 | a name survives exactly when offered, allowed and not the active transport's |
| EngineSocket.FilterUpgradesAppend | kmp-socketio/src/commonMain/kotlin/com/piasy/kmp/socketio/engineio/EngineSocket.kt:355-356 | filtering distributes over concatenation, so the server's order is kept |
| EngineSocket.Flush | kmp-socketio/src/commonMain/kotlin/com/piasy/kmp/socketio/engineio/EngineSocket.kt:375-396 | only under its four conditions are exactly the unflushed packets handed over, with the watermark at the end; what is sent plus what stays unflushed is what was unflushed; the watermark stays in the buffer |
| EngineSocket.SendPackets | kmp-socketio/src/commonMain/kotlin/com/piasy/kmp/socketio/engineio/EngineSocket.kt:292-302 | packets are dropped unless OPENING or OPEN, otherwise announced, appended in order and flushed |
| EngineSocket.SendPacketsConserves | kmp-socketio/src/commonMain/kotlin/com/piasy/kmp/socketio/engineio/EngineSocket.kt:292-302 | what is handed on followed by what stays unflushed is the old unflushed packets followed by the new ones |
| EngineSocket.OnDrain | kmp-socketio/src/commonMain/kotlin/com/piasy/kmp/socketio/engineio/EngineSocket.kt:276-289 | draining the whole buffer emits drain first; draining more than the buffer holds fails after emptying it |
| EngineSocket.OnDrainKeepsOrder | kmp-socketio/src/commonMain/kotlin/com/piasy/kmp/socketio/engineio/EngineSocket.kt:276-289 | a drain of at most the flushed packets keeps the watermark in the buffer and re-flushes exactly the unflushed packets in order |
| EngineSocket.RunDrainWaiters | kmp-socketio/src/commonMain/kotlin/com/piasy/kmp/socketio/engineio/EngineSocket.kt:182-191 | a close waiting for the drain closes an active socket with "force close" when no upgrade runs, and waits for the upgrade instead while one runs |
| EngineSocket.CloseActions | kmp-socketio/src/commonMain/kotlin/com/piasy/kmp/socketio/engineio/EngineSocket.kt:160-163 | the forced close of an active socket: CLOSED, unsubscribed, buffer emptied, its transport told to close and close emitted with "force close" |
| EngineSocket.EmitUpgradeEvent | kmp-socketio/src/commonMain/kotlin/com/piasy/kmp/socketio/engineio/EngineSocket.kt:164-178 | the end of an upgrade is announced first, and a close waiting for it then closes an active socket and its current transport |
| EngineSocket.FailProbesOnClose | kmp-socketio/src/commonMain/kotlin/com/piasy/kmp/socketio/engineio/EngineSocket.kt:486-491 | closing the socket fails the probes still hooked; nothing but the probes and the upgrade waiters changes |
| EngineSocket.FreezeProbe | kmp-socketio/src/commonMain/kotlin/com/piasy/kmp/socketio/engineio/EngineSocket.kt:461-471 | freezing marks the probe failed and unhooked and closes its transport, once: a frozen probe is left alone |
| EngineSocket.OnClose | kmp-socketio/src/commonMain/kotlin/com/piasy/kmp/socketio/engineio/EngineSocket.kt:545-577 | ignored unless active; otherwise the socket ends CLOSED without id, ping timer or subscription and with an empty buffer, its transport is told to close, and close is emitted with the reason; probes are kept |
| EngineSocket.OnCloseWhenClosed | kmp-socketio/src/commonMain/kotlin/com/piasy/kmp/socketio/engineio/EngineSocket.kt:545-548 | a second `onClose` does nothing |
| EngineSocket.Close | kmp-socketio/src/commonMain/kotlin/com/piasy/kmp/socketio/engineio/EngineSocket.kt:152-197 | nothing unless OPENING or OPEN; then CLOSING, and the socket closes now, after the buffer drains, or after the running upgrade ends, in that order of precedence |
| EngineSocket.CloseWaitsForDrain | kmp-socketio/src/commonMain/kotlin/com/piasy/kmp/socketio/engineio/EngineSocket.kt:152-197 | a close with packets buffered leaves the socket CLOSING and drops further sends |
| EngineSocket.DrainThenClose | kmp-socketio/src/commonMain/kotlin/com/piasy/kmp/socketio/engineio/EngineSocket.kt:180-191 | the drain of the last packets then emits drain and closes the socket |
| EngineSocket.OnError | kmp-socketio/src/commonMain/kotlin/com/piasy/kmp/socketio/engineio/EngineSocket.kt:536-542 | websocket success is forgotten, error is emitted first, and an active socket closes with the error as reason |
| EngineSocket.OnHeartBeat | kmp-socketio/src/commonMain/kotlin/com/piasy/kmp/socketio/engineio/EngineSocket.kt:522-533 | any running ping timer is cancelled and a new one starts for the server's interval plus timeout, added as 32-bit `Int`s |
| EngineSocket.PingDelayWraps | kmp-socketio/src/commonMain/kotlin/com/piasy/kmp/socketio/engineio/EngineSocket.kt:522-533 | for non-negative `Int` interval and timeout, the ping delay is negative exactly when their sum exceeds `Int.MAX_VALUE`, and is the exact sum otherwise |
| EngineSocket.OnPingTimer | kmp-socketio/src/commonMain/kotlin/com/piasy/kmp/socketio/engineio/EngineSocket.kt:527-532 | only the last ping timer acts, and it closes a socket that is still active |
| EngineSocket.OnOpenSocket | kmp-socketio/src/commonMain/kotlin/com/piasy/kmp/socketio/engineio/EngineSocket.kt:359-372 | OPEN, websocket success remembered exactly for a websocket transport, open emitted first, and probes started exactly when upgrading is on, the transport is polling and upgrades are offered |
| EngineSocket.Negotiate | kmp-socketio/src/commonMain/kotlin/com/piasy/kmp/socketio/engineio/EngineSocket.kt:335-341 | the handshake's session id (also in the transport's query), filtered upgrades and intervals are recorded |
| EngineSocket.WithSid | kmp-socketio/src/commonMain/kotlin/com/piasy/kmp/socketio/engineio/EngineSocket.kt:203-207 | the current transport keeps its identity and its query gains the session id |
| EngineSocket.OnHandshake | kmp-socketio/src/commonMain/kotlin/com/piasy/kmp/socketio/engineio/EngineSocket.kt:335-353 | handshake then open are emitted, the socket is OPEN with the server's id, and the ping timer starts last with interval plus timeout, added as 32-bit `Int`s |
| EngineSocket.OnPacket | kmp-socketio/src/commonMain/kotlin/com/piasy/kmp/socketio/engineio/EngineSocket.kt:305-332 | ignored unless active; packet and heartbeat come first; open is the handshake, a ping is answered by a queued pong unless CLOSING, message and binary payloads become data, and every other packet emits nothing more |
| EngineSocket.EmitHeartbeat | kmp-socketio/src/commonMain/kotlin/com/piasy/kmp/socketio/engineio/EngineSocket.kt:312-313 | heartbeat is emitted first; its listener then restarts the ping timeout when the heartbeat listener is on, and nothing but the ping timer and the timer counter changes |
| EngineSocket.StartProbe | kmp-socketio/src/commonMain/kotlin/com/piasy/kmp/socketio/engineio/EngineSocket.kt:399-404 | a new probe of a new transport, awaiting open with its listeners hooked, and websocket success forgotten |
| EngineSocket.StartProbes | kmp-socketio/src/commonMain/kotlin/com/piasy/kmp/socketio/engineio/EngineSocket.kt:366-371 | one new probe per offered upgrade, appended after the existing ones, and websocket success forgotten |
| EngineSocket.EmitUpgrading | kmp-socketio/src/commonMain/kotlin/com/piasy/kmp/socketio/engineio/EngineSocket.kt:426-427 | upgrading is announced first, and every probe's upgrading listener reacts to it |
| EngineSocket.ProbeOpened | kmp-socketio/src/commonMain/kotlin/com/piasy/kmp/socketio/engineio/EngineSocket.kt:408-417 | a probe that has not failed sends the ping probe on its open and then awaits the pong |
| EngineSocket.UpgradingHook | kmp-socketio/src/commonMain/kotlin/com/piasy/kmp/socketio/engineio/EngineSocket.kt:492-502 | a probe of another transport gives up when upgrading is emitted; a probe of the same name only loses the listener |
| EngineSocket.ProbePacket | kmp-socketio/src/commonMain/kotlin/com/piasy/kmp/socketio/engineio/EngineSocket.kt:417-458 | only a pong carrying "probe" advances the probe; any other packet rejects it with upgradeError; a failed probe just stops |
| EngineSocket.ProbeAccepted | kmp-socketio/src/commonMain/kotlin/com/piasy/kmp/socketio/engineio/EngineSocket.kt:426-435 | upgrading is set and emitted and the current transport is paused |
| EngineSocket.ProbePaused | kmp-socketio/src/commonMain/kotlin/com/piasy/kmp/socketio/engineio/EngineSocket.kt:435-452 | unless the probe failed or the socket closed, the probe's listeners go and the upgrade packet is sent |
| EngineSocket.ProbeFail | kmp-socketio/src/commonMain/kotlin/com/piasy/kmp/socketio/engineio/EngineSocket.kt:461-491 | a hooked probe's error or close freezes it (its transport closed once) and emits upgradeError |
| EngineSocket.Swap | kmp-socketio/src/commonMain/kotlin/com/piasy/kmp/socketio/engineio/EngineSocket.kt:441-450 | corrected definition (see Findings): the probe's transport becomes current and the upgrade ends before upgrade is announced, so a close waiting for the upgrade closes that new transport |
| EngineSocket.SwapAsWritten | kmp-socketio/src/commonMain/kotlin/com/piasy/kmp/socketio/engineio/EngineSocket.kt:441-450 | the drain step of a probe, as written and as `EngineSocket.Step` runs it: only a probe awaiting its drain moves; upgrade is announced first, then the probe's transport becomes current and subscribed and the upgrade ends; with no close waiting, state and write buffer are kept; with one waiting, the socket ends CLOSED yet subscribed |
| EngineSocket.SwapAsWrittenLeaksTransport | kmp-socketio/src/commonMain/kotlin/com/piasy/kmp/socketio/engineio/EngineSocket.kt:441-450 | as written, a close waiting for the upgrade leaves the socket CLOSED yet subscribed to the new transport, which is never told to close |
| EngineSocket.ProbeStepOpen | kmp-socketio/src/commonMain/kotlin/com/piasy/kmp/socketio/engineio/EngineSocket.kt:408-417 | the probe transport's open event sends the ping probe |
| EngineSocket.ProbeStepPong | kmp-socketio/src/commonMain/kotlin/com/piasy/kmp/socketio/engineio/EngineSocket.kt:422-435 | the pong probe emits upgrading and pauses the current transport |
| EngineSocket.ProbeStepPaused | kmp-socketio/src/commonMain/kotlin/com/piasy/kmp/socketio/engineio/EngineSocket.kt:435-452 | the finished pause makes the probe send the upgrade packet |
| EngineSocket.ProbeStepDrained | kmp-socketio/src/commonMain/kotlin/com/piasy/kmp/socketio/engineio/EngineSocket.kt:441-450 | the upgrade packet's drain emits upgrade and makes the probe's transport current; the socket stays OPEN |
| EngineSocket.FailedProbeIgnored | kmp-socketio/src/commonMain/kotlin/com/piasy/kmp/socketio/engineio/EngineSocket.kt:411-421 | once a probe has failed, its transport's events and its pause change nothing but its own phase |
| EngineSocket.WriteStepIsStep | kmp-socketio/src/commonMain/kotlin/com/piasy/kmp/socketio/engineio/EngineSocket.kt:137-144 | a send or a drain of the current transport is exactly the socket's step on that input |
| EngineSocket.WritesConserve | kmp-socketio/src/commonMain/kotlin/com/piasy/kmp/socketio/engineio/EngineSocket.kt:276-302 | over any orderly run of sends and drains nothing is lost, duplicated or reordered on the way to the transport |
| EngineSocket.WriteConserves | kmp-socketio/src/commonMain/kotlin/com/piasy/kmp/socketio/engineio/EngineSocket.kt:276-302 | one orderly send or drain conserves the unsent packets |
| Socket.New | kmp-socketio/src/commonMain/kotlin/com/piasy/kmp/socketio/socketio/Socket.kt:18-27 | a new socket is disconnected, inactive, with empty buffers and no pending acks |
| Socket.AuthPayload | kmp-socketio/src/commonMain/kotlin/com/piasy/kmp/socketio/socketio/Socket.kt:169-173 | the Connect payload is absent exactly when the auth map is empty |
| Socket.Register | kmp-socketio/src/commonMain/kotlin/com/piasy/kmp/socketio/socketio/Socket.kt:99-118 | the ack is stored under the current id, a timed one with its timer started, and the id moves on by one, keeping ids increasing |
| Socket.Emit | kmp-socketio/src/commonMain/kotlin/com/piasy/kmp/socketio/socketio/Socket.kt:71-125 | a reserved name fails with "emit reserved event: <name>" and nothing is queued; otherwise the ack is registered and the packet goes to the manager when connected, else to the send buffer |
| Socket.RemoveBufferedFirst | kmp-socketio/src/commonMain/kotlin/com/piasy/kmp/socketio/socketio/Socket.kt:106-112 | the cleanup removes exactly the first buffered packet carrying the ack id and keeps the rest in order |
| Socket.RemoveAck | kmp-socketio/src/commonMain/kotlin/com/piasy/kmp/socketio/socketio/Socket.kt:104 | the entry for the id goes and every other entry stays |
| Socket.Cleanup | kmp-socketio/src/commonMain/kotlin/com/piasy/kmp/socketio/socketio/Socket.kt:102-113 | the pending ack and the first buffered packet with that id go, and nothing else changes |
| Socket.OnAckTimer | kmp-socketio/src/commonMain/kotlin/com/piasy/kmp/socketio/socketio/Socket.kt:101-114 | a pending timed ack's expiry runs the cleanup and then `onTimeout`, even after `clearAck` dropped it; other expiries do nothing |
| Socket.FireEvent | kmp-socketio/src/commonMain/kotlin/com/piasy/kmp/socketio/socketio/Socket.kt:256-270 | a list whose first element is a primitive fires under that name with the rest as arguments; any other list, the empty one included, throws |
| Socket.FireQueued | kmp-socketio/src/commonMain/kotlin/com/piasy/kmp/socketio/socketio/Socket.kt:217-219 | with the buffer emptied as it fires, events fire in arrival order until one throws |
| Socket.FireInPlace | kmp-socketio/src/commonMain/kotlin/com/piasy/kmp/socketio/socketio/Socket.kt:217-219 | as written, the entries stay in the buffer, each shifted by one element |
| Socket.OnConnect | kmp-socketio/src/commonMain/kotlin/com/piasy/kmp/socketio/socketio/Socket.kt:212-227 | corrected definition (see Findings): connected under the server's id; buffered events fire in order, then buffered packets go out in order, then connect; both buffers end empty |
| Socket.OnConnectAsWritten | kmp-socketio/src/commonMain/kotlin/com/piasy/kmp/socketio/socketio/Socket.kt:212-227 | `onConnect` as written and as `Socket.OnPacket` runs it: connected under the id; buffered events fire in order, then buffered packets go out, then connect; the send buffer ends empty but the received buffer keeps its entries |
| Socket.OnEvent | kmp-socketio/src/commonMain/kotlin/com/piasy/kmp/socketio/socketio/Socket.kt:237-253 | the payload gets a fresh reply ack when the server asked for one; an empty list is dropped; the event fires when connected and is buffered otherwise |
| Socket.OnReply | kmp-socketio/src/commonMain/kotlin/com/piasy/kmp/socketio/socketio/Socket.kt:273-289 | a reply ack sends one Ack packet with the server's id the first time and nothing afterwards |
| Socket.OnAck | kmp-socketio/src/commonMain/kotlin/com/piasy/kmp/socketio/socketio/Socket.kt:292-303 | the pending ack is removed before it is called with the payload; an unknown id is dropped |
| Socket.Timeouts | kmp-socketio/src/commonMain/kotlin/com/piasy/kmp/socketio/socketio/Socket.kt:328-337 | `onTimeout` runs for exactly the pending timed acks, and plain acks are ignored |
| Socket.Orphan | kmp-socketio/src/commonMain/kotlin/com/piasy/kmp/socketio/socketio/Socket.kt:328-337 | the timed acks dropped from the map keep their timer state |
| Socket.OnClose | kmp-socketio/src/commonMain/kotlin/com/piasy/kmp/socketio/socketio/Socket.kt:314-337 | disconnected without id, disconnect emitted first, then every pending timed ack times out and the map is emptied; the buffers stay |
| Socket.Destroy | kmp-socketio/src/commonMain/kotlin/com/piasy/kmp/socketio/socketio/Socket.kt:128-134 | the socket stops listening to the manager and asks it to destroy itself |
| Socket.Close | kmp-socketio/src/commonMain/kotlin/com/piasy/kmp/socketio/socketio/Socket.kt:52-63 | a connected socket sends Disconnect, destroys, then closes with "io client disconnect"; otherwise it only destroys |
| Socket.Open | kmp-socketio/src/commonMain/kotlin/com/piasy/kmp/socketio/socketio/Socket.kt:33-46 | nothing when connected or while the manager reconnects; otherwise the socket listens and opens the manager, sending Connect at once when the manager is open |
| Socket.ConnectRequest | kmp-socketio/src/commonMain/kotlin/com/piasy/kmp/socketio/socketio/Socket.kt:166-174 | the Connect packet names the socket's namespace and carries the auth map as a JSON object of primitives, in order, or nothing when the auth map is empty |
| Socket.SidOf | kmp-socketio/src/commonMain/kotlin/com/piasy/kmp/socketio/socketio/Socket.kt:191-192 | a sid is found exactly when the Connect payload holds a primitive under "sid" |
| Socket.OnPacket | kmp-socketio/src/commonMain/kotlin/com/piasy/kmp/socketio/socketio/Socket.kt:183-209 | packets of other namespaces are ignored, binary ones do nothing, and each other kind reaches its handler; a Connect with a sid runs `onConnect` as written |
| Socket.OnManagerError | kmp-socketio/src/commonMain/kotlin/com/piasy/kmp/socketio/socketio/Socket.kt:306-311 | a manager error becomes connect_error exactly while not connected |
| Socket.StepPreservesValid | kmp-socketio/src/commonMain/kotlin/com/piasy/kmp/socketio/socketio/Socket.kt:91-125 | every input keeps the pending ack ids increasing and below the next id, their timers pending, and the acks dropped at close apart from them |
| Socket.StepGrowsReplies | kmp-socketio/src/commonMain/kotlin/com/piasy/kmp/socketio/socketio/Socket.kt:273-289 | reply acks are only added, keep their id, and once sent stay sent |
| Socket.ReplyAtMostOnce | kmp-socketio/src/commonMain/kotlin/com/piasy/kmp/socketio/socketio/Socket.kt:273-289 | over any run a reply ack sends at most one Ack packet, none if already sent |
| Socket.TimeoutRunsTwice | kmp-socketio/src/commonMain/kotlin/com/piasy/kmp/socketio/socketio/Socket.kt:328-337 | a pending timed ack times out when the socket closes and again when its uncancelled timer fires |
| Socket.AckedInTime | kmp-socketio/src/commonMain/kotlin/com/piasy/kmp/socketio/socketio/Socket.kt:292-303 | a timed ack answered by the server stops its timer, and a late expiry then does nothing |
| Socket.RefiredAsWritten | kmp-socketio/src/commonMain/kotlin/com/piasy/kmp/socketio/socketio/Socket.kt:212-227 | as written, a buffered event fires again on the next connection under its shifted first argument |
| Socket.FiredOnce | kmp-socketio/src/commonMain/kotlin/com/piasy/kmp/socketio/socketio/Socket.kt:212-227 | with the buffer emptied, a later connection fires nothing buffered before the first |
| Manager.New | kmp-socketio/src/commonMain/kotlin/com/piasy/kmp/socketio/socketio/Manager.kt:69-74 | construction fails exactly for a randomization factor outside [0, 1]; otherwise INIT with no engine and no namespaces |
| Manager.SetReconnectionDelay | kmp-socketio/src/commonMain/kotlin/com/piasy/kmp/socketio/socketio/Manager.kt:28-34 | the backoff's minimum follows the option and nothing else changes |
| Manager.SetReconnectionDelayMax | kmp-socketio/src/commonMain/kotlin/com/piasy/kmp/socketio/socketio/Manager.kt:35-41 | the backoff's maximum follows the option and nothing else changes |
| Manager.SetRandomizationFactor | kmp-socketio/src/commonMain/kotlin/com/piasy/kmp/socketio/socketio/Manager.kt:42-48 | a factor outside [0, 1] fails; otherwise option and jitter both take it |
| Manager.Cancels | kmp-socketio/src/commonMain/kotlin/com/piasy/kmp/socketio/socketio/Manager.kt:198-204 | exactly the timer handles are cancelled |
| Manager.CleanUp | kmp-socketio/src/commonMain/kotlin/com/piasy/kmp/socketio/socketio/Manager.kt:198-204 | every handle is destroyed: listeners unhooked, timers cancelled, and the handle list emptied |
| Manager.Reconnect | kmp-socketio/src/commonMain/kotlin/com/piasy/kmp/socketio/socketio/Manager.kt:250-297 | nothing while reconnecting or skipping; with attempts used up the backoff restarts and reconnect_failed is emitted; otherwise one backoff delay in [min, max] arms the reconnect timer |
| Manager.MaybeReconnectOnOpen | kmp-socketio/src/commonMain/kotlin/com/piasy/kmp/socketio/socketio/Manager.kt:238-247 | reconnects only on a first connection with reconnection on and not already reconnecting |
| Manager.AttemptFailed | kmp-socketio/src/commonMain/kotlin/com/piasy/kmp/socketio/socketio/Manager.kt:284-288 | a failed re-open clears `reconnecting`, reconnects, then emits reconnect_error |
| Manager.AttemptSucceeded | kmp-socketio/src/commonMain/kotlin/com/piasy/kmp/socketio/socketio/Manager.kt:280-283 | a successful re-open emits reconnect with the attempts made and restarts the backoff |
| Manager.OpenFailed | kmp-socketio/src/commonMain/kotlin/com/piasy/kmp/socketio/socketio/Manager.kt:117-130 | the attempt's error cleans up, leaves the manager CLOSED and reports the error, never opening an engine |
| Manager.OpenFailedWhenSkipping | kmp-socketio/src/commonMain/kotlin/com/piasy/kmp/socketio/socketio/Manager.kt:117-130 | once reconnection is given up, a failed attempt leaves the manager CLOSED without starting a timer or an engine |
| Manager.ConnectTimeout | kmp-socketio/src/commonMain/kotlin/com/piasy/kmp/socketio/socketio/Manager.kt:132-137 | the engine is told to close first; with the attempt's error listener present the manager ends CLOSED; no engine is opened |
| Manager.Attempt | kmp-socketio/src/commonMain/kotlin/com/piasy/kmp/socketio/socketio/Manager.kt:94-155 | only from INIT or CLOSED a fresh engine is created; the engine is opened exactly when the timeout is not 0; timeout 0 closes it with "timeout"; otherwise OPENING with the attempt's two listeners |
| Manager.Begin | kmp-socketio/src/commonMain/kotlin/com/piasy/kmp/socketio/socketio/Manager.kt:99-130 | a fresh engine becomes current, the manager is OPENING with reconnection allowed, and the attempt's open and error listeners are hooked |
| Manager.Arm | kmp-socketio/src/commonMain/kotlin/com/piasy/kmp/socketio/socketio/Manager.kt:141-155 | with a connect timer it is started and kept before the two listeners; the engine is opened last |
| Manager.Expire | kmp-socketio/src/commonMain/kotlin/com/piasy/kmp/socketio/socketio/Manager.kt:138-140 | with timeout 0 the created engine is closed before being opened and the manager is CLOSED with a "timeout" error |
| Manager.OpenAsWritten | kmp-socketio/src/commonMain/kotlin/com/piasy/kmp/socketio/socketio/Manager.kt:94-156 | `open` as written and as `Manager.Step` and `Manager.ReconnectAttempt` run it: nothing unless INIT or CLOSED; a zero timeout fails the attempt at once with a timeout error; any other timeout, -1 included, creates the engine, arms the connect timer and opens the engine |
| Manager.Open | kmp-socketio/src/commonMain/kotlin/com/piasy/kmp/socketio/socketio/Manager.kt:94-156 | corrected definition (see Findings), following the option's documentation at Manager.kt:52-56: a negative timeout opens the engine without a connect timer; a positive one arms it first |
| Manager.OnOpen | kmp-socketio/src/commonMain/kotlin/com/piasy/kmp/socketio/socketio/Manager.kt:159-195 | only while OPENING: the attempt is cleaned up, the manager is OPEN and listens to data, error and close |
| Manager.OnEngineOpen | kmp-socketio/src/commonMain/kotlin/com/piasy/kmp/socketio/socketio/Manager.kt:111-116 | the engine's open reaches `onOpen` and then, if given, the reconnect callback |
| Manager.OnEngineError | kmp-socketio/src/commonMain/kotlin/com/piasy/kmp/socketio/socketio/Manager.kt:177-185 | after the open an engine error is only reported; while the open attempt's error listener is registered the attempt fails instead |
| Manager.OnEngineData | kmp-socketio/src/commonMain/kotlin/com/piasy/kmp/socketio/socketio/Manager.kt:169-176 | data is re-emitted as a packet exactly while the data listener is registered |
| Manager.OnClose | kmp-socketio/src/commonMain/kotlin/com/piasy/kmp/socketio/socketio/Manager.kt:225-235 | everything cleaned up, CLOSED, close emitted; a reconnect timer starts exactly when reconnection is on, not given up, not already reconnecting and attempts are allowed |
| Manager.OnEngineClose | kmp-socketio/src/commonMain/kotlin/com/piasy/kmp/socketio/socketio/Manager.kt:186-194 | the engine's close reaches `onClose` exactly while the close listener is registered |
| Manager.Close | kmp-socketio/src/commonMain/kotlin/com/piasy/kmp/socketio/socketio/Manager.kt:213-222 | reconnection given up, everything cleaned up, the backoff restarted, CLOSED, and the engine told to close and forgotten |
| Manager.FindTimer | kmp-socketio/src/commonMain/kotlin/com/piasy/kmp/socketio/socketio/Manager.kt:145-149 | finds a live timer handle by number, and none exactly when no handle has it |
| Manager.ReconnectAttempt | kmp-socketio/src/commonMain/kotlin/com/piasy/kmp/socketio/socketio/Manager.kt:264-290 | unless given up, reconnect_attempt with the attempts so far comes first, then a new open as written |
| Manager.OnTimer | kmp-socketio/src/commonMain/kotlin/com/piasy/kmp/socketio/socketio/Manager.kt:141-150 | a cancelled or unknown timer does nothing; a live connect timer tells the engine to close first, opens no engine, and with the attempt's error listener present ends CLOSED having emitted error "timeout"; a live reconnect timer does nothing once reconnection was given up and otherwise first reports reconnect_attempt with the attempts so far |
| Manager.OnConnectTimer | kmp-socketio/src/commonMain/kotlin/com/piasy/kmp/socketio/socketio/Manager.kt:141-150 | a live connect timer runs the timeout job on the manager without its handle |
| Manager.OnReconnectTimer | kmp-socketio/src/commonMain/kotlin/com/piasy/kmp/socketio/socketio/Manager.kt:264-290 | a live reconnect timer runs the reconnect attempt on the manager without its handle |
| Manager.SocketFor | kmp-socketio/src/commonMain/kotlin/com/piasy/kmp/socketio/socketio/Manager.kt:307-314 | the registered socket for the namespace, or a new one registered under it; other namespaces untouched |
| Manager.SocketForIdempotent | kmp-socketio/src/commonMain/kotlin/com/piasy/kmp/socketio/socketio/Manager.kt:307-314 | asking twice gives the same socket and registers nothing more |
| Manager.Destroy | kmp-socketio/src/commonMain/kotlin/com/piasy/kmp/socketio/socketio/Manager.kt:323-332 | given the namespaces whose sockets are active, the manager does nothing while a registered namespace is among them, and otherwise closes: timer handles cancelled, engine closed and dropped, CLOSED, reconnection given up |
| Manager.DestroySparesActiveSocket | kmp-socketio/src/commonMain/kotlin/com/piasy/kmp/socketio/socketio/Manager.kt:323-330 | a socket handed out by the manager and still active keeps the manager from closing |
| Manager.DestroyIdleCloses | kmp-socketio/src/commonMain/kotlin/com/piasy/kmp/socketio/socketio/Manager.kt:323-332 | with no registered namespace active, destroy is close |
| Manager.Packets | kmp-socketio/src/commonMain/kotlin/com/piasy/kmp/socketio/socketio/Manager.kt:317-320 | packets go to the current engine, or nowhere without one |
| Manager.StepPreservesValid | kmp-socketio/src/commonMain/kotlin/com/piasy/kmp/socketio/socketio/Manager.kt:250-297 | every input keeps one socket per namespace, the attempts within `reconnectionAttempts`, and every timer handle numbered below the timer counter |
| Manager.ReconnectTimerAttempts | kmp-socketio/src/commonMain/kotlin/com/piasy/kmp/socketio/socketio/Manager.kt:264-290 | a live reconnect timer first reports reconnect_attempt with the attempts so far, which are at most `reconnectionAttempts` by the invariant `Valid` keeps, and then opens again as written |
| Manager.CloseGivesUp | kmp-socketio/src/commonMain/kotlin/com/piasy/kmp/socketio/socketio/Manager.kt:213-235 | after `close()`, no engine event or timer creates or opens an engine or starts a timer |
| Manager.NegativeTimeoutFailsAsWritten | kmp-socketio/src/commonMain/kotlin/com/piasy/kmp/socketio/socketio/Manager.kt:138-150 | as written, timeout -1 arms a connect timer whose firing fails the attempt with "timeout" |
| Manager.NegativeTimeoutNeverTimesOut | kmp-socketio/src/commonMain/kotlin/com/piasy/kmp/socketio/socketio/Manager.kt:52-56 | with a negative timeout the attempt stays OPENING and no connect timer can fire |
| IO.Key | kmp-socketio/src/commonMain/kotlin/com/piasy/kmp/socketio/socketio/IO.kt:31-32 | the key ends in `:` and digits that read back as the port, and what precedes that `:` is "protocol://host" |
| IO.KeyDeterminesOrigin | kmp-socketio/src/commonMain/kotlin/com/piasy/kmp/socketio/socketio/IO.kt:32-33 | two URLs share a cache key exactly when they agree on the port and on "protocol://host", so managers of different ports are never shared |
| IO.Namespace | kmp-socketio/src/commonMain/kotlin/com/piasy/kmp/socketio/socketio/IO.kt:50 | "/" for a URL without path segments, its encoded path otherwise |
| IO.Connect | kmp-socketio/src/commonMain/kotlin/com/piasy/kmp/socketio/socketio/IO.kt:33-50 | a fresh uncached manager exactly for forceNew, no multiplexing or a cached socket under the checked namespace; otherwise the cached manager is reused or created and stored, other keys untouched and at most one manager per key |
| IO.SocketAsWritten | kmp-socketio/src/commonMain/kotlin/com/piasy/kmp/socketio/socketio/IO.kt:33-50 | as written, the reuse check looks up the encoded path |
| IO.Socket | kmp-socketio/src/commonMain/kotlin/com/piasy/kmp/socketio/socketio/IO.kt:33-50 | with the check on the requested namespace, the cache stays one manager per key |
| IO.SocketIsAlwaysNew | kmp-socketio/src/commonMain/kotlin/com/piasy/kmp/socketio/socketio/IO.kt:33-50 | every request gets a socket of its own |
| IO.RootSocketSharedAsWritten | kmp-socketio/src/commonMain/kotlin/com/piasy/kmp/socketio/socketio/IO.kt:33-50 | as written, two multiplexed requests for a URL without a path share one socket; checking the namespace, the second gets a fresh manager |
| Common.Decimal | kmp-socketio/src/commonMain/kotlin/com/piasy/kmp/socketio/socketio/IO.kt:32 | a non-empty string of digits without a leading zero |
| Common.AddInt32 | kmp-socketio/src/commonMain/kotlin/com/piasy/kmp/socketio/engineio/EngineSocket.kt:528 | `Int + Int` lands in the 32-bit range, congruent to the exact sum modulo 2^32, and equal to it when the exact sum fits |
| Common.AddInt32Overflows | kmp-socketio/src/commonMain/kotlin/com/piasy/kmp/socketio/engineio/EngineSocket.kt:528 | two non-negative `Int`s add up to a negative number exactly when their exact sum exceeds `Int.MAX_VALUE`, and then to that sum minus 2^32 |
| Common.DecimalValue | kmp-socketio/src/commonMain/kotlin/com/piasy/kmp/socketio/socketio/IO.kt:32 | the rendering reads back as the number |
| Common.Put | kmp-socketio/src/commonMain/kotlin/com/piasy/kmp/socketio/socketio/Manager.kt:311 | the key maps to the value, every other key keeps its value, and keys stay distinct |

## Left out

- `engineio/transports/WebSocket.kt` and the platform transport files are not part of this model. They are ktor HTTP/WebSocket sessions and client factories.
- `global/Global.kt` is not part of this model: its URI component encoder and decoder are function parameters.
- Logging is not modelled, except the error log of a second ack schedule, which is an output.
- The Engine.IO and Socket.IO packet codecs belong to a foreign library. Packets are datatypes, and message payloads are opaque text.
- `engineio/Socket.kt` is an older copy of the engine socket and is not part of this model.
- Ktor URL parsing is not modelled: the engine socket and `IO.socket` take the parsed components.
- Binary data on the transport (`onData(ByteArray)`) and binary emits are not modelled. Socket ignores BinaryEvent and BinaryAck as the source does.
- JSON conversion of arguments is not modelled. JSON values are primitives with their content, or opaque.
- Listeners that call back into the component while it is emitting are not modelled. External listeners only observe.
- Backoff.Duration: exact real arithmetic instead of double precision. The factor is a natural number, and the `Long` saturation of huge delays is not modelled.
- Manager.Valid: the attempts counter is unbounded, so a 32-bit overflow of `attempts` is not modelled.
- Socket.Register: ack ids are unbounded integers; the 32-bit wrap-around of `ackId` is not modelled.
- Ack.Step: every emit is given its own fresh `AckWithTimeout`, so reusing one ack object for two emits is not modelled.
- EngineSocket.OnHeartBeat: the test-only `disablePingTimeout` switch is dropped. A negative delay (the wrapped sum) is an output like any other; that `delay` returns at once for it is up to the timer that fires the `PingTimer` input.
- The base-36 rendering of the timestamp is not modelled: it is a string parameter.
- Transport factory names are not modelled: a transport is its name and options.
- The Manager's forwarding of the engine's transport event is not modelled.
- The engine socket's `uri` is not modelled.
- PollingXHR.DoClose: `Transport.close` is modelled with the `doClose(fromOpenState)` and `pause` interface that `PollingXHR` overrides. The base class file shows an older signature.
- EngineSocket.Step, Socket.Step, Ack.Step and Manager.Step only dispatch. They have no contract of their own; the lemmas about them state what they promise. Where a Finding corrects a handler, the dispatchers run the as-written handler (`SwapAsWritten`, `OnConnectAsWritten`, `OpenAsWritten`), and the corrected one is proved on its own.
- Common.Put: a new key is appended, so a query, and the URI rendered from it, has one fixed parameter order. The source's `HashMap` leaves that order unspecified.
- Manager.ReconnectAttempt: the second check of `skipReconnect` after reconnect_attempt cannot differ from the first, because listeners do not call back.
- Manager.OnTimer: a fired timer's handle leaves the handle list, since cancelling a finished job has no effect.
- Manager.ReconnectTimerAttempts: the bound on reconnect_attempt counts is proved per attempt. The exact number of attempts before reconnect_failed over a whole run is not.
- `Socket.send` is `emit("message", ...)` and is not modelled separately.
- Exception messages other than those named in the contracts are not modelled.
- EngineSocket.OnDrain, Socket.FireEvent: the texts `EmptyBuffer` ("remove from an empty buffer"), `NoEvent` ("no event name") and `BadEvent` ("bad event") are labels of the model, not the source's messages. The source throws whatever `ArrayDeque.removeFirst` and `ArrayList.removeFirst` throw on an empty collection, and `"bad event $event"` with the offending value (Socket.kt:260).
- Backoff.New: the failure message is the fixed text of Backoff.kt:59 without its `, but <jitter>` suffix, because the rendering of a `Double` as text is not modelled.
- Backoff.SetJitter: the same message, without the `, but <jitter>` suffix.
- Manager.New: the message for a bad randomization factor lacks the `, but <jitter>` suffix, as for Backoff.New. Each manager also holds its own copy of the options and of the backoff. The source keeps the backoff on the caller's `Options` object (Manager.kt:21, 73), and the engine socket rewrites that object in place (EngineSocket.kt:64-97). So managers built from one options object share one backoff, and each one's attempts and resets count for the others; that sharing is not modelled.
- IO.Connect: managers created from one `IO.Options` are independent here, while in the source they share the backoff and the option rewrites (see Manager.New).
- Manager.OnEngineError: when both the open attempt's error listener and the open-state error listener are registered, only the first is modelled, since `onOpen` removes the former before adding the latter.

## Findings

| source | as written | input that shows it | evidently intended | confidence | as-written member | corrected member |
|---|---|---|---|---|---|---|
| kmp-socketio/src/commonMain/kotlin/com/piasy/kmp/socketio/engineio/EngineSocket.kt:441-450 | the probe's drain listener emits upgrade before `setTransport` | `close()` called while an upgrade runs with an empty buffer; the upgrade packet then drains | the socket switches to the new transport before anyone hears of the upgrade, so a waiting close closes the new transport | not executed | EngineSocket.SwapAsWrittenLeaksTransport | EngineSocket.Swap |
| kmp-socketio/src/commonMain/kotlin/com/piasy/kmp/socketio/socketio/Socket.kt:212-227 | `onConnect` fires the received buffer in place and never clears it | an event buffered before connect, then a disconnect and a second connect | each buffered event fires once, on the first connection | not executed | Socket.RefiredAsWritten | Socket.FiredOnce |
| kmp-socketio/src/commonMain/kotlin/com/piasy/kmp/socketio/socketio/Manager.kt:138-150 | any non-zero timeout arms the connect timer, -1 included | `timeout = -1`, documented as disabling the timeout; `delay(-1)` returns at once | a negative timeout starts no connect timer | not executed | Manager.NegativeTimeoutFailsAsWritten | Manager.NegativeTimeoutNeverTimesOut |
| kmp-socketio/src/commonMain/kotlin/com/piasy/kmp/socketio/socketio/IO.kt:33-34 | the reuse check looks up `url.encodedPath`, but the socket is requested under "/" for a URL without path segments | two multiplexed `IO.socket("http://h")` calls; a URL without a path has an empty encoded path | the check looks up the namespace that is then requested, so the second call gets a socket of its own | not executed; depends on ktor giving "" as the encoded path | IO.RootSocketSharedAsWritten | IO.SocketIsAlwaysNew |
