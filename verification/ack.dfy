/**
 * An acknowledgement callback with a timeout (socketio/Ack.kt).
 *
 * The coroutine job behind the timeout is reduced to its status; starting
 * and cancelling the timer are effects, and the timer's expiry is the input
 * `Fire`. All steps run on the client's single serialized scope, so an
 * expiry and an acknowledgement never interleave.
 */
module Ack {

  /** The `job` field: never scheduled, pending, cancelled, or run to completion. */
  datatype Job = NoJob | Pending | Cancelled | Completed

  datatype AckWithTimeout = AckWithTimeout(timeout: int, job: Job)

  /** What a step asks of the outside world, in order. */
  datatype Effect<A> =
    | StartTimer(delay: int)
    | StopTimer
    | RunCleanup
    | OnSuccess(args: A)
    | OnTimeout
    | LogError(message: string)

  datatype Input<A> = Call(args: A) | Schedule | Fire | Cancel

  const AlreadyScheduled := "schedule error: already scheduled"

  function New(timeout: int): AckWithTimeout
  {
    AckWithTimeout(timeout, NoJob)
  }

  /** `job?.cancel()`: only a pending job has anything to stop. */
  function CancelJob<A>(a: AckWithTimeout): (r: (AckWithTimeout, seq<Effect<A>>))
    ensures r.0.job != Pending
    ensures r.0.timeout == a.timeout
    ensures a.job == Pending <==> r.1 == [StopTimer]
    ensures a.job != Pending ==> r.0 == a && r.1 == []
  {
    if a.job == Pending then (a.(job := Cancelled), [StopTimer]) else (a, [])
  }

  /** `call(args)`: stops a pending timer, then always runs `onSuccess` with the same arguments. */
  function CallAck<A>(a: AckWithTimeout, args: A): (r: (AckWithTimeout, seq<Effect<A>>))
    ensures |r.1| > 0 && r.1[|r.1| - 1] == OnSuccess(args)
    ensures r.0.job != Pending
    ensures r.0.job == NoJob <==> a.job == NoJob
    ensures forall i :: 0 <= i < |r.1| - 1 ==> r.1[i] == StopTimer
    ensures a.job == Pending <==> r.1 == [StopTimer, OnSuccess(args)]
    ensures a.job != Pending ==> r == (a, [OnSuccess(args)])
    ensures r.0.timeout == a.timeout
  {
    var (a', stop) := CancelJob(a);
    assert stop + [OnSuccess(args)] == (if a.job == Pending then [StopTimer, OnSuccess(args)] else [OnSuccess(args)]);
    (a', stop + [OnSuccess(args)])
  }

  /** `schedule(scope, block)`: refused with a logged error once any job exists; otherwise starts the timer. */
  function ScheduleAck<A>(a: AckWithTimeout): (r: (AckWithTimeout, seq<Effect<A>>))
    ensures a.job != NoJob ==> r.0 == a && r.1 == [LogError(AlreadyScheduled)]
    ensures a.job == NoJob ==> r.0.job == Pending && r.0.timeout == a.timeout && r.1 == [StartTimer(a.timeout)]
  {
    if a.job != NoJob then (a, [LogError(AlreadyScheduled)])
    else (a.(job := Pending), [StartTimer(a.timeout)])
  }

  /** The timer's expiry: only a pending job runs, first the caller's cleanup, then `onTimeout`. */
  function FireAck<A>(a: AckWithTimeout): (r: (AckWithTimeout, seq<Effect<A>>))
    ensures a.job == Pending ==> r.1 == [RunCleanup, OnTimeout] && r.0.job == Completed
    ensures a.job != Pending ==> r.0 == a && r.1 == []
  {
    if a.job == Pending then (a.(job := Completed), [RunCleanup, OnTimeout]) else (a, [])
  }

  /** `cancel()`: stops the timer and calls neither `onSuccess` nor `onTimeout`. */
  function CancelAck<A>(a: AckWithTimeout): (r: (AckWithTimeout, seq<Effect<A>>))
    ensures r.0.job != Pending
    ensures OnTimeout !in r.1
    ensures forall i :: 0 <= i < |r.1| ==> !r.1[i].OnSuccess?
  {
    CancelJob(a)
  }

  function Step<A>(a: AckWithTimeout, input: Input<A>): (AckWithTimeout, seq<Effect<A>>)
  {
    match input
    case Call(args) => CallAck(a, args)
    case Schedule => ScheduleAck(a)
    case Fire => FireAck(a)
    case Cancel => CancelAck(a)
  }

  /** The effects of a whole run of inputs, concatenated. */
  function Run<A>(a: AckWithTimeout, inputs: seq<Input<A>>): seq<Effect<A>>
    decreases |inputs|
  {
    if |inputs| == 0 then []
    else
      var (a', out) := Step(a, inputs[0]);
      out + Run(a', inputs[1..])
  }

  /** Once a job exists and is no longer pending, no input can ever start a timer or time out again. */
  lemma {:induction false} SettledStaysSettled<A>(a: AckWithTimeout, inputs: seq<Input<A>>)
    requires a.job != NoJob && a.job != Pending
    ensures OnTimeout !in Run(a, inputs)
    ensures forall d :: StartTimer(d) !in Run(a, inputs)
  {
    if |inputs| > 0 {
      var (a', out) := Step(a, inputs[0]);
      assert a'.job != NoJob && a'.job != Pending;
      assert OnTimeout !in out && forall d :: StartTimer(d) !in out;
      SettledStaysSettled(a', inputs[1..]);
    }
  }

  /**
   * An ack that was scheduled and then acknowledged (or cancelled) before its
   * timer fired never times out, whatever happens afterwards.
   */
  lemma AckedInTimeNeverTimesOut<A>(timeout: int, first: Input<A>, rest: seq<Input<A>>)
    requires first.Call? || first.Cancel?
    ensures OnTimeout !in Run(New(timeout), [Schedule, first] + rest)
  {
    var a1 := ScheduleAck<A>(New(timeout)).0;
    var (a2, out2) := Step(a1, first);
    SettledStaysSettled(a2, rest);
    assert ([Schedule, first] + rest)[1..] == [first] + rest;
    assert ([first] + rest)[1..] == rest;
  }
}
