/** The per-stream supervisor loop `startContinuousRecording`
    (index.js:39-54) and the startup guard on the configured stream list
    (index.js:18-24, 173-178). */
module Supervisor {
  import opened Naming
  import opened Settlement

  /** The pause after every run, successful or not. */
  const CooldownMs: nat := 5000

  /** How an awaited run ended: its Promise resolved, or it rejected (the
      error is caught and logged). */
  datatype RunResult = Completed | Failed(error: RecordingError)

  /** What the loop does, in order. */
  datatype Action = Recorded(result: RunResult) | Waited(ms: nat)

  /** The first `|outcomes|` iterations of the `while (true)` loop, given
      how each run's Promise settled (the loop cannot get past a Promise that
      never settles): every run, whether it resolved or rejected, is caught,
      followed by exactly one 5000 ms wait and then by the next run; no
      error leaves the loop. */
  method Supervise(outcomes: seq<Outcome>) returns (trace: seq<Action>)
    requires forall k :: 0 <= k < |outcomes| ==> !outcomes[k].Pending?
    ensures |trace| == 2 * |outcomes|
    ensures forall k :: 0 <= k < |outcomes| ==> trace[2 * k] == Recorded(Awaited(outcomes[k]))
    ensures forall k :: 0 <= k < |outcomes| ==> trace[2 * k + 1] == Waited(CooldownMs)
  {
    trace := [];
    var i := 0;
    while i < |outcomes|
      invariant 0 <= i <= |outcomes|
      invariant |trace| == 2 * i
      invariant forall k :: 0 <= k < i ==> trace[2 * k] == Recorded(Awaited(outcomes[k]))
      invariant forall k :: 0 <= k < i ==> trace[2 * k + 1] == Waited(CooldownMs)
    {
      var result := Awaited(outcomes[i]);
      trace := trace + [Recorded(result)];
      trace := trace + [Waited(CooldownMs)];
      i := i + 1;
    }
  }

  /** How an awaited Promise is seen by the loop's `try`/`catch`. */
  function Awaited(o: Outcome): (r: RunResult)
    requires !o.Pending?
    ensures r.Completed? <==> o.Resolved?
    ensures r.Failed? ==> o == Rejected(r.error)
  {
    if o.Rejected? then Failed(o.error) else Completed
  }

  /** The configured `STREAMS` value: an array of streams, or anything else. */
  datatype StreamsValue = StreamArray(streams: seq<Stream>) | NotAnArray

  /** Startup either exits the process with a status or launches one
      supervisor per stream, in order. */
  datatype Startup = Exit(status: int) | Launch(supervised: seq<Stream>)

  /** The process exits with status 1 exactly when the value is not an
      array or is empty; otherwise every configured stream gets a supervisor. */
  function Start(v: StreamsValue): (r: Startup)
    ensures r.Exit? <==> (v.NotAnArray? || |v.streams| == 0)
    ensures r.Exit? ==> r.status == 1
    ensures r.Launch? ==> r.supervised == v.streams
  {
    if v.NotAnArray? || |v.streams| == 0 then Exit(1) else Launch(v.streams)
  }
}
