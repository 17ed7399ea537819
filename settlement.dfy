/** The settlement of one recording session: the Promise returned by
    `recordStreamUntilNewHour` (index.js:102-143), settled at most once by
    the first of four kinds of event (a stderr chunk, a spawn error, the
    process closing, a one-second tick carrying the current hour). */
module Settlement {
  import opened Strings
  import Retention

  /** The code Node reports on `close`: an exit status, or none (null) when
      the process was ended by a signal. */
  datatype CloseCode = Exited(status: int) | NoCode

  /** Why a recording run rejects. */
  datatype RecordingError =
    | InvalidArguments              // ffmpeg printed the marker on stderr
    | SpawnFailure(message: string) // the process could not be started
    | ExitCode(code: CloseCode)     // the process closed with a code other than 0
    | FileSystem(error: Retention.FsError) // the pre-session check threw

  /** The Promise: still pending, resolved, or rejected with an error. */
  datatype Outcome = Pending | Resolved | Rejected(error: RecordingError)

  datatype Event =
    | Stderr(chunk: string)
    | SpawnError(message: string)
    | Close(code: CloseCode)
    | Tick(currentHour: string)

  /** The substring of a stderr chunk that makes the session give up. */
  const InvalidMarker: string := "Invalid argument"

  /** Everything the event handlers read and write: the session hour, the
      Promise, whether `kill()` was called, whether the interval is still
      registered, and how many sweeps the interval started. */
  datatype SessionState = SessionState(
    hour: string,
    settled: bool,
    outcome: Outcome,
    killed: bool,
    timerActive: bool,
    sweepCount: nat)

  /** Just after the Promise body ran: pending, process alive, interval set. */
  function Initial(hour: string): SessionState
  {
    SessionState(hour, false, Pending, false, true, 0)
  }

  /** The invariant every reachable state keeps: `settled` mirrors the
      Promise, the interval is cleared only together with the one sweep and
      the kill of a rotation, and a cleared interval means a settled Promise. */
  predicate Consistent(s: SessionState)
  {
    && (s.settled <==> !s.outcome.Pending?)
    && s.sweepCount == (if s.timerActive then 0 else 1)
    && (!s.timerActive ==> s.killed && s.settled)
  }

  /** `resolve` / `reject`: only the first call has an effect, and the
      Promise is settled afterwards. */
  function Settle(s: SessionState, o: Outcome): (r: SessionState)
    ensures r.settled
    ensures s.settled ==> r == s
    ensures !s.settled ==> r == s.(settled := true, outcome := o)
  {
    if s.settled then s else s.(settled := true, outcome := o)
  }

  /** One event handler. No handler changes the session hour, unsettles the
      Promise or re-registers a cleared interval, and at most one sweep is
      started per event. */
  function Step(s: SessionState, e: Event): (r: SessionState)
    ensures r.hour == s.hour
    ensures s.settled ==> r.settled && r.outcome == s.outcome
    ensures !s.timerActive ==> !r.timerActive
    ensures s.sweepCount <= r.sweepCount <= s.sweepCount + 1
  {
    match e
    case Stderr(chunk) =>
      if Contains(chunk, InvalidMarker) then Settle(s.(killed := true), Rejected(InvalidArguments)) else s
    case SpawnError(message) =>
      Settle(s, Rejected(SpawnFailure(message)))
    case Close(code) =>
      if code == Exited(0) then Settle(s, Resolved) else Settle(s, Rejected(ExitCode(code)))
    case Tick(current) =>
      if s.timerActive && current != s.hour then
        Settle(s.(sweepCount := s.sweepCount + 1, killed := true, timerActive := false), Resolved)
      else s
  }

  /** The state after a sequence of events, in order; no sequence of
      events changes the session hour. */
  function Run(s: SessionState, es: seq<Event>): (r: SessionState)
    ensures r.hour == s.hour
    decreases |es|
  {
    if es == [] then s else Run(Step(s, es[0]), es[1..])
  }

  /** An independent statement of the settling rules: the outcome an event
      gives a session that is still pending (`Pending` when it does not
      settle it). */
  function Verdict(hour: string, e: Event): Outcome
  {
    match e
    case Stderr(chunk) => if Contains(chunk, InvalidMarker) then Rejected(InvalidArguments) else Pending
    case SpawnError(message) => Rejected(SpawnFailure(message))
    case Close(code) => if code == Exited(0) then Resolved else Rejected(ExitCode(code))
    case Tick(current) => if current != hour then Resolved else Pending
  }

  /** The verdict of the first event in `es` that settles the session. */
  function FirstVerdict(hour: string, es: seq<Event>): Outcome
    decreases |es|
  {
    if es == [] then Pending
    else if !Verdict(hour, es[0]).Pending? then Verdict(hour, es[0])
    else FirstVerdict(hour, es[1..])
  }

  /** Running two sequences one after the other is running their
      concatenation. */
  lemma {:induction false} RunAppend(s: SessionState, a: seq<Event>, b: seq<Event>)
    ensures Run(s, a + b) == Run(Run(s, a), b)
    decreases |a|
  {
    if a == [] {
      assert a + b == b;
    } else {
      assert (a + b)[0] == a[0] && (a + b)[1..] == a[1..] + b;
      RunAppend(Step(s, a[0]), a[1..], b);
    }
  }

  /** Every event handler keeps the invariant. */
  lemma StepConsistent(s: SessionState, e: Event)
    requires Consistent(s)
    ensures Consistent(Step(s, e))
  {
  }

  /** Every reachable state keeps the invariant; in particular a session
      starts at most one sweep. */
  lemma {:induction false} RunConsistent(s: SessionState, es: seq<Event>)
    requires Consistent(s)
    ensures Consistent(Run(s, es))
    ensures Run(s, es).sweepCount <= 1
    decreases |es|
  {
    if es != [] {
      StepConsistent(s, es[0]);
      RunConsistent(Step(s, es[0]), es[1..]);
    }
  }

  /** Once settled, a session stays settled with the same outcome whatever
      events follow. */
  lemma {:induction false} SettledStaysSettled(s: SessionState, es: seq<Event>)
    requires s.settled
    ensures Run(s, es).settled && Run(s, es).outcome == s.outcome
    decreases |es|
  {
    if es != [] {
      SettledStaysSettled(Step(s, es[0]), es[1..]);
    }
  }

  /** First settle wins: if the session is settled after some prefix of the
      events, the rest of the events cannot change the outcome. */
  lemma FirstSettleWins(s: SessionState, es: seq<Event>, k: nat)
    requires k <= |es|
    requires Run(s, es[..k]).settled
    ensures Run(s, es).outcome == Run(s, es[..k]).outcome
  {
    assert es == es[..k] + es[k..];
    RunAppend(s, es[..k], es[k..]);
    SettledStaysSettled(Run(s, es[..k]), es[k..]);
  }

  /** After settlement, a close (whatever its code) and a spawn error
      change nothing at all. */
  lemma SettledIgnoresCloseAndError(s: SessionState, code: CloseCode, message: string)
    requires s.settled
    ensures Step(s, Close(code)) == s
    ensures Step(s, SpawnError(message)) == s
  {
  }

  /** A tick that carries the session's own hour does nothing. */
  lemma {:induction false} SameHourTicksDoNothing(s: SessionState, es: seq<Event>)
    requires forall i :: 0 <= i < |es| ==> es[i] == Tick(s.hour)
    ensures Run(s, es) == s
    decreases |es|
  {
    if es != [] {
      SameHourTicksDoNothing(Step(s, es[0]), es[1..]);
    }
  }

  /** The outcome of a pending session after any events is the verdict of
      the first event that settles it, and it is settled exactly when one
      of the events does. */
  lemma {:induction false} RunMatchesFirstVerdict(s: SessionState, es: seq<Event>)
    requires Consistent(s) && !s.settled
    ensures Run(s, es).outcome == FirstVerdict(s.hour, es)
    ensures Run(s, es).settled <==> !FirstVerdict(s.hour, es).Pending?
    decreases |es|
  {
    if es != [] {
      var t := Step(s, es[0]);
      StepConsistent(s, es[0]);
      if t.settled {
        SettledStaysSettled(t, es[1..]);
      } else {
        RunMatchesFirstVerdict(t, es[1..]);
      }
    }
  }

  /** The interval is cleared only by a rotation: starting with the interval
      registered, it is cleared after the events exactly when one of them
      is a tick with a different hour. */
  lemma {:induction false} TimerClearedOnlyOnRotation(s: SessionState, es: seq<Event>)
    requires s.timerActive
    ensures !Run(s, es).timerActive <==> exists i :: 0 <= i < |es| && es[i].Tick? && es[i].currentHour != s.hour
    decreases |es|
  {
    if es != [] {
      var t := Step(s, es[0]);
      if t.timerActive {
        TimerClearedOnlyOnRotation(t, es[1..]);
        assert t.hour == s.hour;
        if exists i :: 0 <= i < |es[1..]| && es[1..][i].Tick? && es[1..][i].currentHour != s.hour {
          var i :| 0 <= i < |es[1..]| && es[1..][i].Tick? && es[1..][i].currentHour != s.hour;
          assert es[i + 1] == es[1..][i];
        }
        if exists i :: 0 <= i < |es| && es[i].Tick? && es[i].currentHour != s.hour {
          var i :| 0 <= i < |es| && es[i].Tick? && es[i].currentHour != s.hour;
          assert i != 0;
          assert es[1..][i - 1] == es[i];
        }
      } else {
        assert es[0].Tick? && es[0].currentHour != s.hour;
        TimerStaysCleared(t, es[1..]);
      }
    }
  }

  /** A cleared interval stays cleared. */
  lemma {:induction false} TimerStaysCleared(s: SessionState, es: seq<Event>)
    requires !s.timerActive
    ensures !Run(s, es).timerActive
    decreases |es|
  {
    if es != [] {
      TimerStaysCleared(Step(s, es[0]), es[1..]);
    }
  }

  /** The matching of the marker is per chunk: when ffmpeg's message is split
      across two chunks, at any point, neither chunk settles the session. */
  lemma SplitMarkerIsMissed(hour: string, k: nat)
    requires 0 < k < |InvalidMarker|
    ensures InvalidMarker[..k] + InvalidMarker[k..] == InvalidMarker
    ensures Run(Initial(hour), [Stderr(InvalidMarker[..k]), Stderr(InvalidMarker[k..])]) == Initial(hour)
  {
    var s, a, b := Initial(hour), InvalidMarker[..k], InvalidMarker[k..];
    assert !Contains(a, InvalidMarker) && !Contains(b, InvalidMarker);
    assert Step(s, Stderr(a)) == s && Step(s, Stderr(b)) == s;
    assert [Stderr(a), Stderr(b)][1..] == [Stderr(b)];
    assert Run(s, [Stderr(b)]) == Run(s, []);
  }

  /** Rotation at the hour boundary: ticks in hour 14 do nothing, the first
      tick in hour 15 starts one sweep, kills ffmpeg, clears the interval and
      resolves; the close that follows the kill changes nothing. */
  lemma RotationExample()
    ensures Run(Initial("14"), [Tick("14"), Tick("15"), Close(NoCode)])
         == SessionState("14", true, Resolved, true, false, 1)
  {
    var es := [Tick("14"), Tick("15"), Close(NoCode)];
    assert es[1..] == [Tick("15"), Close(NoCode)];
    assert es[1..][1..] == [Close(NoCode)];
  }

  /** One session's event handlers over its mutable state. */
  class Session {
    /** The output file name, the ffmpeg arguments and the session hour. */
    const fileName: string
    const args: seq<string>
    const hour: string
    var settled: bool
    var outcome: Outcome
    var killed: bool
    var timerActive: bool
    var sweepCount: nat

    function State(): SessionState
      reads this
    {
      SessionState(hour, settled, outcome, killed, timerActive, sweepCount)
    }

    ghost predicate Valid()
      reads this
    {
      Consistent(State())
    }

    /** The Promise body: spawn ffmpeg, register the handlers and the
        one-second interval. */
    constructor (fileName: string, args: seq<string>, hour: string)
      ensures Valid()
      ensures State() == Initial(hour)
      ensures this.fileName == fileName && this.args == args
    {
      this.fileName, this.args, this.hour := fileName, args, hour;
      settled, outcome, killed, timerActive, sweepCount := false, Pending, false, true, 0;
    }

    /** `stderr.on('data')`: a chunk with the marker kills ffmpeg (even when
        already settled) and rejects. */
    method OnStderr(chunk: string)
      requires Valid()
      modifies this
      ensures Valid()
      ensures State() == Step(old(State()), Stderr(chunk))
    {
      if Contains(chunk, InvalidMarker) {
        killed := true;
        Reject(InvalidArguments);
      }
    }

    /** `on('error')`: the process could not be spawned. */
    method OnError(message: string)
      requires Valid()
      modifies this
      ensures Valid()
      ensures State() == Step(old(State()), SpawnError(message))
    {
      Reject(SpawnFailure(message));
    }

    /** `on('close')`: code 0 resolves, anything else rejects. */
    method OnClose(code: CloseCode)
      requires Valid()
      modifies this
      ensures Valid()
      ensures State() == Step(old(State()), Close(code))
    {
      if code == Exited(0) {
        Resolve();
      } else {
        Reject(ExitCode(code));
      }
    }

    /** The interval callback: on a new hour, sweep the directory, kill
        ffmpeg, clear the interval and resolve. The sweep's own filesystem
        failures are inputs, as for `Directory.Sweep`. */
    method OnTick(current: string, now: int, dir: Retention.Directory,
                  readdirFails: bool, statFails: set<string>, unlinkFails: set<string>)
      requires Valid()
      modifies this, dir
      ensures Valid()
      ensures State() == Step(old(State()), Tick(current))
      ensures dir.entries == if sweepCount == old(sweepCount) then old(dir.entries)
                             else Retention.Swept(old(dir.entries), now, readdirFails, statFails, unlinkFails)
    {
      if timerActive && current != hour {
        var _ := dir.Sweep(now, readdirFails, statFails, unlinkFails);
        sweepCount := sweepCount + 1;
        killed := true;
        timerActive := false;
        Resolve();
      }
    }

    method Resolve()
      modifies this
      ensures State() == Settle(old(State()), Resolved)
    {
      if !settled {
        settled, outcome := true, Resolved;
      }
    }

    method Reject(error: RecordingError)
      modifies this
      ensures State() == Settle(old(State()), Rejected(error))
    {
      if !settled {
        settled, outcome := true, Rejected(error);
      }
    }
  }
}
