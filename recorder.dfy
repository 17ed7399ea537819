/** One recording run up to the point where ffmpeg is spawned
    (index.js:57-105): derive the file name and the arguments, run the
    pre-session check on the output file, open it for appending and start a
    session whose handlers are then driven by events. */
module Recorder {
  import opened Naming
  import Retention
  import opened Settlement

  /** A run either reaches the spawn with a fresh session, or the
      pre-session check threw and the run rejects at once. */
  datatype Begin = Started(session: Session) | Aborted(error: RecordingError)

  method BeginSession(dir: Retention.Directory, stream: Stream, weekday: string, hour: string, now: int,
                      statFails: bool, unlinkFails: bool)
    returns (b: Begin)
    modifies dir
    ensures var name := FileName(stream, weekday, hour);
      var (check, checked) := Retention.PreSession(old(dir.entries), name, now, statFails, unlinkFails);
      && (b.Aborted? <==> check.Failed?)
      && (b.Aborted? ==> b.error == FileSystem(check.error) && dir.entries == old(dir.entries))
      && (b.Started? ==>
            && fresh(b.session)
            && b.session.Valid()
            && b.session.State() == Initial(hour)
            && b.session.fileName == name
            && b.session.args == FfmpegArgs(stream.url)
            && dir.entries == Retention.OpenedForAppend(checked, name, now))
  {
    var name := FileName(stream, weekday, hour);
    var check := dir.PreSessionCheck(name, now, statFails, unlinkFails);
    if check.Failed? {
      return Aborted(FileSystem(check.error));
    }
    var args := FfmpegArgs(stream.url);
    dir.OpenForAppend(name, now);
    var session := new Session(name, args, hour);
    return Started(session);
  }
}
