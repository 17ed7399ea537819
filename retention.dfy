/** Retention: the seven-day expiry rule and the two places it is applied
    to the recordings directory, the check on one output file before a
    session starts (index.js:76-89) and the directory sweep
    (index.js:146-171). */
module Retention {

  /** Milliseconds in a day, the unit of moment's `diff(..., 'days')`. */
  const DayMs: int := 86_400_000
  /** Files whose whole-day age reaches this many days are deleted. */
  const RetentionDays: int := 7

  /** Whole days in a signed duration of `ms` milliseconds, truncated
      toward zero as moment's `diff` does (a negative duration rounds up),
      unlike Dafny's Euclidean `/`. */
  function WholeDays(ms: int): (days: int)
    ensures ms >= 0 ==> 0 <= days * DayMs <= ms < days * DayMs + DayMs
    ensures ms < 0 ==> ms <= days * DayMs < ms + DayMs && days <= 0
  {
    if ms >= 0 then ms / DayMs else -((-ms) / DayMs)
  }

  /** The whole-day age of a file modified at `mtime`, seen at `now` (both
      in milliseconds). */
  function AgeDays(now: int, mtime: int): (r: int)
    ensures now >= mtime ==> 0 <= r && r * DayMs <= now - mtime < r * DayMs + DayMs
    ensures now < mtime ==> r <= 0
  {
    WholeDays(now - mtime)
  }

  /** The expiry predicate shared by the pre-session check and the sweep: a
      file is expired exactly when at least seven full days of milliseconds
      have passed since it was modified; a file modified in the future is
      never expired. */
  predicate Expired(now: int, mtime: int): (r: bool)
    ensures r <==> now - mtime >= RetentionDays * DayMs
  {
    AgeDays(now, mtime) >= RetentionDays
  }

  /** Once expired, a file stays expired as time goes on. */
  lemma ExpiredMonotone(now: int, later: int, mtime: int)
    requires now <= later
    requires Expired(now, mtime)
    ensures Expired(later, mtime)
  {
  }

  /** What one filesystem call failed on. */
  datatype FsError = StatFailed(name: string) | UnlinkFailed(name: string) | ReaddirFailed

  /** How the pre-session check ended: there was no file, an existing file is
      kept for appending, an expired file was deleted, or a filesystem call
      threw (which rejects the session before ffmpeg is spawned). */
  datatype PreCheck = NoFile | Continue | Deleted | Failed(error: FsError)

  /** The pre-session check on the output file `name` in directory `d`
      (file name to mtime), with the outcome of the two filesystem calls
      given as inputs. */
  function PreSession(d: map<string, int>, name: string, now: int, statFails: bool, unlinkFails: bool)
    : (r: (PreCheck, map<string, int>))
    ensures r.1 == d || (r.0 == Deleted && name in d && r.1 == d - {name})
    ensures r.0 == NoFile <==> name !in d
    ensures r.0 == Deleted ==> Expired(now, d[name])
    ensures r.0 == Continue ==> name in d && !Expired(now, d[name])
  {
    if name !in d then (NoFile, d)
    else if statFails then (Failed(StatFailed(name)), d)
    else if !Expired(now, d[name]) then (Continue, d)
    else if unlinkFails then (Failed(UnlinkFailed(name)), d)
    else (Deleted, d - {name})
  }

  /** Opening the output file for appending creates it, stamped `now`, when
      it is missing, and leaves an existing file as it is. */
  function OpenedForAppend(d: map<string, int>, name: string, now: int): (r: map<string, int>)
    ensures r.Keys == d.Keys + {name}
    ensures forall n :: n in d ==> r[n] == d[n]
    ensures name !in d ==> r[name] == now
  {
    if name in d then d else d[name := now]
  }

  /** Bytes piped into the open output file set its modification time to
      `now`; a file whose name was unlinked meanwhile does not reappear. */
  function Written(d: map<string, int>, name: string, now: int): (r: map<string, int>)
    ensures r.Keys == d.Keys
    ensures name in d ==> r[name] == now
    ensures forall n :: n in d && n != name ==> r[n] == d[n]
  {
    if name in d then d[name := now] else d
  }

  /** Whether the sweep deletes entry `n`: its stat succeeds, it has expired,
      and its unlink succeeds. */
  predicate Evicted(d: map<string, int>, n: string, now: int, statFails: set<string>, unlinkFails: set<string>)
    requires n in d
  {
    n !in statFails && Expired(now, d[n]) && n !in unlinkFails
  }

  /** The directory after a sweep: unchanged when the directory cannot be
      read, otherwise every evicted entry is gone and every other entry is
      kept with its mtime. */
  function Swept(d: map<string, int>, now: int, readdirFails: bool, statFails: set<string>, unlinkFails: set<string>)
    : (r: map<string, int>)
    ensures r.Keys <= d.Keys
    ensures forall n :: n in r ==> r[n] == d[n]
    ensures forall n :: n in d && n !in r ==> !readdirFails && n !in statFails && n !in unlinkFails && Expired(now, d[n])
  {
    if readdirFails then d
    else map n | n in d && !Evicted(d, n, now, statFails, unlinkFails) :: d[n]
  }

  /** The recordings directory: file names mapped to modification times. */
  class Directory {
    var entries: map<string, int>

    constructor (initial: map<string, int>)
      ensures entries == initial
    {
      entries := initial;
    }

    /** `existsSync`, then `statSync` and, for an expired file, `unlinkSync`. */
    method PreSessionCheck(name: string, now: int, statFails: bool, unlinkFails: bool) returns (r: PreCheck)
      modifies this
      ensures (r, entries) == PreSession(old(entries), name, now, statFails, unlinkFails)
    {
      r := NoFile;
      if name in entries {
        if statFails {
          r := Failed(StatFailed(name));
        } else if Expired(now, entries[name]) {
          if unlinkFails {
            r := Failed(UnlinkFailed(name));
          } else {
            entries := entries - {name};
            r := Deleted;
          }
        } else {
          r := Continue;
        }
      }
    }

    /** `createWriteStream(name, { flags: 'a' })`. */
    method OpenForAppend(name: string, now: int)
      modifies this
      ensures entries == OpenedForAppend(old(entries), name, now)
    {
      if name !in entries {
        entries := entries[name := now];
      }
    }

    /** ffmpeg's standard output piped into the write stream. */
    method Append(name: string, now: int)
      modifies this
      ensures entries == Written(old(entries), name, now)
    {
      if name in entries {
        entries := entries[name := now];
      }
    }

    /** `deleteOldRecordings`: list the directory, then stat each entry and
        unlink it when expired; a failing stat or unlink skips that entry
        only. Returns the names it deleted. */
    method Sweep(now: int, readdirFails: bool, statFails: set<string>, unlinkFails: set<string>)
      returns (deleted: set<string>)
      modifies this
      ensures entries == Swept(old(entries), now, readdirFails, statFails, unlinkFails)
      ensures deleted == old(entries).Keys - entries.Keys
    {
      deleted := {};
      if readdirFails {
        return;
      }
      ghost var d0 := entries;
      var todo := entries.Keys;
      while todo != {}
        invariant todo <= d0.Keys
        invariant entries == map n | n in d0 && (n in todo || !Evicted(d0, n, now, statFails, unlinkFails)) :: d0[n]
        invariant deleted == d0.Keys - entries.Keys
        decreases todo
      {
        var n :| n in todo;
        if n !in statFails && Expired(now, entries[n]) && n !in unlinkFails {
          entries := entries - {n};
          deleted := deleted + {n};
        }
        todo := todo - {n};
      }
    }
  }

  /** The pre-session check deletes the output file exactly when it exists
      and is expired (given that stat and unlink succeed), and touches no
      other entry. */
  lemma PreSessionRule(d: map<string, int>, name: string, now: int)
    ensures var (r, after) := PreSession(d, name, now, false, false);
      && (name !in after <==> name !in d || Expired(now, d[name]))
      && (r == Deleted <==> name in d && Expired(now, d[name]))
      && (r == Continue <==> name in d && !Expired(now, d[name]))
      && (name in after ==> after[name] == d[name])
      && forall n :: n != name ==> (n in after <==> n in d) && (n in after ==> after[n] == d[n])
  {
  }

  /** A failing stat or unlink leaves the directory as it was. */
  lemma PreSessionFailureKeepsDirectory(d: map<string, int>, name: string, now: int, statFails: bool, unlinkFails: bool)
    requires PreSession(d, name, now, statFails, unlinkFails).0.Failed?
    ensures PreSession(d, name, now, statFails, unlinkFails).1 == d
  {
  }

  /** Preparing the output file, then opening it for append: a file younger
      than seven days keeps its modification time (the session resumes it);
      a missing or expired file is replaced by a fresh one stamped `now`;
      no other entry changes. */
  lemma ResumeOrReplace(d: map<string, int>, name: string, now: int)
    ensures var after := OpenedForAppend(PreSession(d, name, now, false, false).1, name, now);
      && name in after
      && after[name] == (if name in d && !Expired(now, d[name]) then d[name] else now)
      && after - {name} == d - {name}
  {
    var after := OpenedForAppend(PreSession(d, name, now, false, false).1, name, now);
    assert after - {name} == d - {name};
  }

  /** An output file eight days old is deleted before the session and a
      fresh file takes its place. */
  lemma EightDayOldFileReplaced(d: map<string, int>, name: string, now: int)
    requires name in d && d[name] == now - 8 * DayMs
    ensures PreSession(d, name, now, false, false).0 == Deleted
    ensures OpenedForAppend(PreSession(d, name, now, false, false).1, name, now)[name] == now
  {
  }

  /** With no failures, the sweep removes exactly the expired entries and
      keeps every younger entry with its mtime. */
  lemma SweepExact(d: map<string, int>, now: int)
    ensures var after := Swept(d, now, false, {}, {});
      && (forall n :: n in after <==> n in d && !Expired(now, d[n]))
      && (forall n :: n in after ==> after[n] == d[n])
  {
  }

  /** A failure on one entry changes the fate of that entry only. */
  lemma SweepFailureIsLocal(d: map<string, int>, now: int, m: string)
    ensures forall n :: n != m ==>
      (n in Swept(d, now, false, {m}, {}) <==> n in Swept(d, now, false, {}, {})) &&
      (n in Swept(d, now, false, {}, {m}) <==> n in Swept(d, now, false, {}, {}))
    ensures m in d ==> m in Swept(d, now, false, {m}, {}) && m in Swept(d, now, false, {}, {m})
  {
  }

  /** An unreadable directory leaves every entry alone. */
  lemma SweepUnreadable(d: map<string, int>, now: int, statFails: set<string>, unlinkFails: set<string>)
    ensures Swept(d, now, true, statFails, unlinkFails) == d
  {
  }

  /** A second clean sweep at the same instant changes nothing. */
  lemma SweepIdempotent(d: map<string, int>, now: int)
    ensures Swept(Swept(d, now, false, {}, {}), now, false, {}, {}) == Swept(d, now, false, {}, {})
  {
    var once := Swept(d, now, false, {}, {});
    var twice := Swept(once, now, false, {}, {});
    assert twice.Keys == once.Keys;
  }

  /** A later sweep keeps no more than an earlier one: once a clean sweep
      deletes an entry, every later clean sweep would delete it too. */
  lemma SweepLaterKeepsLess(d: map<string, int>, now: int, later: int)
    requires now <= later
    ensures Swept(d, later, false, {}, {}).Keys <= Swept(d, now, false, {}, {}).Keys
  {
    forall n | n in d && Expired(now, d[n]) ensures Expired(later, d[n]) {
      ExpiredMonotone(now, later, d[n]);
    }
  }

  /** A clean sweep establishes the retention invariant: nothing left in
      the directory has reached seven days. */
  lemma SweepEstablishesRetention(d: map<string, int>, now: int)
    ensures forall n :: n in Swept(d, now, false, {}, {}) ==>
      now - Swept(d, now, false, {}, {})[n] < RetentionDays * DayMs
  {
  }

  /** A slot file survives a continuously recording week. A session that
      starts at `start` resumes or creates its output file and writes to it
      until `last`, some time after it started; one week later the session
      for the same weekday and hour finds that file younger than seven days
      and appends to it, and no clean sweep before `last` plus seven days
      removes it. Since every week's session writes again, the file keeps
      growing week after week instead of being replaced. */
  lemma WeeklySlotResumed(d: map<string, int>, name: string, start: int, last: int)
    requires start < last
    ensures var recorded := Written(OpenedForAppend(PreSession(d, name, start, false, false).1, name, start), name, last);
      var nextWeek := start + 7 * DayMs;
      && recorded[name] == last
      && PreSession(recorded, name, nextWeek, false, false) == (Continue, recorded)
      && OpenedForAppend(recorded, name, nextWeek) == recorded
      && forall t :: t < last + RetentionDays * DayMs ==> name in Swept(recorded, t, false, {}, {})
  {
  }
}
