/** The debounced directory watcher (src/cli/lib/dir-watcher.ts).

    `fs.watch` and `setTimeout` are left out: a filesystem notification and the firing
    of the debounce timer are input events. Timers are identified by a counter in
    creation order; `pending` says whether the timer held in `debounceTimer` is still
    scheduled (it was neither cleared nor has it fired). Each `onChange` invocation is
    recorded in `reported`. */
module DirWatching {
  import opened Wrappers

  /** The `filename` argument of a watch notification: `null`, a string, or a Buffer
      (kept as the text its `toString()` yields). A Buffer is truthy even when empty. */
  datatype FileName = NoName | Text(s: string) | Bytes(decoded: string)

  predicate IsTruthy(f: FileName)
  {
    match f
    case NoName => false
    case Text(s) => s != ""
    case Bytes(_) => true
  }

  function RelText(f: FileName): string
  {
    match f
    case NoName => ""
    case Text(s) => s
    case Bytes(d) => d
  }

  type IgnoreRule = string -> bool

  /** `DirWatcherOptions` without the callback (its invocations are recorded instead). */
  datatype Options = Options(rootDir: string, recursive: Option<bool>, debounceMs: Option<nat>,
                             shouldIgnore: Option<IgnoreRule>)

  const DefaultDebounceMs: nat := 200

  /** The watcher's mutable fields plus the record of `onChange` calls. */
  datatype WatcherState = WatcherState(
    lastRelPath: Option<string>,
    debounceTimer: Option<nat>,
    pending: bool,
    nextTimer: nat,
    watching: bool,
    started: bool,
    reported: seq<string>)

  /** A watch notification gets past the two early returns of `handleFsEvent`. */
  predicate Accepted(f: FileName, ignore: Option<IgnoreRule>)
  {
    IsTruthy(f) && !(ignore.Some? && ignore.value(RelText(f)))
  }

  function Initial(): (s: WatcherState)
    ensures s.lastRelPath.None? && s.debounceTimer.None? && !s.pending && !s.watching && !s.started
    ensures s.reported == []
  {
    WatcherState(None, None, false, 0, false, false, [])
  }

  /** `start()` without its fatal paths: a second call while started changes nothing. */
  function AfterStart(s: WatcherState): (r: WatcherState)
    ensures s.started ==> r == s
    ensures !s.started ==> r == s.(watching := true, started := true)
    ensures r.started
  {
    if s.started then s else s.(watching := true, started := true)
  }

  /** `stop()`: releases the watcher and the timer and forgets the last path. */
  function AfterStop(s: WatcherState): (r: WatcherState)
    ensures !r.watching && !r.started && !r.pending && r.debounceTimer.None? && r.lastRelPath.None?
    ensures r.reported == s.reported && r.nextTimer == s.nextTimer
  {
    s.(watching := false, debounceTimer := None, pending := false, lastRelPath := None, started := false)
  }

  /** `handleFsEvent(eventType, filename)`. */
  function AfterFsEvent(s: WatcherState, f: FileName, ignore: Option<IgnoreRule>): (r: WatcherState)
    ensures !Accepted(f, ignore) ==> r == s
    ensures Accepted(f, ignore) ==>
              && r.lastRelPath == Some(RelText(f))
              && r.debounceTimer == Some(s.nextTimer) && r.pending && r.nextTimer == s.nextTimer + 1
              && r.watching == s.watching && r.started == s.started
    ensures r.reported == s.reported
  {
    if !IsTruthy(f) then s
    else if ignore.Some? && ignore.value(RelText(f)) then s
    else s.(lastRelPath := Some(RelText(f)), debounceTimer := Some(s.nextTimer), pending := true,
            nextTimer := s.nextTimer + 1)
  }

  /** The debounce timer's callback: reports the last path unless it is null or
      empty. Neither `lastRelPath` nor the `debounceTimer` field is cleared. */
  function AfterTimerFire(s: WatcherState): (r: WatcherState)
    requires s.pending
    ensures !r.pending
    ensures r.lastRelPath == s.lastRelPath && r.debounceTimer == s.debounceTimer
    ensures r.reported == s.reported + (if s.lastRelPath.Some? && s.lastRelPath.value != "" then [s.lastRelPath.value] else [])
  {
    var reported := if s.lastRelPath.None? || s.lastRelPath.value == "" then s.reported
                    else s.reported + [s.lastRelPath.value];
    s.(pending := false, reported := reported)
  }

  /** `start()` while started and `stop()` after `stop()` change nothing. */
  lemma StartStopIdempotent(s: WatcherState)
    ensures AfterStart(AfterStart(s)) == AfterStart(s)
    ensures AfterStop(AfterStop(s)) == AfterStop(s)
  {
  }

  /** A sequence of notifications with no timer firing among them. */
  function Feed(s: WatcherState, fs: seq<FileName>, ignore: Option<IgnoreRule>): WatcherState
    decreases fs
  {
    if fs == [] then s else Feed(AfterFsEvent(s, fs[0], ignore), fs[1..], ignore)
  }

  /** The path of the last accepted notification of a burst, if any. */
  function LastAccepted(fs: seq<FileName>, ignore: Option<IgnoreRule>): Option<string>
  {
    if fs == [] then None
    else if Accepted(fs[|fs| - 1], ignore) then Some(RelText(fs[|fs| - 1]))
    else LastAccepted(fs[..|fs| - 1], ignore)
  }

  lemma {:induction false} FeedSnoc(s: WatcherState, fs: seq<FileName>, f: FileName, ignore: Option<IgnoreRule>)
    ensures Feed(s, fs + [f], ignore) == AfterFsEvent(Feed(s, fs, ignore), f, ignore)
    decreases fs
  {
    if fs != [] {
      assert (fs + [f])[1..] == fs[1..] + [f];
      FeedSnoc(AfterFsEvent(s, fs[0], ignore), fs[1..], f, ignore);
    }
  }

  /** A burst changes nothing when every notification is dropped; otherwise it leaves
      exactly one scheduled timer, created by the last accepted notification, with that
      notification's path recorded. Nothing is reported during the burst. */
  lemma {:induction false} FeedBurst(s: WatcherState, fs: seq<FileName>, ignore: Option<IgnoreRule>)
    ensures var r := Feed(s, fs, ignore);
            && r.reported == s.reported && r.watching == s.watching && r.started == s.started
            && (LastAccepted(fs, ignore).None? ==> r == s)
            && (LastAccepted(fs, ignore).Some? ==>
                  r.pending && r.lastRelPath == LastAccepted(fs, ignore)
                  && r.debounceTimer == Some(r.nextTimer - 1) && r.nextTimer > s.nextTimer)
  {
    if fs != [] {
      var init := fs[..|fs| - 1];
      assert fs == init + [fs[|fs| - 1]];
      FeedSnoc(s, init, fs[|fs| - 1], ignore);
      FeedBurst(s, init, ignore);
    }
  }

  /** Any burst of notifications containing an accepted one, followed by a firing,
      produces exactly one `onChange` call, with the last accepted path (a Buffer that
      decodes to the empty string is accepted but not reported); afterwards no timer
      is pending, so a further firing cannot call it again. */
  lemma BurstReportsOnce(s: WatcherState, fs: seq<FileName>, ignore: Option<IgnoreRule>)
    requires LastAccepted(fs, ignore).Some?
    ensures Feed(s, fs, ignore).pending
    ensures var r := AfterTimerFire(Feed(s, fs, ignore));
            var p := LastAccepted(fs, ignore).value;
            && !r.pending
            && r.reported == s.reported + (if p != "" then [p] else [])
  {
    FeedBurst(s, fs, ignore);
  }

  class DirWatcher {
    const rootDir: string
    const recursive: bool
    const debounceMs: nat
    const shouldIgnore: Option<IgnoreRule>

    var lastRelPath: Option<string>
    var debounceTimer: Option<nat>
    var pending: bool
    var nextTimer: nat
    var watching: bool
    var started: bool
    var reported: seq<string>
    /** Number of "Error in DirWatcher onChange handler" lines written. */
    var handlerErrors: nat

    function State(): WatcherState
      reads this
    {
      WatcherState(lastRelPath, debounceTimer, pending, nextTimer, watching, started, reported)
    }

    /** `new DirWatcher(options)`: `recursive` defaults to true and `debounceMs` to 200. */
    constructor (options: Options)
      ensures rootDir == options.rootDir && shouldIgnore == options.shouldIgnore
      ensures recursive == (options.recursive != Some(false))
      ensures debounceMs == if options.debounceMs.Some? then options.debounceMs.value else DefaultDebounceMs
      ensures State() == Initial() && handlerErrors == 0
    {
      rootDir, shouldIgnore := options.rootDir, options.shouldIgnore;
      recursive := options.recursive != Some(false);
      debounceMs := if options.debounceMs.Some? then options.debounceMs.value else DefaultDebounceMs;
      lastRelPath, debounceTimer, pending, nextTimer := None, None, false, 0;
      watching, started, reported, handlerErrors := false, false, [], 0;
    }

    method Start()
      modifies this`watching, this`started
      ensures State() == AfterStart(old(State()))
    {
      if started {
        return;
      }
      watching := true;
      started := true;
    }

    method Stop()
      modifies this`watching, this`debounceTimer, this`pending, this`lastRelPath, this`started
      ensures State() == AfterStop(old(State()))
    {
      if watching {
        watching := false;
      }
      if debounceTimer.Some? {
        pending := false;
        debounceTimer := None;
      }
      pending := false;
      lastRelPath := None;
      started := false;
    }

    method HandleFsEvent(filename: FileName)
      modifies this`lastRelPath, this`debounceTimer, this`pending, this`nextTimer
      ensures State() == AfterFsEvent(old(State()), filename, shouldIgnore)
    {
      if !IsTruthy(filename) {
        return;
      }
      var rel := RelText(filename);
      if shouldIgnore.Some? && shouldIgnore.value(rel) {
        return;
      }
      lastRelPath := Some(rel);
      if debounceTimer.Some? {
        pending := false;
      }
      debounceTimer := Some(nextTimer);
      pending := true;
      nextTimer := nextTimer + 1;
    }

    /** The scheduled debounce timer fires. */
    method TimerFires()
      requires pending
      modifies this`pending, this`reported
      ensures State() == AfterTimerFire(old(State()))
    {
      pending := false;
      var pathToReport := lastRelPath;
      if pathToReport.None? || pathToReport.value == "" {
        return;
      }
      reported := reported + [pathToReport.value];
    }

    /** A promise returned by one of the reported `onChange` calls rejects: the error is
        logged once and goes no further; the watcher's state is untouched. Each reported
        call rejects at most once, so there are never more error lines than calls. */
    method OnChangeRejected()
      requires handlerErrors < |reported|
      modifies this`handlerErrors
      ensures handlerErrors == old(handlerErrors) + 1 && handlerErrors <= |reported|
    {
      handlerErrors := handlerErrors + 1;
    }
  }
}
