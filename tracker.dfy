/**
 * The `SessionTracker` object and the `init` factory. Event capture is an
 * external emitter that calls `Emit`; the periodic timer and the unload hook
 * are the environment calling `BeginFlush`; the network request is the
 * outcome passed to `CompleteFlush`. Several flushes may be in flight at once:
 * each holds its own detached batch.
 */
module Tracker {
  import opened Wrappers
  import opened TrackerConfig
  import opened BrowserStorage
  import opened SessionIdentity
  import opened EventBuffer
  import Recording

  class SessionTracker<E> {
    const config: Config
    const store: LocalStorage
    const sessionId: string
    const widgetShown: bool

    var events: seq<E>
    var failureCount: nat
    var isTracking: bool
    var stopRecording: Recording.Handle
    var flushTimer: Recording.Handle
    // What the tracker leaves running in the page without a handle to it.
    var orphanCaptures: nat
    var orphanTimers: nat
    var unloadListeners: nat
    /** How many times the caller's `onError` has been invoked. */
    var errorReports: nat

    /** The recording state as the state machine of module Recording sees it. */
    function Rec(): Recording.RecState
      reads this
    {
      Recording.RecState(isTracking, stopRecording, flushTimer, orphanCaptures, orphanTimers, unloadListeners)
    }

    /** `isRecording()`. */
    function IsRecording(): bool
      reads this
    {
      isTracking
    }

    /** `getSessionId()`. */
    function GetSessionId(): string {
      sessionId
    }

    /**
     * `new SessionTracker(options)`: defaults the options, resolves the session
     * identity against `store`, and shows the widget when asked to; nothing is
     * recorded yet.
     */
    constructor (options: Options, store: LocalStorage, now: nat, generated: string)
      modifies store
      ensures this.store == store && config == ApplyDefaults(options)
      ensures Resolution(sessionId, store.entries)
           == Resolve(store.accessible, store.full, old(store.entries), config, now, generated)
      ensures Rec() == Recording.Initial && !IsRecording()
      ensures events == [] && failureCount == 0 && errorReports == 0
      ensures widgetShown == WidgetShown(config)
    {
      var c := ApplyDefaults(options);
      var id := GetOrCreateSessionId(store, c, now, generated);
      config := c;
      this.store := store;
      sessionId := id;
      widgetShown := WidgetShown(c);
      events := [];
      failureCount := 0;
      isTracking := false;
      stopRecording := Recording.Unset;
      flushTimer := Recording.Unset;
      orphanCaptures, orphanTimers, unloadListeners := 0, 0, 0;
      errorReports := 0;
    }

    /**
     * The capture's `emit` callback: buffer the event and record activity at
     * `now`. It fires only while some capture runs (held or orphaned).
     */
    method Emit(e: E, now: nat)
      requires Recording.RunningCaptures(Rec()) > 0
      modifies this`events, store
      ensures events == old(events) + [e]
      ensures store.entries == Touched(store.accessible, store.full, old(store.entries), now)
    {
      events := events + [e];
      UpdateSessionTimestamp(store, now);
    }

    /**
     * The synchronous part of `flush`: nothing happens on an empty buffer;
     * otherwise the whole buffer is detached, in order, as the batch to send.
     */
    method BeginFlush() returns (batch: Option<seq<E>>)
      modifies this`events
      ensures old(events) == [] ==> batch == None && events == []
      ensures old(events) != [] ==> batch == Some(old(events)) && events == []
    {
      if events == [] {
        return None;
      }
      batch := Some(events);
      events := [];
    }

    /**
     * The part of `flush` after the request settles. Success drops the batch;
     * failure counts, reports to `onError` (whose own exceptions are ignored)
     * and applies the retry policy to the buffer as it is now.
     */
    method CompleteFlush(batch: seq<E>, delivered: bool)
      modifies this`events, this`failureCount, this`errorReports
      ensures delivered ==> events == old(events) && failureCount == old(failureCount)
                            && errorReports == old(errorReports)
      ensures !delivered ==> failureCount == old(failureCount) + 1
                             && events == AfterFailure(old(events), batch, failureCount)
                             && errorReports == old(errorReports) + (if config.onError.Some? then 1 else 0)
    {
      if delivered {
        return;
      }
      failureCount := failureCount + 1;
      if config.onError.Some? {
        errorReports := errorReports + 1;
      }
      if |events| < MaxQueue && failureCount < MaxFailures {
        events := batch + events;
      } else if failureCount >= MaxFailures {
        events := [];
      }
    }

    /** `start`, with the point where it throws (if any) given by `fault`. */
    method Start(fault: Recording.StartFault)
      modifies this`isTracking, this`stopRecording, this`flushTimer,
               this`orphanCaptures, this`orphanTimers, this`unloadListeners
      ensures Rec() == Recording.Start(old(Rec()), OptInMode(config), fault)
    {
      if OptInMode(config) && !isTracking {
        return;
      }
      if fault == Recording.RecordThrows {
        return;
      }
      if stopRecording == Recording.Running {
        orphanCaptures := orphanCaptures + 1;
      }
      stopRecording := Recording.Running;
      if fault == Recording.IntervalThrows {
        return;
      }
      if flushTimer == Recording.Running {
        orphanTimers := orphanTimers + 1;
      }
      flushTimer := Recording.Running;
      if fault == Recording.ListenerThrows {
        return;
      }
      unloadListeners := unloadListeners + 1;
      isTracking := true;
    }

    /**
     * `stop`: stops capture and timer, starts a final flush (the detached batch
     * is returned) and clears the persisted session.
     */
    method Stop() returns (batch: Option<seq<E>>)
      modifies this`stopRecording, this`flushTimer, this`events, store
      ensures Rec() == Recording.Stop(old(Rec()))
      ensures batch == (if old(events) == [] then None else Some(old(events))) && events == []
      ensures store.entries == Cleared(store.accessible, old(store.entries))
    {
      if stopRecording != Recording.Unset {
        stopRecording := Recording.Stopped;
      }
      if flushTimer != Recording.Unset {
        flushTimer := Recording.Stopped;
      }
      batch := BeginFlush();
      ClearSession(store);
    }

    /** `pauseTracking`: when tracking, releases capture and timer, starts a final flush and stops tracking. */
    method Pause() returns (batch: Option<seq<E>>)
      modifies this`stopRecording, this`flushTimer, this`events, this`isTracking
      ensures Rec() == Recording.Pause(old(Rec()))
      ensures !old(isTracking) ==> batch == None && events == old(events)
      ensures old(isTracking) ==> events == [] && batch == if old(events) == [] then None else Some(old(events))
    {
      if !isTracking {
        return None;
      }
      stopRecording := Recording.Unset;
      flushTimer := Recording.Unset;
      batch := BeginFlush();
      isTracking := false;
    }

    /** `resumeTracking`: when not tracking, calls `start` and then marks the tracker as tracking. */
    method Resume(fault: Recording.StartFault)
      modifies this`isTracking, this`stopRecording, this`flushTimer,
               this`orphanCaptures, this`orphanTimers, this`unloadListeners
      ensures Rec() == Recording.Resume(old(Rec()), OptInMode(config), fault)
    {
      if isTracking {
        return;
      }
      Start(fault);
      isTracking := true;
    }

    /** `toggleTracking`: pause when tracking (returning the flushed batch), resume otherwise. */
    method Toggle(fault: Recording.StartFault) returns (batch: Option<seq<E>>)
      modifies this`isTracking, this`stopRecording, this`flushTimer,
               this`orphanCaptures, this`orphanTimers, this`unloadListeners, this`events
      ensures Rec() == Recording.Toggle(old(Rec()), OptInMode(config), fault)
      ensures !old(isTracking) ==> batch == None && events == old(events)
      ensures old(isTracking) ==> events == [] && batch == if old(events) == [] then None else Some(old(events))
    {
      if isTracking {
        batch := Pause();
      } else {
        Resume(fault);
        batch := None;
      }
    }
  }

  /**
   * `init`: construct and start a tracker, or return null when construction
   * throws. Construction can only throw after the session identity has been
   * resolved (reading the browser's metadata or building the widget), so the
   * store is updated either way.
   */
  method Init<E>(options: Options, store: LocalStorage, now: nat, generated: string,
                 constructionThrows: bool, fault: Recording.StartFault)
    returns (t: SessionTracker?<E>)
    modifies store
    ensures t == null <==> constructionThrows
    ensures store.entries
         == Resolve(store.accessible, store.full, old(store.entries), ApplyDefaults(options), now, generated).entries
    ensures t != null ==>
              t.GetSessionId()
              == Resolve(store.accessible, store.full, old(store.entries), ApplyDefaults(options), now, generated).id
    ensures t != null ==> t.widgetShown == WidgetShown(t.config)
    ensures t != null ==> fresh(t) && t.store == store && t.config == ApplyDefaults(options)
                          && t.Rec() == Recording.Start(Recording.Initial, OptInMode(t.config), fault)
                          && t.events == [] && t.failureCount == 0
  {
    if constructionThrows {
      var _ := GetOrCreateSessionId(store, ApplyDefaults(options), now, generated);
      return null;
    }
    t := new SessionTracker(options, store, now, generated);
    t.Start(fault);
  }

  // ---------------------------------------------------------------------------
  // Client scenarios: what a caller can conclude from the contracts alone.

  function PlainOptions(optIn: bool): Options {
    Options("https://collector.example", Omitted, Omitted, Omitted, Omitted, Omitted,
            Omitted, Omitted, Omitted, Given(optIn), Omitted)
  }

  /**
   * Always-on tracking (here without usable storage): three events go out in
   * one batch; a failure puts them back and counts once.
   */
  method FailedFlushIsRetried(a: int, b: int, c: int)
  {
    var store := new LocalStorage(false, false, map[]);
    var t := new SessionTracker<int>(PlainOptions(false), store, 1000, "1000-abc");
    assert !OptInMode(t.config);
    t.Start(Recording.NoFault);
    assert t.IsRecording();
    t.Emit(a, 1001);
    assert t.events == [a];
    t.Emit(b, 1002);
    assert t.events == [a, b];
    t.Emit(c, 1003);
    assert t.events == [a, b, c];
    var sent := t.BeginFlush();
    assert sent == Some([a, b, c]);
    t.CompleteFlush(sent.value, false);
    FailedBatchRequeued([], [a, b, c], 1);
    assert [a, b, c] + [] == [a, b, c];
    assert t.events == [a, b, c] && t.failureCount == 1;
  }

  /**
   * Opt-in: not recording after construction. A click turns `isRecording()` on
   * but starts no capture, so nothing can be emitted, and a second click
   * flushes nothing.
   */
  method OptInClicksSendNothing()
  {
    var store := new LocalStorage(true, false, map[]);
    var t := new SessionTracker<int>(PlainOptions(true), store, 1000, "1000-abc");
    assert OptInMode(t.config);
    t.Start(Recording.NoFault);
    Recording.StartSuppressedInOptIn(Recording.Initial, Recording.NoFault);
    assert !t.IsRecording() && t.widgetShown;
    ghost var before := t.Rec();
    var sent := t.Toggle(Recording.NoFault);
    Recording.ToggleFlips(before, true, Recording.NoFault);
    assert t.IsRecording() && sent == None && t.events == [];
    assert Recording.RunningCaptures(t.Rec()) == 0;
    sent := t.Toggle(Recording.NoFault);
    assert !t.IsRecording() && sent == None;
  }

  /** Three failed flushes in a row leave the buffer empty, whatever was in it. */
  method ThirdFailureEmptiesBuffer(x: int, y: int, z: int)
  {
    var store := new LocalStorage(false, false, map[]);
    var t := new SessionTracker<int>(PlainOptions(false), store, 5, "5-x");
    assert !OptInMode(t.config);
    t.Start(Recording.NoFault);
    assert Recording.RunningCaptures(t.Rec()) > 0;
    t.Emit(x, 6);
    var sent := t.BeginFlush();
    t.CompleteFlush(sent.value, false);
    sent := t.BeginFlush();
    t.Emit(y, 7);
    t.CompleteFlush(sent.value, false);
    assert t.events == [x, y];
    t.Emit(z, 8);
    sent := t.BeginFlush();
    t.CompleteFlush(sent.value, false);
    assert t.failureCount == 3 && t.events == [];
  }
}
