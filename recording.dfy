/**
 * The recording state machine of the tracker (`start`, `pauseTracking`,
 * `resumeTracking`, `toggleTracking`, `stop`), over the state it changes:
 * `isTracking`, the capture stop handle, the flush timer, and what the tracker
 * leaves behind in the page (captures and timers whose handle it overwrote,
 * and `beforeunload` listeners, which it never removes).
 */
module Recording {

  /**
   * A handle field: unset, set to a running capture or timer, or still set
   * after the capture or timer it refers to was stopped (`stop` never unsets it).
   */
  datatype Handle = Unset | Running | Stopped

  /** Where `start` throws, if it does: in `record`, `setInterval` or `addEventListener`. */
  datatype StartFault = NoFault | RecordThrows | IntervalThrows | ListenerThrows

  datatype RecState = RecState(
    isTracking: bool,
    capture: Handle,
    timer: Handle,
    orphanCaptures: nat,   // captures still running whose stop handle was overwritten
    orphanTimers: nat,     // intervals still running whose id was overwritten
    unloadListeners: nat)  // `beforeunload` flush listeners registered so far

  /** A freshly constructed tracker. */
  const Initial: RecState := RecState(false, Unset, Unset, 0, 0, 0)

  /** Captures running in the page, reachable through the handle or not. */
  function RunningCaptures(s: RecState): nat {
    s.orphanCaptures + if s.capture == Running then 1 else 0
  }

  /** Intervals running in the page, reachable through the handle or not. */
  function RunningTimers(s: RecState): nat {
    s.orphanTimers + if s.timer == Running then 1 else 0
  }

  /** `start`: returns at once in opt-in mode while not tracking; a fault stops it part-way. */
  function Start(s: RecState, optIn: bool, fault: StartFault): (r: RecState)
    ensures r.isTracking <==> s.isTracking || (!optIn && fault.NoFault?)
    ensures RunningCaptures(r) >= RunningCaptures(s) && RunningTimers(r) >= RunningTimers(s)
    ensures r.unloadListeners == s.unloadListeners + if fault.NoFault? && (!optIn || s.isTracking) then 1 else 0
  {
    if optIn && !s.isTracking then s
    else if fault == RecordThrows then s
    else
      var s1 := s.(capture := Running,
                   orphanCaptures := s.orphanCaptures + if s.capture == Running then 1 else 0);
      if fault == IntervalThrows then s1
      else
        var s2 := s1.(timer := Running,
                      orphanTimers := s1.orphanTimers + if s1.timer == Running then 1 else 0);
        if fault == ListenerThrows then s2
        else s2.(unloadListeners := s2.unloadListeners + 1, isTracking := true)
  }

  /** `stop`: stops the held capture and timer but leaves the handles set and `isTracking` as it was. */
  function Stop(s: RecState): (r: RecState)
    ensures r.isTracking == s.isTracking && r.capture != Running && r.timer != Running
    ensures RunningCaptures(r) == s.orphanCaptures && RunningTimers(r) == s.orphanTimers
  {
    s.(capture := if s.capture == Unset then Unset else Stopped,
       timer := if s.timer == Unset then Unset else Stopped)
  }

  /** `pauseTracking`: when tracking, stops and unsets both handles and clears `isTracking`. */
  function Pause(s: RecState): (r: RecState)
    ensures !r.isTracking
    ensures s.isTracking ==> r.capture == Unset && r.timer == Unset
                             && RunningCaptures(r) == s.orphanCaptures && RunningTimers(r) == s.orphanTimers
  {
    if !s.isTracking then s
    else s.(capture := Unset, timer := Unset, isTracking := false)
  }

  /** `resumeTracking`: when not tracking, runs `start` and then sets `isTracking` regardless. */
  function Resume(s: RecState, optIn: bool, fault: StartFault): (r: RecState)
    ensures r.isTracking
    ensures s.isTracking ==> r == s
    ensures optIn && !s.isTracking ==> r.capture == s.capture && r.timer == s.timer
    ensures !optIn && !s.isTracking && fault.NoFault? ==> r.capture == Running && r.timer == Running
  {
    if s.isTracking then s
    else Start(s, optIn, fault).(isTracking := true)
  }

  /** `toggleTracking`, the widget's click handler. */
  function Toggle(s: RecState, optIn: bool, fault: StartFault): (r: RecState)
    ensures r.isTracking == !s.isTracking
  {
    if s.isTracking then Pause(s) else Resume(s, optIn, fault)
  }

  /** The state after a series of widget clicks, one start fault per click. */
  function Clicks(s: RecState, optIn: bool, faults: seq<StartFault>): RecState
    decreases |faults|
  {
    if faults == [] then s else Clicks(Toggle(s, optIn, faults[0]), optIn, faults[1..])
  }

  // ---------------------------------------------------------------------------
  // Properties

  /** In opt-in mode, `start` on a tracker that is not tracking changes nothing. */
  lemma StartSuppressedInOptIn(s: RecState, fault: StartFault)
    requires !s.isTracking
    ensures Start(s, true, fault) == s
  {
  }

  /** Otherwise a `start` that does not throw leaves the tracker tracking with a running capture and timer. */
  lemma StartSucceeds(s: RecState, optIn: bool)
    requires !optIn || s.isTracking
    ensures var t := Start(s, optIn, NoFault);
            t.isTracking && t.capture == Running && t.timer == Running
            && t.unloadListeners == s.unloadListeners + 1
  {
  }

  /** A `start` that throws is swallowed: `isTracking` and the listeners are as before. */
  lemma StartFailureSwallowed(s: RecState, optIn: bool, fault: StartFault)
    requires fault != NoFault
    ensures Start(s, optIn, fault).isTracking == s.isTracking
    ensures Start(s, optIn, fault).unloadListeners == s.unloadListeners
  {
  }

  /** `start` never stops a capture or timer: starting while one runs leaves the old one running unreachable. */
  lemma StartNeverStopsAnything(s: RecState, optIn: bool, fault: StartFault)
    ensures RunningCaptures(Start(s, optIn, fault)) >= RunningCaptures(s)
    ensures RunningTimers(Start(s, optIn, fault)) >= RunningTimers(s)
  {
  }

  /** `pauseTracking` on a tracker that is not tracking changes nothing. */
  lemma PauseWhenIdleIsNoop(s: RecState)
    requires !s.isTracking
    ensures Pause(s) == s
  {
  }

  /** `pauseTracking` releases the held capture and timer and stops tracking. */
  lemma PauseReleasesHandles(s: RecState)
    requires s.isTracking
    ensures var t := Pause(s);
            !t.isTracking && t.capture == Unset && t.timer == Unset
            && RunningCaptures(t) == s.orphanCaptures && RunningTimers(t) == s.orphanTimers
  {
  }

  /** `resumeTracking` always ends tracking, whatever `start` did. */
  lemma ResumeEndsTracking(s: RecState, optIn: bool, fault: StartFault)
    ensures Resume(s, optIn, fault).isTracking
  {
  }

  /** `resumeTracking` on a tracker that is already tracking changes nothing. */
  lemma ResumeWhenTrackingIsNoop(s: RecState, optIn: bool, fault: StartFault)
    requires s.isTracking
    ensures Resume(s, optIn, fault) == s
  {
  }

  /**
   * Outside opt-in mode, a `resumeTracking` whose `start` does not throw leaves
   * a capture and a timer running, and one more unload listener.
   */
  lemma ResumeRestartsCapture(s: RecState, fault: StartFault)
    requires !s.isTracking && fault == NoFault
    ensures var t := Resume(s, false, fault);
            t.capture == Running && t.timer == Running
            && RunningCaptures(t) > 0 && RunningTimers(t) > 0
            && t.unloadListeners == s.unloadListeners + 1
  {
  }

  /** Each widget click flips `isRecording()`, whatever the mode and whatever `start` throws. */
  lemma ToggleFlips(s: RecState, optIn: bool, fault: StartFault)
    ensures Toggle(s, optIn, fault).isTracking == !s.isTracking
  {
  }

  /** `stop` stops the held capture and timer and leaves `isTracking` unchanged. */
  lemma StopKeepsTrackingFlag(s: RecState)
    ensures var t := Stop(s);
            t.isTracking == s.isTracking && t.capture != Running && t.timer != Running
            && t.unloadListeners == s.unloadListeners
  {
  }

  /**
   * In opt-in mode, starting from a fresh tracker, no sequence of widget clicks
   * ever starts a capture: `isRecording()` alternates with the clicks while
   * nothing is recorded.
   */
  lemma {:induction false} OptInClicksNeverCapture(s: RecState, faults: seq<StartFault>)
    requires !s.isTracking && s.capture != Running && s.timer != Running
    requires s.orphanCaptures == 0 && s.orphanTimers == 0
    decreases |faults|
    ensures var t := Clicks(s, true, faults);
            RunningCaptures(t) == 0 && RunningTimers(t) == 0
            && t.isTracking == (|faults| % 2 == 1)
  {
    if faults != [] {
      var s1 := Toggle(s, true, faults[0]);
      assert s1.isTracking && s1.capture == s.capture && s1.timer == s.timer;
      if |faults| > 1 {
        var s2 := Toggle(s1, true, faults[1]);
        assert !s2.isTracking && s2.capture == Unset && s2.timer == Unset;
        assert s2.orphanCaptures == 0 && s2.orphanTimers == 0;
        OptInClicksNeverCapture(s2, faults[2..]);
        assert faults[1..][1..] == faults[2..];
      }
    }
  }
}
