/**
 * The session controls and inactivity watchdog
 * (Frontend/components/ControlsPanel.js). Time is an explicit `now` in
 * milliseconds; the 30-second interval body is the `Tick` event; the React
 * effects that run after a render are the `Rerender` event.
 */
module ControlsPanel {

  /** The watchdog fires once `now - lastActivityTime` reaches one minute. */
  const InactivityLimitMs: int := 60000

  /** The props the parent passes that the panel's logic reads. */
  datatype Props = Props(sessionActive: bool, isRecording: bool, isEndingSession: bool, transcript: string)

  /** The panel's interactive controls; the last two live in the inactivity modal. */
  datatype Control =
    | LanguageSelect
    | StartStop
    | FileInput
    | UploadButton
    | SubmitButton
    | ContinueButton
    | SubmitSessionButton

  predicate InModal(c: Control)
  {
    c.ContinueButton? || c.SubmitSessionButton?
  }

  /** The interval callback's condition: an active, non-recording session idle for a minute. */
  predicate InactivityDue(p: Props, lastActivity: int, now: int)
  {
    p.sessionActive && !p.isRecording && now - lastActivity >= InactivityLimitMs
  }

  /** The warning flag after one tick at `now`: raised when due, never lowered. */
  function WarningAfterTick(shown: bool, p: Props, lastActivity: int, now: int): bool
  {
    shown || InactivityDue(p, lastActivity, now)
  }

  /** The warning flag after ticks at `times`, in order, with no other event in between. */
  function WarningAfterTicks(shown: bool, p: Props, lastActivity: int, times: seq<int>): bool
  {
    if times == [] then shown
    else WarningAfterTick(WarningAfterTicks(shown, p, lastActivity, times[..|times| - 1]), p, lastActivity, times[|times| - 1])
  }

  /** `isTransitioning = localEndingSession || isEndingSession || waitingForSessionEnd`. */
  predicate Transitioning(localEndingSession: bool, isEndingSession: bool, waitingForSessionEnd: bool)
  {
    localEndingSession || isEndingSession || waitingForSessionEnd
  }

  /**
   * Whether a control can be used: the toolbar controls are disabled while
   * transitioning; the modal's buttons exist exactly while the warning is
   * shown and carry no `disabled`.
   */
  predicate ControlEnabled(c: Control, transitioning: bool, warningShown: bool)
  {
    if InModal(c) then warningShown else !transitioning
  }

  class Panel {
    var localEndingSession: bool
    var waitingForSessionEnd: bool
    var showInactivityWarning: bool
    /** The `lastActivityTime` ref, in milliseconds. */
    var lastActivityTime: int
    var selectedLanguage: string
    /** How many times the panel has invoked the parent's `clearAll`. */
    var clearAllCalls: nat

    /** Mounting: initial state, then the `[isRecording, transcript]` effect resets the timer. */
    constructor(now: int)
      ensures !localEndingSession && !waitingForSessionEnd && !showInactivityWarning
      ensures lastActivityTime == now && selectedLanguage == "en-IN" && clearAllCalls == 0
    {
      localEndingSession := false;
      waitingForSessionEnd := false;
      showInactivityWarning := false;
      lastActivityTime := now;
      selectedLanguage := "en-IN";
      clearAllCalls := 0;
    }

    predicate IsTransitioning(p: Props)
      reads this
    {
      Transitioning(localEndingSession, p.isEndingSession, waitingForSessionEnd)
    }

    predicate Enabled(c: Control, p: Props)
      reads this
    {
      ControlEnabled(c, IsTransitioning(p), showInactivityWarning)
    }

    /** `resetInactivityTimer`. */
    method ResetInactivityTimer(now: int)
      modifies this
      ensures lastActivityTime == now && !showInactivityWarning
      ensures localEndingSession == old(localEndingSession) && waitingForSessionEnd == old(waitingForSessionEnd)
      ensures selectedLanguage == old(selectedLanguage) && clearAllCalls == old(clearAllCalls)
    {
      lastActivityTime := now;
      showInactivityWarning := false;
    }

    /** `handleContinueSession`: a reset; it does not touch recording. */
    method ContinueSession(p: Props, now: int)
      requires Enabled(ContinueButton, p)
      modifies this
      ensures lastActivityTime == now && !showInactivityWarning
      ensures localEndingSession == old(localEndingSession) && waitingForSessionEnd == old(waitingForSessionEnd)
      ensures selectedLanguage == old(selectedLanguage) && clearAllCalls == old(clearAllCalls)
    {
      ResetInactivityTimer(now);
      showInactivityWarning := false;
    }

    /**
     * One run of the interval callback. The interval exists only while
     * `sessionActive`, and a tick without it changes nothing either.
     */
    method Tick(p: Props, now: int)
      modifies this
      ensures showInactivityWarning == WarningAfterTick(old(showInactivityWarning), p, lastActivityTime, now)
      ensures lastActivityTime == old(lastActivityTime)
      ensures localEndingSession == old(localEndingSession) && waitingForSessionEnd == old(waitingForSessionEnd)
      ensures selectedLanguage == old(selectedLanguage) && clearAllCalls == old(clearAllCalls)
    {
      if p.sessionActive {
        var diff := now - lastActivityTime;
        if p.sessionActive && !p.isRecording && diff >= InactivityLimitMs {
          if !showInactivityWarning {
            showInactivityWarning := true;
          }
        }
      }
    }

    /** The interval firing at each of `times` in turn. */
    method RunTicks(p: Props, times: seq<int>)
      modifies this
      ensures showInactivityWarning == WarningAfterTicks(old(showInactivityWarning), p, lastActivityTime, times)
      ensures lastActivityTime == old(lastActivityTime)
      ensures localEndingSession == old(localEndingSession) && waitingForSessionEnd == old(waitingForSessionEnd)
      ensures selectedLanguage == old(selectedLanguage) && clearAllCalls == old(clearAllCalls)
    {
      for i := 0 to |times|
        invariant showInactivityWarning == WarningAfterTicks(old(showInactivityWarning), p, lastActivityTime, times[..i])
        invariant lastActivityTime == old(lastActivityTime)
        invariant localEndingSession == old(localEndingSession) && waitingForSessionEnd == old(waitingForSessionEnd)
        invariant selectedLanguage == old(selectedLanguage) && clearAllCalls == old(clearAllCalls)
      {
        assert times[..i + 1][..i] == times[..i];
        Tick(p, times[i]);
      }
      assert times[..|times|] == times;
    }

    /** The synchronous start of `handleSubmit`, up to and including the call of `clearAll`. */
    method BeginSubmit()
      modifies this
      ensures localEndingSession && waitingForSessionEnd
      ensures clearAllCalls == old(clearAllCalls) + 1
      ensures showInactivityWarning == old(showInactivityWarning) && lastActivityTime == old(lastActivityTime)
      ensures selectedLanguage == old(selectedLanguage)
    {
      localEndingSession := true;
      waitingForSessionEnd := true;
      clearAllCalls := clearAllCalls + 1;
    }

    /** The `finally` of `handleSubmit`, after `await clearAll()` settled. */
    method EndSubmit()
      modifies this
      ensures !localEndingSession && !showInactivityWarning
      ensures waitingForSessionEnd == old(waitingForSessionEnd) && lastActivityTime == old(lastActivityTime)
      ensures selectedLanguage == old(selectedLanguage) && clearAllCalls == old(clearAllCalls)
    {
      localEndingSession := false;
      showInactivityWarning := false;
    }

    /**
     * `handleSubmit` from the toolbar's Submit or the modal's Submit Session,
     * with no other event while `clearAll` is awaited. The outcome of
     * `clearAll` does not matter: a throw is caught.
     */
    method Submit(c: Control, p: Props, clearAllThrew: bool)
      requires c == SubmitButton || c == SubmitSessionButton
      requires Enabled(c, p)
      modifies this
      ensures !localEndingSession && waitingForSessionEnd && !showInactivityWarning
      ensures clearAllCalls == old(clearAllCalls) + 1
      ensures lastActivityTime == old(lastActivityTime) && selectedLanguage == old(selectedLanguage)
    {
      BeginSubmit();
      EndSubmit();
    }

    /**
     * The modal's Submit Session clicked twice while the first `clearAll` is
     * still awaited: the button stays rendered and enabled during the
     * transition, so `clearAll` runs twice.
     */
    method SubmitSessionTwice(p: Props)
      requires Enabled(SubmitSessionButton, p)
      modifies this
      ensures clearAllCalls == old(clearAllCalls) + 2
      ensures !localEndingSession && waitingForSessionEnd && !showInactivityWarning
    {
      BeginSubmit();
      assert IsTransitioning(p) && Enabled(SubmitSessionButton, p);
      BeginSubmit();
      EndSubmit();
      EndSubmit();
    }

    /** The language select's `onChange`. */
    method SelectLanguage(p: Props, language: string, now: int)
      requires Enabled(LanguageSelect, p)
      modifies this
      ensures selectedLanguage == language && lastActivityTime == now && !showInactivityWarning
      ensures localEndingSession == old(localEndingSession) && waitingForSessionEnd == old(waitingForSessionEnd)
      ensures clearAllCalls == old(clearAllCalls)
    {
      selectedLanguage := language;
      ResetInactivityTimer(now);
    }

    /**
     * The effects after a render whose props went from `before` to `after`:
     * a change of `isRecording` or `transcript` resets the timer; a change of
     * `sessionActive` to false ends the wait for the session end.
     */
    method Rerender(before: Props, after: Props, now: int)
      modifies this
      ensures before.isRecording != after.isRecording || before.transcript != after.transcript ==>
        lastActivityTime == now && !showInactivityWarning
      ensures before.isRecording == after.isRecording && before.transcript == after.transcript ==>
        lastActivityTime == old(lastActivityTime) && showInactivityWarning == old(showInactivityWarning)
      ensures waitingForSessionEnd == (old(waitingForSessionEnd) && !(before.sessionActive && !after.sessionActive))
      ensures localEndingSession == old(localEndingSession)
      ensures selectedLanguage == old(selectedLanguage) && clearAllCalls == old(clearAllCalls)
    {
      if before.isRecording != after.isRecording || before.transcript != after.transcript {
        ResetInactivityTimer(now);
      }
      if before.sessionActive != after.sessionActive && !after.sessionActive {
        waitingForSessionEnd := false;
      }
    }
  }

  // ---------------------------------------------------------------------
  // Properties of the watchdog and the gating

  /** With the last activity at `t`, no tick before `t + 60000` raises the warning. */
  lemma {:induction false} NoEarlyWarning(p: Props, lastActivity: int, times: seq<int>)
    requires forall i :: 0 <= i < |times| ==> times[i] < lastActivity + InactivityLimitMs
    ensures !WarningAfterTicks(false, p, lastActivity, times)
  {
    if times != [] {
      NoEarlyWarning(p, lastActivity, times[..|times| - 1]);
    }
  }

  /** Ticks never clear the warning. */
  lemma {:induction false} TicksNeverClear(p: Props, lastActivity: int, times: seq<int>)
    ensures WarningAfterTicks(true, p, lastActivity, times)
  {
    if times != [] {
      TicksNeverClear(p, lastActivity, times[..|times| - 1]);
    }
  }

  /** Without an active session, or while recording, ticks leave the warning as it was. */
  lemma {:induction false} TicksInertUnlessActiveAndIdle(shown: bool, p: Props, lastActivity: int, times: seq<int>)
    requires !p.sessionActive || p.isRecording
    ensures WarningAfterTicks(shown, p, lastActivity, times) == shown
  {
    if times != [] {
      TicksInertUnlessActiveAndIdle(shown, p, lastActivity, times[..|times| - 1]);
    }
  }

  /**
   * In an active, non-recording session the warning is up after the ticks
   * exactly when it was up before or some tick came a minute or more after
   * the last activity.
   */
  lemma {:induction false} WarningIffLateTick(shown: bool, p: Props, lastActivity: int, times: seq<int>)
    requires p.sessionActive && !p.isRecording
    ensures WarningAfterTicks(shown, p, lastActivity, times) <==>
      shown || exists i :: 0 <= i < |times| && times[i] >= lastActivity + InactivityLimitMs
  {
    if times != [] {
      var init := times[..|times| - 1];
      WarningIffLateTick(shown, p, lastActivity, init);
      if exists i :: 0 <= i < |init| && init[i] >= lastActivity + InactivityLimitMs {
        var i :| 0 <= i < |init| && init[i] >= lastActivity + InactivityLimitMs;
        assert times[i] == init[i];
      }
      if exists i :: 0 <= i < |times| && times[i] >= lastActivity + InactivityLimitMs {
        var i :| 0 <= i < |times| && times[i] >= lastActivity + InactivityLimitMs;
        if i < |times| - 1 {
          assert init[i] == times[i];
        }
      }
    }
  }

  /**
   * While transitioning, every toolbar control is disabled whatever the
   * warning, yet the modal's Continue and Submit Session are usable exactly
   * when the warning is shown.
   */
  lemma TransitionGatesToolbarOnly(panel: Panel, p: Props)
    requires panel.IsTransitioning(p)
    ensures forall c :: !InModal(c) ==> !panel.Enabled(c, p)
    ensures panel.Enabled(SubmitSessionButton, p) <==> panel.showInactivityWarning
    ensures panel.Enabled(ContinueButton, p) <==> panel.showInactivityWarning
  {
  }
}
