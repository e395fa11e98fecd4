/**
 * The console page (Frontend/components/CCE.js): the patient list and
 * selection handlers, the recording and upload guards, `clearAll`, Change
 * Patient, and the wiring of these into the controls panel. Each `fetch`
 * is replaced by its outcome, given as a parameter.
 */
module Cce {
  import opened Values
  import ControlsPanel

  /** What `await response.json()` produced. */
  datatype JsonBody =
    | Parsed(data: Value)
    | Malformed(message: string)

  /** The outcome of a `fetch`: rejected, or a response with its status and body. */
  datatype HttpOutcome =
    | Rejected(message: string)
    | Received(status: nat, body: JsonBody)

  predicate Ok(status: nat)
  {
    200 <= status <= 299
  }

  /** The TypeError message a JavaScript engine gives for reading `.error` of `null`. */
  const NullDataMessage: string := "Cannot read properties of null (reading 'error')"

  /** `fetchPatientById`: the parsed body, or null on any failure or an `error` body. */
  function FetchedPatient(outcome: HttpOutcome): (r: Value)
    ensures outcome.Rejected? ==> r == Null
    ensures outcome.Received? && !Ok(outcome.status) ==> r == Null
    ensures outcome.Received? && outcome.body.Malformed? ==> r == Null
    ensures r != Null ==>
      outcome.Received? && Ok(outcome.status) && outcome.body.Parsed?
      && r == outcome.body.data && !Truthy(Get(r, "error"))
    ensures (&& outcome.Received? && Ok(outcome.status) && outcome.body.Parsed?
             && outcome.body.data != Null && !Truthy(Get(outcome.body.data, "error")))
      ==> r == outcome.body.data
  {
    match outcome
    case Rejected(_) => Null
    case Received(status, body) =>
      if !Ok(status) then Null
      else match body
        case Malformed(_) => Null
        case Parsed(data) =>
          if data == Null || Truthy(Get(data, "error")) then Null else data
  }

  /**
   * `fetchAllPatients`: the list to show and the error message to set. Any
   * failure shows an empty list and the thrown error's message.
   */
  function PatientList(outcome: HttpOutcome): (r: (Value, Option<string>))
    ensures r.1.None? <==>
      outcome.Received? && Ok(outcome.status) && outcome.body.Parsed?
      && outcome.body.data != Null && !Truthy(Get(outcome.body.data, "error"))
    ensures r.1.None? ==> r.0 == outcome.body.data
    ensures r.1.Some? ==> r.0 == List([])
    ensures outcome.Received? && !Ok(outcome.status) ==>
      r.1 == Some("HTTP error! status: " + NatToString(outcome.status))
    ensures outcome.Received? && Ok(outcome.status) && outcome.body.Parsed? && Truthy(Get(outcome.body.data, "error")) ==>
      r.1 == Some(ToJsString(Get(outcome.body.data, "error")))
  {
    match outcome
    case Rejected(message) => (List([]), Some(message))
    case Received(status, body) =>
      if !Ok(status) then (List([]), Some("HTTP error! status: " + NatToString(status)))
      else match body
        case Malformed(message) => (List([]), Some(message))
        case Parsed(data) =>
          if data == Null then (List([]), Some(NullDataMessage))
          else if Truthy(Get(data, "error")) then (List([]), Some(ToJsString(Get(data, "error"))))
          else (data, None)
  }

  /** The patient `handleSelectPatient` shows: the fetched record, or the list entry when that is falsy. */
  function ShownPatient(listEntry: Value, outcome: HttpOutcome): (r: Value)
    ensures Truthy(FetchedPatient(outcome)) ==> r == FetchedPatient(outcome)
    ensures outcome.Rejected? || (outcome.Received? && !Ok(outcome.status)) ==> r == listEntry
    ensures !Truthy(FetchedPatient(outcome)) ==> r == listEntry
  {
    var fetched := FetchedPatient(outcome);
    if Truthy(fetched) then fetched else listEntry
  }

  /**
   * Read against the response alone: a 2xx response whose parsed body is a
   * truthy record without a truthy `error` is shown; anything else (a
   * rejected fetch, a non-2xx status, an unparsable, null or falsy body, an
   * `error` body) shows the list entry.
   */
  lemma ShownPatientByResponse(listEntry: Value, outcome: HttpOutcome)
    ensures (&& outcome.Received? && Ok(outcome.status) && outcome.body.Parsed?
             && Truthy(outcome.body.data) && !Truthy(Get(outcome.body.data, "error")))
      ==> ShownPatient(listEntry, outcome) == outcome.body.data
    ensures !(&& outcome.Received? && Ok(outcome.status) && outcome.body.Parsed?
              && Truthy(outcome.body.data) && !Truthy(Get(outcome.body.data, "error")))
      ==> ShownPatient(listEntry, outcome) == listEntry
  {
  }

  class Console {
    var isRecording: bool
    var transcript: string
    var sessionActive: bool
    var vadEnabled: bool
    var speechInProgress: bool
    var isEndingSession: bool
    var allPatients: Value
    var selectedPatientId: Value
    var patientData: Value
    var isLoadingPatients: bool
    var error: Option<string>
    var extractedInfo: Value
    const panel: ControlsPanel.Panel

    /**
     * What holds throughout the wired page: nothing sets `sessionActive`,
     * `isEndingSession` or `extractedInfo`, so they keep their initial
     * values, and the inactivity warning never shows.
     */
    predicate Wired()
      reads this, panel
    {
      !sessionActive && !isEndingSession && extractedInfo == Null && !panel.showInactivityWarning
    }

    /** The props the page passes to the panel. */
    function PanelProps(): ControlsPanel.Props
      reads this
    {
      ControlsPanel.Props(sessionActive, isRecording, isEndingSession, transcript)
    }

    constructor(now: int)
      ensures Wired() && fresh(panel)
      ensures !isRecording && transcript == "" && !vadEnabled && !speechInProgress
      ensures allPatients == List([]) && selectedPatientId == Null && patientData == Null
      ensures !isLoadingPatients && error == None
      ensures !panel.localEndingSession && !panel.waitingForSessionEnd && panel.clearAllCalls == 0
    {
      isRecording := false;
      transcript := "";
      sessionActive := false;
      vadEnabled := false;
      speechInProgress := false;
      isEndingSession := false;
      allPatients := List([]);
      selectedPatientId := Null;
      patientData := Null;
      isLoadingPatients := false;
      error := None;
      extractedInfo := Null;
      panel := new ControlsPanel.Panel(now);
    }

    /** `fetchAllPatients` run to completion. */
    method FetchAllPatients(outcome: HttpOutcome)
      modifies this
      ensures (allPatients, error) == PatientList(outcome)
      ensures !isLoadingPatients
      ensures isRecording == old(isRecording) && transcript == old(transcript)
      ensures sessionActive == old(sessionActive) && isEndingSession == old(isEndingSession)
      ensures vadEnabled == old(vadEnabled) && speechInProgress == old(speechInProgress)
      ensures selectedPatientId == old(selectedPatientId) && patientData == old(patientData)
      ensures extractedInfo == old(extractedInfo)
    {
      isLoadingPatients := true;
      error := None;
      var result := PatientList(outcome);
      allPatients := result.0;
      error := result.1;
      isLoadingPatients := false;
    }

    /** `handleSelectPatient` run to completion with the `fetchPatientById` outcome. */
    method SelectPatient(listEntry: Value, outcome: HttpOutcome)
      modifies this
      ensures selectedPatientId == Get(listEntry, "patient_id")
      ensures patientData == ShownPatient(listEntry, outcome)
      ensures isRecording == old(isRecording) && transcript == old(transcript)
      ensures sessionActive == old(sessionActive) && isEndingSession == old(isEndingSession)
      ensures vadEnabled == old(vadEnabled) && speechInProgress == old(speechInProgress)
      ensures allPatients == old(allPatients) && error == old(error) && isLoadingPatients == old(isLoadingPatients)
      ensures extractedInfo == old(extractedInfo)
    {
      selectedPatientId := Get(listEntry, "patient_id");
      var freshPatientData := FetchedPatient(outcome);
      patientData := if Truthy(freshPatientData) then freshPatientData else listEntry;
    }

    /** `toggleRecording`: refused without a patient, otherwise a flip. */
    method ToggleRecording()
      modifies this
      ensures Truthy(old(patientData)) ==> isRecording == !old(isRecording)
      ensures !Truthy(old(patientData)) ==> isRecording == old(isRecording)
      ensures transcript == old(transcript) && patientData == old(patientData)
      ensures sessionActive == old(sessionActive) && isEndingSession == old(isEndingSession)
      ensures vadEnabled == old(vadEnabled) && speechInProgress == old(speechInProgress)
      ensures selectedPatientId == old(selectedPatientId) && allPatients == old(allPatients)
      ensures error == old(error) && isLoadingPatients == old(isLoadingPatients) && extractedInfo == old(extractedInfo)
    {
      if !Truthy(patientData) {
        return;
      }
      isRecording := !isRecording;
    }

    /**
     * `handleFileUpload`: nothing without a file; without a patient the
     * input's value is reset (`inputCleared`). No page state changes.
     */
    method HandleFileUpload(hasFile: bool) returns (inputCleared: bool)
      ensures inputCleared <==> hasFile && !Truthy(patientData)
    {
      if !hasFile {
        return false;
      }
      if !Truthy(patientData) {
        return true;
      }
      return false;
    }

    /** `clearAll`: the recording and session flags reset, the transcript emptied, nothing else. */
    method ClearAll()
      modifies this
      ensures transcript == "" && !isRecording && !sessionActive && !vadEnabled && !speechInProgress
      ensures isEndingSession == old(isEndingSession) && patientData == old(patientData)
      ensures selectedPatientId == old(selectedPatientId) && allPatients == old(allPatients)
      ensures error == old(error) && isLoadingPatients == old(isLoadingPatients) && extractedInfo == old(extractedInfo)
    {
      transcript := "";
      isRecording := false;
      sessionActive := false;
      vadEnabled := false;
      speechInProgress := false;
    }

    /** The Change Patient button. */
    method ChangePatient()
      modifies this
      ensures selectedPatientId == Null && patientData == Null
      ensures isRecording == old(isRecording) && transcript == old(transcript)
      ensures sessionActive == old(sessionActive) && isEndingSession == old(isEndingSession)
      ensures vadEnabled == old(vadEnabled) && speechInProgress == old(speechInProgress)
      ensures allPatients == old(allPatients) && error == old(error)
      ensures isLoadingPatients == old(isLoadingPatients) && extractedInfo == old(extractedInfo)
    {
      selectedPatientId := Null;
      patientData := Null;
    }

    // -------------------------------------------------------------------
    // The panel's events in the wired page

    /** Start/Stop: `toggleRecording`, a reset, then the effects of the re-render. */
    method StartStopClicked(now: int)
      requires Wired() && panel.Enabled(ControlsPanel.StartStop, PanelProps())
      modifies this, panel
      ensures Wired()
      ensures Truthy(old(patientData)) ==> isRecording == !old(isRecording)
      ensures !Truthy(old(patientData)) ==> isRecording == old(isRecording)
      ensures panel.lastActivityTime == now
      ensures panel.waitingForSessionEnd == old(panel.waitingForSessionEnd)
      ensures panel.localEndingSession == old(panel.localEndingSession)
    {
      var before := PanelProps();
      ToggleRecording();
      panel.ResetInactivityTimer(now);
      panel.Rerender(before, PanelProps(), now);
    }

    /** A file chosen in the hidden input: `handleFileUpload`, then a reset. */
    method FileChosen(hasFile: bool, now: int) returns (inputCleared: bool)
      requires Wired() && panel.Enabled(ControlsPanel.FileInput, PanelProps())
      modifies panel
      ensures Wired()
      ensures inputCleared <==> hasFile && !Truthy(patientData)
      ensures panel.lastActivityTime == now
      ensures panel.waitingForSessionEnd == old(panel.waitingForSessionEnd)
      ensures panel.localEndingSession == old(panel.localEndingSession)
    {
      inputCleared := HandleFileUpload(hasFile);
      panel.ResetInactivityTimer(now);
    }

    /**
     * Submit: `handleSubmit` with this page's `clearAll`, the effects of the
     * re-render, then the `finally`. `sessionActive` was already false, so
     * the wait for the session end is never lifted.
     */
    method SubmitClicked(now: int)
      requires Wired() && panel.Enabled(ControlsPanel.SubmitButton, PanelProps())
      modifies this, panel
      ensures Wired()
      ensures panel.waitingForSessionEnd && !panel.localEndingSession
      ensures panel.clearAllCalls == old(panel.clearAllCalls) + 1
      ensures transcript == "" && !isRecording && !vadEnabled && !speechInProgress
      ensures patientData == old(patientData) && selectedPatientId == old(selectedPatientId)
    {
      var before := PanelProps();
      panel.BeginSubmit();
      ClearAll();
      panel.Rerender(before, PanelProps(), now);
      panel.EndSubmit();
    }

    /** The interval callback: with `sessionActive` false it never raises the warning. */
    method Tick(now: int)
      requires Wired()
      modifies panel
      ensures Wired()
      ensures panel.waitingForSessionEnd == old(panel.waitingForSessionEnd)
      ensures panel.localEndingSession == old(panel.localEndingSession)
    {
      panel.Tick(PanelProps(), now);
    }
  }

  /**
   * Once a Submit has started the wait for the session end, every control
   * of the panel is disabled: the toolbar by the transition, the modal by
   * the warning that never shows.
   */
  lemma StuckAfterSubmit(console: Console)
    requires console.Wired() && console.panel.waitingForSessionEnd
    ensures forall c :: !console.panel.Enabled(c, console.PanelProps())
  {
  }

  /**
   * Selecting a (truthy) list entry always leaves a truthy `patientData`,
   * whatever the fetch did, so recording and uploads are accepted after it.
   */
  lemma SelectionEnablesRecording(listEntry: Value, outcome: HttpOutcome)
    requires Truthy(listEntry)
    ensures Truthy(ShownPatient(listEntry, outcome))
  {
  }
}
