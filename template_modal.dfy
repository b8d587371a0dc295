/**
 * The driver front end's modal that registers a workload from a template:
 * the request built from the modal's sessions, applying edited JSON back to
 * the modal, and dropping uploaded files by name.
 */
module TemplateModal {
  import opened Wrappers
  import opened FormValidation
  import opened TemplateSessions

  const GpuTypeAny: string := "Any_GPU"

  /** The modal's values as react-hook-form hands them to the submit handler. */
  datatype ModalData = ModalData(
    workloadTitle: string,
    workloadSeed: string,
    debugLoggingEnabled: bool,
    timescaleAdjustmentFactor: real,
    sessions: seq<Session>)

  /** The registration message the modal serialises. */
  datatype ModalRequest = ModalRequest(
    op: string,
    msgId: string,
    adjustGpuReservations: bool,
    seed: Option<int>,
    timescaleAdjustmentFactor: real,
    key: string,
    name: string,
    debugLogging: bool,
    requestType: string,
    sessions: seq<Session>)

  /** One call of the modal's onConfirm callback. */
  datatype Confirmation = Confirmation(workloadName: string, request: ModalRequest)

  /** A session as the modal's parseData leaves it. */
  function PreparedSession(s: Session): Session
  {
    s.(trainings := seq(|s.trainings|, j requires 0 <= j < |s.trainings| => Indexed(s.trainings[j], j)),
       resourceRequest := Some(PeakRequest(s.trainings, GpuTypeAny)))
  }

  /**
   * What the modal's parseData promises of each session: trainings are
   * numbered by position and otherwise unchanged, and the request covers
   * every training, with -1 everywhere when there are none.
   */
  lemma PreparedSessionMeetsRequest(s: Session)
    ensures var p := PreparedSession(s);
      && |p.trainings| == |s.trainings|
      && (forall j :: 0 <= j < |s.trainings| ==> p.trainings[j] == s.trainings[j].(trainingIndex := j))
      && p.numTrainingEvents == s.numTrainingEvents
      && p.resourceRequest.Some? && p.resourceRequest.value.gpuType == "Any_GPU"
      && (forall j :: 0 <= j < |s.trainings| ==>
            s.trainings[j].cpus <= p.resourceRequest.value.cpus
            && s.trainings[j].memory <= p.resourceRequest.value.memory
            && s.trainings[j].vram <= p.resourceRequest.value.vram
            && |s.trainings[j].gpuUtilizations| as real <= p.resourceRequest.value.gpus)
      && (s.trainings == [] ==> p.resourceRequest == Some(ResourceRequest(-1.0, -1.0, -1.0, -1.0, "Any_GPU")))
  {
    PeakRequestCoversTrainings(s.trainings, GpuTypeAny);
  }

  /** The outer loop of the modal's parseData over the sessions. */
  method PrepareSessions(sessions: seq<Session>) returns (prepared: seq<Session>)
    ensures |prepared| == |sessions|
    ensures forall i :: 0 <= i < |sessions| ==> prepared[i] == PreparedSession(sessions[i])
  {
    prepared := [];
    var i := 0;
    while i < |sessions|
      invariant 0 <= i <= |sessions|
      invariant |prepared| == i
      invariant forall k :: 0 <= k < i ==> prepared[k] == PreparedSession(sessions[k])
    {
      var session := sessions[i];
      var indexed, peak := IndexTrainings(session.trainings, GpuTypeAny);
      prepared := prepared + [session.(trainings := indexed, resourceRequest := Some(peak))];
      i := i + 1;
    }
  }

  /**
   * What a request built from the modal's data is: a template registration
   * under the fresh message id, every session prepared, the seed read from
   * its text ('' is 0), and the title, logging flag and timescale factor
   * copied from the form.
   */
  predicate ParsedFrom(request: ModalRequest, data: ModalData, freshMessageId: string)
  {
    && request.op == "register_workload" && request.msgId == freshMessageId
    && |request.sessions| == |data.sessions|
    && (forall i :: 0 <= i < |data.sessions| ==> request.sessions[i] == PreparedSession(data.sessions[i]))
    && request.seed == SeedValue(data.workloadSeed)
    && request.requestType == "template" && request.key == "workload_template_key"
    && !request.adjustGpuReservations
    && request.name == data.workloadTitle && request.debugLogging == data.debugLoggingEnabled
    && request.timescaleAdjustmentFactor == data.timescaleAdjustmentFactor
  }

  /** parseData: prepare every session, read the seed and wrap the request. */
  method ParseData(data: ModalData, freshMessageId: string) returns (request: ModalRequest)
    ensures ParsedFrom(request, data, freshMessageId)
  {
    var sessions := PrepareSessions(data.sessions);
    var workloadSeed: Option<int> := Some(0);
    if data.workloadSeed != "" {
      workloadSeed := JsParseInt(data.workloadSeed);
    }
    request := ModalRequest("register_workload", freshMessageId, false, workloadSeed,
      data.timescaleAdjustmentFactor, "workload_template_key", data.workloadTitle,
      data.debugLoggingEnabled, "template", sessions);
  }

  class NewWorkloadFromTemplateModal {
    /** The tab state, shared with the surrounding page through a context. */
    var sessionTabs: seq<string>
    var newSessionTabNumber: int
    var activeSessionTab: int
    var jsonModeActive: bool
    var formSessions: seq<Session>
    var currentFiles: seq<UploadedFile>
    var readFileData: seq<ReadFile>
    var confirmed: seq<Confirmation>

    constructor(sessionTabs: seq<string>, activeSessionTab: int, newSessionTabNumber: int)
      ensures this.sessionTabs == sessionTabs && this.activeSessionTab == activeSessionTab
      ensures this.newSessionTabNumber == newSessionTabNumber
      ensures !jsonModeActive && formSessions == []
      ensures currentFiles == [] && readFileData == [] && confirmed == []
    {
      this.sessionTabs := sessionTabs;
      this.activeSessionTab := activeSessionTab;
      this.newSessionTabNumber := newSessionTabNumber;
      jsonModeActive := false;
      formSessions := [];
      currentFiles := [];
      readFileData := [];
      confirmed := [];
    }

    /** onSubmit: build the request and hand it to onConfirm with the workload title. */
    method OnSubmit(data: ModalData, freshMessageId: string)
      modifies this
      ensures |confirmed| == |old(confirmed)| + 1 && confirmed[..|old(confirmed)|] == old(confirmed)
      ensures var c := confirmed[|confirmed| - 1];
        c.workloadName == data.workloadTitle && ParsedFrom(c.request, data, freshMessageId)
      ensures sessionTabs == old(sessionTabs) && activeSessionTab == old(activeSessionTab)
      ensures newSessionTabNumber == old(newSessionTabNumber) && jsonModeActive == old(jsonModeActive)
      ensures formSessions == old(formSessions)
      ensures currentFiles == old(currentFiles) && readFileData == old(readFileData)
    {
      var request := ParseData(data, freshMessageId);
      confirmed := confirmed + [Confirmation(data.workloadTitle, request)];
    }

    /** removeFiles: drop the named files from the upload list and from the read files. */
    method RemoveFiles(names: seq<string>)
      modifies this
      ensures currentFiles == RemoveNamed(old(currentFiles), UploadName, names)
      ensures readFileData == RemoveNamed(old(readFileData), ReadName, names)
      ensures forall f :: f in currentFiles <==> f in old(currentFiles) && f.name !in names
      ensures forall f :: f in readFileData <==> f in old(readFileData) && f.fileName !in names
      ensures sessionTabs == old(sessionTabs) && activeSessionTab == old(activeSessionTab)
      ensures newSessionTabNumber == old(newSessionTabNumber) && jsonModeActive == old(jsonModeActive)
      ensures formSessions == old(formSessions) && confirmed == old(confirmed)
    {
      currentFiles := RemoveNamed(currentFiles, UploadName, names);
      readFileData := RemoveNamed(readFileData, ReadName, names);
    }

    /** The tab titles for n sessions, built one push at a time. */
    static method BuildTabs(n: nat) returns (tabs: seq<string>)
      ensures tabs == TabTitles(n)
    {
      tabs := [];
      var i := 0;
      while i < n
        invariant 0 <= i <= n
        invariant tabs == TabTitles(i)
      {
        tabs := tabs + [TabTitle(i + 1)];
        i := i + 1;
      }
    }

    /** applyJsonToForm as written: the active tab is moved only when it is beyond the session count. */
    method ApplyJsonToFormAsWritten(sessions: seq<Session>)
      modifies this
      ensures sessionTabs == TabTitles(|sessions|)
      ensures newSessionTabNumber == |sessions| + 1
      ensures activeSessionTab == ActiveTabAfterApplyAsWritten(old(activeSessionTab), |sessions|)
      ensures !jsonModeActive && formSessions == sessions
      ensures confirmed == old(confirmed)
      ensures currentFiles == old(currentFiles) && readFileData == old(readFileData)
    {
      sessionTabs := BuildTabs(|sessions|);
      newSessionTabNumber := |sessions| + 1;
      if activeSessionTab > |sessions| {
        activeSessionTab := |sessions| - 1;
      }
      jsonModeActive := false;
      formSessions := sessions;
    }

    /**
     * applyJsonToForm: one tab per session, the next tab number after them,
     * and an active tab that no longer exists replaced by the right-most one.
     */
    method ApplyJsonToForm(sessions: seq<Session>)
      modifies this
      ensures sessionTabs == TabTitles(|sessions|)
      ensures newSessionTabNumber == |sessions| + 1
      ensures activeSessionTab == ActiveTabAfterApply(old(activeSessionTab), |sessions|)
      ensures sessions != [] && old(activeSessionTab) >= 0 ==> 0 <= activeSessionTab < |sessionTabs|
      ensures !jsonModeActive && formSessions == sessions
      ensures confirmed == old(confirmed)
      ensures currentFiles == old(currentFiles) && readFileData == old(readFileData)
    {
      sessionTabs := BuildTabs(|sessions|);
      newSessionTabNumber := |sessions| + 1;
      if activeSessionTab >= |sessions| {
        activeSessionTab := |sessions| - 1;
      }
      jsonModeActive := false;
      formSessions := sessions;
    }
  }

  /** Applying one session while the second tab is active: as written the selection stays at index 1, past the only tab. */
  method ActiveTabPastEndAsWritten() returns (asWritten: int, corrected: int)
    ensures asWritten == 1 && corrected == 0
  {
    var sessions := [Session("a", 0, [], None, None, None)];
    var modal := new NewWorkloadFromTemplateModal(["Session 1", "Session 2"], 1, 3);
    modal.ApplyJsonToFormAsWritten(sessions);
    asWritten := modal.activeSessionTab;
    var fixedModal := new NewWorkloadFromTemplateModal(["Session 1", "Session 2"], 1, 3);
    fixedModal.ApplyJsonToForm(sessions);
    corrected := fixedModal.activeSessionTab;
  }
}
