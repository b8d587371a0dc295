/**
 * The driver front end's form that registers a workload from a template:
 * turning the form's sessions into a registration request, applying edited
 * JSON back to the form, and dropping uploaded files by name.
 */
module TemplateRegistrationForm {
  import opened Wrappers
  import opened FormValidation
  import opened TemplateSessions

  const GpuTypeAny: string := "ANY_GPU"

  /** The form's values as react-hook-form hands them to the submit handler. */
  datatype TemplateData = TemplateData(
    workloadTitle: string,
    workloadSeed: string,
    debugLoggingEnabled: bool,
    timescaleAdjustmentFactor: real,
    sessionsSamplePercentage: real,
    remoteStorageDefinition: string,
    sessions: seq<Session>)

  /** The `workload_registration_request` of the message. */
  datatype RegistrationRequest = RegistrationRequest(
    adjustGpuReservations: bool,
    name: string,
    debugLogging: bool,
    sessions: seq<Session>,
    templateFilePath: string,
    requestType: string,
    key: string,
    seed: Option<int>,
    timescaleAdjustmentFactor: real,
    remoteStorageDefinition: string,
    sessionsSamplePercentage: real)

  /** The message sent over the websocket: op, message id and request. */
  datatype RequestWrapper = RequestWrapper(op: string, msgId: string, request: RegistrationRequest)

  /** One call of the form's onConfirm callback. */
  datatype Confirmation = Confirmation(workloadName: string, request: RequestWrapper, messageId: string)

  /** A request for nothing, as current_resource_request starts. */
  function ZeroRequest(): ResourceRequest
  {
    ResourceRequest(0.0, 0.0, 0.0, 0.0, GpuTypeAny)
  }

  /** The trainings with their index fields set to their positions. */
  function IndexedAll(ts: seq<Training>): (r: seq<Training>)
    ensures |r| == |ts|
  {
    seq(|ts|, j requires 0 <= j < |ts| => Indexed(ts[j], j))
  }

  /** A session as parseData leaves it. */
  function PreparedSession(s: Session): Session
  {
    s.(numTrainingEvents := if s.numTrainingEvents == 0 && |s.trainings| > 0 then |s.trainings| else s.numTrainingEvents,
       trainings := IndexedAll(s.trainings),
       maxResourceRequest := Some(PeakRequest(s.trainings, GpuTypeAny)),
       currentResourceRequest := Some(ZeroRequest()))
  }

  /**
   * What parseData promises of each session: trainings keep their contents
   * and are numbered by position, the event count is filled in only when it
   * was 0, and the maximum request covers every training.
   */
  lemma PreparedSessionMeetsRequest(s: Session)
    ensures var p := PreparedSession(s);
      && |p.trainings| == |s.trainings|
      && (forall j :: 0 <= j < |s.trainings| ==>
            p.trainings[j].trainingIndex == j
            && p.trainings[j] == s.trainings[j].(trainingIndex := j))
      && (s.numTrainingEvents != 0 || s.trainings == [] ==> p.numTrainingEvents == s.numTrainingEvents)
      && (s.numTrainingEvents == 0 && s.trainings != [] ==> p.numTrainingEvents == |s.trainings|)
      && p.maxResourceRequest.Some?
      && (forall j :: 0 <= j < |s.trainings| ==>
            s.trainings[j].cpus <= p.maxResourceRequest.value.cpus
            && s.trainings[j].memory <= p.maxResourceRequest.value.memory
            && s.trainings[j].vram <= p.maxResourceRequest.value.vram
            && |s.trainings[j].gpuUtilizations| as real <= p.maxResourceRequest.value.gpus)
      && p.currentResourceRequest == Some(ResourceRequest(0.0, 0.0, 0.0, 0.0, "ANY_GPU"))
  {
    PeakRequestCoversTrainings(s.trainings, GpuTypeAny);
  }

  /** The outer loop of parseData over the sessions. */
  method PrepareSessions(sessions: seq<Session>) returns (prepared: seq<Session>)
    ensures |prepared| == |sessions|
    ensures forall i :: 0 <= i < |sessions| ==> prepared[i] == PreparedSession(sessions[i])
  {
    prepared := [];
    var i := 0;
    while i < |sessions|
      invariant 0 <= i <= |sessions|
      invariant |prepared| == i
      invariant forall k :: 0 <= k < i ==> prepared[k] == PreparedSession(sessions[k])
    {
      var session := sessions[i];
      var numTrainingEvents := session.numTrainingEvents;
      if numTrainingEvents == 0 && |session.trainings| > 0 {
        numTrainingEvents := |session.trainings|;
      }
      var indexed, peak := IndexTrainings(session.trainings, GpuTypeAny);
      session := session.(numTrainingEvents := numTrainingEvents,
                          trainings := indexed,
                          maxResourceRequest := Some(peak),
                          currentResourceRequest := Some(ZeroRequest()));
      prepared := prepared + [session];
      i := i + 1;
    }
  }

  /**
   * What a request built from the form is: a template registration under the
   * given message id (or the fresh one when none is given); the trainings of
   * every session numbered and its resource request filled, except for a
   * large preloaded template, whose request carries no sessions and the
   * template's file path instead; the seed read from its text ('' is 0); and
   * the remaining fields copied from the form.
   */
  predicate ParsedFrom(wrapper: RequestWrapper, template: Option<PreloadedTemplate>, data: TemplateData,
                       messageId: Option<string>, freshMessageId: string)
  {
    var large := template.Some? && template.value.large;
    && wrapper.op == "register_workload"
    && wrapper.msgId == (if messageId.Some? && messageId.value != "" then messageId.value else freshMessageId)
    && (large ==> wrapper.request.sessions == [])
    && (!large ==> |wrapper.request.sessions| == |data.sessions|)
    && (!large ==> forall i :: 0 <= i < |data.sessions| ==> wrapper.request.sessions[i] == PreparedSession(data.sessions[i]))
    && wrapper.request.templateFilePath == (if template.Some? then template.value.filepath else "")
    && wrapper.request.seed == SeedValue(data.workloadSeed)
    && wrapper.request.requestType == "template" && wrapper.request.key == "workload_template_key"
    && !wrapper.request.adjustGpuReservations
    && wrapper.request.name == data.workloadTitle
    && wrapper.request.debugLogging == data.debugLoggingEnabled
    && wrapper.request.timescaleAdjustmentFactor == data.timescaleAdjustmentFactor
    && wrapper.request.sessionsSamplePercentage == data.sessionsSamplePercentage
    && wrapper.request.remoteStorageDefinition == data.remoteStorageDefinition
  }

  class RegisterWorkloadFromTemplateForm {
    /** The tab state, shared with the surrounding page through a context. */
    var sessionTabs: seq<string>
    var newSessionTabNumber: int
    var activeSessionTab: int
    var jsonModeActive: bool
    /** The sessions react-hook-form holds. */
    var formSessions: seq<Session>
    var selectedPreloadedTemplate: Option<PreloadedTemplate>
    var currentFiles: seq<UploadedFile>
    var readFileData: seq<ReadFile>
    /** Every call of the onConfirm callback, in order. */
    var confirmed: seq<Confirmation>

    constructor(sessionTabs: seq<string>, activeSessionTab: int, newSessionTabNumber: int)
      ensures this.sessionTabs == sessionTabs && this.activeSessionTab == activeSessionTab
      ensures this.newSessionTabNumber == newSessionTabNumber
      ensures !jsonModeActive && formSessions == [] && selectedPreloadedTemplate == None
      ensures currentFiles == [] && readFileData == [] && confirmed == []
    {
      this.sessionTabs := sessionTabs;
      this.activeSessionTab := activeSessionTab;
      this.newSessionTabNumber := newSessionTabNumber;
      jsonModeActive := false;
      formSessions := [];
      selectedPreloadedTemplate := None;
      currentFiles := [];
      readFileData := [];
      confirmed := [];
    }

    /** Selecting (or clearing) a preloaded template. */
    method SelectPreloadedTemplate(template: Option<PreloadedTemplate>)
      modifies this
      ensures selectedPreloadedTemplate == template
      ensures sessionTabs == old(sessionTabs) && activeSessionTab == old(activeSessionTab)
      ensures newSessionTabNumber == old(newSessionTabNumber) && jsonModeActive == old(jsonModeActive)
      ensures formSessions == old(formSessions) && currentFiles == old(currentFiles)
      ensures readFileData == old(readFileData) && confirmed == old(confirmed)
    {
      selectedPreloadedTemplate := template;
    }

    /** parseData: build the request the form submits, as ParsedFrom describes it. */
    method ParseData(data: TemplateData, messageId: Option<string>, freshMessageId: string)
      returns (wrapper: RequestWrapper)
      ensures ParsedFrom(wrapper, selectedPreloadedTemplate, data, messageId, freshMessageId)
    {
      var sessions := data.sessions;
      if selectedPreloadedTemplate.None? || !selectedPreloadedTemplate.value.large {
        sessions := PrepareSessions(sessions);
      }
      var workloadSeed: Option<int> := Some(0);
      if data.workloadSeed != "" {
        workloadSeed := JsParseInt(data.workloadSeed);
      }
      if selectedPreloadedTemplate.Some? && selectedPreloadedTemplate.value.large {
        sessions := [];
      }
      var msgId := freshMessageId;
      if messageId.Some? && messageId.value != "" {
        msgId := messageId.value;
      }
      var templateFilePath := if selectedPreloadedTemplate.Some? then selectedPreloadedTemplate.value.filepath else "";
      var request := RegistrationRequest(false, data.workloadTitle, data.debugLoggingEnabled, sessions,
        templateFilePath, "template", "workload_template_key", workloadSeed,
        data.timescaleAdjustmentFactor, data.remoteStorageDefinition, data.sessionsSamplePercentage);
      wrapper := RequestWrapper("register_workload", msgId, request);
    }

    /** onSubmitTemplate: parse the form under a fresh message id and hand the request to onConfirm. */
    method OnSubmitTemplate(data: TemplateData, freshMessageId: string)
      modifies this
      ensures |confirmed| == |old(confirmed)| + 1 && confirmed[..|old(confirmed)|] == old(confirmed)
      ensures var c := confirmed[|confirmed| - 1];
        c.workloadName == data.workloadTitle && c.messageId == freshMessageId
        && ParsedFrom(c.request, selectedPreloadedTemplate, data, Some(freshMessageId), freshMessageId)
      ensures sessionTabs == old(sessionTabs) && activeSessionTab == old(activeSessionTab)
      ensures newSessionTabNumber == old(newSessionTabNumber) && jsonModeActive == old(jsonModeActive)
      ensures formSessions == old(formSessions) && selectedPreloadedTemplate == old(selectedPreloadedTemplate)
      ensures currentFiles == old(currentFiles) && readFileData == old(readFileData)
    {
      var wrapper := ParseData(data, Some(freshMessageId), freshMessageId);
      confirmed := confirmed + [Confirmation(data.workloadTitle, wrapper, freshMessageId)];
    }

    /** removeFiles: drop the named files from the upload list and from the read files. */
    method RemoveFiles(names: seq<string>)
      modifies this
      ensures currentFiles == RemoveNamed(old(currentFiles), UploadName, names)
      ensures readFileData == RemoveNamed(old(readFileData), ReadName, names)
      ensures forall f :: f in currentFiles <==> f in old(currentFiles) && f.name !in names
      ensures forall f :: f in readFileData <==> f in old(readFileData) && f.fileName !in names
      ensures sessionTabs == old(sessionTabs) && activeSessionTab == old(activeSessionTab)
      ensures newSessionTabNumber == old(newSessionTabNumber) && jsonModeActive == old(jsonModeActive)
      ensures formSessions == old(formSessions) && selectedPreloadedTemplate == old(selectedPreloadedTemplate)
      ensures confirmed == old(confirmed)
    {
      currentFiles := RemoveNamed(currentFiles, UploadName, names);
      readFileData := RemoveNamed(readFileData, ReadName, names);
    }

    /** The tab titles for n sessions, built one push at a time. */
    static method BuildTabs(n: nat) returns (tabs: seq<string>)
      ensures tabs == TabTitles(n)
    {
      tabs := [];
      var i := 0;
      while i < n
        invariant 0 <= i <= n
        invariant tabs == TabTitles(i)
      {
        tabs := tabs + [TabTitle(i + 1)];
        i := i + 1;
      }
    }

    /** applyJsonToForm as written: the active tab is moved only when it is beyond the session count. */
    method ApplyJsonToFormAsWritten(sessions: seq<Session>)
      modifies this
      ensures sessionTabs == TabTitles(|sessions|)
      ensures newSessionTabNumber == |sessions| + 1
      ensures activeSessionTab == ActiveTabAfterApplyAsWritten(old(activeSessionTab), |sessions|)
      ensures !jsonModeActive && formSessions == sessions
      ensures selectedPreloadedTemplate == old(selectedPreloadedTemplate) && confirmed == old(confirmed)
      ensures currentFiles == old(currentFiles) && readFileData == old(readFileData)
    {
      sessionTabs := BuildTabs(|sessions|);
      newSessionTabNumber := |sessions| + 1;
      if activeSessionTab > |sessions| {
        activeSessionTab := |sessions| - 1;
      }
      jsonModeActive := false;
      formSessions := sessions;
    }

    /**
     * applyJsonToForm: one tab per session, the next tab number after them,
     * and an active tab that no longer exists replaced by the right-most one.
     */
    method ApplyJsonToForm(sessions: seq<Session>)
      modifies this
      ensures sessionTabs == TabTitles(|sessions|)
      ensures newSessionTabNumber == |sessions| + 1
      ensures activeSessionTab == ActiveTabAfterApply(old(activeSessionTab), |sessions|)
      ensures sessions != [] && old(activeSessionTab) >= 0 ==> 0 <= activeSessionTab < |sessionTabs|
      ensures !jsonModeActive && formSessions == sessions
      ensures selectedPreloadedTemplate == old(selectedPreloadedTemplate) && confirmed == old(confirmed)
      ensures currentFiles == old(currentFiles) && readFileData == old(readFileData)
    {
      sessionTabs := BuildTabs(|sessions|);
      newSessionTabNumber := |sessions| + 1;
      if activeSessionTab >= |sessions| {
        activeSessionTab := |sessions| - 1;
      }
      jsonModeActive := false;
      formSessions := sessions;
    }
  }

  /** Applying two sessions while the third tab is active: as written the selection stays at index 2, past the last tab. */
  method ActiveTabPastEndAsWritten() returns (asWritten: int, corrected: int)
    ensures asWritten == 2 && corrected == 1
  {
    var form := new RegisterWorkloadFromTemplateForm(["Session 1", "Session 2", "Session 3"], 2, 4);
    var sessions := [Session("a", 0, [], None, None, None), Session("b", 0, [], None, None, None)];
    form.ApplyJsonToFormAsWritten(sessions);
    asWritten := form.activeSessionTab;
    var fixedForm := new RegisterWorkloadFromTemplateForm(["Session 1", "Session 2", "Session 3"], 2, 4);
    fixedForm.ApplyJsonToForm(sessions);
    corrected := fixedForm.activeSessionTab;
  }
}
