/**
 * The web front end's modal that registers a one-session workload from a
 * template: the title, session id, seed and template fields, the session's
 * ticks and resources, when the submit button is enabled, and what a
 * submission sends and resets.
 */
module WebTemplateModal {
  import opened Wrappers
  import opened FormValidation
  import opened WebSessionValidation

  /** The templates the dropdown offers. */
  const WorkloadTemplates: seq<string> := ["1 Session with 1 Training Event"]

  /** The utilisations of the eight GPU inputs when the modal opens. */
  const DefaultGpuUtilizations: seq<NumberField> :=
    [Num(100.0), Num(0.0), Num(0.0), Num(0.0), Num(0.0), Num(0.0), Num(0.0), Num(0.0)]

  /** The session's ticks when the modal opens: start 4, stop 16, training at 8 for 4 ticks. */
  const DefaultTimeline: Timeline := Timeline(Num(4.0), Num(16.0), Num(8.0), Num(4.0))

  datatype TrainingEvent = TrainingEvent(
    sessionId: string,
    trainingId: string,
    cpuUtil: NumberField,
    memUsageGb: NumberField,
    gpuUtil: seq<NumberField>,
    startTick: NumberField,
    durationInTicks: NumberField)

  datatype Session = Session(
    id: string,
    maxCpus: NumberField,
    maxMemoryGb: NumberField,
    maxNumGpus: NumberField,
    startTick: NumberField,
    stopTick: NumberField,
    trainings: seq<TrainingEvent>)

  datatype WorkloadTemplate = WorkloadTemplate(name: string, sessions: seq<Session>)

  /** The modal's input fields, apart from the template choice and the placeholder ids. */
  datatype Fields = Fields(
    workloadTitle: string, workloadTitleIsValid: bool, sessionId: string, sessionIdIsValid: bool,
    seed: Seed, debugLoggingEnabled: bool, ticks: Timeline, cpu: NumberField, memory: NumberField,
    numberOfGpus: NumberField, gpuUtilizations: seq<NumberField>)

  /** The fields as the modal opens and as a submission leaves them. */
  const DefaultFields: Fields :=
    Fields("", true, "", true, Seed("", true), true, DefaultTimeline, Num(10.0), Num(0.25), Num(1.0), DefaultGpuUtilizations)

  /** One call of the modal's onConfirm callback. */
  datatype Submission = Submission(title: string, seed: string, debugLogging: bool, template: WorkloadTemplate)

  class NewWorkloadFromTemplateModal {
    var workloadTitle: string
    var workloadTitleIsValid: bool
    var sessionId: string
    var sessionIdIsValid: bool
    var seed: Seed
    var selectedTemplate: string
    var debugLoggingEnabled: bool
    var ticks: Timeline
    var cpu: NumberField
    var memory: NumberField
    var numberOfGpus: NumberField
    var gpuUtilizations: seq<NumberField>
    /** The UUIDs shown as placeholders; the title one is submitted for an empty title. */
    var defaultTitle: string
    var defaultSessionId: string
    var submitted: seq<Submission>

    ghost function CurrentFields(): Fields
      reads this
    {
      Fields(workloadTitle, workloadTitleIsValid, sessionId, sessionIdIsValid, seed, debugLoggingEnabled,
             ticks, cpu, memory, numberOfGpus, gpuUtilizations)
    }

    /** Every field holds the value the modal opens with. */
    ghost predicate AtDefaults()
      reads this
    {
      CurrentFields() == DefaultFields
    }

    constructor(defaultTitle: string, defaultSessionId: string)
      ensures AtDefaults() && selectedTemplate == WorkloadTemplates[0]
      ensures this.defaultTitle == defaultTitle && this.defaultSessionId == defaultSessionId
      ensures submitted == []
    {
      workloadTitle := "";
      workloadTitleIsValid := true;
      sessionId := "";
      sessionIdIsValid := true;
      seed := Seed("", true);
      selectedTemplate := "1 Session with 1 Training Event";
      debugLoggingEnabled := true;
      ticks := Timeline(Num(4.0), Num(16.0), Num(8.0), Num(4.0));
      cpu := Num(10.0);
      memory := Num(0.25);
      numberOfGpus := Num(1.0);
      gpuUtilizations := [Num(100.0), Num(0.0), Num(0.0), Num(0.0), Num(0.0), Num(0.0), Num(0.0), Num(0.0)];
      this.defaultTitle := defaultTitle;
      this.defaultSessionId := defaultSessionId;
      submitted := [];
    }

    /** handleWorkloadTitleChanged: any title of at most 36 characters is valid. */
    method HandleWorkloadTitleChanged(title: string)
      modifies this`workloadTitle, this`workloadTitleIsValid
      ensures workloadTitle == title && (workloadTitleIsValid <==> |title| <= MaxNameLength)
    {
      workloadTitle := title;
      workloadTitleIsValid := TitleIsValid(title);
    }

    /** handleSessionIdChanged: any id of at most 36 characters is valid. */
    method HandleSessionIdChanged(id: string)
      modifies this`sessionId, this`sessionIdIsValid
      ensures sessionId == id && (sessionIdIsValid <==> |id| <= MaxNameLength)
    {
      sessionId := id;
      sessionIdIsValid := TitleIsValid(id);
    }

    /** handleWorkloadSeedChanged. */
    method HandleWorkloadSeedChanged(input: string)
      modifies this`seed
      ensures seed == SeedChanged(old(seed), input)
    {
      seed := SeedChanged(seed, input);
    }

    /** onWorkloadDataDropdownSelect: an undefined value selects the empty name. */
    method SelectTemplate(value: Option<nat>)
      requires value.Some? ==> value.value < |WorkloadTemplates|
      modifies this`selectedTemplate
      ensures value.None? ==> selectedTemplate == ""
      ensures value.Some? ==> selectedTemplate == WorkloadTemplates[value.value] && selectedTemplate != ""
    {
      if value.Some? {
        selectedTemplate := WorkloadTemplates[value.value];
      } else {
        selectedTemplate := "";
      }
    }

    /** setGpuUtil(idx, val): only the idx-th utilisation changes. */
    method SetGpuUtilization(idx: int, val: NumberField)
      modifies this`gpuUtilizations
      ensures gpuUtilizations == SetGpuUtil(old(gpuUtilizations), idx, val)
      ensures |gpuUtilizations| == |old(gpuUtilizations)|
      ensures forall i :: 0 <= i < |gpuUtilizations| && i != idx ==> gpuUtilizations[i] == old(gpuUtilizations)[i]
    {
      gpuUtilizations := SetGpuUtil(gpuUtilizations, idx, val);
    }

    /** The GPU-count minus and plus buttons: `(numberOfGPUs || 0) + delta`. */
    method StepNumberOfGpus(delta: real)
      modifies this`numberOfGpus
      ensures numberOfGpus == Stepped(old(numberOfGpus), delta)
    {
      numberOfGpus := Num(OrZero(numberOfGpus) + delta);
    }

    /** Every utilisation input the submit check visits, `numberOfGPUs || 1` of them, validates. */
    ghost predicate GpuUtilizationsValid()
      reads this
    {
      forall i: int :: 0 <= i && (i as real) < OrOneField(numberOfGpus) ==> GpuUtilValidation(gpuUtilizations, i) == Success
    }

    /**
     * The conditions of isSubmitButtonDisabled other than the template
     * name: a bad title or seed, a blank tick or resource, a validator that
     * does not succeed, a GPU count outside [0, 8], or a bad utilisation.
     */
    ghost predicate FieldsBlockSubmit()
      reads this
    {
      || !workloadTitleIsValid || !seed.valid
      || ticks.sessionStart.Blank? || ticks.trainingStart.Blank? || ticks.sessionStop.Blank?
      || ticks.duration.Blank? || memory.Blank? || cpu.Blank?
      || GpuCountValidation(numberOfGpus) != Success || MemoryValidation(memory) != Success
      || CpuValidation(cpu) != Success || DurationValidation(ticks) != Success
      || TrainingStartValidation(ticks) != Success || SessionStopValidation(ticks) != Success
      || SessionStartValidation(ticks) != Success
      || !GpuUtilizationsValid()
    }

    /** The loop of isSubmitButtonDisabled over the first `numberOfGPUs || 1` utilisations. */
    method CheckGpuUtilizations() returns (ok: bool)
      ensures ok <==> GpuUtilizationsValid()
    {
      var n := OrOneField(numberOfGpus);
      var i := 0;
      while (i as real) < n
        invariant 0 <= i
        invariant i > 0 ==> ((i - 1) as real) < n
        invariant forall k :: 0 <= k < i ==> GpuUtilValidation(gpuUtilizations, k) == Success
        decreases n.Floor - i
      {
        if GpuUtilValidation(gpuUtilizations, i) != Success {
          return false;
        }
        i := i + 1;
      }
      ok := true;
      forall k: int | 0 <= k && (k as real) < n
        ensures GpuUtilValidation(gpuUtilizations, k) == Success
      {
        assert k < i;
      }
    }

    /**
     * The checks of isSubmitButtonDisabled after the template test, in the
     * source's order.
     */
    method CheckFields() returns (blocked: bool)
      ensures blocked <==> FieldsBlockSubmit()
    {
      if !workloadTitleIsValid || !seed.valid {
        return true;
      }
      if ticks.sessionStart.Blank? || ticks.trainingStart.Blank? || ticks.sessionStop.Blank?
         || ticks.duration.Blank? || memory.Blank? || cpu.Blank? {
        return true;
      }
      if GpuCountValidation(numberOfGpus) != Success || MemoryValidation(memory) != Success
         || CpuValidation(cpu) != Success || DurationValidation(ticks) != Success
         || TrainingStartValidation(ticks) != Success || SessionStopValidation(ticks) != Success
         || SessionStartValidation(ticks) != Success {
        return true;
      }
      if numberOfGpus.Blank? || Less(numberOfGpus, Num(0.0)) || Less(Num(8.0), numberOfGpus) {
        return true;
      }
      var ok := CheckGpuUtilizations();
      blocked := !ok;
    }

    /**
     * isSubmitButtonDisabled as written: its template test reads the length
     * of the setter function, which is always 1, so an empty template name
     * never disables the button.
     */
    method IsSubmitButtonDisabledAsWritten() returns (disabled: bool)
      ensures disabled <==> FieldsBlockSubmit()
    {
      disabled := CheckFields();
    }

    /** isSubmitButtonDisabled with the template test on the selected name, as intended. */
    method IsSubmitButtonDisabled() returns (disabled: bool)
      ensures disabled <==> selectedTemplate == "" || FieldsBlockSubmit()
    {
      if |selectedTemplate| == 0 {
        return true;
      }
      disabled := CheckFields();
    }

    /** The fields a modal opens with pass every check but the template name. */
    lemma DefaultsPassFieldChecks()
      requires AtDefaults()
      ensures !FieldsBlockSubmit()
    {
      assert OrOneField(numberOfGpus) == 1.0;
      forall i: int | 0 <= i && (i as real) < OrOneField(numberOfGpus)
        ensures GpuUtilValidation(gpuUtilizations, i) == Success
      {
        assert i == 0;
      }
    }

    /** resetSubmissionForm: every field back to its opening value, no template, new placeholder UUIDs. */
    method ResetSubmissionForm(freshTitle: string, freshSessionId: string)
      modifies this
      ensures AtDefaults() && selectedTemplate == ""
      ensures defaultTitle == freshTitle && defaultSessionId == freshSessionId
      ensures unchanged(this`submitted)
    {
      ResetNamingFields(freshTitle, freshSessionId);
      ResetSessionFields();
    }

    /** The title, seed, template, logging and session-id part of resetSubmissionForm. */
    method ResetNamingFields(freshTitle: string, freshSessionId: string)
      modifies this`workloadTitle, this`workloadTitleIsValid, this`sessionId, this`sessionIdIsValid
      modifies this`seed, this`selectedTemplate, this`debugLoggingEnabled, this`defaultTitle, this`defaultSessionId
      ensures workloadTitle == "" && workloadTitleIsValid && sessionId == "" && sessionIdIsValid
      ensures seed == Seed("", true) && selectedTemplate == "" && debugLoggingEnabled
      ensures defaultTitle == freshTitle && defaultSessionId == freshSessionId
    {
      workloadTitle, seed, selectedTemplate, debugLoggingEnabled := "", Seed("", true), "", true;
      sessionId := "";
      defaultTitle, defaultSessionId := freshTitle, freshSessionId;
      workloadTitleIsValid, sessionIdIsValid := true, true;
    }

    /** The ticks and resources part of resetSubmissionForm. */
    method ResetSessionFields()
      modifies this`ticks, this`cpu, this`memory, this`numberOfGpus, this`gpuUtilizations
      ensures ticks == DefaultTimeline && cpu == Num(10.0) && memory == Num(0.25)
      ensures numberOfGpus == Num(1.0) && gpuUtilizations == DefaultGpuUtilizations
    {
      ticks, cpu, memory := DefaultTimeline, Num(10.0), Num(0.25);
      gpuUtilizations, numberOfGpus := DefaultGpuUtilizations, Num(1.0);
    }

    /** The template the submission carries: one session with one training event. */
    function SubmittedTemplate(trainingId: string): (t: WorkloadTemplate)
      reads this
      ensures t.name == selectedTemplate && |t.sessions| == 1 && |t.sessions[0].trainings| == 1
      ensures t.sessions[0].id == sessionId && t.sessions[0].trainings[0].sessionId == sessionId
      ensures t.sessions[0].startTick == ticks.sessionStart && t.sessions[0].stopTick == ticks.sessionStop
      ensures t.sessions[0].trainings[0].startTick == ticks.trainingStart
      ensures t.sessions[0].trainings[0].durationInTicks == ticks.duration
      ensures t.sessions[0].trainings[0].gpuUtil == gpuUtilizations
      ensures t.sessions[0].maxCpus == cpu == t.sessions[0].trainings[0].cpuUtil
      ensures t.sessions[0].maxMemoryGb == memory == t.sessions[0].trainings[0].memUsageGb
      ensures t.sessions[0].maxNumGpus == numberOfGpus && t.sessions[0].trainings[0].trainingId == trainingId
    {
      var event := TrainingEvent(sessionId, trainingId, cpu, memory, gpuUtilizations, ticks.trainingStart, ticks.duration);
      WorkloadTemplate(selectedTemplate, [Session(sessionId, cpu, memory, numberOfGpus, ticks.sessionStart, ticks.sessionStop, [event])])
    }

    /**
     * onSubmitWorkload: a blank number throws before anything is sent (the
     * utilisation check indexes a function and never throws); otherwise the
     * title (or the placeholder UUID), seed text and template are sent and
     * the form is reset. After a submission the template name is empty, yet
     * the button as written is enabled again.
     */
    method OnSubmitWorkload(freshTitle: string, freshSessionId: string, trainingId: string) returns (sent: bool)
      modifies this
      ensures sent <==> !(old(cpu).Blank? || old(memory).Blank? || old(numberOfGpus).Blank? || old(ticks).sessionStart.Blank?
                          || old(ticks).sessionStop.Blank? || old(ticks).duration.Blank? || old(ticks).trainingStart.Blank?)
      ensures sent ==> submitted == old(submitted) + [Submission(SubmittedTitle(old(workloadTitle), old(defaultTitle)),
                                                                  old(seed).text, old(debugLoggingEnabled), old(SubmittedTemplate(trainingId)))]
      ensures sent ==> AtDefaults() && selectedTemplate == "" && defaultTitle == freshTitle && defaultSessionId == freshSessionId
      ensures sent ==> !FieldsBlockSubmit()
      ensures !sent ==> unchanged(this)
    {
      var title := workloadTitle;
      if |title| == 0 {
        title := defaultTitle;
      }
      if cpu.Blank? || memory.Blank? || numberOfGpus.Blank? || ticks.sessionStart.Blank?
         || ticks.sessionStop.Blank? || ticks.duration.Blank? || ticks.trainingStart.Blank? {
        return false;
      }
      submitted := submitted + [Submission(title, seed.text, debugLoggingEnabled, SubmittedTemplate(trainingId))];
      ResetSubmissionForm(freshTitle, freshSessionId);
      DefaultsPassFieldChecks();
      sent := true;
    }
  }

  /**
   * After one submission the template name is empty: the button as written
   * stays enabled, the intended test disables it.
   */
  method EmptyTemplateAsWritten() returns (asWritten: bool, corrected: bool)
    ensures !asWritten && corrected
  {
    var modal := new NewWorkloadFromTemplateModal("t", "s");
    var sent := modal.OnSubmitWorkload("t2", "s2", "e");
    asWritten := modal.IsSubmitButtonDisabledAsWritten();
    corrected := modal.IsSubmitButtonDisabled();
  }
}
