/**
 * The web front end's modal that registers a workload from a preset: the
 * title, seed and timescale fields, when the submit button is enabled, and
 * what a submission sends and resets.
 */
module WebRegisterModal {
  import opened Wrappers
  import opened FormValidation

  /** A workload preset offered by the server; only its identity matters here. */
  datatype WorkloadPreset = WorkloadPreset(key: string)

  /**
   * One call of the modal's onConfirm callback. The preset is passed with a
   * non-null assertion, so a missing one (None) would go through as null; the
   * timescale may still be NaN.
   */
  datatype Submission = Submission(
    title: string,
    preset: Option<WorkloadPreset>,
    seed: string,
    debugLogging: bool,
    timescaleAdjustmentFactor: NumberField)

  /** The step of the timescale minus and plus buttons. */
  const TimescaleStep: real := 0.25

  class RegisterWorkloadModal {
    var workloadTitle: string
    var workloadTitleIsValid: bool
    var seed: Seed
    var selectedPreset: Option<WorkloadPreset>
    var debugLoggingEnabled: bool
    var timescale: NumberField
    /** The UUID submitted when the title is left empty. */
    var defaultTitle: string
    /** The presets the server offers. */
    const presets: seq<WorkloadPreset>
    var submitted: seq<Submission>

    constructor(presets: seq<WorkloadPreset>, defaultTitle: string)
      ensures this.presets == presets && this.defaultTitle == defaultTitle
      ensures workloadTitle == "" && workloadTitleIsValid && seed == Seed("", true)
      ensures selectedPreset == None && debugLoggingEnabled && timescale == Num(1.0)
      ensures submitted == []
    {
      this.presets := presets;
      this.defaultTitle := defaultTitle;
      workloadTitle := "";
      workloadTitleIsValid := true;
      seed := Seed("", true);
      selectedPreset := None;
      debugLoggingEnabled := true;
      timescale := Num(1.0);
      submitted := [];
    }

    /** handleWorkloadTitleChanged: any title of at most 36 characters is valid. */
    method HandleWorkloadTitleChanged(title: string)
      modifies this
      ensures workloadTitle == title && (workloadTitleIsValid <==> |title| <= MaxNameLength)
      ensures seed == old(seed) && selectedPreset == old(selectedPreset) && timescale == old(timescale)
      ensures defaultTitle == old(defaultTitle) && debugLoggingEnabled == old(debugLoggingEnabled)
      ensures submitted == old(submitted)
    {
      workloadTitle := title;
      workloadTitleIsValid := TitleIsValid(title);
    }

    /** handleWorkloadSeedChanged. */
    method HandleWorkloadSeedChanged(input: string)
      modifies this
      ensures seed == SeedChanged(old(seed), input)
      ensures workloadTitle == old(workloadTitle) && workloadTitleIsValid == old(workloadTitleIsValid)
      ensures selectedPreset == old(selectedPreset) && timescale == old(timescale)
      ensures defaultTitle == old(defaultTitle) && debugLoggingEnabled == old(debugLoggingEnabled)
      ensures submitted == old(submitted)
    {
      seed := SeedChanged(seed, input);
    }

    /** onWorkloadDataDropdownSelect: an index outside the list reads undefined, which counts as no preset. */
    method SelectPreset(index: Option<int>)
      modifies this
      ensures selectedPreset == (if index.Some? && 0 <= index.value < |presets| then Some(presets[index.value]) else None)
      ensures workloadTitle == old(workloadTitle) && workloadTitleIsValid == old(workloadTitleIsValid)
      ensures seed == old(seed) && timescale == old(timescale)
      ensures defaultTitle == old(defaultTitle) && debugLoggingEnabled == old(debugLoggingEnabled)
      ensures submitted == old(submitted)
    {
      if index.Some? && 0 <= index.value < |presets| {
        selectedPreset := Some(presets[index.value]);
      } else {
        selectedPreset := None;
      }
    }

    /** isSubmitButtonDisabled: no presets, a bad title, no preset, a bad seed or a bad timescale. */
    function IsSubmitButtonDisabled(): (r: bool)
      reads this
      ensures r <==> |presets| == 0 || !workloadTitleIsValid || selectedPreset.None?
                     || !seed.valid || !(timescale.Num? && 0.0 < timescale.v <= 10.0)
    {
      if |presets| == 0 then true
      else if !workloadTitleIsValid then true
      else if selectedPreset.None? then true
      else if !seed.valid then true
      else TimescaleValidation(timescale) == Error
    }

    /**
     * onSubmitWorkload: unless the timescale is blank (assertIsNumber
     * throws), send the title (or the default UUID), the preset, the seed
     * text and the timescale, then clear the preset, seed text and title and
     * draw a new default title. From an enabled button the submission always
     * carries a preset and a timescale in (0, 10], and the button is disabled
     * afterwards because no preset is selected any more.
     */
    method OnSubmitWorkload(freshDefaultTitle: string) returns (sent: bool)
      modifies this
      ensures sent <==> !old(timescale).Blank?
      ensures sent ==> submitted == old(submitted) + [Submission(
        SubmittedTitle(old(workloadTitle), old(defaultTitle)), old(selectedPreset), old(seed).text,
        debugLoggingEnabled, timescale)]
      ensures sent ==> selectedPreset == None && seed == Seed("", old(seed).valid) && workloadTitle == ""
      ensures sent ==> defaultTitle == freshDefaultTitle && IsSubmitButtonDisabled()
      ensures !sent ==> submitted == old(submitted) && selectedPreset == old(selectedPreset)
                        && seed == old(seed) && workloadTitle == old(workloadTitle) && defaultTitle == old(defaultTitle)
      ensures !old(IsSubmitButtonDisabled()) ==>
        sent && submitted[|submitted| - 1].preset.Some?
        && TimescaleValidation(submitted[|submitted| - 1].timescaleAdjustmentFactor) == Success
      ensures workloadTitleIsValid == old(workloadTitleIsValid) && timescale == old(timescale)
      ensures debugLoggingEnabled == old(debugLoggingEnabled)
    {
      sent := false;
      var title := workloadTitle;
      if |title| == 0 {
        title := defaultTitle;
      }
      if timescale.Blank? {
        return;
      }
      submitted := submitted + [Submission(title, selectedPreset, seed.text, debugLoggingEnabled, timescale)];
      selectedPreset := None;
      seed := seed.(text := "");
      workloadTitle := "";
      defaultTitle := freshDefaultTitle;
      sent := true;
    }

    /** The timescale minus button: a quarter less than the current factor (0 when empty or NaN). */
    method OnTimescaleMinus()
      modifies this
      ensures timescale == Num(OrZero(old(timescale)) - TimescaleStep)
      ensures workloadTitle == old(workloadTitle) && workloadTitleIsValid == old(workloadTitleIsValid)
      ensures seed == old(seed) && selectedPreset == old(selectedPreset)
      ensures defaultTitle == old(defaultTitle) && debugLoggingEnabled == old(debugLoggingEnabled)
      ensures submitted == old(submitted)
    {
      timescale := Num(OrZero(timescale) - 0.25);
    }

    /** The timescale plus button: a quarter more than the current factor (0 when empty or NaN). */
    method OnTimescalePlus()
      modifies this
      ensures timescale == Num(OrZero(old(timescale)) + TimescaleStep)
      ensures workloadTitle == old(workloadTitle) && workloadTitleIsValid == old(workloadTitleIsValid)
      ensures seed == old(seed) && selectedPreset == old(selectedPreset)
      ensures defaultTitle == old(defaultTitle) && debugLoggingEnabled == old(debugLoggingEnabled)
      ensures submitted == old(submitted)
    {
      timescale := Num(OrZero(timescale) + 0.25);
    }
  }

  /** The plus button undoes the minus button on any numeric timescale. */
  method TimescaleMinusPlusRestores(factor: real) returns (before: NumberField, after: NumberField)
    ensures before == Num(factor) && after == before
  {
    var modal := new RegisterWorkloadModal([], "t");
    modal.timescale := Num(factor);
    before := modal.timescale;
    modal.OnTimescaleMinus();
    modal.OnTimescalePlus();
    after := modal.timescale;
  }

  /** Pressing minus four times from the default 1.0 reaches 0, which disables the submit button. */
  method TimescaleMinusToZero() returns (factor: NumberField, disabled: bool)
    ensures factor == Num(0.0) && disabled
  {
    var modal := new RegisterWorkloadModal([WorkloadPreset("p")], "t");
    modal.SelectPreset(Some(0));
    modal.OnTimescaleMinus();
    modal.OnTimescaleMinus();
    modal.OnTimescaleMinus();
    modal.OnTimescaleMinus();
    factor := modal.timescale;
    disabled := modal.IsSubmitButtonDisabled();
  }
}
