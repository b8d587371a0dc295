/**
 * The driver front end's form that registers a workload from a preset: the
 * title, seed, timescale and sample-percentage fields, when the submit button
 * is enabled, and what a submission sends and resets.
 */
module PresetRegistrationForm {
  import opened Wrappers
  import opened FormValidation

  /** A workload preset offered by the server; only its identity matters here. */
  datatype Preset = Preset(key: string)

  /**
   * One call of the form's onConfirm callback. The preset is passed with a
   * non-null assertion, so a missing one (None) would go through as null,
   * and either number may still be NaN.
   */
  datatype Submission = Submission(
    title: string,
    preset: Option<Preset>,
    seed: string,
    debugLogging: bool,
    timescaleAdjustmentFactor: NumberField,
    sessionsSamplePercentage: NumberField)

  class RegisterWorkloadFromPresetForm {
    var workloadTitle: string
    var workloadTitleIsValid: bool
    var seed: Seed
    var samplePercent: NumberField
    var timescale: NumberField
    var selectedPreset: Option<Preset>
    var debugLoggingEnabled: bool
    /** The UUID submitted when the title is left empty. */
    var defaultTitle: string
    /** The presets the server offers and whether the user is logged in. */
    const presets: seq<Preset>
    const authenticated: bool
    var submitted: seq<Submission>

    constructor(presets: seq<Preset>, authenticated: bool, defaultTitle: string)
      ensures this.presets == presets && this.authenticated == authenticated
      ensures this.defaultTitle == defaultTitle
      ensures workloadTitle == "" && workloadTitleIsValid && seed == Seed("", true)
      ensures samplePercent == Num(1.0) && timescale == Num(0.05)
      ensures selectedPreset == None && debugLoggingEnabled && submitted == []
    {
      this.presets := presets;
      this.authenticated := authenticated;
      this.defaultTitle := defaultTitle;
      workloadTitle := "";
      workloadTitleIsValid := true;
      seed := Seed("", true);
      samplePercent := Num(1.0);
      timescale := Num(0.05);
      selectedPreset := None;
      debugLoggingEnabled := true;
      submitted := [];
    }

    /** handleWorkloadTitleChanged: any title of at most 36 characters is valid. */
    method HandleWorkloadTitleChanged(title: string)
      modifies this
      ensures workloadTitle == title && (workloadTitleIsValid <==> |title| <= MaxNameLength)
      ensures seed == old(seed) && samplePercent == old(samplePercent) && timescale == old(timescale)
      ensures selectedPreset == old(selectedPreset) && defaultTitle == old(defaultTitle)
      ensures debugLoggingEnabled == old(debugLoggingEnabled) && submitted == old(submitted)
    {
      workloadTitle := title;
      workloadTitleIsValid := TitleIsValid(title);
    }

    /** handleWorkloadSeedChanged. */
    method HandleWorkloadSeedChanged(input: string)
      modifies this
      ensures seed == SeedChanged(old(seed), input)
      ensures workloadTitle == old(workloadTitle) && workloadTitleIsValid == old(workloadTitleIsValid)
      ensures samplePercent == old(samplePercent) && timescale == old(timescale)
      ensures selectedPreset == old(selectedPreset) && defaultTitle == old(defaultTitle)
      ensures debugLoggingEnabled == old(debugLoggingEnabled) && submitted == old(submitted)
    {
      seed := SeedChanged(seed, input);
    }

    /** onWorkloadDataDropdownSelect: an index outside the list selects nothing. */
    method SelectPreset(index: Option<int>)
      modifies this
      ensures selectedPreset == (if index.Some? && 0 <= index.value < |presets| then Some(presets[index.value]) else None)
      ensures workloadTitle == old(workloadTitle) && workloadTitleIsValid == old(workloadTitleIsValid)
      ensures seed == old(seed) && samplePercent == old(samplePercent) && timescale == old(timescale)
      ensures defaultTitle == old(defaultTitle)
      ensures debugLoggingEnabled == old(debugLoggingEnabled) && submitted == old(submitted)
    {
      if index.Some? && 0 <= index.value < |presets| {
        selectedPreset := Some(presets[index.value]);
      } else {
        selectedPreset := None;
      }
    }

    /**
     * isSubmitButtonDisabled: logged out, no presets, a bad title, no preset,
     * a bad seed or a bad timescale; the sample percentage is not consulted.
     */
    function IsSubmitButtonDisabled(): (r: bool)
      reads this
      ensures r <==> !authenticated || |presets| == 0 || !workloadTitleIsValid || selectedPreset.None?
                     || !seed.valid || !(timescale.Num? && 0.0 < timescale.v <= 10.0)
    {
      if !authenticated then true
      else if |presets| == 0 then true
      else if !workloadTitleIsValid then true
      else if selectedPreset.None? then true
      else if !seed.valid then true
      else TimescaleValidation(timescale) == Error
    }

    /**
     * onSubmitWorkload: when logged in and neither number is blank (either
     * assertIsNumber throws), send the title (or the default UUID), the
     * preset, the seed text and both numbers, then clear the preset, seed
     * text and title and draw a new default title. From an enabled button
     * with a sample percentage the submission carries a preset and a
     * timescale in (0, 10].
     */
    method OnSubmitWorkload(freshDefaultTitle: string) returns (sent: bool)
      modifies this
      ensures sent <==> authenticated && !timescale.Blank? && !samplePercent.Blank?
      ensures sent ==> submitted == old(submitted) + [Submission(
        SubmittedTitle(old(workloadTitle), old(defaultTitle)), old(selectedPreset), old(seed).text,
        debugLoggingEnabled, timescale, samplePercent)]
      ensures sent ==> selectedPreset == None && seed == Seed("", old(seed).valid) && workloadTitle == ""
      ensures sent ==> defaultTitle == freshDefaultTitle && IsSubmitButtonDisabled()
      ensures !sent ==> submitted == old(submitted) && selectedPreset == old(selectedPreset)
                        && seed == old(seed) && workloadTitle == old(workloadTitle) && defaultTitle == old(defaultTitle)
      ensures !old(IsSubmitButtonDisabled()) && !old(samplePercent).Blank? ==>
        sent && submitted[|submitted| - 1].preset.Some?
        && TimescaleValidation(submitted[|submitted| - 1].timescaleAdjustmentFactor) == Success
      ensures workloadTitleIsValid == old(workloadTitleIsValid)
      ensures samplePercent == old(samplePercent) && timescale == old(timescale)
      ensures debugLoggingEnabled == old(debugLoggingEnabled)
    {
      sent := false;
      if !authenticated {
        return;
      }
      var title := workloadTitle;
      if |title| == 0 {
        title := defaultTitle;
      }
      if timescale.Blank? || samplePercent.Blank? {
        return;
      }
      submitted := submitted + [Submission(title, selectedPreset, seed.text, debugLoggingEnabled,
                                           timescale, samplePercent)];
      selectedPreset := None;
      seed := seed.(text := "");
      workloadTitle := "";
      defaultTitle := freshDefaultTitle;
      sent := true;
    }

    /** The sample minus button: one hundredth less than the current sample (0 when empty). */
    method OnSampleMinus()
      modifies this
      ensures samplePercent == Num(OrZero(old(samplePercent)) - 0.01)
      ensures workloadTitle == old(workloadTitle) && workloadTitleIsValid == old(workloadTitleIsValid)
      ensures seed == old(seed) && timescale == old(timescale) && selectedPreset == old(selectedPreset)
      ensures defaultTitle == old(defaultTitle) && debugLoggingEnabled == old(debugLoggingEnabled)
      ensures submitted == old(submitted)
    {
      samplePercent := Num(OrZero(samplePercent) - 0.01);
    }

    /** The sample plus button as written: it adds a hundredth to the timescale factor instead. */
    method OnSamplePlusAsWritten()
      modifies this
      ensures samplePercent == Num(OrZero(old(timescale)) + 0.01)
      ensures workloadTitle == old(workloadTitle) && workloadTitleIsValid == old(workloadTitleIsValid)
      ensures seed == old(seed) && timescale == old(timescale) && selectedPreset == old(selectedPreset)
      ensures defaultTitle == old(defaultTitle) && debugLoggingEnabled == old(debugLoggingEnabled)
      ensures submitted == old(submitted)
    {
      samplePercent := Num(OrZero(timescale) + 0.01);
    }

    /** The sample plus button as intended: the exact inverse of the minus button. */
    method OnSamplePlus()
      modifies this
      ensures samplePercent == Num(OrZero(old(samplePercent)) + 0.01)
      ensures workloadTitle == old(workloadTitle) && workloadTitleIsValid == old(workloadTitleIsValid)
      ensures seed == old(seed) && timescale == old(timescale) && selectedPreset == old(selectedPreset)
      ensures defaultTitle == old(defaultTitle) && debugLoggingEnabled == old(debugLoggingEnabled)
      ensures submitted == old(submitted)
    {
      samplePercent := Num(OrZero(samplePercent) + 0.01);
    }
  }

  /** Minus then plus restores a numeric sample percentage with the intended plus button. */
  method SampleMinusPlusRestores(sample: real) returns (before: NumberField, after: NumberField)
    ensures before == Num(sample) && after == before
  {
    var form := new RegisterWorkloadFromPresetForm([], true, "t");
    form.samplePercent := Num(sample);
    before := form.samplePercent;
    form.OnSampleMinus();
    form.OnSamplePlus();
    after := form.samplePercent;
  }

  /** With the sample at 0.5 and the default timescale 0.05, the plus button as written jumps to 0.06. */
  method SamplePlusAsWritten() returns (asWritten: NumberField, corrected: NumberField)
    ensures asWritten == Num(0.06) && corrected == Num(0.51)
  {
    var form := new RegisterWorkloadFromPresetForm([], true, "t");
    form.samplePercent := Num(0.5);
    form.OnSamplePlusAsWritten();
    asWritten := form.samplePercent;
    var fixedForm := new RegisterWorkloadFromPresetForm([], true, "t");
    fixedForm.samplePercent := Num(0.5);
    fixedForm.OnSamplePlus();
    corrected := fixedForm.samplePercent;
  }
}
