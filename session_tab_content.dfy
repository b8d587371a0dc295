/**
 * One session tab of the driver front end's template modal: the session id,
 * VRAM, training start tick and GPU count indicators, and the handlers that
 * keep the training-event and GPU-utilisation field arrays in step with the
 * counts typed or stepped by the user.
 */
module SessionTabContent {
  import opened Wrappers
  import opened FormValidation

  /** The most GPUs a session may ask for before the count becomes an error. */
  const MaxGpus: int := 16
  /** The most GPUs that are supported without a warning. */
  const SupportedGpus: int := 8
  /** GB of VRAM allowed per GPU. */
  const VramPerGpu: real := 4.0
  /** The step of the VRAM minus and plus buttons, in GB. */
  const VramStep: real := 0.125

  /** isVramValidated: VRAM lies in [0, 4 GB x GPUs], where 0 GPUs count as 1. */
  function VramValidation(numGpus: int, vram: real): (r: Validated)
    ensures r == Success <==> 0.0 <= vram <= (OrOne(numGpus) as real) * VramPerGpu
    ensures r == Success || r == Error
  {
    if vram < 0.0 || vram > (OrOne(numGpus) as real) * 4.0 then Error else Success
  }

  /**
   * validateTrainingStartTick: an error when the tick is negative, before the
   * session starts, or later than the session's stop minus the training's
   * duration.
   */
  function TrainingStartTickValidation(tick: real, sessionStart: real, sessionStop: real, duration: real): (r: Validated)
    ensures r == Success || r == Error
    ensures r == Success <==> 0.0 <= tick && sessionStart <= tick && tick + duration <= sessionStop
  {
    if tick < 0.0 || tick < sessionStart || tick > sessionStop - duration then Error else Success
  }

  /** A training whose start tick validates starts inside the session and ends by its stop tick. */
  lemma ValidStartTickFitsSession(tick: real, sessionStart: real, sessionStop: real, duration: real)
    requires duration >= 0.0
    requires TrainingStartTickValidation(tick, sessionStart, sessionStop, duration) == Success
    ensures sessionStart <= tick <= tick + duration <= sessionStop
  {
  }

  /**
   * getGpusFieldValidated: an error when the field breaks its rules or is
   * negative, success up to 8 GPUs, a warning from 9 to 16, an error above.
   */
  function GpusValidation(fieldInvalid: bool, gpus: int): (r: Validated)
    ensures r == Success <==> !fieldInvalid && 0 <= gpus <= SupportedGpus
    ensures r == Warning <==> !fieldInvalid && SupportedGpus < gpus <= MaxGpus
    ensures r != Default
  {
    if fieldInvalid then Error
    else if gpus < 0 then Error
    else if gpus <= 8 then Success
    else if gpus > 8 && gpus <= 16 then Warning
    else Error
  }

  /** Under the field's own rules (0..16, required) a count is an error exactly when it is out of range. */
  lemma GpusValidationUnderRules(gpus: int)
    ensures GpusValidation(gpus < 0 || gpus > MaxGpus, gpus) == Error <==> gpus < 0 || gpus > MaxGpus
  {
  }

  /** A training event's form fields; their contents are not inspected here. */
  datatype TrainingEventField = TrainingEventField(fields: string)

  class SessionTab {
    /** sessions.<i>.num_training_events and its field array. */
    var numTrainingEvents: int
    var trainingEvents: seq<TrainingEventField>
    /** The selected training's GPU count, its utilisation fields and its VRAM. */
    var numGpus: int
    var gpuUtilizations: seq<real>
    var vram: real

    constructor(numTrainingEvents: int, trainingEvents: seq<TrainingEventField>, numGpus: int,
                gpuUtilizations: seq<real>, vram: real)
      ensures this.numTrainingEvents == numTrainingEvents && this.trainingEvents == trainingEvents
      ensures this.numGpus == numGpus && this.gpuUtilizations == gpuUtilizations && this.vram == vram
    {
      this.numTrainingEvents := numTrainingEvents;
      this.trainingEvents := trainingEvents;
      this.numGpus := numGpus;
      this.gpuUtilizations := gpuUtilizations;
      this.vram := vram;
    }

    /**
     * Typing the number of training events: a negative count becomes 0, and
     * the field array grows with `appended` or shrinks from the end to match.
     */
    method OnNumTrainingEventsChanged(value: int, appended: TrainingEventField)
      modifies this
      ensures numTrainingEvents == (if value < 0 then 0 else value)
      ensures |trainingEvents| == numTrainingEvents
      ensures trainingEvents == Resized(old(trainingEvents), numTrainingEvents, appended)
      ensures numGpus == old(numGpus) && gpuUtilizations == old(gpuUtilizations) && vram == old(vram)
    {
      var n := value;
      if n < 0 {
        n := 0;
      }
      trainingEvents := ResizeFields(trainingEvents, n, appended);
      numTrainingEvents := n;
    }

    /**
     * Typing a GPU count: the utilisation fields grow with the default
     * utilisation or shrink from the end to exactly that count.
     */
    method OnNumGpusChanged(value: int, defaultUtilization: real)
      modifies this
      ensures numGpus == value
      ensures gpuUtilizations == Resized(old(gpuUtilizations), value, defaultUtilization)
      ensures value >= 0 ==> |gpuUtilizations| == value
      ensures numTrainingEvents == old(numTrainingEvents) && trainingEvents == old(trainingEvents)
      ensures vram == old(vram)
    {
      gpuUtilizations := ResizeFields(gpuUtilizations, value, defaultUtilization);
      numGpus := value;
    }

    /** The minus button: the count drops by one but not below 0, and the last utilisation field always goes. */
    method OnGpusMinus()
      modifies this
      ensures numGpus == (if old(numGpus) - 1 < 0 then 0 else old(numGpus) - 1)
      ensures gpuUtilizations == RemoveLast(old(gpuUtilizations))
      ensures numTrainingEvents == old(numTrainingEvents) && trainingEvents == old(trainingEvents)
      ensures vram == old(vram)
    {
      var next := numGpus - 1;
      if next < 0 {
        next := 0;
      }
      numGpus := next;
      gpuUtilizations := RemoveLast(gpuUtilizations);
    }

    /**
     * The plus button: the count rises by one but not above 16, while a
     * utilisation field is always appended, so at the limit the field array
     * outgrows the count.
     */
    method OnGpusPlus(defaultUtilization: real)
      modifies this
      ensures numGpus == (if old(numGpus) + 1 > MaxGpus then MaxGpus else old(numGpus) + 1)
      ensures gpuUtilizations == old(gpuUtilizations) + [defaultUtilization]
      ensures old(numGpus) >= MaxGpus && |old(gpuUtilizations)| >= old(numGpus) ==> |gpuUtilizations| > numGpus
      ensures numTrainingEvents == old(numTrainingEvents) && trainingEvents == old(trainingEvents)
      ensures vram == old(vram)
    {
      var next := numGpus + 1;
      if next > 16 {
        next := 16;
      }
      numGpus := next;
      gpuUtilizations := gpuUtilizations + [defaultUtilization];
    }

    /** The VRAM minus button: 0.125 GB less, clamped into [0, 4 GB x GPUs]. */
    method OnVramMinus()
      modifies this
      ensures vram == Clamp(old(vram) - VramStep, 0.0, (OrOne(numGpus) as real) * VramPerGpu)
      ensures numGpus >= 0 ==> VramValidation(numGpus, vram) == Success
      ensures numGpus == old(numGpus) && gpuUtilizations == old(gpuUtilizations)
      ensures numTrainingEvents == old(numTrainingEvents) && trainingEvents == old(trainingEvents)
    {
      vram := Clamp(vram - 0.125, 0.0, (OrOne(numGpus) as real) * 4.0);
    }

    /** The VRAM plus button: 0.125 GB more, clamped into [0, 4 GB x GPUs]. */
    method OnVramPlus()
      modifies this
      ensures vram == Clamp(old(vram) + VramStep, 0.0, (OrOne(numGpus) as real) * VramPerGpu)
      ensures numGpus >= 0 ==> VramValidation(numGpus, vram) == Success
      ensures numGpus == old(numGpus) && gpuUtilizations == old(gpuUtilizations)
      ensures numTrainingEvents == old(numTrainingEvents) && trainingEvents == old(trainingEvents)
    {
      vram := Clamp(vram + 0.125, 0.0, (OrOne(numGpus) as real) * 4.0);
    }
  }

  /** Pressing plus at 16 GPUs keeps the count at 16 but leaves 17 utilisation fields. */
  method PlusAtLimit() returns (count: int, fields: nat)
    ensures count == 16 && fields == 17
  {
    var tab := new SessionTab(0, [], 16, seq(16, _ => 50.0), 0.0);
    tab.OnGpusPlus(50.0);
    count := tab.numGpus;
    fields := |tab.gpuUtilizations|;
  }
}
