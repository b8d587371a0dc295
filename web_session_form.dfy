/**
 * The web front end's per-session configuration form: the session id, the
 * session's ticks and resources with their opening values, `setGpuUtil`,
 * and how many GPU-utilisation inputs it shows. Its validators are the
 * shared ones of WebSessionValidation, and the number of GPU inputs it
 * shows is WebSessionValidation.GpuInputsShown.
 */
module WebSessionForm {
  import opened FormValidation
  import opened WebSessionValidation

  /** The session's ticks when the form opens: start 1, stop 6, training at 2 for 2 ticks. */
  const DefaultTimeline: Timeline := Timeline(Num(1.0), Num(6.0), Num(2.0), Num(2.0))

  class SessionConfigurationForm {
    var sessionId: string
    var sessionIdIsValid: bool
    var ticks: Timeline
    var cpu: NumberField
    var memory: NumberField
    var gpuUtilizations: seq<NumberField>
    var numberOfGpus: NumberField

    constructor()
      ensures sessionId == "" && sessionIdIsValid
      ensures ticks == DefaultTimeline && cpu == Num(10.0) && memory == Num(0.25) && numberOfGpus == Num(1.0)
      ensures gpuUtilizations == [Num(100.0), Num(0.0), Num(0.0), Num(0.0), Num(0.0), Num(0.0), Num(0.0), Num(0.0)]
    {
      sessionId := "";
      sessionIdIsValid := true;
      ticks := Timeline(Num(1.0), Num(6.0), Num(2.0), Num(2.0));
      cpu := Num(10.0);
      memory := Num(0.25);
      gpuUtilizations := [Num(100.0), Num(0.0), Num(0.0), Num(0.0), Num(0.0), Num(0.0), Num(0.0), Num(0.0)];
      numberOfGpus := Num(1.0);
    }

    /** handleSessionIdChanged: any id of at most 36 characters is valid. */
    method HandleSessionIdChanged(id: string)
      modifies this`sessionId, this`sessionIdIsValid
      ensures sessionId == id && (sessionIdIsValid <==> |id| <= MaxNameLength)
    {
      sessionId := id;
      sessionIdIsValid := TitleIsValid(id);
    }

    /** setGpuUtil(idx, val): only the idx-th utilisation changes. */
    method SetGpuUtilization(idx: int, val: NumberField)
      modifies this`gpuUtilizations
      ensures gpuUtilizations == SetGpuUtil(old(gpuUtilizations), idx, val)
      ensures |gpuUtilizations| == |old(gpuUtilizations)|
      ensures forall i :: 0 <= i < |gpuUtilizations| && i != idx ==> gpuUtilizations[i] == old(gpuUtilizations)[i]
    {
      gpuUtilizations := SetGpuUtil(gpuUtilizations, idx, val);
    }

    /** The GPU-count minus and plus buttons: `(numberOfGPUs || 0) + delta`. */
    method StepNumberOfGpus(delta: real)
      modifies this`numberOfGpus
      ensures numberOfGpus == Stepped(old(numberOfGpus), delta)
    {
      numberOfGpus := Num(OrZero(numberOfGpus) + delta);
    }
  }

  /** The form opens with every tick and resource check passing. */
  lemma DefaultsValidate()
    ensures Ordered(DefaultTimeline)
    ensures SessionStartValidation(DefaultTimeline) == Success && SessionStopValidation(DefaultTimeline) == Success
    ensures TrainingStartValidation(DefaultTimeline) == Success && DurationValidation(DefaultTimeline) == Success
    ensures CpuValidation(Num(10.0)) == Success && MemoryValidation(Num(0.25)) == Success
    ensures GpuCountValidation(Num(1.0)) == Success
  {
    TickValidatorsAgreeWithOrder(DefaultTimeline);
  }
}
