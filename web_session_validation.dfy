/**
 * The field checks the web front end's template modal and its session form
 * share: the four tick validators, the CPU, memory, GPU-count and
 * GPU-utilisation validators, `setGpuUtil`, the step buttons and the number
 * of GPU-utilisation inputs shown.
 *
 * The fields are `number | ''`. Once a validator has ruled out '', what is
 * left is a number, which may be NaN (the `+value` of unreadable text) or
 * undefined (an index past an array's end); JavaScript compares both as
 * false, which is what the comparison predicates below say.
 */
module WebSessionValidation {
  import opened FormValidation

  /** The widest CPU utilisation, in percent. */
  const MaxCpuPercent: real := 100.0
  /** The most memory a training may use, in GB. */
  const MaxMemoryGb: real := 128000.0
  /** The most GPUs a session may ask for without a warning. */
  const MaxGpus: real := 8.0
  /** The widest GPU utilisation, in percent. */
  const MaxGpuPercent: real := 100.0

  // ---------------------------------------------------------------------
  // JavaScript comparisons of numeric fields
  // ---------------------------------------------------------------------

  /** `a < b`. */
  predicate Less(a: NumberField, b: NumberField)
  {
    a.Num? && b.Num? && a.v < b.v
  }

  /** `a >= b`. */
  predicate GreaterEq(a: NumberField, b: NumberField)
  {
    a.Num? && b.Num? && a.v >= b.v
  }

  /** `a + b` for two fields that are not ''; NaN spreads. */
  function Plus(a: NumberField, b: NumberField): (r: NumberField)
    ensures r.Num? <==> a.Num? && b.Num?
    ensures r.Num? ==> r.v == a.v + b.v
  {
    if a.Num? && b.Num? then Num(a.v + b.v) else NaN
  }

  /** `lo <= a && a <= hi`. */
  predicate Within(a: NumberField, lo: real, hi: real)
  {
    GreaterEq(a, Num(lo)) && GreaterEq(Num(hi), a)
  }

  // ---------------------------------------------------------------------
  // The session timeline
  // ---------------------------------------------------------------------

  /** The four tick fields of one session. */
  datatype Timeline = Timeline(
    sessionStart: NumberField,
    sessionStop: NumberField,
    trainingStart: NumberField,
    duration: NumberField)

  /** The end of the training, `trainingStart + duration`. */
  function TrainingEnd(t: Timeline): NumberField
  {
    Plus(t.trainingStart, t.duration)
  }

  /** The session start is non-negative and before the training start and the session stop. */
  predicate StartInOrder(t: Timeline)
  {
    GreaterEq(t.sessionStart, Num(0.0)) && Less(t.sessionStart, t.trainingStart) && Less(t.sessionStart, t.sessionStop)
  }

  /** The session stop is non-negative and after the session start, the training start and the training end. */
  predicate StopInOrder(t: Timeline)
  {
    && GreaterEq(t.sessionStop, Num(0.0)) && Less(t.trainingStart, t.sessionStop)
    && Less(t.sessionStart, t.sessionStop) && Less(TrainingEnd(t), t.sessionStop)
  }

  /** The training starts at or after 0, after the session starts, and ends before the session stops. */
  predicate TrainingStartInOrder(t: Timeline)
  {
    && GreaterEq(t.trainingStart, Num(0.0)) && Less(t.sessionStart, t.trainingStart)
    && Less(t.trainingStart, t.sessionStop) && Less(TrainingEnd(t), t.sessionStop)
  }

  /** The duration is non-negative and the training ends before the session stops. */
  predicate DurationInOrder(t: Timeline)
  {
    GreaterEq(t.duration, Num(0.0)) && Less(TrainingEnd(t), t.sessionStop)
  }

  /**
   * validateSessionStartTickInput: '' is an error, a missing training start
   * or stop tick a warning; otherwise the start must be non-negative and
   * before both the training start and the session stop.
   */
  function SessionStartValidation(t: Timeline): (r: Validated)
    ensures r == Error <==> t.sessionStart.Blank? || (!t.trainingStart.Blank? && !t.sessionStop.Blank? && !StartInOrder(t))
    ensures r == Warning <==> !t.sessionStart.Blank? && (t.trainingStart.Blank? || t.sessionStop.Blank?)
    ensures r != Default
  {
    if t.sessionStart.Blank? then Error
    else if t.trainingStart.Blank? || t.sessionStop.Blank? then Warning
    else if GreaterEq(t.sessionStart, Num(0.0)) && Less(t.sessionStart, t.trainingStart)
            && Less(t.sessionStart, t.sessionStop) then Success
    else Error
  }

  /**
   * validateSessionStartStopInput: '' is an error, any other missing tick a
   * warning; otherwise the stop must be non-negative and after the session
   * start, the training start and the training's end.
   */
  function SessionStopValidation(t: Timeline): (r: Validated)
    ensures r == Error <==> t.sessionStop.Blank? || (!t.sessionStart.Blank? && !t.trainingStart.Blank? && !t.duration.Blank? && !StopInOrder(t))
    ensures r == Warning <==> !t.sessionStop.Blank? && (t.sessionStart.Blank? || t.trainingStart.Blank? || t.duration.Blank?)
    ensures r != Default
  {
    if t.sessionStop.Blank? then Error
    else if t.sessionStart.Blank? || t.trainingStart.Blank? || t.duration.Blank? then Warning
    else if GreaterEq(t.sessionStop, Num(0.0)) && Less(t.trainingStart, t.sessionStop)
            && Less(t.sessionStart, t.sessionStop) && Less(Plus(t.trainingStart, t.duration), t.sessionStop) then Success
    else Error
  }

  /**
   * validateTrainingStartTickInput: '' is an error, any other missing tick a
   * warning; otherwise the training must start at or after 0, after the
   * session starts, and end before the session stops.
   */
  function TrainingStartValidation(t: Timeline): (r: Validated)
    ensures r == Error <==> t.trainingStart.Blank? || (!t.sessionStart.Blank? && !t.sessionStop.Blank? && !t.duration.Blank? && !TrainingStartInOrder(t))
    ensures r == Warning <==> !t.trainingStart.Blank? && (t.sessionStart.Blank? || t.sessionStop.Blank? || t.duration.Blank?)
    ensures r != Default
  {
    if t.trainingStart.Blank? then Error
    else if t.sessionStart.Blank? || t.sessionStop.Blank? || t.duration.Blank? then Warning
    else if GreaterEq(t.trainingStart, Num(0.0)) && Less(t.sessionStart, t.trainingStart)
            && Less(t.trainingStart, t.sessionStop) && Less(Plus(t.trainingStart, t.duration), t.sessionStop) then Success
    else Error
  }

  /**
   * validateTrainingDurationInTicksInput: '' is an error, any other missing
   * tick a warning; otherwise the duration must be non-negative and the
   * training must end before the session stops.
   */
  function DurationValidation(t: Timeline): (r: Validated)
    ensures r == Error <==> t.duration.Blank? || (!t.sessionStart.Blank? && !t.sessionStop.Blank? && !t.trainingStart.Blank? && !DurationInOrder(t))
    ensures r == Warning <==> !t.duration.Blank? && (t.sessionStart.Blank? || t.sessionStop.Blank? || t.trainingStart.Blank?)
    ensures r != Default
  {
    if t.duration.Blank? then Error
    else if t.sessionStart.Blank? || t.sessionStop.Blank? || t.trainingStart.Blank? then Warning
    else if GreaterEq(t.duration, Num(0.0)) && Less(Plus(t.trainingStart, t.duration), t.sessionStop) then Success
    else Error
  }

  /**
   * A well-formed timeline: four numbers with
   * 0 <= session start < training start <= training end < session stop.
   */
  predicate Ordered(t: Timeline)
  {
    && t.sessionStart.Num? && t.sessionStop.Num? && t.trainingStart.Num? && t.duration.Num?
    && 0.0 <= t.sessionStart.v < t.trainingStart.v
    && 0.0 <= t.duration.v
    && t.trainingStart.v + t.duration.v < t.sessionStop.v
  }

  /** The four tick validators all succeed exactly on a well-formed timeline. */
  lemma TickValidatorsAgreeWithOrder(t: Timeline)
    ensures (SessionStartValidation(t) == Success && SessionStopValidation(t) == Success
             && TrainingStartValidation(t) == Success && DurationValidation(t) == Success) <==> Ordered(t)
  {
  }

  /** A timeline the validators accept keeps the training inside the session. */
  lemma OrderedTrainingInsideSession(t: Timeline)
    requires Ordered(t)
    ensures t.sessionStart.v < t.trainingStart.v <= t.trainingStart.v + t.duration.v < t.sessionStop.v
    ensures 0.0 <= t.sessionStart.v && 0.0 < t.sessionStop.v
  {
  }

  // ---------------------------------------------------------------------
  // Resources
  // ---------------------------------------------------------------------

  /** validateTrainingCpuInput: '' is an error, else success iff in [0, 100]. */
  function CpuValidation(f: NumberField): (r: Validated)
    ensures r == Success <==> f.Num? && 0.0 <= f.v <= MaxCpuPercent
    ensures r == Success || r == Error
  {
    if f.Blank? then Error
    else if GreaterEq(f, Num(0.0)) && GreaterEq(Num(100.0), f) then Success
    else Error
  }

  /** validateTrainingMemoryUsageInput: '' is an error, else success iff in [0, 128000]. */
  function MemoryValidation(f: NumberField): (r: Validated)
    ensures r == Success <==> f.Num? && 0.0 <= f.v <= MaxMemoryGb
    ensures r == Success || r == Error
  {
    if f.Blank? then Error
    else if GreaterEq(f, Num(0.0)) && GreaterEq(Num(128000.0), f) then Success
    else Error
  }

  /** validateNumberOfGpusInput: '' is an error; outside [0, 8] (or NaN) only a warning. */
  function GpuCountValidation(f: NumberField): (r: Validated)
    ensures r == Error <==> f.Blank?
    ensures r == Success <==> f.Num? && 0.0 <= f.v <= MaxGpus
    ensures r != Default
  {
    if f.Blank? then Error
    else if Within(f, 0.0, 8.0) then Success
    else Warning
  }

  /**
   * validateGpuUtilInput(idx): the idx-th utilisation must be a number in
   * [0, 100]; '' and an index outside the array (undefined) are errors.
   */
  function GpuUtilValidation(utils: seq<NumberField>, idx: int): (r: Validated)
    ensures r == Success <==> 0 <= idx < |utils| && utils[idx].Num? && 0.0 <= utils[idx].v <= MaxGpuPercent
    ensures r == Success || r == Error
  {
    if 0 <= idx < |utils| && !utils[idx].Blank? && Within(utils[idx], 0.0, 100.0) then Success
    else Error
  }

  /** setGpuUtil(idx, val): the array mapped so that only entry idx becomes val. */
  function SetGpuUtil(utils: seq<NumberField>, idx: int, val: NumberField): (r: seq<NumberField>)
    ensures 0 <= idx < |utils| ==> r == utils[idx := val]
    ensures !(0 <= idx < |utils|) ==> r == utils
  {
    seq(|utils|, i requires 0 <= i < |utils| => if i == idx then val else utils[i])
  }

  /** Setting an entry and reading it back through the validator sees the new value. */
  lemma SetGpuUtilThenValidate(utils: seq<NumberField>, idx: int, val: NumberField, j: int)
    requires 0 <= idx < |utils|
    ensures GpuUtilValidation(SetGpuUtil(utils, idx, val), idx) == GpuUtilValidation([val], 0)
    ensures j != idx ==> GpuUtilValidation(SetGpuUtil(utils, idx, val), j) == GpuUtilValidation(utils, j)
  {
  }

  // ---------------------------------------------------------------------
  // Step buttons and the GPU inputs shown
  // ---------------------------------------------------------------------

  /** A minus or plus button: `(field || 0) + delta`. */
  function Stepped(f: NumberField, delta: real): (r: NumberField)
    ensures r.Num?
    ensures f.Num? ==> r.v == f.v + delta
    ensures !f.Num? ==> r.v == delta
  {
    Num(OrZero(f) + delta)
  }

  /** Plus undoes minus on any field, once the field holds a number. */
  lemma SteppedRestores(f: NumberField, delta: real)
    ensures Stepped(Stepped(f, -delta), delta) == Num(OrZero(f))
  {
  }

  /** `field || 1` on a numeric field: '', NaN and 0 count as 1. */
  function OrOneField(f: NumberField): (r: real)
    ensures f.Num? && f.v != 0.0 ==> r == f.v
    ensures !(f.Num? && f.v != 0.0) ==> r == 1.0
  {
    if f.Num? && f.v != 0.0 then f.v else 1.0
  }

  /**
   * The number of GPU-utilisation inputs rendered:
   * `Array.from({length: max(min(numberOfGPUs || 1, 8), 1)})`, whose length
   * drops the fraction.
   */
  function GpuInputsShown(numberOfGpus: NumberField): (r: int)
    ensures 1 <= r <= 8
    ensures numberOfGpus.Num? && 1.0 <= numberOfGpus.v <= MaxGpus ==> r == numberOfGpus.v.Floor
    ensures !numberOfGpus.Num? || numberOfGpus.v <= 1.0 ==> r == 1
  {
    Max(Min(OrOneField(numberOfGpus), 8.0), 1.0).Floor
  }
}
