/**
 * One session tab of the web front end's template modal: the GPU-count
 * handlers that keep the tab's GPU-utilisation field array in step with the
 * count typed or stepped by the user. The session-id indicator is
 * FormValidation.NameValidation and the training start tick indicator is
 * SessionTabContent.TrainingStartTickValidation, both shared with the
 * driver front end.
 */
module WebSessionTab {
  import opened FormValidation

  /** The most GPUs the minus and plus buttons step to. */
  const MaxGpus: int := 8
  /** The utilisation of a GPU field appended by the handlers, in percent. */
  const DefaultGpuUtilization: real := 50.0
  /** The GPU count a new tab starts with. */
  const DefaultNumGpus: int := 0

  class SessionTab {
    /** sessions.<tab>.num_gpus and sessions.<tab>.gpu_utilizations. */
    var numGpus: int
    var gpuUtilizations: seq<real>

    constructor()
      ensures numGpus == DefaultNumGpus && gpuUtilizations == []
    {
      numGpus := 0;
      gpuUtilizations := [];
    }

    /**
     * Typing a GPU count: the utilisation fields grow with 50% entries or
     * shrink from the end to exactly that count.
     */
    method OnNumGpusChanged(value: int)
      modifies this
      ensures numGpus == value
      ensures gpuUtilizations == Resized(old(gpuUtilizations), value, DefaultGpuUtilization)
      ensures value >= 0 ==> |gpuUtilizations| == value
      ensures forall i :: 0 <= i < |gpuUtilizations| && i < |old(gpuUtilizations)| ==> gpuUtilizations[i] == old(gpuUtilizations)[i]
    {
      gpuUtilizations := ResizeFields(gpuUtilizations, value, 50.0);
      numGpus := value;
    }

    /** The minus button: the count drops by one but not below 0, and the last field always goes. */
    method OnGpusMinus()
      modifies this
      ensures numGpus == (if old(numGpus) - 1 < 0 then 0 else old(numGpus) - 1)
      ensures gpuUtilizations == RemoveLast(old(gpuUtilizations))
    {
      var next := numGpus - 1;
      if next < 0 {
        next := 0;
      }
      numGpus := next;
      gpuUtilizations := RemoveLast(gpuUtilizations);
    }

    /**
     * The plus button: the count rises by one but not above 8, while a 50%
     * field is always appended, so at the limit the field array outgrows
     * the count.
     */
    method OnGpusPlus()
      modifies this
      ensures numGpus == (if old(numGpus) + 1 > MaxGpus then MaxGpus else old(numGpus) + 1)
      ensures gpuUtilizations == old(gpuUtilizations) + [DefaultGpuUtilization]
      ensures old(numGpus) >= MaxGpus && |old(gpuUtilizations)| >= old(numGpus) ==> |gpuUtilizations| > numGpus
    {
      var next := numGpus + 1;
      if next > 8 {
        next := 8;
      }
      numGpus := next;
      gpuUtilizations := gpuUtilizations + [50.0];
    }
  }

  /** Below the limit, plus then minus gives back the same count and fields. */
  method PlusMinusRestores(count: nat, fields: seq<real>) returns (sameCount: bool, sameFields: bool)
    requires count < MaxGpus
    ensures sameCount && sameFields
  {
    var tab := new SessionTab();
    tab.numGpus := count;
    tab.gpuUtilizations := fields;
    tab.OnGpusPlus();
    tab.OnGpusMinus();
    sameCount := tab.numGpus == count;
    sameFields := tab.gpuUtilizations == fields;
  }

  /** Pressing plus at 8 GPUs keeps the count at 8 but leaves 9 utilisation fields. */
  method PlusAtLimit() returns (count: int, fields: nat)
    ensures count == 8 && fields == 9
  {
    var tab := new SessionTab();
    tab.OnNumGpusChanged(8);
    tab.OnGpusPlus();
    count := tab.numGpus;
    fields := |tab.gpuUtilizations|;
  }
}
