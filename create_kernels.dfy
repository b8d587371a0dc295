/**
 * The driver front end's modal that creates kernels: the kernel count and
 * the per-kernel CPU, memory, GPU and VRAM fields with their indicators, when
 * the confirm button is enabled, and the resource specs, kernel ids and
 * session ids a confirmation produces before the form resets.
 */
module CreateKernels {
  import opened Wrappers
  import opened GoStrconv
  import opened FormValidation

  /** The texts used when a kernel's field is left empty. */
  const DefaultCpus: string := "100"
  const DefaultGpus: string := "1"
  const DefaultVram: string := "1"
  const DefaultMemory: string := "1250"

  /** Upper bounds of the fields: kernels, millicpus, MB of memory, GB of VRAM. */
  const MaxKernels: int := 128
  const MaxMillicpus: int := 128000
  const MaxMemoryMb: int := 16384
  const MaxVramGb: int := 40
  /** GPU counts above this draw a warning. */
  const SupportedGpus: int := 8

  /** The default texts read back as 100 millicpus, 1 GPU, 1 GB and 1250 MB. */
  lemma DefaultsParse()
    ensures JsParseInt(DefaultCpus) == Some(100) && JsParseInt(DefaultGpus) == Some(1)
    ensures JsParseInt(DefaultVram) == Some(1) && JsParseInt(DefaultMemory) == Some(1250)
  {
    assert NatToDigits(100) + [] == DefaultCpus;
    JsParseIntReadsDigits(100, []);
    assert NatToDigits(1) + [] == DefaultGpus && DefaultGpus == DefaultVram;
    JsParseIntReadsDigits(1, []);
    assert NatToDigits(1250) + [] == DefaultMemory;
    JsParseIntReadsDigits(1250, []);
  }

  // ---------------------------------------------------------------------
  // Field indicators
  // ---------------------------------------------------------------------

  /**
   * A count field's onChange as written: empty is fine, `Number.isNaN` is
   * asked of the text (never NaN), so unreadable text slips through every
   * comparison as a success; otherwise 1..hi is a success.
   */
  function RangeValidationAsWritten(value: string, hi: int): (r: Validated)
    ensures r == Success || r == Error
    ensures r == Error <==> JsParseInt(value).Some? && !(0 < JsParseInt(value).value <= hi)
  {
    if value == "" then Success
    else match JsParseInt(value)
      case None => Success
      case Some(n) => if n > hi || n <= 0 then Error else Success
  }

  /** Text that parseInt cannot read, such as ".5", is accepted as written. */
  lemma UnreadableAcceptedAsWritten(hi: int)
    ensures RangeValidationAsWritten(".5", hi) == Success
  {
  }

  /** A count field's onChange as intended: empty is fine, unreadable text and values outside 1..hi are errors. */
  function RangeValidation(value: string, hi: int): (r: Validated)
    ensures r == Success <==> value == "" || (JsParseInt(value).Some? && 1 <= JsParseInt(value).value <= hi)
    ensures r == Success || r == Error
  {
    if value == "" then Success
    else match JsParseInt(value)
      case None => Error
      case Some(n) => if n > hi || n <= 0 then Error else Success
  }

  /** The two agree on every text parseInt can read. */
  lemma RangeValidationAgreesOnNumbers(value: string, hi: int)
    requires value == "" || JsParseInt(value).Some?
    ensures RangeValidation(value, hi) == RangeValidationAsWritten(value, hi)
  {
  }

  /** The GPU field as written: unreadable text counts as a success. */
  function GpuValidationAsWritten(value: string): (r: Validated)
    ensures value != "" && JsParseInt(value).None? ==> r == Success
  {
    if value == "" then Success
    else match JsParseInt(value)
      case None => Success
      case Some(n) => if n > 8 then Warning else if n <= 0 then Error else Success
  }

  /** The GPU field as intended: more than 8 warns, 0 or less and unreadable text are errors. */
  function GpuValidation(value: string): (r: Validated)
    ensures r == Warning <==> JsParseInt(value).Some? && value != "" && JsParseInt(value).value > SupportedGpus
    ensures r == Success <==> value == "" || (JsParseInt(value).Some? && 1 <= JsParseInt(value).value <= SupportedGpus)
    ensures r != Default
  {
    if value == "" then Success
    else match JsParseInt(value)
      case None => Error
      case Some(n) => if n > 8 then Warning else if n <= 0 then Error else Success
  }

  /** The two GPU checks agree on every text parseInt can read. */
  lemma GpuValidationAgreesOnNumbers(value: string)
    requires value == "" || JsParseInt(value).Some?
    ensures GpuValidation(value) == GpuValidationAsWritten(value)
  {
  }

  // ---------------------------------------------------------------------
  // Resource specs
  // ---------------------------------------------------------------------

  datatype ResourceSpec = ResourceSpec(cpu: int, memory: int, gpu: int, vram: int)

  /** `map.get(i) || fallback`: the entry unless it is missing or empty. */
  function TextOr(m: map<int, string>, i: int, fallback: string): string
  {
    if i in m && m[i] != "" then m[i] else fallback
  }

  /** parseInt of the entry (or the default text), falling back to `fallback` when that is NaN. */
  function ParsedOr(m: map<int, string>, i: int, defaultText: string, fallback: int): int
  {
    match JsParseInt(TextOr(m, i, defaultText))
    case Some(n) => n
    case None => fallback
  }

  /** The VRAM of kernel i as written: the NaN test asks about the Map, so unreadable text stays NaN (None). */
  function VramSpecAsWritten(vram: map<int, string>, i: int): (r: Option<int>)
    ensures r.Some? ==> r.value == ParsedOr(vram, i, DefaultVram, 1)
    ensures r.None? ==> i in vram && vram[i] != "" && ParsedOr(vram, i, DefaultVram, 1) == 1
  {
    DefaultsParse();
    JsParseInt(TextOr(vram, i, DefaultVram))
  }

  /** Unreadable VRAM text yields NaN as written. */
  lemma UnreadableVramAsWritten()
    ensures VramSpecAsWritten(map[0 := ".5"], 0) == None
  {
    assert TextOr(map[0 := ".5"], 0, DefaultVram) == ".5";
  }

  /** The spec of kernel i: every field falls back to its default when missing, empty or unreadable. */
  function KernelSpec(cpus: map<int, string>, memory: map<int, string>, gpus: map<int, string>,
                      vram: map<int, string>, i: int): ResourceSpec
  {
    ResourceSpec(ParsedOr(cpus, i, DefaultCpus, 100), ParsedOr(memory, i, DefaultMemory, 1250),
                 ParsedOr(gpus, i, DefaultGpus, 1), ParsedOr(vram, i, DefaultVram, 1))
  }

  /** The specs of kernels 0 .. n-1, in order. */
  function KernelSpecs(cpus: map<int, string>, memory: map<int, string>, gpus: map<int, string>,
                       vram: map<int, string>, n: nat): seq<ResourceSpec>
  {
    seq(n, k => KernelSpec(cpus, memory, gpus, vram, k))
  }

  /** One more kernel appends its spec. */
  lemma KernelSpecsGrow(cpus: map<int, string>, memory: map<int, string>, gpus: map<int, string>,
                        vram: map<int, string>, n: nat)
    ensures KernelSpecs(cpus, memory, gpus, vram, n + 1)
            == KernelSpecs(cpus, memory, gpus, vram, n) + [KernelSpec(cpus, memory, gpus, vram, n)]
  {
    assert KernelSpecs(cpus, memory, gpus, vram, n + 1)[..n] == KernelSpecs(cpus, memory, gpus, vram, n);
  }

  /** A kernel whose fields were never touched gets 100 millicpus, 1250 MB, 1 GPU and 1 GB of VRAM. */
  lemma UntouchedKernelGetsDefaults(i: int)
    ensures KernelSpec(map[], map[], map[], map[], i) == ResourceSpec(100, 1250, 1, 1)
  {
    DefaultsParse();
  }

  /** Unreadable text falls back to the default amount. */
  lemma UnreadableFallsBack(m: map<int, string>, i: int, defaultText: string, fallback: int)
    requires i in m && m[i] != "" && JsParseInt(m[i]).None?
    ensures ParsedOr(m, i, defaultText, fallback) == fallback
  {
  }

  /** The id of kernel i (or its session): the typed one unless missing or empty, else a fresh UUID. */
  function IdOr(m: map<int, string>, i: int, freshId: int -> string): string
  {
    if i in m && m[i] != "" then m[i] else freshId(i)
  }

  /** The ids of kernels 0 .. n-1: the one entered for each kernel, or a fresh one. */
  function IdList(m: map<int, string>, n: nat, freshId: int -> string): (ids: seq<string>)
    ensures |ids| == n
    ensures forall k :: 0 <= k < n ==> ids[k] == IdOr(m, k, freshId)
  {
    if n == 0 then [] else IdList(m, n - 1, freshId) + [IdOr(m, n - 1, freshId)]
  }

  /** One call of the modal's onConfirm callback. */
  datatype Confirmation = Confirmation(
    numKernels: int, kernelIds: seq<string>, sessionIds: seq<string>, specs: seq<ResourceSpec>)

  class CreateKernelsModal {
    var numKernelsText: string
    var numKernels: int
    var numKernelsValidated: Validated
    var cpusValidated: Validated
    var gpusValidated: Validated
    var vramValidated: Validated
    var memValidated: Validated
    /** Per-kernel field texts, keyed by kernel index. */
    var cpus: map<int, string>
    var memory: map<int, string>
    var gpus: map<int, string>
    var vram: map<int, string>
    var kernelIds: map<int, string>
    var sessionIds: map<int, string>
    var currentKernelIndex: int
    var confirmed: seq<Confirmation>

    /** The selected kernel always exists. */
    ghost predicate Valid()
      reads this
    {
      1 <= numKernels <= MaxKernels && 0 <= currentKernelIndex < numKernels
    }

    constructor()
      ensures Valid()
      ensures numKernelsText == "1" && numKernels == 1 && currentKernelIndex == 0
      ensures numKernelsValidated == Default && cpusValidated == Default && gpusValidated == Default
      ensures vramValidated == Default && memValidated == Default
      ensures cpus == map[] && memory == map[] && gpus == map[] && vram == map[]
      ensures kernelIds == map[] && sessionIds == map[] && confirmed == []
    {
      numKernelsText := "1";
      numKernels := 1;
      numKernelsValidated := Default;
      cpusValidated := Default;
      gpusValidated := Default;
      vramValidated := Default;
      memValidated := Default;
      cpus := map[];
      memory := map[];
      gpus := map[];
      vram := map[];
      kernelIds := map[];
      sessionIds := map[];
      currentKernelIndex := 0;
      confirmed := [];
    }

    /** isSomeFieldInvalid: CPU, memory or count in error or warning, or GPUs in error; VRAM is not consulted. */
    function IsSomeFieldInvalid(): (r: bool)
      reads this
      ensures r <==> cpusValidated in {Error, Warning} || gpusValidated == Error
                     || memValidated in {Error, Warning} || numKernelsValidated in {Error, Warning}
    {
      cpusValidated == Error || cpusValidated == Warning || gpusValidated == Error
      || memValidated == Error || memValidated == Warning
      || numKernelsValidated == Error || numKernelsValidated == Warning
    }

    /**
     * The kernel-count field: empty means one kernel; a count in 1..128 is
     * taken and pulls the selected kernel back inside it; anything else is
     * an error that keeps the count.
     */
    method OnNumKernelsChanged(value: string)
      requires Valid()
      modifies this
      ensures Valid()
      ensures numKernelsText == value
      ensures numKernelsValidated == RangeValidation(value, MaxKernels)
      ensures value == "" ==> numKernels == 1 && currentKernelIndex == 0
      ensures value != "" && numKernelsValidated == Success ==>
        numKernels == JsParseInt(value).value
        && currentKernelIndex == (if old(currentKernelIndex) >= numKernels then numKernels - 1 else old(currentKernelIndex))
      ensures numKernelsValidated == Error ==> numKernels == old(numKernels) && currentKernelIndex == old(currentKernelIndex)
      ensures cpusValidated == old(cpusValidated) && gpusValidated == old(gpusValidated)
      ensures vramValidated == old(vramValidated) && memValidated == old(memValidated)
      ensures cpus == old(cpus) && memory == old(memory) && gpus == old(gpus) && vram == old(vram)
      ensures kernelIds == old(kernelIds) && sessionIds == old(sessionIds) && confirmed == old(confirmed)
    {
      numKernelsText := value;
      numKernelsValidated := RangeValidation(value, 128);
      if value == "" {
        numKernels := 1;
        if currentKernelIndex >= 1 {
          currentKernelIndex := 0;
        }
      } else if numKernelsValidated == Success {
        var count := JsParseInt(value).value;
        numKernels := count;
        if count <= currentKernelIndex {
          currentKernelIndex := count - 1;
        }
      }
    }

    /** onChangeCurrentKernelIndex: the select offers exactly the existing kernels. */
    method SelectKernel(index: int)
      requires Valid() && 0 <= index < numKernels
      modifies this
      ensures Valid() && currentKernelIndex == index
      ensures numKernelsText == old(numKernelsText) && numKernels == old(numKernels)
      ensures numKernelsValidated == old(numKernelsValidated) && cpusValidated == old(cpusValidated)
      ensures gpusValidated == old(gpusValidated) && vramValidated == old(vramValidated)
      ensures memValidated == old(memValidated)
      ensures cpus == old(cpus) && memory == old(memory) && gpus == old(gpus) && vram == old(vram)
      ensures kernelIds == old(kernelIds) && sessionIds == old(sessionIds) && confirmed == old(confirmed)
    {
      currentKernelIndex := index;
    }

    /** The CPU field of the selected kernel: 1..128000 millicpus. */
    method OnCpusChanged(value: string)
      requires Valid()
      modifies this
      ensures Valid()
      ensures cpus == old(cpus)[currentKernelIndex := value]
      ensures cpusValidated == RangeValidation(value, MaxMillicpus)
      ensures numKernelsText == old(numKernelsText) && numKernels == old(numKernels)
      ensures currentKernelIndex == old(currentKernelIndex) && numKernelsValidated == old(numKernelsValidated)
      ensures gpusValidated == old(gpusValidated) && vramValidated == old(vramValidated)
      ensures memValidated == old(memValidated)
      ensures memory == old(memory) && gpus == old(gpus) && vram == old(vram)
      ensures kernelIds == old(kernelIds) && sessionIds == old(sessionIds) && confirmed == old(confirmed)
    {
      cpus := cpus[currentKernelIndex := value];
      cpusValidated := RangeValidation(value, 128000);
    }

    /** The memory field of the selected kernel: 1..16384 MB. */
    method OnMemoryChanged(value: string)
      requires Valid()
      modifies this
      ensures Valid()
      ensures memory == old(memory)[currentKernelIndex := value]
      ensures memValidated == RangeValidation(value, MaxMemoryMb)
      ensures numKernelsText == old(numKernelsText) && numKernels == old(numKernels)
      ensures currentKernelIndex == old(currentKernelIndex) && numKernelsValidated == old(numKernelsValidated)
      ensures gpusValidated == old(gpusValidated) && vramValidated == old(vramValidated)
      ensures cpusValidated == old(cpusValidated)
      ensures cpus == old(cpus) && gpus == old(gpus) && vram == old(vram)
      ensures kernelIds == old(kernelIds) && sessionIds == old(sessionIds) && confirmed == old(confirmed)
    {
      memory := memory[currentKernelIndex := value];
      memValidated := RangeValidation(value, 16384);
    }

    /** The GPU field of the selected kernel: 1..8, with a warning above 8. */
    method OnGpusChanged(value: string)
      requires Valid()
      modifies this
      ensures Valid()
      ensures gpus == old(gpus)[currentKernelIndex := value]
      ensures gpusValidated == GpuValidation(value)
      ensures numKernelsText == old(numKernelsText) && numKernels == old(numKernels)
      ensures currentKernelIndex == old(currentKernelIndex) && numKernelsValidated == old(numKernelsValidated)
      ensures cpusValidated == old(cpusValidated) && vramValidated == old(vramValidated)
      ensures memValidated == old(memValidated)
      ensures cpus == old(cpus) && memory == old(memory) && vram == old(vram)
      ensures kernelIds == old(kernelIds) && sessionIds == old(sessionIds) && confirmed == old(confirmed)
    {
      gpus := gpus[currentKernelIndex := value];
      gpusValidated := GpuValidation(value);
    }

    /** The VRAM field of the selected kernel: 1..40 GB. */
    method OnVramChanged(value: string)
      requires Valid()
      modifies this
      ensures Valid()
      ensures vram == old(vram)[currentKernelIndex := value]
      ensures vramValidated == RangeValidation(value, MaxVramGb)
      ensures IsSomeFieldInvalid() == old(IsSomeFieldInvalid())
      ensures numKernelsText == old(numKernelsText) && numKernels == old(numKernels)
      ensures currentKernelIndex == old(currentKernelIndex) && numKernelsValidated == old(numKernelsValidated)
      ensures cpusValidated == old(cpusValidated) && gpusValidated == old(gpusValidated)
      ensures memValidated == old(memValidated)
      ensures cpus == old(cpus) && memory == old(memory) && gpus == old(gpus)
      ensures kernelIds == old(kernelIds) && sessionIds == old(sessionIds) && confirmed == old(confirmed)
    {
      vram := vram[currentKernelIndex := value];
      vramValidated := RangeValidation(value, 40);
    }

    /** The loop of onConfirmClicked: one spec, kernel id and session id per kernel. */
    method BuildKernels(freshKernelId: int -> string, freshSessionId: int -> string)
      returns (specs: seq<ResourceSpec>, kernelIdList: seq<string>, sessionIdList: seq<string>)
      requires Valid()
      ensures specs == KernelSpecs(cpus, memory, gpus, vram, numKernels)
      ensures |kernelIdList| == numKernels && |sessionIdList| == numKernels
      ensures forall i :: 0 <= i < numKernels ==> kernelIdList[i] == IdOr(kernelIds, i, freshKernelId)
      ensures forall i :: 0 <= i < numKernels ==> sessionIdList[i] == IdOr(sessionIds, i, freshSessionId)
    {
      var cs, ms, gs, vs, n := cpus, memory, gpus, vram, numKernels;
      var kids, sids := kernelIds, sessionIds;
      specs := [];
      kernelIdList := [];
      sessionIdList := [];
      var i := 0;
      while i < n
        invariant 0 <= i <= n
        invariant specs == KernelSpecs(cs, ms, gs, vs, i)
        invariant kernelIdList == IdList(kids, i, freshKernelId)
        invariant sessionIdList == IdList(sids, i, freshSessionId)
      {
        KernelSpecsGrow(cs, ms, gs, vs, i);
        specs := specs + [KernelSpec(cs, ms, gs, vs, i)];
        kernelIdList := kernelIdList + [IdOr(kids, i, freshKernelId)];
        sessionIdList := sessionIdList + [IdOr(sids, i, freshSessionId)];
        i := i + 1;
      }
    }

    /** The first half of the reset after a confirmation: the CPU, memory and GPU fields of every kernel. */
    method ClearResourceFields()
      modifies this
      ensures cpusValidated == Default && memValidated == Default && gpusValidated == Default
      ensures cpus == map[] && memory == map[] && gpus == map[] && vram == map[]
      ensures numKernelsText == old(numKernelsText) && numKernels == old(numKernels)
      ensures numKernelsValidated == old(numKernelsValidated) && vramValidated == old(vramValidated)
      ensures kernelIds == old(kernelIds) && sessionIds == old(sessionIds)
      ensures currentKernelIndex == old(currentKernelIndex) && confirmed == old(confirmed)
    {
      cpusValidated := Default;
      memValidated := Default;
      gpusValidated := Default;
      cpus := map[];
      memory := map[];
      gpus := map[];
      vram := map[];
    }

    /** The second half: one kernel, selected, with no typed ids. */
    method ResetKernelCount()
      modifies this
      ensures Valid()
      ensures numKernels == 1 && numKernelsText == "1" && numKernelsValidated == Default
      ensures kernelIds == map[] && sessionIds == map[] && currentKernelIndex == 0
      ensures cpusValidated == old(cpusValidated) && memValidated == old(memValidated)
      ensures gpusValidated == old(gpusValidated) && vramValidated == old(vramValidated)
      ensures cpus == old(cpus) && memory == old(memory) && gpus == old(gpus) && vram == old(vram)
      ensures confirmed == old(confirmed)
    {
      numKernels := 1;
      numKernelsText := "1";
      numKernelsValidated := Default;
      sessionIds := map[];
      kernelIds := map[];
      currentKernelIndex := 0;
    }

    /**
     * onConfirmClicked: hand one spec, kernel id and session id per kernel to
     * onConfirm, then reset the form to one kernel with empty fields; the
     * VRAM indicator is the one thing the reset leaves as it was.
     */
    method OnConfirmClicked(freshKernelId: int -> string, freshSessionId: int -> string)
      requires Valid()
      modifies this
      ensures Valid()
      ensures |confirmed| == |old(confirmed)| + 1 && confirmed[..|old(confirmed)|] == old(confirmed)
      ensures var c := confirmed[|confirmed| - 1];
        c.numKernels == old(numKernels)
        && c.specs == KernelSpecs(old(cpus), old(memory), old(gpus), old(vram), old(numKernels))
        && |c.kernelIds| == old(numKernels) && |c.sessionIds| == old(numKernels)
        && forall i :: 0 <= i < old(numKernels) ==>
             c.kernelIds[i] == IdOr(old(kernelIds), i, freshKernelId)
             && c.sessionIds[i] == IdOr(old(sessionIds), i, freshSessionId)
      ensures numKernels == 1 && numKernelsText == "1" && currentKernelIndex == 0
      ensures cpusValidated == Default && memValidated == Default && gpusValidated == Default
      ensures numKernelsValidated == Default && vramValidated == old(vramValidated)
      ensures cpus == map[] && memory == map[] && gpus == map[] && vram == map[]
      ensures kernelIds == map[] && sessionIds == map[]
    {
      var specs, kernelIdList, sessionIdList := BuildKernels(freshKernelId, freshSessionId);
      confirmed := confirmed + [Confirmation(numKernels, kernelIdList, sessionIdList, specs)];
      ClearResourceFields();
      ResetKernelCount();
    }
  }

  /**
   * The kernel count as written on ".5": the indicator turns green and the
   * count becomes what parseInt yields, NaN (None); as intended it is an
   * error and the count stays 1.
   */
  method UnreadableCountAsWritten()
    returns (asWritten: Validated, countAsWritten: Option<int>, corrected: Validated, count: int)
    ensures asWritten == Success && countAsWritten == None
    ensures corrected == Error && count == 1
  {
    UnreadableAcceptedAsWritten(MaxKernels);
    asWritten := RangeValidationAsWritten(".5", MaxKernels);
    countAsWritten := JsParseInt(".5");
    var modal := new CreateKernelsModal();
    modal.OnNumKernelsChanged(".5");
    corrected := modal.numKernelsValidated;
    count := modal.numKernels;
  }

  /**
   * The four resource fields as written on ".5": every indicator turns
   * green, since the NaN test asks about the text; as intended each one is
   * an error.
   */
  method UnreadableFieldsAsWritten()
    returns (cpuAsWritten: Validated, memAsWritten: Validated, gpuAsWritten: Validated, vramAsWritten: Validated,
             cpu: Validated, mem: Validated, gpu: Validated, vram: Validated)
    ensures cpuAsWritten == Success && memAsWritten == Success && gpuAsWritten == Success && vramAsWritten == Success
    ensures cpu == Error && mem == Error && gpu == Error && vram == Error
  {
    UnreadableAcceptedAsWritten(MaxMillicpus);
    UnreadableAcceptedAsWritten(MaxMemoryMb);
    UnreadableAcceptedAsWritten(MaxVramGb);
    cpuAsWritten := RangeValidationAsWritten(".5", MaxMillicpus);
    memAsWritten := RangeValidationAsWritten(".5", MaxMemoryMb);
    gpuAsWritten := GpuValidationAsWritten(".5");
    vramAsWritten := RangeValidationAsWritten(".5", MaxVramGb);
    var modal := new CreateKernelsModal();
    modal.OnCpusChanged(".5");
    modal.OnMemoryChanged(".5");
    modal.OnGpusChanged(".5");
    modal.OnVramChanged(".5");
    cpu, mem, gpu, vram := modal.cpusValidated, modal.memValidated, modal.gpusValidated, modal.vramValidated;
  }
}
