/**
 * What the driver front end's two template registration screens share:
 * the sessions and training events of a template, the per-session resource
 * request folded from its trainings, the "Session k" tabs, and the upload
 * list's removal by file name.
 */
module TemplateSessions {
  import opened Wrappers
  import opened GoStrconv

  /** A training event of a template; `gpuUtilizations` has one entry per GPU. */
  datatype Training = Training(
    trainingIndex: int,
    cpus: real,
    memory: real,
    vram: real,
    gpuUtilizations: seq<real>)

  /** A resource request; every amount is a JavaScript number. */
  datatype ResourceRequest = ResourceRequest(cpus: real, gpus: real, memory: real, vram: real, gpuType: string)

  /**
   * A template session. The registration form fills the maximum and current
   * requests, the modal fills `resourceRequest`.
   */
  datatype Session = Session(
    id: string,
    numTrainingEvents: int,
    trainings: seq<Training>,
    resourceRequest: Option<ResourceRequest>,
    maxResourceRequest: Option<ResourceRequest>,
    currentResourceRequest: Option<ResourceRequest>)

  // ---------------------------------------------------------------------
  // Running maxima with a -1 sentinel
  // ---------------------------------------------------------------------

  /** The running maximum of xs started at -1, as `if (x > max) max = x` computes it. */
  function Peak(xs: seq<real>): real
  {
    if xs == [] then -1.0
    else
      var m := Peak(xs[..|xs| - 1]);
      if xs[|xs| - 1] > m then xs[|xs| - 1] else m
  }

  /** One more element of the running maximum. */
  lemma PeakStep(xs: seq<real>, j: int)
    requires 0 <= j < |xs|
    ensures Peak(xs[..j + 1]) == if xs[j] > Peak(xs[..j]) then xs[j] else Peak(xs[..j])
  {
    assert xs[..j + 1][..j] == xs[..j];
  }

  /** The peak bounds every element and is -1 or one of them. */
  lemma {:induction false} PeakIsMaximum(xs: seq<real>)
    ensures forall i :: 0 <= i < |xs| ==> xs[i] <= Peak(xs)
    ensures Peak(xs) == -1.0 || exists i :: 0 <= i < |xs| && Peak(xs) == xs[i]
    ensures Peak(xs) >= -1.0
  {
    if xs != [] {
      var init := xs[..|xs| - 1];
      PeakIsMaximum(init);
      assert forall i :: 0 <= i < |init| ==> xs[i] == init[i];
    }
  }

  function CpusOf(ts: seq<Training>): (r: seq<real>)
    ensures |r| == |ts| && forall j :: 0 <= j < |ts| ==> r[j] == ts[j].cpus
  {
    if ts == [] then [] else CpusOf(ts[..|ts| - 1]) + [ts[|ts| - 1].cpus]
  }

  function MemoryOf(ts: seq<Training>): (r: seq<real>)
    ensures |r| == |ts| && forall j :: 0 <= j < |ts| ==> r[j] == ts[j].memory
  {
    if ts == [] then [] else MemoryOf(ts[..|ts| - 1]) + [ts[|ts| - 1].memory]
  }

  function VramOf(ts: seq<Training>): (r: seq<real>)
    ensures |r| == |ts| && forall j :: 0 <= j < |ts| ==> r[j] == ts[j].vram
  {
    if ts == [] then [] else VramOf(ts[..|ts| - 1]) + [ts[|ts| - 1].vram]
  }

  function GpuCountsOf(ts: seq<Training>): (r: seq<real>)
    ensures |r| == |ts| && forall j :: 0 <= j < |ts| ==> r[j] == |ts[j].gpuUtilizations| as real
  {
    if ts == [] then [] else GpuCountsOf(ts[..|ts| - 1]) + [|ts[|ts| - 1].gpuUtilizations| as real]
  }

  /** The resource request parseData builds for a session: the peaks of its trainings. */
  function PeakRequest(ts: seq<Training>, gpuType: string): ResourceRequest
  {
    ResourceRequest(Peak(CpusOf(ts)), Peak(GpuCountsOf(ts)), Peak(MemoryOf(ts)), Peak(VramOf(ts)), gpuType)
  }

  /** Every training fits inside the peak request, and with no trainings every amount is -1. */
  lemma PeakRequestCoversTrainings(ts: seq<Training>, gpuType: string)
    ensures var r := PeakRequest(ts, gpuType);
      forall j :: 0 <= j < |ts| ==>
        ts[j].cpus <= r.cpus && ts[j].memory <= r.memory && ts[j].vram <= r.vram
        && |ts[j].gpuUtilizations| as real <= r.gpus
    ensures ts == [] ==> PeakRequest(ts, gpuType) == ResourceRequest(-1.0, -1.0, -1.0, -1.0, gpuType)
  {
    var cpus, memory, vram, gpus := CpusOf(ts), MemoryOf(ts), VramOf(ts), GpuCountsOf(ts);
    PeakIsMaximum(cpus);
    PeakIsMaximum(memory);
    PeakIsMaximum(vram);
    PeakIsMaximum(gpus);
    forall j | 0 <= j < |ts|
      ensures ts[j].cpus <= Peak(cpus) && ts[j].memory <= Peak(memory) && ts[j].vram <= Peak(vram)
      ensures |ts[j].gpuUtilizations| as real <= Peak(gpus)
    {
      assert cpus[j] == ts[j].cpus && memory[j] == ts[j].memory && vram[j] == ts[j].vram;
      assert gpus[j] == |ts[j].gpuUtilizations| as real;
    }
  }

  /** The training with its index field set to its position. */
  function Indexed(t: Training, j: int): Training
  {
    t.(trainingIndex := j)
  }

  /**
   * The inner loop of parseData: number the trainings by position and fold
   * their cpus, memory, vram and GPU counts into running maxima.
   */
  method IndexTrainings(trainings: seq<Training>, gpuType: string)
    returns (indexed: seq<Training>, peak: ResourceRequest)
    ensures |indexed| == |trainings|
    ensures forall j :: 0 <= j < |indexed| ==> indexed[j] == Indexed(trainings[j], j)
    ensures peak == PeakRequest(trainings, gpuType)
  {
    var maxCpus := -1.0;
    var maxMemory := -1.0;
    var maxGpus := -1.0;
    var maxVram := -1.0;
    ghost var cpus, memory, vram, gpus := CpusOf(trainings), MemoryOf(trainings), VramOf(trainings), GpuCountsOf(trainings);
    indexed := [];
    var j := 0;
    while j < |trainings|
      invariant 0 <= j <= |trainings|
      invariant |indexed| == j
      invariant forall k :: 0 <= k < j ==> indexed[k] == Indexed(trainings[k], k)
      invariant maxCpus == Peak(cpus[..j])
      invariant maxMemory == Peak(memory[..j])
      invariant maxVram == Peak(vram[..j])
      invariant maxGpus == Peak(gpus[..j])
    {
      var training := trainings[j];
      PeakStep(cpus, j);
      PeakStep(memory, j);
      PeakStep(vram, j);
      PeakStep(gpus, j);
      assert cpus[j] == training.cpus && memory[j] == training.memory && vram[j] == training.vram;
      assert gpus[j] == |training.gpuUtilizations| as real;
      indexed := indexed + [Indexed(training, j)];
      if training.cpus > maxCpus {
        maxCpus := training.cpus;
      }
      if training.memory > maxMemory {
        maxMemory := training.memory;
      }
      if training.vram > maxVram {
        maxVram := training.vram;
      }
      if |training.gpuUtilizations| as real > maxGpus {
        maxGpus := |training.gpuUtilizations| as real;
      }
      j := j + 1;
    }
    assert cpus[..j] == cpus && memory[..j] == memory && vram[..j] == vram && gpus[..j] == gpus;
    peak := ResourceRequest(maxCpus, maxGpus, maxMemory, maxVram, gpuType);
  }

  // ---------------------------------------------------------------------
  // Session tabs
  // ---------------------------------------------------------------------

  /** The title of the k-th tab, counting from 1. */
  function TabTitle(k: nat): string
  {
    "Session " + Itoa(k)
  }

  /** "Session 1" .. "Session n". */
  function TabTitles(n: nat): (r: seq<string>)
    ensures |r| == n && forall i :: 0 <= i < n ==> r[i] == TabTitle(i + 1)
  {
    if n == 0 then [] else TabTitles(n - 1) + [TabTitle(n)]
  }

  /** Two tabs with the same title carry the same number. */
  lemma TabTitleInjective(a: nat, b: nat)
    requires TabTitle(a) == TabTitle(b)
    ensures a == b
  {
    assert TabTitle(a)[8..] == NatToDigits(a);
    assert TabTitle(b)[8..] == NatToDigits(b);
    DigitsRoundTrip(a);
    DigitsRoundTrip(b);
  }

  /** Different tab numbers give different titles. */
  lemma TabTitlesDistinct(n: nat)
    ensures forall i, j :: 0 <= i < j < n ==> TabTitles(n)[i] != TabTitles(n)[j]
  {
    forall i, j | 0 <= i < j < n
      ensures TabTitles(n)[i] != TabTitles(n)[j]
    {
      if TabTitles(n)[i] == TabTitles(n)[j] {
        TabTitleInjective(i + 1, j + 1);
      }
    }
  }

  /**
   * applyJsonToForm's tab selection as written: the active tab moves to the
   * last tab only when it lies strictly beyond the session count.
   */
  function ActiveTabAfterApplyAsWritten(active: int, numSessions: nat): (r: int)
    ensures r != ActiveTabAfterApply(active, numSessions) <==> active == numSessions
    ensures r != ActiveTabAfterApply(active, numSessions) ==> r == active
  {
    if active > numSessions then numSessions - 1 else active
  }

  /** An active tab equal to the session count survives and points one past the last tab. */
  lemma ActiveTabPastLastAsWritten(numSessions: nat)
    ensures ActiveTabAfterApplyAsWritten(numSessions, numSessions) == numSessions
  {
  }

  /**
   * applyJsonToForm's tab selection as its comment intends: a tab that no
   * longer exists gives way to the right-most tab.
   */
  function ActiveTabAfterApply(active: int, numSessions: nat): (r: int)
    ensures r < numSessions || numSessions == 0
    ensures 0 <= active < numSessions ==> r == active
    ensures active >= 0 && numSessions > 0 ==> 0 <= r
    ensures active >= numSessions ==> r == numSessions - 1
  {
    if active >= numSessions then numSessions - 1 else active
  }

  // ---------------------------------------------------------------------
  // Uploaded files
  // ---------------------------------------------------------------------

  /** An uploaded file and a file whose contents were read. */
  datatype UploadedFile = UploadedFile(name: string)
  datatype ReadFile = ReadFile(fileName: string, data: string, loadResult: string)

  /** `files.filter(f => !names.some(n => n === key(f)))`. */
  function RemoveNamed<T(==,!new)>(files: seq<T>, key: T -> string, names: seq<string>): (r: seq<T>)
    ensures |r| <= |files|
    ensures forall f :: f in r <==> f in files && key(f) !in names
  {
    if files == [] then []
    else
      var rest := RemoveNamed(files[..|files| - 1], key, names);
      var last := files[|files| - 1];
      assert forall f :: f in files <==> f in files[..|files| - 1] || f == last;
      if key(last) in names then rest else rest + [last]
  }

  /** Removal keeps the remaining files in their order: it distributes over concatenation. */
  lemma {:induction false} RemoveNamedKeepsOrder<T(!new)>(a: seq<T>, b: seq<T>, key: T -> string, names: seq<string>)
    ensures RemoveNamed(a + b, key, names) == RemoveNamed(a, key, names) + RemoveNamed(b, key, names)
    decreases |b|
  {
    if b != [] {
      var b' := b[..|b| - 1];
      assert (a + b)[..|a + b| - 1] == a + b';
      RemoveNamedKeepsOrder(a, b', key, names);
    } else {
      assert a + b == a;
    }
  }

  /** Removing names no file carries changes nothing. */
  lemma {:induction false} RemoveNamedUnmatched<T(!new)>(files: seq<T>, key: T -> string, names: seq<string>)
    requires forall i :: 0 <= i < |files| ==> key(files[i]) !in names
    ensures RemoveNamed(files, key, names) == files
  {
    if files != [] {
      RemoveNamedUnmatched(files[..|files| - 1], key, names);
      assert files[..|files| - 1] + [files[|files| - 1]] == files;
    }
  }

  function UploadName(f: UploadedFile): string { f.name }
  function ReadName(f: ReadFile): string { f.fileName }

  /** A preloaded template offered by the server; a large one is loaded from its file. */
  datatype PreloadedTemplate = PreloadedTemplate(large: bool, filepath: string)
}
