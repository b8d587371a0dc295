/**
 * The workload driver (driver-backend/internal/server/workload/driver.go):
 * the letter-only driver id, the internal session ids built from it, the
 * one-workload-per-driver registration with seed defaulting, the pause flag,
 * the arguments of an "execute_request" and the event dispatch.
 */
module WorkloadDriver {
  import opened Wrappers
  import opened GoStrings
  import opened WorkloadLifecycle
  import opened SessionEvents
  import DomainWorkload

  // ---------------------------------------------------------------------------
  // Driver ids.

  /**
   * The i-th character of the alphabet "abc...zABC...Z": the 26 lower-case
   * letters, then the 26 upper-case ones.
   */
  function LetterAt(i: int): (c: char)
    requires 0 <= i < 52
    ensures 'a' <= c <= 'z' || 'A' <= c <= 'Z'
  {
    var code: int := if i < 26 then 97 + i else 65 + i - 26;
    code as char
  }

  function Letters(): (s: string)
    ensures |s| == 52 && forall i :: 0 <= i < 52 ==> s[i] == LetterAt(i)
  {
    seq(52, i requires 0 <= i < 52 => LetterAt(i))
  }

  /** letterBytes: the 52 ASCII letters a driver id is drawn from. */
  const LetterBytes: string := Letters()
  /** Each letter index takes six bits of a random word ... */
  const LetterIdxBits: nat := 6
  /** ... selected by this mask ... */
  const LetterIdxMask: nat := 63
  /** ... and a 63-bit word holds this many of them. */
  const LetterIdxMax: nat := 10
  /** rand.Int63 returns words below this bound. */
  const Int63Bound: int := 0x8000_0000_0000_0000

  predicate IsLetter(c: char)
  {
    'a' <= c <= 'z' || 'A' <= c <= 'Z'
  }

  /** A string made only of characters of LetterBytes. */
  predicate LetterWord(s: string)
  {
    forall i :: 0 <= i < |s| ==> s[i] in LetterBytes
  }

  /** The alphabet is exactly the ASCII letters, so it has no '-'. */
  lemma LetterBytesAreLetters(c: char)
    ensures c in LetterBytes <==> IsLetter(c)
    ensures '-' !in LetterBytes
  {
    assert forall j :: 0 <= j < |LetterBytes| ==> IsLetter(LetterBytes[j]);
    if 'a' <= c <= 'z' {
      assert LetterBytes[c as int - 'a' as int] == c;
    } else if 'A' <= c <= 'Z' {
      assert LetterBytes[26 + c as int - 'A' as int] == c;
    }
  }

  /** A string of ASCII letters is a letter word. */
  lemma LettersMakeLetterWord(s: string)
    requires forall i :: 0 <= i < |s| ==> IsLetter(s[i])
    ensures LetterWord(s)
  {
    forall i | 0 <= i < |s|
      ensures s[i] in LetterBytes
    {
      LetterBytesAreLetters(s[i]);
    }
  }

  /** A letter word never contains the separator of internal session ids. */
  lemma LetterWordHasNoDash(s: string)
    requires LetterWord(s)
    ensures '-' !in s
  {
    LetterBytesAreLetters('-');
  }

  /**
   * GenerateWorkloadID: fills n positions from the last to the first, taking
   * six bits at a time from each random word and keeping an index only when
   * it names one of the 52 letters. The words of rand.Int63 are passed in;
   * the result is None when they run out before n letters were drawn (the
   * source draws for as long as it takes).
   */
  method GenerateWorkloadID(n: nat, words: seq<int>) returns (r: Option<string>)
    requires forall k :: 0 <= k < |words| ==> 0 <= words[k] < Int63Bound
    ensures r.Some? ==> |r.value| == n && LetterWord(r.value) && '-' !in r.value
    ensures |words| == 0 ==> r.None?
    ensures n == 0 && |words| > 0 ==> r == Some("")
  {
    if |words| == 0 {
      return None;
    }
    var b := new char[n];
    var i: int := n - 1;
    var cache := words[0];
    var next := 1;
    var remain := LetterIdxMax;
    while i >= 0
      invariant -1 <= i < n
      invariant 1 <= next <= |words|
      invariant 0 <= cache && 0 <= remain <= LetterIdxMax
      invariant forall k :: i < k < n ==> b[k] in LetterBytes
      decreases |words| - next, remain
    {
      if remain == 0 {
        if next == |words| {
          return None;
        }
        cache, remain := words[next], LetterIdxMax;
        next := next + 1;
      }
      // cache & letterIdxMask, for a non-negative cache
      var idx := cache % (LetterIdxMask + 1);
      if idx < |LetterBytes| {
        b[i] := LetterBytes[idx];
        i := i - 1;
      }
      // cache >>= letterIdxBits
      cache := cache / (LetterIdxMask + 1);
      remain := remain - 1;
    }
    LetterWordHasNoDash(b[..]);
    return Some(b[..]);
  }

  // ---------------------------------------------------------------------------
  // Registration.

  datatype DriverError =
    | ErrWorkloadPresetNotFound
    | ErrWorkloadAlreadyRegistered
    | ErrUnsupportedWorkloadType(workloadType: string)
    | ErrWorkloadRegistrationMissingTemplate
    | ErrUnknownEventType(name: EventName)
    | ErrWorkloadAlreadyPaused
    | ErrWorkloadAlreadyUnpaused
    /** SetSource rejected the preset or the template. */
    | ErrSourceRejected(message: string)
    /** The workload itself refused a transition. */
    | ErrWorkload(error: WorkloadError)

  /** The fields of a registration request the driver decides on. */
  datatype RegistrationRequest = RegistrationRequest(
    workloadType: string, key: string, workloadName: string, seed: int,
    debugLogging: bool, timescaleAdjustmentFactor: real, sampleSessionsPercent: real,
    /** Whether the request carries a (non-nil) session list. */
    hasSessions: bool)

  /** Why a registration panicked. */
  datatype PanicReason = NilWorkloadPanic | NilPointerDereference

  datatype RegisterOutcome = Registered | RegisterFailed(error: DriverError) | RegisterPanicked(reason: PanicReason)

  datatype WorkloadKind = PresetKind | TemplateKind | UnsupportedKind

  /** The request type, matched without regard to case. */
  function KindOf(workloadType: string): (k: WorkloadKind)
    ensures k == PresetKind <==> ToLower(workloadType) == "preset"
    ensures k == TemplateKind <==> ToLower(workloadType) == "template"
  {
    var t := ToLower(workloadType);
    if t == "preset" then PresetKind else if t == "template" then TemplateKind else UnsupportedKind
  }

  /** Spellings that differ only in case select the same kind of workload. */
  lemma KindIgnoresCase(s: string, t: string)
    requires |s| == |t|
    requires forall i :: 0 <= i < |s| ==> LowerChar(s[i]) == LowerChar(t[i])
    ensures KindOf(s) == KindOf(t)
  {
    ToLowerIgnoresCase(s, t);
  }

  /**
   * The error with which creating the workload fails, if any: an unsupported
   * type, an unknown preset key, a template request without sessions, or
   * SetSource rejecting the definition (sourceError).
   */
  function CreationError(presetKeys: set<string>, req: RegistrationRequest, sourceError: Option<string>): (e: Option<DriverError>)
    ensures KindOf(req.workloadType) == UnsupportedKind ==> e == Some(ErrUnsupportedWorkloadType(req.workloadType))
    ensures KindOf(req.workloadType) == PresetKind ==>
              (req.key !in presetKeys ==> e == Some(ErrWorkloadPresetNotFound))
              && (req.key in presetKeys ==> e == if sourceError.Some? then Some(ErrSourceRejected(sourceError.value)) else None)
    ensures KindOf(req.workloadType) == TemplateKind ==>
              (!req.hasSessions ==> e == Some(ErrWorkloadRegistrationMissingTemplate))
              && (req.hasSessions ==> e == if sourceError.Some? then Some(ErrSourceRejected(sourceError.value)) else None)
  {
    match KindOf(req.workloadType)
    case UnsupportedKind => Some(ErrUnsupportedWorkloadType(req.workloadType))
    case PresetKind =>
      if req.key !in presetKeys then Some(ErrWorkloadPresetNotFound)
      else if sourceError.Some? then Some(ErrSourceRejected(sourceError.value)) else None
    case TemplateKind =>
      if !req.hasSessions then Some(ErrWorkloadRegistrationMissingTemplate)
      else if sourceError.Some? then Some(ErrSourceRejected(sourceError.value)) else None
  }

  /** The largest seed a user may give, and the exclusive bound of a drawn seed. */
  const MaxUserSeed: int := 2147483647

  /** rand.Int63n(n) returns a value in [0, n). */
  predicate DrawnSeed(randomSeed: int)
  {
    0 <= randomSeed < MaxUserSeed
  }

  /** The seed a registered workload ends up with. */
  function EffectiveSeed(requested: int, randomSeed: int): (s: int)
    ensures requested >= 0 ==> s == requested
    ensures requested < 0 && DrawnSeed(randomSeed) ==> 0 <= s < MaxUserSeed
  {
    if requested < 0 then randomSeed else requested
  }

  datatype DriverRoute =
    | PanicOnSessionStarted
    | ToTrainingStarted
    | ToUpdateGpuUtil
    | ToTrainingEnded
    | ToSessionStopped
    | UnknownEvent(error: DriverError)

  /**
   * handleEvent: the four event kinds the driver handles go to their
   * handlers, whose result is returned; a session-started event panics; any
   * other name is an error wrapping ErrUnknownEventType.
   */
  function HandleEvent(name: EventName): (r: DriverRoute)
    ensures r.UnknownEvent? <==> !(name in {SessionStarted, TrainingStarted, UpdateGpuUtil, TrainingEnded, SessionStopped})
    ensures r.UnknownEvent? ==> r.error == ErrUnknownEventType(name)
    ensures r == PanicOnSessionStarted <==> name == SessionStarted
    ensures r == ToTrainingStarted <==> name == TrainingStarted
    ensures r == ToUpdateGpuUtil <==> name == UpdateGpuUtil
    ensures r == ToTrainingEnded <==> name == TrainingEnded
    ensures r == ToSessionStopped <==> name == SessionStopped
  {
    match name
    case SessionStarted => PanicOnSessionStarted
    case TrainingStarted => ToTrainingStarted
    case UpdateGpuUtil => ToUpdateGpuUtil
    case TrainingEnded => ToTrainingEnded
    case SessionStopped => ToSessionStopped
    case _ => UnknownEvent(ErrUnknownEventType(name))
  }

  /** The fixed options of an "execute_request" and the resource request it carries. */
  datatype ExecuteArgs = ExecuteArgs(
    silent: bool, storeHistory: bool, allowStdin: bool, stopOnError: bool,
    awaitResponse: bool, resourceRequest: ResourceRequest)

  /**
   * createExecuteRequestArguments: only a training-started event yields
   * arguments. The GPU count is the current training's maximum, falling back
   * to the session's GPUs when that maximum is 0.
   */
  function CreateExecuteRequestArguments(evt: Event): (r: Option<ExecuteArgs>)
    ensures r.Some? <==> evt.name == TrainingStarted
    ensures r.Some? ==> var rr := r.value.resourceRequest;
              && rr.cpus == evt.data.currentTrainingMaxCpus
              && rr.memoryMb == evt.data.currentTrainingMaxMemory
              && rr.vram == evt.data.vram
              && (evt.data.currentTrainingMaxGpus != 0 ==> rr.gpus == evt.data.currentTrainingMaxGpus)
              && (evt.data.currentTrainingMaxGpus == 0 && evt.data.gpus > 0 ==> rr.gpus == evt.data.gpus)
              && (evt.data.currentTrainingMaxGpus == 0 && evt.data.gpus <= 0 ==> rr.gpus == 0)
    ensures r.Some? ==>
              !r.value.silent && r.value.storeHistory && r.value.allowStdin
              && !r.value.stopOnError && !r.value.awaitResponse
  {
    if evt.name != TrainingStarted then None
    else
      var md := evt.data;
      var gpus := if md.currentTrainingMaxGpus == 0 && md.gpus > 0 then md.gpus else md.currentTrainingMaxGpus;
      Some(ExecuteArgs(false, true, true, false, false,
                       ResourceRequest(md.currentTrainingMaxCpus, md.currentTrainingMaxMemory, md.vram, gpus)))
  }

  /** The GPU count requested is never below the training's own maximum when that is positive. */
  lemma ExecuteArgsGpusAtLeastTraining(evt: Event)
    requires evt.name == TrainingStarted && evt.data.currentTrainingMaxGpus >= 0
    ensures CreateExecuteRequestArguments(evt).value.resourceRequest.gpus >= evt.data.currentTrainingMaxGpus
    ensures CreateExecuteRequestArguments(evt).value.resourceRequest.gpus >= 0
  {
  }

  // ---------------------------------------------------------------------------
  // The driver.

  class BasicWorkloadDriver {
    /** The driver's id, which its workload also takes. */
    const id: string
    /** The keys of the workload presets the driver knows. */
    const presetKeys: set<string>

    /** The registered workload; null until a registration succeeds. */
    var workload: DomainWorkload.BasicWorkload?
    /** The last registration request seen, stored even when it then fails. */
    var registrationRequest: Option<RegistrationRequest>
    var paused: bool

    ghost predicate Valid()
      reads this, workload
    {
      LetterWord(id) && (workload != null ==> workload.Valid() && workload.id == id)
    }

    /** A driver with the given (generated) id and no workload. */
    constructor (id: string, presetKeys: set<string>)
      requires LetterWord(id)
      ensures Valid() && this.id == id && this.presetKeys == presetKeys
      ensures workload == null && registrationRequest.None? && !paused
    {
      this.id := id;
      this.presetKeys := presetKeys;
      workload := null;
      registrationRequest := None;
      paused := false;
    }

    /** getInternalSessionId: the trace session id, a '-', then the driver id. */
    function InternalSessionId(traceSessionId: string): (r: string)
      ensures |r| == |traceSessionId| + 1 + |id|
      ensures r[..|traceSessionId|] == traceSessionId && r[|traceSessionId|] == '-'
      ensures r[|traceSessionId| + 1..] == id
    {
      traceSessionId + "-" + id
    }

    /**
     * getOriginalSessionIdFromInternalSessionId: everything before the last
     * '-'. Without any '-' the slice bound is -1 and the source panics; that
     * is None here.
     */
    function OriginalSessionId(internalSessionId: string): (r: Option<string>)
      ensures r.None? <==> '-' !in internalSessionId
      ensures r.Some? ==>
                |r.value| < |internalSessionId|
                && internalSessionId[..|r.value|] == r.value
                && internalSessionId[|r.value|] == '-'
                && '-' !in internalSessionId[|r.value| + 1..]
    {
      var rightIndex := LastIndex(internalSessionId, '-');
      if rightIndex == -1 then None else Some(internalSessionId[..rightIndex])
    }

    /** Decoding an internal id gives back the trace id, because the driver id has no '-'. */
    lemma SessionIdRoundTrip(traceSessionId: string)
      requires Valid()
      ensures OriginalSessionId(InternalSessionId(traceSessionId)) == Some(traceSessionId)
    {
      LetterWordHasNoDash(id);
      var s := InternalSessionId(traceSessionId);
      assert s[|traceSessionId|] == '-';
      assert s[|traceSessionId| + 1..] == id;
      assert s[..|traceSessionId|] == traceSessionId;
    }

    /**
     * Shared last part of a successful registration: build the workload with
     * the driver's id and the request's settings (the sample percentage only
     * for presets), then draw a seed when the requested one is negative.
     */
    method Install(req: RegistrationRequest, kind: WorkloadKind, randomSeed: int)
      requires Valid() && workload == null && DrawnSeed(randomSeed)
      modifies this
      ensures Valid() && workload != null && fresh(workload)
      ensures workload.name == req.workloadName && workload.state == Ready
      ensures workload.seed == EffectiveSeed(req.seed, randomSeed) && workload.seedSet == (req.seed < 0)
      ensures workload.debugLoggingEnabled == req.debugLogging
      ensures workload.timescaleAdjustmentFactor == req.timescaleAdjustmentFactor
      ensures workload.sessionsSamplePercentage == if kind == PresetKind then req.sampleSessionsPercent else 1.0
      ensures workload.eventsProcessed == [] && workload.sampledSessions == {} && workload.unsampledSessions == {}
      ensures registrationRequest == old(registrationRequest) && paused == old(paused)
    {
      var b := new DomainWorkload.WorkloadBuilder();
      b.SetId(id);
      b.SetWorkloadName(req.workloadName);
      b.SetSeed(req.seed);
      b.EnableDebugLogging(req.debugLogging);
      b.SetTimescaleAdjustmentFactor(req.timescaleAdjustmentFactor);
      if kind == PresetKind {
        b.SetSessionsSamplePercentage(req.sampleSessionsPercent);
      }
      var w := b.Build();
      if req.seed < 0 {
        var _ := w.SetSeed(randomSeed);
      }
      workload := w;
    }

    /**
     * RegisterWorkload as written. No creation failure returns its error:
     * an unsupported type logs the name of the still-nil workload and so
     * dereferences nil; a failed preset creation reaches the "workload should
     * not be nil" panic before the error is checked; and a failed template
     * creation returns a typed nil pointer, which the interface variable
     * holds as non-nil, so the first GetId call on it dereferences nil.
     */
    method RegisterWorkloadAsWritten(req: RegistrationRequest, sourceError: Option<string>, randomSeed: int)
      returns (r: RegisterOutcome)
      requires Valid() && DrawnSeed(randomSeed)
      modifies this
      ensures Valid()
      ensures old(workload) != null ==>
                r == RegisterFailed(ErrWorkloadAlreadyRegistered)
                && workload == old(workload) && registrationRequest == old(registrationRequest)
      ensures old(workload) == null ==> registrationRequest == Some(req)
      ensures old(workload) == null && KindOf(req.workloadType) == UnsupportedKind ==> r == RegisterPanicked(NilPointerDereference)
      ensures (old(workload) == null && KindOf(req.workloadType) == PresetKind
               && CreationError(presetKeys, req, sourceError).Some?) ==> r == RegisterPanicked(NilWorkloadPanic)
      ensures (old(workload) == null && KindOf(req.workloadType) == TemplateKind
               && CreationError(presetKeys, req, sourceError).Some?) ==> r == RegisterPanicked(NilPointerDereference)
      ensures r == Registered <==> old(workload) == null && CreationError(presetKeys, req, sourceError).None?
      ensures r != Registered ==> workload == old(workload)
      ensures paused == old(paused)
    {
      if workload != null {
        return RegisterFailed(ErrWorkloadAlreadyRegistered);
      }
      registrationRequest := Some(req);
      var kind := KindOf(req.workloadType);
      if kind == UnsupportedKind {
        return RegisterPanicked(NilPointerDereference);
      }
      var err := CreationError(presetKeys, req, sourceError);
      if err.Some? && kind == PresetKind {
        return RegisterPanicked(NilWorkloadPanic);
      }
      if err.Some? {
        return RegisterPanicked(NilPointerDereference);
      }
      Install(req, kind, randomSeed);
      return Registered;
    }

    /**
     * RegisterWorkload with every creation failure returned as its error: a
     * second registration is refused, a failed one leaves no workload, and a
     * successful one installs a Ready workload carrying the driver's id and a
     * seed that is the requested one or, for a negative request, a drawn one
     * in [0, 2147483647).
     */
    method RegisterWorkload(req: RegistrationRequest, sourceError: Option<string>, randomSeed: int)
      returns (r: RegisterOutcome)
      requires Valid() && DrawnSeed(randomSeed)
      modifies this
      ensures Valid()
      ensures !r.RegisterPanicked?
      ensures old(workload) != null ==>
                r == RegisterFailed(ErrWorkloadAlreadyRegistered)
                && workload == old(workload) && registrationRequest == old(registrationRequest)
      ensures old(workload) == null ==> registrationRequest == Some(req)
      ensures (old(workload) == null && CreationError(presetKeys, req, sourceError).Some?) ==>
                r == RegisterFailed(CreationError(presetKeys, req, sourceError).value) && workload == null
      ensures r == Registered <==> old(workload) == null && CreationError(presetKeys, req, sourceError).None?
      ensures r == Registered ==>
                workload != null && fresh(workload) && workload.id == id
                && workload.name == req.workloadName && workload.state == Ready
                && workload.seed == EffectiveSeed(req.seed, randomSeed)
                && (req.seed < 0 ==> 0 <= workload.seed < MaxUserSeed)
                && workload.eventsProcessed == []
      ensures paused == old(paused)
    {
      if workload != null {
        return RegisterFailed(ErrWorkloadAlreadyRegistered);
      }
      registrationRequest := Some(req);
      var err := CreationError(presetKeys, req, sourceError);
      if err.Some? {
        return RegisterFailed(err.value);
      }
      Install(req, KindOf(req.workloadType), randomSeed);
      return Registered;
    }

    /**
     * PauseWorkload: refused when the flag is already set. Otherwise the flag
     * is set before the workload is asked to start pausing, so it stays set
     * even when the workload refuses.
     */
    method PauseWorkload() returns (err: Option<DriverError>)
      requires Valid() && workload != null
      modifies this, workload
      ensures Valid() && workload == old(workload) && paused
      ensures old(paused) ==> err == Some(ErrWorkloadAlreadyPaused) && workload.View() == old(workload.View())
      ensures !old(paused) && SetPausingFrom(old(workload.state)).Err? ==>
                err == Some(ErrWorkload(ErrWorkloadNotPaused)) && workload.View() == old(workload.View())
      ensures !old(paused) && SetPausingFrom(old(workload.state)).Ok? ==>
                err.None? && workload.View() == old(workload.View()).(state := Pausing)
      ensures registrationRequest == old(registrationRequest)
    {
      if paused {
        return Some(ErrWorkloadAlreadyPaused);
      }
      paused := true;
      var e := workload.SetPausing();
      if e.Some? {
        return Some(ErrWorkload(e.value));
      }
      return None;
    }

    /**
     * UnpauseWorkload: refused when the flag is clear; otherwise it only
     * clears the flag, since the workload itself is unpaused later by the
     * ticking loop.
     */
    method UnpauseWorkload() returns (err: Option<DriverError>)
      requires Valid() && workload != null
      modifies this
      ensures Valid() && workload == old(workload) && !paused
      ensures err.Some? <==> !old(paused)
      ensures err.Some? ==> err.value == ErrWorkloadAlreadyUnpaused
      ensures registrationRequest == old(registrationRequest)
    {
      if !paused {
        return Some(ErrWorkloadAlreadyUnpaused);
      }
      paused := false;
      return None;
    }
  }

  /**
   * NewBasicWorkloadDriver: a driver whose id is GenerateWorkloadID(8). None
   * when the supplied random words run out.
   */
  method NewBasicWorkloadDriver(words: seq<int>, presetKeys: set<string>) returns (d: BasicWorkloadDriver?)
    requires forall k :: 0 <= k < |words| ==> 0 <= words[k] < Int63Bound
    ensures d != null ==> fresh(d) && d.Valid() && |d.id| == 8 && d.workload == null && !d.paused
    ensures d != null ==> d.presetKeys == presetKeys
  {
    var id := GenerateWorkloadID(8, words);
    if id.None? {
      return null;
    }
    d := new BasicWorkloadDriver(id.value, presetKeys);
  }

  /**
   * An unsupported type panics as written but is refused with
   * ErrUnsupportedWorkloadType once the error is returned.
   */
  method UnsupportedTypeAsWritten() returns (asWritten: RegisterOutcome, corrected: RegisterOutcome)
    ensures asWritten == RegisterPanicked(NilPointerDereference)
    ensures corrected == RegisterFailed(ErrUnsupportedWorkloadType("trace"))
  {
    var req := RegistrationRequest("trace", "", "w", 7, false, 1.0, 1.0, false);
    LettersMakeLetterWord("abc");
    var d1 := new BasicWorkloadDriver("abc", {});
    asWritten := d1.RegisterWorkloadAsWritten(req, None, 0);
    var d2 := new BasicWorkloadDriver("abc", {});
    corrected := d2.RegisterWorkload(req, None, 0);
  }

  /**
   * A preset key the driver does not know panics as written, but is refused
   * with ErrWorkloadPresetNotFound once the error is checked first.
   */
  method MissingPresetAsWritten() returns (asWritten: RegisterOutcome, corrected: RegisterOutcome)
    ensures asWritten == RegisterPanicked(NilWorkloadPanic)
    ensures corrected == RegisterFailed(ErrWorkloadPresetNotFound)
  {
    var req := RegistrationRequest("Preset", "missing", "w", 7, false, 1.0, 1.0, false);
    LettersMakeLetterWord("abc");
    var d1 := new BasicWorkloadDriver("abc", {"known"});
    asWritten := d1.RegisterWorkloadAsWritten(req, None, 0);
    var d2 := new BasicWorkloadDriver("abc", {"known"});
    corrected := d2.RegisterWorkload(req, None, 0);
  }

  /** "template" selects a template registration. */
  lemma TemplateSpelling()
    ensures KindOf("template") == TemplateKind
  {
    ToLowerKeepsLower("template");
  }

  /**
   * A template request without sessions dereferences a typed nil pointer as
   * written, but is refused with ErrWorkloadRegistrationMissingTemplate once
   * the creation error is returned.
   */
  method MissingTemplateAsWritten() returns (asWritten: RegisterOutcome, corrected: RegisterOutcome)
    ensures asWritten == RegisterPanicked(NilPointerDereference)
    ensures corrected == RegisterFailed(ErrWorkloadRegistrationMissingTemplate)
  {
    var req := RegistrationRequest("template", "", "w", 7, false, 1.0, 1.0, false);
    TemplateSpelling();
    LettersMakeLetterWord("abc");
    var d1 := new BasicWorkloadDriver("abc", {});
    asWritten := d1.RegisterWorkloadAsWritten(req, None, 0);
    var d2 := new BasicWorkloadDriver("abc", {});
    corrected := d2.RegisterWorkload(req, None, 0);
  }
}
