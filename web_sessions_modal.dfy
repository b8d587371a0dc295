/**
 * The web front end's multi-session template modal: the session tabs (close,
 * add, select), the title and seed fields, the timescale check, the nested
 * GPU-utilisation array, and the validators that check one column of
 * per-session values (`number[] | ''`) across every open tab.
 */
module WebSessionsModal {
  import opened Wrappers
  import opened FormValidation
  import opened TemplateSessions
  import opened WebSessionValidation
  import opened GoStrconv

  /** One column of per-session values: '' or an array indexed by session. */
  datatype Column = Missing | Values(vs: seq<real>)

  /**
   * `column[i]`: an index past the array's end (or into '') reads undefined,
   * which compares like NaN.
   */
  function At(c: Column, i: int): (r: NumberField)
    ensures r.Num? <==> c.Values? && 0 <= i < |c.vs|
    ensures r.Num? ==> r.v == c.vs[i]
  {
    if c.Values? && 0 <= i < |c.vs| then Num(c.vs[i]) else NaN
  }

  /** The modal's per-session columns. */
  datatype SessionColumns = SessionColumns(
    sessionStart: Column,
    sessionStop: Column,
    trainingStart: Column,
    duration: Column,
    cpu: Column,
    memory: Column,
    numberOfGpus: Column)

  /** The ticks of session i, read from the four tick columns. */
  function TimelineAt(c: SessionColumns, i: int): Timeline
  {
    Timeline(At(c.sessionStart, i), At(c.sessionStop, i), At(c.trainingStart, i), At(c.duration, i))
  }

  /** The columns the modal opens with: one session, start 1, stop 6, training at 2 for 2 ticks. */
  const DefaultColumns: SessionColumns :=
    SessionColumns(Values([1.0]), Values([6.0]), Values([2.0]), Values([2.0]), Values([10.0]), Values([0.25]), Values([1.0]))

  /** The timescale factor the modal opens with. */
  const TimeAdjustmentFactorDefault: real := 0.1

  // ---------------------------------------------------------------------
  // The per-session bounds, as the loops test them
  // ---------------------------------------------------------------------

  /** `start < 0 || start >= trainingStart || start >= stop`. */
  predicate StartViolation(t: Timeline)
  {
    Less(t.sessionStart, Num(0.0)) || GreaterEq(t.sessionStart, t.trainingStart) || GreaterEq(t.sessionStart, t.sessionStop)
  }

  /** `stop < 0 || trainingStart >= stop || start >= stop || trainingStart + duration >= stop`. */
  predicate StopViolation(t: Timeline)
  {
    || Less(t.sessionStop, Num(0.0)) || GreaterEq(t.trainingStart, t.sessionStop)
    || GreaterEq(t.sessionStart, t.sessionStop) || GreaterEq(TrainingEnd(t), t.sessionStop)
  }

  /** `trainingStart < 0 || start >= trainingStart || trainingStart >= stop || trainingStart + duration >= stop`. */
  predicate TrainingStartViolation(t: Timeline)
  {
    || Less(t.trainingStart, Num(0.0)) || GreaterEq(t.sessionStart, t.trainingStart)
    || GreaterEq(t.trainingStart, t.sessionStop) || GreaterEq(TrainingEnd(t), t.sessionStop)
  }

  /** `duration < 0 || trainingStart + duration >= stop`. */
  predicate DurationViolation(t: Timeline)
  {
    Less(t.duration, Num(0.0)) || GreaterEq(TrainingEnd(t), t.sessionStop)
  }

  /** `value < lo || value > hi`. */
  predicate OutOfRange(f: NumberField, lo: real, hi: real)
  {
    Less(f, Num(lo)) || Less(Num(hi), f)
  }

  /** On four numbers, a violation is exactly the failure of the single-session check. */
  lemma ViolationsOfNumbers(t: Timeline)
    requires t.sessionStart.Num? && t.sessionStop.Num? && t.trainingStart.Num? && t.duration.Num?
    ensures StartViolation(t) <==> !StartInOrder(t)
    ensures StopViolation(t) <==> !StopInOrder(t)
    ensures TrainingStartViolation(t) <==> !TrainingStartInOrder(t)
    ensures DurationViolation(t) <==> !DurationInOrder(t)
  {
  }

  /**
   * A session past the end of every tick array is never flagged: undefined
   * fails every comparison, so the loops let it through.
   */
  lemma MissingSessionNeverViolates(c: SessionColumns, i: int)
    requires c.sessionStart.Values? && c.sessionStop.Values? && c.trainingStart.Values? && c.duration.Values?
    requires i >= |c.sessionStart.vs| && i >= |c.sessionStop.vs| && i >= |c.trainingStart.vs| && i >= |c.duration.vs|
    ensures !StartViolation(TimelineAt(c, i)) && !StopViolation(TimelineAt(c, i))
    ensures !TrainingStartViolation(TimelineAt(c, i)) && !DurationViolation(TimelineAt(c, i))
    ensures SessionStartValidation(TimelineAt(c, i)) == Error
  {
  }

  // ---------------------------------------------------------------------
  // The verdicts of the validators over n sessions
  // ---------------------------------------------------------------------

  /** Which per-session bound a validator's loop tests. */
  datatype Check = StartCheck | StopCheck | TrainingStartCheck | DurationCheck | CpuCheck | MemoryCheck | GpuCountCheck

  /** Does session i break the bound `check` tests? */
  predicate Violates(check: Check, c: SessionColumns, i: int)
  {
    match check
    case StartCheck => StartViolation(TimelineAt(c, i))
    case StopCheck => StopViolation(TimelineAt(c, i))
    case TrainingStartCheck => TrainingStartViolation(TimelineAt(c, i))
    case DurationCheck => DurationViolation(TimelineAt(c, i))
    case CpuCheck => OutOfRange(At(c.cpu, i), 0.0, MaxCpuPercent)
    case MemoryCheck => OutOfRange(At(c.memory, i), 0.0, MaxMemoryGb)
    case GpuCountCheck => OutOfRange(At(c.numberOfGpus, i), 0.0, MaxGpus)
  }

  /** Does some session below n break the bound? */
  predicate SomeViolates(check: Check, c: SessionColumns, n: nat)
  {
    exists i :: 0 <= i < n && Violates(check, c, i)
  }

  /** validateSessionStartTickInput. */
  function SessionStartVerdict(c: SessionColumns, n: nat): Validated
  {
    if c.sessionStart.Missing? then Error
    else if c.trainingStart.Missing? || c.sessionStop.Missing? then Warning
    else if SomeViolates(StartCheck, c, n) then Error
    else Success
  }

  /** validateSessionStartStopInput. */
  function SessionStopVerdict(c: SessionColumns, n: nat): Validated
  {
    if c.sessionStop.Missing? then Error
    else if c.sessionStart.Missing? || c.trainingStart.Missing? || c.duration.Missing? then Warning
    else if SomeViolates(StopCheck, c, n) then Error
    else Success
  }

  /** validateTrainingStartTickInput as written: both outcomes of its loop are 'success'. */
  function TrainingStartVerdictAsWritten(c: SessionColumns, n: nat): (r: Validated)
    ensures r == TrainingStartVerdict(c, n) || (r == Success && TrainingStartVerdict(c, n) == Error)
    ensures r == Success <==>
              !c.sessionStart.Missing? && !c.sessionStop.Missing? && !c.trainingStart.Missing? && !c.duration.Missing?
  {
    if c.trainingStart.Missing? then Error
    else if c.sessionStart.Missing? || c.sessionStop.Missing? || c.duration.Missing? then Warning
    else Success
  }

  /** validateTrainingStartTickInput as intended: a violating session is an error. */
  function TrainingStartVerdict(c: SessionColumns, n: nat): Validated
  {
    if c.trainingStart.Missing? then Error
    else if c.sessionStart.Missing? || c.sessionStop.Missing? || c.duration.Missing? then Warning
    else if SomeViolates(TrainingStartCheck, c, n) then Error
    else Success
  }

  /** validateTrainingDurationInTicksInput. */
  function DurationVerdict(c: SessionColumns, n: nat): Validated
  {
    if c.duration.Missing? then Error
    else if c.sessionStart.Missing? || c.sessionStop.Missing? || c.trainingStart.Missing? then Warning
    else if SomeViolates(DurationCheck, c, n) then Error
    else Success
  }

  /** validateTrainingCpuInput and validateTrainingMemoryUsageInput: '' or a value out of range is an error. */
  function ResourceVerdict(col: Column, check: Check, c: SessionColumns, n: nat): Validated
  {
    if col.Missing? then Error
    else if SomeViolates(check, c, n) then Error
    else Success
  }

  /** validateNumberOfGpusInput: '' is an error, a count out of [0, 8] only a warning. */
  function GpuCountVerdict(c: SessionColumns, n: nat): Validated
  {
    if c.numberOfGpus.Missing? then Error
    else if SomeViolates(GpuCountCheck, c, n) then Warning
    else Success
  }

  /** Every column holds an entry for each of the first n sessions. */
  predicate TicksCover(c: SessionColumns, n: nat)
  {
    && c.sessionStart.Values? && c.sessionStop.Values? && c.trainingStart.Values? && c.duration.Values?
    && n <= |c.sessionStart.vs| && n <= |c.sessionStop.vs| && n <= |c.trainingStart.vs| && n <= |c.duration.vs|
  }

  /**
   * With an entry for every session, each (intended) tick validator of the
   * modal succeeds exactly when the single-session validator succeeds on
   * every session's ticks.
   */
  lemma VerdictsAgreeWithSingleSession(c: SessionColumns, n: nat)
    requires TicksCover(c, n)
    ensures SessionStartVerdict(c, n) == Success <==> forall i :: 0 <= i < n ==> SessionStartValidation(TimelineAt(c, i)) == Success
    ensures SessionStopVerdict(c, n) == Success <==> forall i :: 0 <= i < n ==> SessionStopValidation(TimelineAt(c, i)) == Success
    ensures TrainingStartVerdict(c, n) == Success <==> forall i :: 0 <= i < n ==> TrainingStartValidation(TimelineAt(c, i)) == Success
    ensures DurationVerdict(c, n) == Success <==> forall i :: 0 <= i < n ==> DurationValidation(TimelineAt(c, i)) == Success
  {
    forall i | 0 <= i < n
      ensures Violates(StartCheck, c, i) <==> SessionStartValidation(TimelineAt(c, i)) != Success
      ensures Violates(StopCheck, c, i) <==> SessionStopValidation(TimelineAt(c, i)) != Success
      ensures Violates(TrainingStartCheck, c, i) <==> TrainingStartValidation(TimelineAt(c, i)) != Success
      ensures Violates(DurationCheck, c, i) <==> DurationValidation(TimelineAt(c, i)) != Success
    {
      SessionViolationMeansFailure(c, i);
    }
  }

  /** For a session with all four ticks, each bound is broken exactly when its single-session validator fails. */
  lemma SessionViolationMeansFailure(c: SessionColumns, i: int)
    requires TimelineAt(c, i).sessionStart.Num? && TimelineAt(c, i).sessionStop.Num?
    requires TimelineAt(c, i).trainingStart.Num? && TimelineAt(c, i).duration.Num?
    ensures Violates(StartCheck, c, i) <==> SessionStartValidation(TimelineAt(c, i)) != Success
    ensures Violates(StopCheck, c, i) <==> SessionStopValidation(TimelineAt(c, i)) != Success
    ensures Violates(TrainingStartCheck, c, i) <==> TrainingStartValidation(TimelineAt(c, i)) != Success
    ensures Violates(DurationCheck, c, i) <==> DurationValidation(TimelineAt(c, i)) != Success
  {
    ViolationsOfNumbers(TimelineAt(c, i));
  }

  /** With every entry present, all four tick validators succeed exactly when every session's timeline is ordered. */
  lemma VerdictsMeanOrderedSessions(c: SessionColumns, n: nat)
    requires TicksCover(c, n)
    ensures (SessionStartVerdict(c, n) == Success && SessionStopVerdict(c, n) == Success
             && TrainingStartVerdict(c, n) == Success && DurationVerdict(c, n) == Success)
            <==> forall i :: 0 <= i < n ==> Ordered(TimelineAt(c, i))
  {
    VerdictsAgreeWithSingleSession(c, n);
    forall i | 0 <= i < n
      ensures Ordered(TimelineAt(c, i)) <==>
        (SessionStartValidation(TimelineAt(c, i)) == Success && SessionStopValidation(TimelineAt(c, i)) == Success
         && TrainingStartValidation(TimelineAt(c, i)) == Success && DurationValidation(TimelineAt(c, i)) == Success)
    {
      TickValidatorsAgreeWithOrder(TimelineAt(c, i));
    }
  }

  /**
   * With an entry for every session, the CPU and memory validators succeed
   * exactly when every session's value passes the single-session check, and
   * the GPU-count validator exactly when every count does.
   */
  lemma ResourceVerdictsAgreeWithSingleSession(c: SessionColumns, n: nat)
    requires c.cpu.Values? && c.memory.Values? && c.numberOfGpus.Values?
    requires n <= |c.cpu.vs| && n <= |c.memory.vs| && n <= |c.numberOfGpus.vs|
    ensures ResourceVerdict(c.cpu, CpuCheck, c, n) == Success <==> forall i :: 0 <= i < n ==> CpuValidation(At(c.cpu, i)) == Success
    ensures ResourceVerdict(c.memory, MemoryCheck, c, n) == Success <==> forall i :: 0 <= i < n ==> MemoryValidation(At(c.memory, i)) == Success
    ensures GpuCountVerdict(c, n) == Success <==> forall i :: 0 <= i < n ==> GpuCountValidation(At(c.numberOfGpus, i)) == Success
  {
    forall i | 0 <= i < n
      ensures Violates(CpuCheck, c, i) <==> CpuValidation(At(c.cpu, i)) != Success
      ensures Violates(MemoryCheck, c, i) <==> MemoryValidation(At(c.memory, i)) != Success
      ensures Violates(GpuCountCheck, c, i) <==> GpuCountValidation(At(c.numberOfGpus, i)) != Success
    {
    }
  }

  // ---------------------------------------------------------------------
  // The loop the validators share
  // ---------------------------------------------------------------------

  /** `for (i = 0; i < sessionTabs.length; i++) if (<bound broken>) ...`. */
  method SomeSessionViolates(check: Check, c: SessionColumns, n: nat) returns (found: bool)
    ensures found <==> SomeViolates(check, c, n)
  {
    var i := 0;
    while i < n
      invariant 0 <= i <= n
      invariant forall k :: 0 <= k < i ==> !Violates(check, c, k)
    {
      if Violates(check, c, i) {
        return true;
      }
      i := i + 1;
    }
    return false;
  }

  /** The workload sent to onConfirm identifies its session by the typed id, or the placeholder UUID when empty. */
  function SessionIdentifier(sessionId: string, defaultSessionId: string): (r: string)
    ensures sessionId != "" ==> r == sessionId
    ensures sessionId == "" ==> r == defaultSessionId
  {
    if |sessionId| == 0 then defaultSessionId else sessionId
  }

  /**
   * `row[gpuIndex] = u` on a JavaScript array: a negative index sets a
   * property and leaves the elements alone, an index past the end grows the
   * array with holes (undefined, written NaN).
   */
  function WrittenRow(row: seq<NumberField>, gpuIndex: int, u: real): (r: seq<NumberField>)
    ensures gpuIndex < 0 ==> r == row
    ensures gpuIndex >= 0 ==> |r| == if gpuIndex < |row| then |row| else gpuIndex + 1
    ensures gpuIndex >= 0 ==> r[gpuIndex] == Num(u)
    ensures forall j :: 0 <= j < |row| && j != gpuIndex ==> r[j] == row[j]
    ensures forall j :: |row| <= j < |r| && j != gpuIndex ==> r[j] == NaN
  {
    if gpuIndex < 0 then row
    else if gpuIndex < |row| then row[gpuIndex := Num(u)]
    else row + seq(gpuIndex - |row|, _ => NaN) + [Num(u)]
  }

  /** `tabs.filter((tab, index) => index !== k)`. */
  function RemoveAt<T>(s: seq<T>, k: int): (r: seq<T>)
    ensures 0 <= k < |s| ==> |r| == |s| - 1
    ensures !(0 <= k < |s|) ==> r == s
    ensures 0 <= k < |s| ==> forall i :: 0 <= i < |r| ==> r[i] == if i < k then s[i] else s[i + 1]
  {
    if 0 <= k < |s| then s[..k] + s[k + 1..] else s
  }

  /** The tab onCloseSessionTab selects after closing tab k of n while tab a is selected. */
  function NextActiveTab(a: int, n: nat, k: int): (r: int)
    ensures 0 <= k < n && 0 <= a < n && k != a ==> 0 <= r < n - 1 && r == (if k < a then a - 1 else a)
    ensures 0 <= k < n && 0 <= a < n && n > 1 ==> 0 <= r < n - 1
    ensures !(0 <= k < n) && 0 <= a < n ==> 0 <= r < n
  {
    if k < a then (if a - 1 > 0 then a - 1 else 0)
    else if a == n - 1 then (if n - 2 > 0 then n - 2 else 0)
    else a
  }

  /** Closing a tab other than the selected one keeps the selection on the same tab. */
  lemma CloseKeepsSelectedTab<T>(tabs: seq<T>, a: int, k: int)
    requires 0 <= k < |tabs| && 0 <= a < |tabs| && k != a
    ensures RemoveAt(tabs, k)[NextActiveTab(a, |tabs|, k)] == tabs[a]
  {
    var r := NextActiveTab(a, |tabs|, k);
    assert RemoveAt(tabs, k)[r] == if r < k then tabs[r] else tabs[r + 1];
  }

  /** Numbers that rise from left to right, all below `bound`. */
  ghost predicate RisingBelow(ns: seq<nat>, bound: nat)
  {
    && (forall i, j :: 0 <= i < j < |ns| ==> ns[i] < ns[j])
    && (forall i :: 0 <= i < |ns| ==> ns[i] < bound)
  }

  /** Titles that are "Session k" for the numbers in ns. */
  ghost predicate TitledBy(tabs: seq<string>, ns: seq<nat>)
  {
    |tabs| == |ns| && forall i :: 0 <= i < |tabs| ==> tabs[i] == TabTitle(ns[i])
  }

  lemma RemoveAtKeepsRising(ns: seq<nat>, k: int, bound: nat)
    requires RisingBelow(ns, bound)
    ensures RisingBelow(RemoveAt(ns, k), bound)
  {
    if !(0 <= k < |ns|) {
      return;
    }
    var r := RemoveAt(ns, k);
    forall i, j | 0 <= i < j < |r|
      ensures r[i] < r[j]
    {
      var i' := if i < k then i else i + 1;
      var j' := if j < k then j else j + 1;
      assert r[i] == ns[i'] && r[j] == ns[j'] && i' < j';
    }
  }

  lemma RemoveAtKeepsTitles(tabs: seq<string>, ns: seq<nat>, k: int)
    requires TitledBy(tabs, ns)
    ensures TitledBy(RemoveAt(tabs, k), RemoveAt(ns, k))
  {
  }

  class NewWorkloadFromTemplateModal {
    var workloadTitle: string
    var workloadTitleIsValid: bool
    var seed: Seed
    var sessionId: string
    var sessionIdIsValid: bool
    var sessionTabs: seq<string>
    var activeSessionTab: int
    var newSessionTabNumber: nat
    /** The number in each tab's title. */
    ghost var tabNumbers: seq<nat>
    var columns: SessionColumns
    var timescale: NumberField
    var gpuUtilizations: seq<seq<NumberField>>

    /**
     * Every tab is titled "Session k" for its own number k, the numbers rise
     * from left to right and stay below the next number to hand out, and a
     * tab is selected whenever there is one.
     */
    ghost predicate Valid()
      reads this
    {
      && TitledBy(sessionTabs, tabNumbers)
      && RisingBelow(tabNumbers, newSessionTabNumber)
      && (sessionTabs != [] ==> 0 <= activeSessionTab < |sessionTabs|)
    }

    constructor()
      ensures Valid()
      ensures sessionTabs == ["Session 1"] && activeSessionTab == 0 && newSessionTabNumber == 2
      ensures columns == DefaultColumns && timescale == Num(TimeAdjustmentFactorDefault)
      ensures gpuUtilizations == [[Num(100.0), Num(0.0), Num(0.0), Num(0.0), Num(0.0), Num(0.0), Num(0.0), Num(0.0)]]
      ensures workloadTitle == "" && workloadTitleIsValid && seed == Seed("", true)
      ensures sessionId == "" && sessionIdIsValid
    {
      workloadTitle := "";
      workloadTitleIsValid := true;
      seed := Seed("", true);
      sessionId := "";
      sessionIdIsValid := true;
      sessionTabs := [TabTitle(1)];
      activeSessionTab := 0;
      newSessionTabNumber := 2;
      tabNumbers := [1];
      columns := SessionColumns(Values([1.0]), Values([6.0]), Values([2.0]), Values([2.0]),
                                Values([10.0]), Values([0.25]), Values([1.0]));
      timescale := Num(0.1);
      gpuUtilizations := [[Num(100.0), Num(0.0), Num(0.0), Num(0.0), Num(0.0), Num(0.0), Num(0.0), Num(0.0)]];
      new;
      assert TabTitle(1) == "Session 1" by {
        assert NatToDigits(1) == "1";
      }
    }

    /** No two tabs share a title. */
    lemma TabTitlesUnique()
      requires Valid()
      ensures forall i, j :: 0 <= i < j < |sessionTabs| ==> sessionTabs[i] != sessionTabs[j]
    {
      forall i, j | 0 <= i < j < |sessionTabs|
        ensures sessionTabs[i] != sessionTabs[j]
      {
        if sessionTabs[i] == sessionTabs[j] {
          TabTitleInjective(tabNumbers[i], tabNumbers[j]);
        }
      }
    }

    /** onSessionTabSelect. */
    method OnSessionTabSelect(tabIndex: int)
      modifies this`activeSessionTab
      ensures activeSessionTab == tabIndex
    {
      activeSessionTab := tabIndex;
    }

    /**
     * onCloseSessionTab: the closed tab goes; the selection follows its tab
     * when an earlier one closes, moves to the new last tab when the last
     * one was selected, and otherwise stays put.
     */
    method OnCloseSessionTab(tabIndex: int)
      requires Valid()
      modifies this`sessionTabs, this`activeSessionTab, this`tabNumbers
      ensures Valid()
      ensures sessionTabs == RemoveAt(old(sessionTabs), tabIndex)
      ensures activeSessionTab == NextActiveTab(old(activeSessionTab), |old(sessionTabs)|, tabIndex)
      ensures 0 <= tabIndex < |old(sessionTabs)| && tabIndex != old(activeSessionTab) ==>
        sessionTabs[activeSessionTab] == old(sessionTabs)[old(activeSessionTab)]
    {
      var n := |sessionTabs|;
      var next := activeSessionTab;
      if tabIndex < activeSessionTab {
        next := if activeSessionTab - 1 > 0 then activeSessionTab - 1 else 0;
      } else if activeSessionTab == n - 1 {
        next := if n - 2 > 0 then n - 2 else 0;
      }
      assert next == NextActiveTab(activeSessionTab, n, tabIndex);
      if 0 <= tabIndex < n && tabIndex != activeSessionTab {
        CloseKeepsSelectedTab(sessionTabs, activeSessionTab, tabIndex);
      }
      activeSessionTab := next;
      RemoveAtKeepsTitles(sessionTabs, tabNumbers, tabIndex);
      RemoveAtKeepsRising(tabNumbers, tabIndex, newSessionTabNumber);
      sessionTabs := RemoveAt(sessionTabs, tabIndex);
      tabNumbers := RemoveAt(tabNumbers, tabIndex);
    }

    /** onAddSessionTab: a new "Session k" tab at the end, selected, and k moves on. */
    method OnAddSessionTab()
      requires Valid()
      modifies this`sessionTabs, this`activeSessionTab, this`newSessionTabNumber, this`tabNumbers
      ensures Valid()
      ensures sessionTabs == old(sessionTabs) + [TabTitle(old(newSessionTabNumber))]
      ensures activeSessionTab == |old(sessionTabs)| && newSessionTabNumber == old(newSessionTabNumber) + 1
      ensures TabTitle(old(newSessionTabNumber)) !in old(sessionTabs)
    {
      forall i | 0 <= i < |sessionTabs|
        ensures sessionTabs[i] != TabTitle(newSessionTabNumber)
      {
        if sessionTabs[i] == TabTitle(newSessionTabNumber) {
          TabTitleInjective(tabNumbers[i], newSessionTabNumber);
        }
      }
      tabNumbers := tabNumbers + [newSessionTabNumber];
      sessionTabs := sessionTabs + [TabTitle(newSessionTabNumber)];
      activeSessionTab := |sessionTabs| - 1;
      newSessionTabNumber := newSessionTabNumber + 1;
    }

    /** handleWorkloadTitleChanged: any title of at most 36 characters is valid. */
    method HandleWorkloadTitleChanged(title: string)
      modifies this`workloadTitle, this`workloadTitleIsValid
      ensures workloadTitle == title && (workloadTitleIsValid <==> |title| <= MaxNameLength)
    {
      workloadTitle := title;
      workloadTitleIsValid := TitleIsValid(title);
    }

    /** handleSessionIdChanged: any id of at most 36 characters is valid. */
    method HandleSessionIdChanged(id: string)
      modifies this`sessionId, this`sessionIdIsValid
      ensures sessionId == id && (sessionIdIsValid <==> |id| <= MaxNameLength)
    {
      sessionId := id;
      sessionIdIsValid := TitleIsValid(id);
    }

    /** handleWorkloadSeedChanged. */
    method HandleWorkloadSeedChanged(input: string)
      modifies this`seed
      ensures seed == SeedChanged(old(seed), input)
    {
      seed := SeedChanged(seed, input);
    }

    /** validateTimescaleAdjustmentFactor: '' and NaN are errors, else (0, 10]. */
    method ValidateTimescaleAdjustmentFactor() returns (r: Validated)
      ensures r == Success <==> timescale.Num? && 0.0 < timescale.v <= 10.0
      ensures r == Success || r == Error
    {
      if timescale.Blank? || timescale.NaN? {
        return Error;
      }
      r := if timescale.v <= 0.0 || timescale.v > 10.0 then Error else Success;
    }

    /**
     * setGpuUtil(sessionIndex, gpuIndex, u): writes into the nested array in
     * place; a session index with no row throws (ok is false).
     */
    method SetGpuUtilization(sessionIndex: int, gpuIndex: int, u: real) returns (ok: bool)
      modifies this`gpuUtilizations
      ensures ok <==> 0 <= sessionIndex < |old(gpuUtilizations)|
      ensures ok ==> gpuUtilizations == old(gpuUtilizations)[sessionIndex := WrittenRow(old(gpuUtilizations)[sessionIndex], gpuIndex, u)]
      ensures ok && gpuIndex >= 0 ==> gpuUtilizations[sessionIndex][gpuIndex] == Num(u)
      ensures !ok ==> gpuUtilizations == old(gpuUtilizations)
    {
      if !(0 <= sessionIndex < |gpuUtilizations|) {
        return false;
      }
      gpuUtilizations := gpuUtilizations[sessionIndex := WrittenRow(gpuUtilizations[sessionIndex], gpuIndex, u)];
      ok := true;
    }

    /** validateGpuUtilInput(outer, inner): a row that does not exist throws (None). */
    method ValidateGpuUtilInput(outer: int, inner: int) returns (r: Option<Validated>)
      ensures r.None? <==> !(0 <= outer < |gpuUtilizations|)
      ensures r.Some? ==> (r.value == Success <==> GpuUtilValidation(gpuUtilizations[outer], inner) == Success)
      ensures r.Some? ==> r.value == Success || r.value == Error
    {
      if !(0 <= outer < |gpuUtilizations|) {
        return None;
      }
      var row := gpuUtilizations[outer];
      if 0 <= inner < |row| && GreaterEq(row[inner], Num(0.0)) && GreaterEq(Num(100.0), row[inner]) {
        return Some(Success);
      }
      return Some(Error);
    }

    method ValidateSessionStartTickInput() returns (r: Validated)
      ensures r == SessionStartVerdict(columns, |sessionTabs|)
    {
      var c := columns;
      if c.sessionStart.Missing? {
        return Error;
      }
      if c.trainingStart.Missing? || c.sessionStop.Missing? {
        return Warning;
      }
      var bad := SomeSessionViolates(StartCheck, c, |sessionTabs|);
      r := if bad then Error else Success;
    }

    method ValidateSessionStartStopInput() returns (r: Validated)
      ensures r == SessionStopVerdict(columns, |sessionTabs|)
    {
      var c := columns;
      if c.sessionStop.Missing? {
        return Error;
      }
      if c.sessionStart.Missing? || c.trainingStart.Missing? || c.duration.Missing? {
        return Warning;
      }
      var bad := SomeSessionViolates(StopCheck, c, |sessionTabs|);
      r := if bad then Error else Success;
    }

    method ValidateTrainingStartTickInputAsWritten() returns (r: Validated)
      ensures r == TrainingStartVerdictAsWritten(columns, |sessionTabs|)
    {
      var c := columns;
      if c.trainingStart.Missing? {
        return Error;
      }
      if c.sessionStart.Missing? || c.sessionStop.Missing? || c.duration.Missing? {
        return Warning;
      }
      var bad := SomeSessionViolates(TrainingStartCheck, c, |sessionTabs|);
      r := if bad then Success else Success;
    }

    method ValidateTrainingStartTickInput() returns (r: Validated)
      ensures r == TrainingStartVerdict(columns, |sessionTabs|)
    {
      var c := columns;
      if c.trainingStart.Missing? {
        return Error;
      }
      if c.sessionStart.Missing? || c.sessionStop.Missing? || c.duration.Missing? {
        return Warning;
      }
      var bad := SomeSessionViolates(TrainingStartCheck, c, |sessionTabs|);
      r := if bad then Error else Success;
    }

    method ValidateTrainingDurationInTicksInput() returns (r: Validated)
      ensures r == DurationVerdict(columns, |sessionTabs|)
    {
      var c := columns;
      if c.duration.Missing? {
        return Error;
      }
      if c.sessionStart.Missing? || c.sessionStop.Missing? || c.trainingStart.Missing? {
        return Warning;
      }
      var bad := SomeSessionViolates(DurationCheck, c, |sessionTabs|);
      r := if bad then Error else Success;
    }

    /** validateTrainingCpuInput: every session's CPU in [0, 100]. */
    method ValidateTrainingCpuInput() returns (r: Validated)
      ensures r == ResourceVerdict(columns.cpu, CpuCheck, columns, |sessionTabs|)
    {
      var col := columns.cpu;
      if col.Missing? {
        return Error;
      }
      var bad := SomeSessionViolates(CpuCheck, columns, |sessionTabs|);
      r := if bad then Error else Success;
    }

    /** validateTrainingMemoryUsageInput: every session's memory in [0, 128000] GB. */
    method ValidateTrainingMemoryUsageInput() returns (r: Validated)
      ensures r == ResourceVerdict(columns.memory, MemoryCheck, columns, |sessionTabs|)
    {
      var col := columns.memory;
      if col.Missing? {
        return Error;
      }
      var bad := SomeSessionViolates(MemoryCheck, columns, |sessionTabs|);
      r := if bad then Error else Success;
    }

    /** validateNumberOfGpusInput: '' is an error, a session outside [0, 8] a warning. */
    method ValidateNumberOfGpusInput() returns (r: Validated)
      ensures r == GpuCountVerdict(columns, |sessionTabs|)
    {
      var col := columns.numberOfGpus;
      if col.Missing? {
        return Error;
      }
      var bad := SomeSessionViolates(GpuCountCheck, columns, |sessionTabs|);
      r := if bad then Warning else Success;
    }
  }

  /**
   * A training that starts at tick 10 in a session that stops at tick 6:
   * the validator as written reports success, the intended one an error.
   */
  method TrainingAfterStopAsWritten() returns (asWritten: Validated, corrected: Validated)
    ensures asWritten == Success && corrected == Error
  {
    var modal := new NewWorkloadFromTemplateModal();
    modal.columns := modal.columns.(trainingStart := Values([10.0]));
    asWritten := modal.ValidateTrainingStartTickInputAsWritten();
    corrected := modal.ValidateTrainingStartTickInput();
    assert Violates(TrainingStartCheck, modal.columns, 0);
  }
}
