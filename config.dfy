/**
 * The decisions the workload configuration makes on already-parsed options
 * (internal/domain/config.go): per-resource trace steps that fall back to
 * the common step, month names cut to three lower-case letters, the
 * expansion of a trace path with a month placeholder into one path per month
 * of a cyclic January-to-December walk, and the comma-separated downtime
 * list.
 */
module WorkloadConfiguration {
  import opened Wrappers
  import opened GoStrings
  import GoStrconv

  /** Months in trace order. */
  const Months: seq<string> := ["jan", "feb", "mar", "apr", "may", "jun", "jul", "aug", "sep", "oct", "nov", "dec"]

  /**
   * fmt.Sprintf with a single string argument, for formats whose only verb
   * is %s: the first %s is replaced by the argument; a format without one
   * gets Go's "%!(EXTRA string=...)" note appended.
   */
  function Sprintf(format: string, arg: string): (r: string)
    ensures '%' !in format ==> r == format + "%!(EXTRA string=" + arg + ")"
  {
    if |format| < 2 then format + "%!(EXTRA string=" + arg + ")"
    else if format[0] == '%' && format[1] == 's' then arg + format[2..]
    else [format[0]] + Sprintf(format[1..], arg)
  }

  /** A path whose only percent sign is one placeholder receives the month in its place. */
  lemma {:induction false} SprintfFillsPlaceholder(prefix: string, suffix: string, arg: string)
    requires '%' !in prefix && '%' !in suffix
    ensures Sprintf(prefix + "%s" + suffix, arg) == prefix + arg + suffix
  {
    if prefix != [] {
      SprintfFillsPlaceholder(prefix[1..], suffix, arg);
      assert (prefix + "%s" + suffix)[1..] == prefix[1..] + "%s" + suffix;
    }
  }

  /** The position of a month name, or -1 when it is not one. */
  function MonthIndex(m: string): (i: int)
    ensures -1 <= i < |Months|
    ensures i == -1 <==> m !in Months
    ensures i >= 0 ==> Months[i] == m
  {
    if m == "jan" then 0 else if m == "feb" then 1 else if m == "mar" then 2
    else if m == "apr" then 3 else if m == "may" then 4 else if m == "jun" then 5
    else if m == "jul" then 6 else if m == "aug" then 7 else if m == "sep" then 8
    else if m == "oct" then 9 else if m == "nov" then 10 else if m == "dec" then 11
    else -1
  }

  /** The month a walk starts at: the named month, or January for a name that is not a month. */
  function StartMonth(fromMonth: string): (i: nat)
    ensures i < |Months|
    ensures fromMonth in Months ==> Months[i] == fromMonth
    ensures fromMonth !in Months ==> i == 0
  {
    if MonthIndex(fromMonth) == -1 then 0 else MonthIndex(fromMonth)
  }

  /** The number of paths: through toMonth, wrapping past December, or all twelve when toMonth is not a month. */
  function WalkLength(start: nat, toMonth: string): (n: nat)
    requires start < |Months|
    ensures 1 <= n <= |Months|
  {
    if toMonth in Months then ((MonthIndex(toMonth) - start) % 12) + 1 else 12
  }

  /** Month k of a walk from start. */
  function WalkMonth(start: nat, k: nat): (m: string)
    ensures m in Months && MonthIndex(m) == (start + k) % 12
  {
    MonthIndexOfMonth((start + k) % 12);
    Months[(start + k) % 12]
  }

  /** Month names are told apart by their position. */
  lemma MonthIndexOfMonth(i: nat)
    requires i < |Months|
    ensures MonthIndex(Months[i]) == i
  {
    if i < 6 {
      if i == 0 {} else if i == 1 {} else if i == 2 {} else if i == 3 {} else if i == 4 {} else {}
    } else {
      if i == 6 {} else if i == 7 {} else if i == 8 {} else if i == 9 {} else if i == 10 {} else {}
    }
  }

  /** Each month appears at most once in a walk. */
  lemma WalkMonthsDistinct(start: nat, j: nat, k: nat)
    requires start < 12 && j < k < 12
    ensures WalkMonth(start, j) != WalkMonth(start, k)
  {
    var a := if start + j < 12 then start + j else start + j - 12;
    var b := if start + k < 12 then start + k else start + k - 12;
    assert a == (start + j) % 12 && b == (start + k) % 12;
    assert a != b;
    MonthIndexOfMonth(a);
    MonthIndexOfMonth(b);
  }

  /** A walk of the full length ends with toMonth, when toMonth is a month. */
  lemma WalkEndsAtToMonth(start: nat, toMonth: string)
    requires start < 12
    ensures toMonth in Months ==> WalkMonth(start, WalkLength(start, toMonth) - 1) == toMonth
  {
    if toMonth in Months {
      var t := MonthIndex(toMonth);
      var d := (t - start) % 12;
      assert (start + d) % 12 == t by {
        if t >= start { assert d == t - start; } else { assert d == t - start + 12; }
      }
    }
  }

  /** A walk of twelve months that never meets toMonth shows it is no month at all. */
  lemma WalkMissesAbsentMonth(start: nat, toMonth: string)
    requires start < 12
    requires forall k :: 0 <= k < 12 ==> WalkMonth(start, k) != toMonth
    ensures toMonth !in Months && WalkLength(start, toMonth) == 12
  {
    WalkEndsAtToMonth(start, toMonth);
  }

  /** When the walk meets toMonth at step k, that is its last step. */
  lemma WalkStopsAtToMonth(start: nat, k: nat, toMonth: string)
    requires start < 12 && k < 12 && WalkMonth(start, k) == toMonth
    ensures toMonth in Months && WalkLength(start, toMonth) == k + 1
  {
    assert MonthIndex(Months[(start + k) % 12]) == (start + k) % 12;
    if start + k < 12 {
      assert MonthIndex(toMonth) == start + k;
    } else {
      assert MonthIndex(toMonth) == start + k - 12;
    }
  }

  /**
   * NormalizeDowntime: nothing (Go's nil) for an empty string, otherwise one
   * number per comma-separated field, as ParseInt reads it with its error
   * dropped.
   */
  method NormalizeDowntime(downtime: string) returns (downtimes: Option<seq<int>>)
    ensures downtime == "" <==> downtimes.None?
    ensures downtimes.Some? ==>
              |downtimes.value| == |Split(downtime, ',')|
              && forall i :: 0 <= i < |downtimes.value| ==>
                   downtimes.value[i] == GoStrconv.ParseInt(Split(downtime, ',')[i])
  {
    if downtime == "" {
      return None;
    }
    var startEnds := Split(downtime, ',');
    var values := seq(|startEnds|, _ => 0);
    var i := 0;
    while i < |startEnds|
      invariant 0 <= i <= |startEnds| && |values| == |startEnds|
      invariant forall k :: 0 <= k < i ==> values[k] == GoStrconv.ParseInt(startEnds[k])
    {
      values := values[i := GoStrconv.ParseInt(startEnds[i])];
      i := i + 1;
    }
    return Some(values);
  }

  /** A downtime list of plain numbers is read back exactly. */
  lemma DowntimeOfOneNumber(n: int)
    requires GoStrconv.MinInt64 <= n <= GoStrconv.MaxInt64
    ensures Split(GoStrconv.Itoa(n), ',') == [GoStrconv.Itoa(n)]
    ensures GoStrconv.ParseInt(Split(GoStrconv.Itoa(n), ',')[0]) == n
  {
    assert ',' !in GoStrconv.Itoa(n) by {
      if n < 0 {
        assert GoStrconv.Itoa(n)[1..] == GoStrconv.NatToDigits(-n);
        forall i | 0 <= i < |GoStrconv.Itoa(n)| ensures GoStrconv.Itoa(n)[i] != ',' {
          if i > 0 { assert GoStrconv.IsDigit(GoStrconv.Itoa(n)[1..][i - 1]); }
        }
      } else {
        assert GoStrconv.AllDigits(GoStrconv.Itoa(n));
      }
    }
    SplitWithoutSeparator(GoStrconv.Itoa(n), ',');
    GoStrconv.ParseIntItoa(n);
  }

  /**
   * A month option as CheckUsage leaves it: its first three characters in
   * lower case; shorter names panic. Go slices bytes here; month names are
   * ASCII, where a byte and a character are the same.
   */
  function NormalizeMonth(m: string): (r: Option<string>)
    ensures m == "" ==> r == Some("")
    ensures 0 < |m| < 3 ==> r.None?
    ensures |m| >= 3 ==> r.Some? && |r.value| == 3 && r.value == ToLower(m[..3])
  {
    if m == "" then Some("") else if |m| < 3 then None else Some(ToLower(m[..3]))
  }

  /** Normalising a month option a second time changes nothing. */
  lemma NormalizeMonthIdempotent(m: string)
    requires NormalizeMonth(m).Some?
    ensures NormalizeMonth(NormalizeMonth(m).value) == NormalizeMonth(m)
  {
    if |m| >= 3 {
      var r := NormalizeMonth(m).value;
      assert r[..3] == r;
      ToLowerIdempotent(m[..3]);
    }
  }

  /** The options CheckUsage finishes and the trace paths are built from. */
  class WorkloadConfig {
    var traceStep: int
    var gpuTraceStep: int
    var cpuTraceStep: int
    var memTraceStep: int
    var fromMonth: string
    var toMonth: string

    constructor (traceStep: int, gpuTraceStep: int, cpuTraceStep: int, memTraceStep: int,
                 fromMonth: string, toMonth: string)
      ensures this.traceStep == traceStep && this.gpuTraceStep == gpuTraceStep
      ensures this.cpuTraceStep == cpuTraceStep && this.memTraceStep == memTraceStep
      ensures this.fromMonth == fromMonth && this.toMonth == toMonth
    {
      this.traceStep := traceStep;
      this.gpuTraceStep := gpuTraceStep;
      this.cpuTraceStep := cpuTraceStep;
      this.memTraceStep := memTraceStep;
      this.fromMonth := fromMonth;
      this.toMonth := toMonth;
    }

    /**
     * The tail of CheckUsage: a zero GPU, CPU or memory step takes the common
     * step, a non-zero one is kept; both month options are normalised, and a
     * non-empty month shorter than three characters panics (before ToMonth
     * is touched, when it is FromMonth).
     */
    method ApplyDefaults() returns (panicked: bool)
      modifies this
      ensures traceStep == old(traceStep)
      ensures gpuTraceStep == (if old(gpuTraceStep) == 0 then old(traceStep) else old(gpuTraceStep))
      ensures cpuTraceStep == (if old(cpuTraceStep) == 0 then old(traceStep) else old(cpuTraceStep))
      ensures memTraceStep == (if old(memTraceStep) == 0 then old(traceStep) else old(memTraceStep))
      ensures panicked <==> NormalizeMonth(old(fromMonth)).None? || NormalizeMonth(old(toMonth)).None?
      ensures !panicked ==> fromMonth == NormalizeMonth(old(fromMonth)).value
                            && toMonth == NormalizeMonth(old(toMonth)).value
    {
      if gpuTraceStep == 0 {
        gpuTraceStep := traceStep;
      }
      if cpuTraceStep == 0 {
        cpuTraceStep := traceStep;
      }
      if memTraceStep == 0 {
        memTraceStep := traceStep;
      }
      if fromMonth != "" {
        if |fromMonth| < 3 {
          return true;
        }
        fromMonth := ToLower(fromMonth[..3]);
      }
      if toMonth != "" {
        if |toMonth| < 3 {
          return true;
        }
        toMonth := ToLower(toMonth[..3]);
      }
      return false;
    }

    /**
     * NormalizeTracePaths: without a start month, the path alone; otherwise
     * the path filled with each month of the walk from the start month
     * (January for an unknown one) through toMonth, wrapping past December,
     * or twelve months when toMonth names no month.
     */
    method NormalizeTracePaths(path: string) returns (paths: seq<string>)
      ensures fromMonth == "" ==> paths == [path]
      ensures fromMonth != "" ==>
                |paths| == WalkLength(StartMonth(fromMonth), toMonth)
                && forall k :: 0 <= k < |paths| ==> paths[k] == Sprintf(path, WalkMonth(StartMonth(fromMonth), k))
    {
      if fromMonth == "" {
        return [path];
      }
      var start := FindStartMonth(fromMonth);
      paths := WalkPaths(path, start, toMonth);
    }
  }

  /** The loop of NormalizeTracePaths that walks the months from start, wrapping after December, up to toMonth. */
  method WalkPaths(path: string, start: nat, toMonth: string) returns (paths: seq<string>)
    requires start < 12
    ensures |paths| == WalkLength(start, toMonth)
    ensures forall k :: 0 <= k < |paths| ==> paths[k] == Sprintf(path, WalkMonth(start, k))
  {
    paths := [];
    var i := 0;
    while i < 12
      invariant 0 <= i <= 12
      invariant |paths| == i
      invariant forall k :: 0 <= k < i ==> paths[k] == Sprintf(path, WalkMonth(start, k))
      invariant forall k :: 0 <= k < i ==> WalkMonth(start, k) != toMonth
    {
      var month := Months[(start + i) % 12];
      paths := paths + [Sprintf(path, month)];
      if month == toMonth {
        WalkStopsAtToMonth(start, i, toMonth);
        return paths;
      }
      i := i + 1;
    }
    WalkMissesAbsentMonth(start, toMonth);
  }

  /** The loop of NormalizeTracePaths that finds the start month; the last match wins. */
  method FindStartMonth(fromMonth: string) returns (start: nat)
    ensures start == StartMonth(fromMonth)
  {
    start := 0;
    var i := 0;
    while i < |Months|
      invariant 0 <= i <= |Months| && start < |Months|
      invariant fromMonth in Months[..i] ==> Months[start] == fromMonth
      invariant fromMonth !in Months[..i] ==> start == 0
    {
      if Months[i] == fromMonth {
        start := i;
      }
      assert Months[..i + 1] == Months[..i] + [Months[i]];
      i := i + 1;
    }
    assert Months[..i] == Months;
    if fromMonth in Months {
      assert MonthIndex(Months[start]) == start;
    }
  }

  /** The walk's paths through a known end month end with that month's path. */
  lemma WalkPathsEndAtToMonth(paths: seq<string>, path: string, start: nat, toMonth: string)
    requires start < 12 && toMonth in Months
    requires |paths| == WalkLength(start, toMonth)
    requires forall k :: 0 <= k < |paths| ==> paths[k] == Sprintf(path, WalkMonth(start, k))
    ensures paths != [] && paths[|paths| - 1] == Sprintf(path, toMonth)
  {
    WalkEndsAtToMonth(start, toMonth);
    assert paths[|paths| - 1] == Sprintf(path, WalkMonth(start, |paths| - 1));
  }

  /** With a known end month, the last path is the end month's, and no month is repeated. */
  method TracePathsEndAtToMonth(config: WorkloadConfig, path: string) returns (paths: seq<string>)
    requires config.fromMonth != "" && config.toMonth in Months
    ensures paths != []
    ensures paths[|paths| - 1] == Sprintf(path, config.toMonth)
    ensures |paths| <= 12
  {
    paths := config.NormalizeTracePaths(path);
    WalkPathsEndAtToMonth(paths, path, StartMonth(config.fromMonth), config.toMonth);
  }

  /** A walk from December to January wraps round the year in two paths. */
  method TracePathsWrapAround(path: string) returns (paths: seq<string>)
    ensures paths == [Sprintf(path, "dec"), Sprintf(path, "jan")]
  {
    var wrap := new WorkloadConfig(60, 0, 0, 0, "dec", "jan");
    paths := wrap.NormalizeTracePaths(path);
    assert StartMonth("dec") == 11 && MonthIndex("jan") == 0;
    assert WalkLength(11, "jan") == 2;
    assert WalkMonth(11, 0) == "dec" && WalkMonth(11, 1) == "jan";
  }
}
