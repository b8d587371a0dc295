/**
 * The GPU-utilisation tracker of the trace generator
 * (driver-backend/internal/generator/gpu.go).
 *
 * A `GpuUtil` folds the per-device readings of one pod and one timestamp into
 * a summary, commits that summary into its history (keeping exactly one level
 * of older history), and `Transit` turns the change between the committed
 * status and the one before it into started / activated / deactivated /
 * stopped events, deferring deactivation and stopping by a few ticks.
 */
module GpuTracker {
  import opened Wrappers
  import GoStrconv

  const GpuDeactivationDelay: int := 2
  const GpuStopDelay: int := 2
  const GpuActivationThreshold: real := 0.0
  const AnyGpu: string := "ANY_GPU"
  /** Every per-device maximum list holds one slot per device of an eight-GPU host. */
  const DevicesPerHost: nat := 8

  datatype GpuEvent = Started | Activated | Deactivated | StoppedEvent | UpdateUtil

  datatype GpuStatus = Stopped | Idle | IdleDelay | Busy | Stopping

  /** One parsed line of the GPU trace; timestamps are Unix nanoseconds. */
  datatype GpuRecord = GpuRecord(timestamp: int, podIdx: int, gpuIdx: string, value: real, vramGb: real, pod: string)

  /** A copy of a tracker's fields: what `archive` stores as history and what `commit` returns. */
  datatype Snapshot = Snapshot(
    timestamp: int, pod: string, gpus: int, value: real, max: real, status: GpuStatus,
    gpuName: string, vramGb: real, repeat: int, rawTimestamp: int, lastUtil: Option<Snapshot>)

  /** At most one level of history below a snapshot. */
  predicate OneLevel(s: Snapshot)
  {
    s.lastUtil.None? || s.lastUtil.value.lastUtil.None?
  }

  /** The delayed statuses count as the status they delay when repeats are counted. */
  function Equivalent(s: GpuStatus): (r: GpuStatus)
    ensures r != IdleDelay && r != Stopping
    ensures s != IdleDelay && s != Stopping ==> r == s
  {
    match s
    case IdleDelay => Idle
    case Stopping => Stopped
    case _ => s
  }

  /** The history kept by `commit`: the previous committed record with its own history dropped. */
  function History(cur: Snapshot): Option<Snapshot>
  {
    match cur.lastUtil
    case None => None
    case Some(h) => Some(h.(lastUtil := None))
  }

  /**
   * The record `commit` produces from the tracker's current fields: the
   * fields themselves, the one-level history, and a repeat count continued
   * from the history when the two statuses are equivalent.
   */
  function CommitSnapshot(cur: Snapshot): Snapshot
  {
    var history := History(cur);
    var base := cur.(lastUtil := history);
    if history.Some? && base.status == Equivalent(history.value.status) then
      base.(repeat := history.value.repeat + 1, rawTimestamp := history.value.rawTimestamp)
    else
      base
  }

  /** Whatever the tracker held before, the committed record keeps exactly one level of history. */
  lemma CommitKeepsOneLevel(cur: Snapshot)
    ensures OneLevel(CommitSnapshot(cur))
    ensures CommitSnapshot(cur).lastUtil.Some? <==> cur.lastUtil.Some?
  {
  }

  /** The repeat count continues from the history exactly when the statuses are equivalent. */
  lemma CommitRepeat(cur: Snapshot)
    ensures var c := CommitSnapshot(cur);
      match cur.lastUtil
      case None => c.repeat == cur.repeat && c.rawTimestamp == cur.rawTimestamp
      case Some(h) =>
        if cur.status == Equivalent(h.status) then c.repeat == h.repeat + 1 && c.rawTimestamp == h.rawTimestamp
        else c.repeat == cur.repeat && c.rawTimestamp == cur.rawTimestamp
    ensures CommitSnapshot(cur).status == cur.status && CommitSnapshot(cur).value == cur.value
  {
  }

  // ---------------------------------------------------------------------------
  // The status machine of `transit`.

  /** What one `transit` run produces: the (possibly delayed) committed status, the events, and whether it ended without error. */
  datatype TransitOutcome = TransitOutcome(status: GpuStatus, events: seq<GpuEvent>, ok: bool)

  /** Steps still to take: none once the statuses meet, one from Idle, at most two otherwise. */
  function TransitMeasure(last: GpuStatus, cur: GpuStatus): nat
  {
    if last == cur then 0 else if last == Idle then 1 else 2
  }

  /**
   * The loop of `transit`, walking `last` towards the committed status `cur`
   * and appending to `buff` the events crossed on the way.
   */
  function TransitFrom(last: GpuStatus, cur: GpuStatus, repeat: int, force: bool, buff: seq<GpuEvent>): TransitOutcome
    decreases TransitMeasure(last, cur)
  {
    if last == cur then TransitOutcome(cur, buff, true)
    else match last
      case Stopped =>
        if cur == Idle || cur == Busy then TransitFrom(Idle, cur, repeat, force, buff + [Started])
        else TransitOutcome(cur, buff, false)
      case Idle =>
        if cur == Busy then TransitFrom(Busy, cur, repeat, force, buff + [Activated])
        else if cur == Stopped && (force || repeat == GpuStopDelay) then TransitFrom(Stopped, cur, repeat, force, buff + [StoppedEvent])
        else if cur == Stopped then TransitOutcome(Stopping, buff, true)
        else TransitOutcome(cur, buff, false)
      case IdleDelay =>
        if cur == Idle && repeat < GpuDeactivationDelay then TransitOutcome(IdleDelay, buff, true)
        else if cur == Idle || cur == Stopped then TransitFrom(Idle, cur, repeat, force, buff + [Deactivated])
        else if cur == Busy then TransitFrom(Busy, cur, repeat, force, buff)
        else TransitOutcome(cur, buff, false)
      case Busy =>
        if (cur == Idle && repeat == GpuDeactivationDelay) || cur == Stopped then TransitFrom(Idle, cur, repeat, force, buff + [Deactivated])
        else if cur == Idle then TransitOutcome(IdleDelay, buff, true)
        else TransitOutcome(cur, buff, false)
      case Stopping =>
        if cur == Stopped && !force && repeat < GpuStopDelay then TransitOutcome(Stopping, buff, true)
        else if cur == Stopped then TransitFrom(Stopped, cur, repeat, force, buff + [StoppedEvent])
        else TransitFrom(Idle, cur, repeat, force, buff)
  }

  /** Matching statuses emit nothing and change nothing. */
  lemma TransitSameStatus(s: GpuStatus, repeat: int, force: bool, buff: seq<GpuEvent>)
    ensures TransitFrom(s, s, repeat, force, buff) == TransitOutcome(s, buff, true)
  {
  }

  /** A pod that goes from stopped to busy emits exactly started, then activated. */
  lemma TransitStartThenActivate(repeat: int, force: bool, buff: seq<GpuEvent>)
    ensures TransitFrom(Stopped, Busy, repeat, force, buff) == TransitOutcome(Busy, buff + [Started, Activated], true)
  {
    assert TransitFrom(Stopped, Busy, repeat, force, buff) == TransitFrom(Idle, Busy, repeat, force, buff + [Started]);
    assert TransitFrom(Idle, Busy, repeat, force, buff + [Started]) == TransitFrom(Busy, Busy, repeat, force, buff + [Started] + [Activated]);
  }

  /** Busy to idle is deferred (relabelled IdleDelay, no event) unless the idle reading has repeated the full delay. */
  lemma TransitDeferDeactivation(repeat: int, force: bool, buff: seq<GpuEvent>)
    ensures repeat != GpuDeactivationDelay ==>
      TransitFrom(Busy, Idle, repeat, force, buff) == TransitOutcome(IdleDelay, buff, true)
    ensures repeat == GpuDeactivationDelay ==>
      TransitFrom(Busy, Idle, repeat, force, buff) == TransitOutcome(Idle, buff + [Deactivated], true)
  {
  }

  /** Idle to stopped emits `stopped` only when forced or after the full stop delay; otherwise it is marked Stopping. */
  lemma TransitDeferStop(repeat: int, force: bool, buff: seq<GpuEvent>)
    ensures force || repeat == GpuStopDelay ==>
      TransitFrom(Idle, Stopped, repeat, force, buff) == TransitOutcome(Stopped, buff + [StoppedEvent], true)
    ensures !force && repeat != GpuStopDelay ==>
      TransitFrom(Idle, Stopped, repeat, force, buff) == TransitOutcome(Stopping, buff, true)
  {
  }

  /**
   * Every run only appends to the buffer, appends at most two events, and
   * never emits `update-util`; when it ends without error the status it
   * leaves is the committed one or that status's delayed form.
   */
  lemma {:induction false} TransitShape(last: GpuStatus, cur: GpuStatus, repeat: int, force: bool, buff: seq<GpuEvent>)
    ensures var r := TransitFrom(last, cur, repeat, force, buff);
      && |buff| <= |r.events| <= |buff| + TransitMeasure(last, cur)
      && r.events[..|buff|] == buff
      && (forall i :: |buff| <= i < |r.events| ==> r.events[i] != UpdateUtil)
      && (r.ok ==> r.status == cur || Equivalent(r.status) == cur)
      && (!r.ok ==> r.status == cur)
    decreases TransitMeasure(last, cur)
  {
    var r := TransitFrom(last, cur, repeat, force, buff);
    if last == cur {
    } else {
      match last
      case Stopped =>
        if cur == Idle || cur == Busy {
          TransitShape(Idle, cur, repeat, force, buff + [Started]);
          assert (buff + [Started])[..|buff|] == buff;
        }
      case Idle =>
        if cur == Busy {
          TransitShape(Busy, cur, repeat, force, buff + [Activated]);
          assert (buff + [Activated])[..|buff|] == buff;
        } else if cur == Stopped && (force || repeat == GpuStopDelay) {
          TransitShape(Stopped, cur, repeat, force, buff + [StoppedEvent]);
          assert (buff + [StoppedEvent])[..|buff|] == buff;
        }
      case IdleDelay =>
        if cur == Idle && repeat < GpuDeactivationDelay {
        } else if cur == Idle || cur == Stopped {
          TransitShape(Idle, cur, repeat, force, buff + [Deactivated]);
          assert (buff + [Deactivated])[..|buff|] == buff;
        } else if cur == Busy {
          TransitShape(Busy, cur, repeat, force, buff);
        }
      case Busy =>
        if (cur == Idle && repeat == GpuDeactivationDelay) || cur == Stopped {
          TransitShape(Idle, cur, repeat, force, buff + [Deactivated]);
          assert (buff + [Deactivated])[..|buff|] == buff;
        }
      case Stopping =>
        if cur == Stopped && !force && repeat < GpuStopDelay {
        } else if cur == Stopped {
          TransitShape(Stopped, cur, repeat, force, buff + [StoppedEvent]);
          assert (buff + [StoppedEvent])[..|buff|] == buff;
        } else {
          TransitShape(Idle, cur, repeat, force, buff);
        }
    }
  }

  /** What `transit` returns: the event buffer and whether the transition was unexpected, or a nil-pointer panic. */
  datatype TransitReturn = Returned(events: seq<GpuEvent>, unexpected: bool) | NilCommitted

  /** The (max of) two utilisation readings, as `math.Max` on non-NaN values. */
  function MaxReal(a: real, b: real): (r: real)
    ensures r >= a && r >= b && (r == a || r == b)
  {
    if a >= b then a else b
  }

  // ---------------------------------------------------------------------------

  /** The per-pod utilisation buffer. */
  class GpuUtil {
    /** Whether `init` has run, which points the record's prototype at itself. */
    var prototyped: bool
    var timestamp: int
    var pod: string
    var gpus: int
    var value: real
    var max: real
    var status: GpuStatus
    var gpuName: string
    var vramGb: real
    var repeat: int
    var rawTimestamp: int
    /** The last committed record, itself holding at most one older record. */
    var lastUtil: Option<Snapshot>

    ghost predicate Valid()
      reads this
    {
      lastUtil.Some? ==> OneLevel(lastUtil.value)
    }

    /** The record's fields as a value. */
    function Snap(): Snapshot
      reads this
    {
      Snapshot(timestamp, pod, gpus, value, max, status, gpuName, vramGb, repeat, rawTimestamp, lastUtil)
    }

    /** The literal `&GPUUtil{Pod: pod, GPUName: AnyGPU}` of `ensurePod`. */
    constructor (pod: string)
      ensures Valid()
      ensures this.pod == pod && gpuName == AnyGpu && !prototyped
      ensures timestamp == 0 && gpus == 0 && value == 0.0 && max == 0.0 && status == Stopped
      ensures vramGb == 0.0 && repeat == 0 && rawTimestamp == 0 && lastUtil == None
    {
      this.pod := pod;
      gpuName := AnyGpu;
      prototyped := false;
      timestamp, gpus, value, max, status := 0, 0, 0.0, 0.0, Stopped;
      vramGb, repeat, rawTimestamp, lastUtil := 0.0, 0, 0, None;
    }

    /** `init`: restart the buffer from the first reading of a new timestamp. */
    method Init(rec: GpuRecord)
      requires Valid()
      modifies this
      ensures Valid() && prototyped
      ensures timestamp == rec.timestamp && rawTimestamp == timestamp
      ensures gpus == 1 && repeat == 0
      ensures value == rec.value && vramGb == rec.vramGb
      ensures status == (if rec.value > GpuActivationThreshold then Busy else Idle)
      ensures pod == old(pod) && gpuName == old(gpuName) && max == old(max) && lastUtil == old(lastUtil)
    {
      prototyped := true;
      timestamp := rec.timestamp;
      gpus := 1;
      value := rec.value;
      vramGb := rec.vramGb;
      if value > GpuActivationThreshold {
        status := Busy;
      } else {
        status := Idle;
      }
      repeat := 0;
      rawTimestamp := rec.timestamp;
    }

    /** `update`: fold one more device reading of the same timestamp into the buffer. */
    method Update(rec: GpuRecord)
      requires Valid()
      modifies this
      ensures Valid()
      ensures gpus == old(gpus) + 1
      ensures value == old(value) + rec.value
      ensures vramGb == MaxReal(old(vramGb), rec.vramGb)
      ensures status == (if value > 0.0 then Busy else old(status))
      ensures status == old(status) || status == Busy
      ensures timestamp == old(timestamp) && repeat == old(repeat) && rawTimestamp == old(rawTimestamp)
      ensures pod == old(pod) && gpuName == old(gpuName) && max == old(max) && lastUtil == old(lastUtil)
      ensures prototyped == old(prototyped)
    {
      gpus := gpus + 1;
      value := value + rec.value;
      if rec.vramGb > vramGb {
        vramGb := rec.vramGb;
      }
      if value > 0.0 {
        status := Busy;
      }
    }

    /** `archive`: store a copy of the current fields, without history, as the last record. */
    method Archive() returns (archived: Snapshot)
      requires Valid()
      modifies this
      ensures Valid()
      ensures archived == old(Snap()).(lastUtil := None)
      ensures lastUtil == Some(archived)
      ensures Snap().(lastUtil := None) == old(Snap()).(lastUtil := None) && prototyped == old(prototyped)
    {
      archived := Snap().(lastUtil := None);
      lastUtil := Some(archived);
    }

    /** `commit`: conclude the buffered tick into the last record, keeping one level of history. */
    method Commit() returns (committed: Snapshot)
      requires Valid()
      modifies this
      ensures Valid()
      ensures committed == CommitSnapshot(old(Snap()))
      ensures lastUtil == Some(committed)
      ensures Snap().(lastUtil := None) == old(Snap()).(lastUtil := None) && prototyped == old(prototyped)
    {
      var history: Option<Snapshot> := None;
      if lastUtil.Some? {
        history := Some(lastUtil.value.(lastUtil := None));
      }
      var archived := Archive();
      committed := archived.(lastUtil := history);
      if history.Some? {
        var eqStatus := history.value.status;
        if eqStatus == IdleDelay {
          eqStatus := Idle;
        } else if eqStatus == Stopping {
          eqStatus := Stopped;
        }
        if committed.status == eqStatus {
          committed := committed.(repeat := history.value.repeat + 1, rawTimestamp := history.value.rawTimestamp);
        }
      }
      lastUtil := Some(committed);
    }

    /** `commitAndInit`: raise the running maximum, commit, and restart from `rec`. */
    method CommitAndInit(rec: GpuRecord) returns (committed: Snapshot)
      requires Valid()
      modifies this
      ensures Valid()
      ensures max == MaxReal(old(max), old(value))
      ensures max >= old(max) && max >= old(value)
      ensures committed == CommitSnapshot(old(Snap()).(max := max))
      ensures lastUtil == Some(committed)
      ensures timestamp == rec.timestamp && rawTimestamp == rec.timestamp
      ensures gpus == 1 && value == rec.value && repeat == 0 && vramGb == rec.vramGb
      ensures status == (if rec.value > GpuActivationThreshold then Busy else Idle)
      ensures prototyped && pod == old(pod) && gpuName == old(gpuName)
    {
      max := MaxReal(max, value);
      committed := Commit();
      Init(rec);
    }

    /** `reset`: conclude a tick with no reading; a pod already committed as stopped is not committed again. */
    method Reset(t: int) returns (committed: Snapshot)
      requires Valid()
      modifies this
      ensures Valid()
      ensures timestamp == t && rawTimestamp == t && value == 0.0 && vramGb == 0.0
      ensures status == Stopped && repeat == 0
      ensures pod == old(pod) && gpuName == old(gpuName) && max == old(max) && prototyped == old(prototyped)
      ensures gpus == (if old(lastUtil).Some? then old(lastUtil).value.gpus else old(gpus))
      ensures old(lastUtil).Some? && old(lastUtil).value.status == Stopped ==>
        committed == old(lastUtil).value && lastUtil == old(lastUtil)
      ensures old(lastUtil).None? || old(lastUtil).value.status != Stopped ==>
        committed == CommitSnapshot(Snap().(lastUtil := old(lastUtil))) && lastUtil == Some(committed)
    {
      timestamp := t;
      if lastUtil.Some? {
        gpus := lastUtil.value.gpus;
      }
      value := 0.0;
      vramGb := 0.0;
      status := Stopped;
      repeat := 0;
      rawTimestamp := t;
      if lastUtil.None? || lastUtil.value.status != Stopped {
        committed := Commit();
      } else {
        committed := lastUtil.value;
      }
    }

    /**
     * `transit`, run (as the source does) on the committed record: compare its
     * status with the one before it and emit the events in between. A record
     * never initialised, or with nothing committed, dereferences nil.
     */
    method Transit(evtBuff: seq<GpuEvent>, force: bool) returns (r: TransitReturn)
      requires Valid()
      modifies this
      ensures Valid()
      ensures !old(prototyped) || old(lastUtil).None? ==> r == NilCommitted && lastUtil == old(lastUtil)
      ensures old(prototyped) && old(lastUtil).Some? ==>
        var c := old(lastUtil).value;
        var last := if c.lastUtil.Some? then c.lastUtil.value.status else Stopped;
        var o := TransitFrom(last, c.status, c.repeat, force, evtBuff);
        r == Returned(o.events, !o.ok) && lastUtil == Some(c.(status := o.status))
      ensures Snap().(lastUtil := None) == old(Snap()).(lastUtil := None) && prototyped == old(prototyped)
    {
      if !prototyped || lastUtil.None? {
        return NilCommitted;
      }
      var c := lastUtil.value;
      var lastStatus := Stopped;
      if c.lastUtil.Some? {
        lastStatus := c.lastUtil.value.status;
      }
      ghost var target := TransitFrom(lastStatus, c.status, c.repeat, force, evtBuff);
      var cur := c.status;
      var events := evtBuff;
      while true
        invariant TransitFrom(lastStatus, cur, c.repeat, force, events) == target
        invariant lastUtil == Some(c) && cur == c.status
        decreases TransitMeasure(lastStatus, cur)
      {
        if lastStatus == cur {
          return Returned(events, false);
        }
        match lastStatus {
          case Stopped =>
            if cur == Idle || cur == Busy {
              lastStatus := Idle;
              events := events + [Started];
              continue;
            }
            return Returned(events, true);
          case Idle =>
            if cur == Busy {
              lastStatus := Busy;
              events := events + [Activated];
              continue;
            } else if cur == Stopped && (force || c.repeat == GpuStopDelay) {
              lastStatus := Stopped;
              events := events + [StoppedEvent];
              continue;
            } else if cur == Stopped {
              lastUtil := Some(c.(status := Stopping));
              return Returned(events, false);
            }
            return Returned(events, true);
          case IdleDelay =>
            if cur == Idle && c.repeat < GpuDeactivationDelay {
              lastUtil := Some(c.(status := IdleDelay));
              return Returned(events, false);
            } else if cur == Idle || cur == Stopped {
              lastStatus := Idle;
              events := events + [Deactivated];
              continue;
            } else if cur == Busy {
              lastStatus := Busy;
              continue;
            }
            return Returned(events, true);
          case Busy =>
            if (cur == Idle && c.repeat == GpuDeactivationDelay) || cur == Stopped {
              lastStatus := Idle;
              events := events + [Deactivated];
              continue;
            } else if cur == Idle {
              lastUtil := Some(c.(status := IdleDelay));
              return Returned(events, false);
            }
            return Returned(events, true);
          case Stopping =>
            if cur == Stopped && !force && c.repeat < GpuStopDelay {
              lastUtil := Some(c.(status := Stopping));
              return Returned(events, false);
            } else if cur == Stopped {
              lastStatus := Stopped;
              events := events + [StoppedEvent];
              continue;
            } else {
              lastStatus := Idle;
              continue;
            }
        }
      }
    }
  }

  // ---------------------------------------------------------------------------
  // The driver's per-pod table and per-device maxima.

  /** Eight zero maxima: the row a pod or a training starts with. */
  function ZeroRow(): (row: seq<real>)
    ensures |row| == DevicesPerHost && forall i :: 0 <= i < |row| ==> row[i] == 0.0
  {
    [0.0, 0.0, 0.0, 0.0, 0.0, 0.0, 0.0, 0.0]
  }

  /** A row of maxima after a reading of `v` on device `i`. */
  function RaiseAt(row: seq<real>, i: nat, v: real): (r: seq<real>)
    requires i < |row|
    ensures |r| == |row| && r[i] == MaxReal(row[i], v)
    ensures forall j :: 0 <= j < |row| ==> r[j] >= row[j]
    ensures forall j :: 0 <= j < |row| && j != i ==> r[j] == row[j]
  {
    if v > row[i] then row[i := v] else row
  }

  /** How many times the capacity the grown pod table holds: the least multiple of `capacity` above `idx`. */
  function GrowthFactor(idx: nat, capacity: nat): (q: nat)
    requires capacity > 0
    ensures idx < q * capacity <= idx + capacity
  {
    var q := (idx + capacity) / capacity;
    assert idx + capacity == q * capacity + (idx + capacity) % capacity;
    q
  }

  /** All pods' per-device session maxima hold one slot per device. */
  ghost predicate SessionRowsWellFormed(m: map<string, seq<real>>)
  {
    forall p :: p in m ==> |m[p]| == DevicesPerHost
  }

  /** Every pod's per-training list has a current (last) row with one slot per device. */
  ghost predicate TrainingRowsWellFormed(m: map<string, seq<seq<real>>>)
  {
    forall p :: p in m ==> |m[p]| > 0 && |m[p][|m[p]| - 1]| == DevicesPerHost
  }

  /** The session maxima after a reading of `v` on device `i` of `pod`; a pod seen for the first time starts from zeros. */
  function RaisedSessionMaxes(m: map<string, seq<real>>, pod: string, i: nat, v: real): (r: map<string, seq<real>>)
    requires SessionRowsWellFormed(m) && i < DevicesPerHost
    ensures SessionRowsWellFormed(r)
    ensures r.Keys == m.Keys + {pod}
    ensures forall p :: p in m && p != pod ==> r[p] == m[p]
    ensures r[pod][i] >= v && (pod in m ==> forall j :: 0 <= j < DevicesPerHost ==> r[pod][j] >= m[pod][j])
  {
    var row := if pod in m then m[pod] else ZeroRow();
    m[pod := RaiseAt(row, i, v)]
  }

  /** The training maxima after a reading of `v` on device `i` of `pod`: only the current (last) training row changes. */
  function RaisedTrainingMaxes(m: map<string, seq<seq<real>>>, pod: string, i: nat, v: real): (r: map<string, seq<seq<real>>>)
    requires TrainingRowsWellFormed(m) && i < DevicesPerHost
    ensures TrainingRowsWellFormed(r)
    ensures r.Keys == m.Keys + {pod}
    ensures forall p :: p in m && p != pod ==> r[p] == m[p]
    ensures pod in m ==> |r[pod]| == |m[pod]| && r[pod][..|m[pod]| - 1] == m[pod][..|m[pod]| - 1]
    ensures pod !in m ==> |r[pod]| == 1
    ensures r[pod][|r[pod]| - 1][i] >= v
  {
    var rows := if pod in m then m[pod] else [ZeroRow()];
    var n := |rows|;
    m[pod := rows[n - 1 := RaiseAt(rows[n - 1], i, v)]]
  }

  /** Why `updateMaxUtilizationPerGpuDevice` panics. */
  datatype MaxUpdate = MaxUpdated | PanicBadGpuIndex | PanicIndexOutOfRange

  class GpuDriver {
    var pods: array<GpuUtil?>
    /** The smallest gap between two trace timestamps seen so far, 0 before any. */
    var interval: int
    var perGpuSessionMaxes: map<string, seq<real>>
    var perGpuTrainingMaxes: map<string, seq<seq<real>>>
    /** From the base trace driver; a pod absent from the map is not training. */
    var sessionIsCurrentlyTraining: map<string, bool>

    ghost predicate Valid()
      reads this
    {
      SessionRowsWellFormed(perGpuSessionMaxes) && TrainingRowsWellFormed(perGpuTrainingMaxes)
    }

    /** `NewGPUDriver` after `Setup` without a mapper: 1000 empty pod slots, empty maxima. */
    constructor ()
      ensures Valid() && fresh(pods) && pods.Length == 1000
      ensures forall i :: 0 <= i < pods.Length ==> pods[i] == null
      ensures interval == 0 && perGpuSessionMaxes == map[] && perGpuTrainingMaxes == map[]
      ensures sessionIsCurrentlyTraining == map[]
    {
      pods := new GpuUtil?[1000](_ => null);
      interval := 0;
      perGpuSessionMaxes := map[];
      perGpuTrainingMaxes := map[];
      sessionIsCurrentlyTraining := map[];
    }

    /**
     * `ensurePod`: grow the pod table to a multiple of its capacity when the
     * index does not fit, and create the pod's buffer when its slot is empty.
     */
    method EnsurePod(rec: GpuRecord) returns (util: GpuUtil, created: bool)
      requires 0 <= rec.podIdx && pods.Length > 0
      modifies this, pods
      ensures pods.Length == (if rec.podIdx < old(pods.Length) then old(pods.Length) else GrowthFactor(rec.podIdx, old(pods.Length)) * old(pods.Length))
      ensures rec.podIdx < pods.Length && pods[rec.podIdx] == util
      ensures created <==> rec.podIdx >= old(pods.Length) || old(pods[rec.podIdx]) == null
      ensures created ==> fresh(util) && util.pod == rec.pod && util.gpuName == AnyGpu && !util.prototyped && util.Valid()
      ensures !created ==> util == old(pods[rec.podIdx])
      ensures forall j :: 0 <= j < old(pods.Length) && j != rec.podIdx ==> pods[j] == old(pods[j])
      ensures forall j :: old(pods.Length) <= j < pods.Length && j != rec.podIdx ==> pods[j] == null
      ensures interval == old(interval) && perGpuSessionMaxes == old(perGpuSessionMaxes)
      ensures perGpuTrainingMaxes == old(perGpuTrainingMaxes) && sessionIsCurrentlyTraining == old(sessionIsCurrentlyTraining)
    {
      var capacity := pods.Length;
      if capacity <= rec.podIdx {
        var grown := new GpuUtil?[GrowthFactor(rec.podIdx, capacity) * capacity](_ => null);
        forall j | 0 <= j < capacity {
          grown[j] := pods[j];
        }
        pods := grown;
      }
      var slot := pods[rec.podIdx];
      if slot == null {
        created := true;
        util := new GpuUtil(rec.pod);
        pods[rec.podIdx] := util;
      } else {
        created := false;
        util := slot;
      }
    }

    /** `updateInterval`: keep the smallest interval seen, replacing the unset 0. */
    method UpdateInterval(iv: int)
      modifies this`interval
      ensures interval == (if old(interval) == 0 || old(interval) > iv then iv else old(interval))
      ensures old(interval) != 0 ==> interval <= old(interval)
    {
      if interval == 0 || interval > iv {
        interval := iv;
      }
    }

    /** The raise of `updateMaxUtilizationPerGpuDevice` for a reading on device `i` of `pod`. */
    method RaiseMaxes(pod: string, i: nat, v: real)
      requires Valid() && i < DevicesPerHost
      modifies this`perGpuSessionMaxes, this`perGpuTrainingMaxes
      ensures Valid()
      ensures perGpuSessionMaxes == RaisedSessionMaxes(old(perGpuSessionMaxes), pod, i, v)
      ensures perGpuTrainingMaxes == (if pod in sessionIsCurrentlyTraining && sessionIsCurrentlyTraining[pod]
                                      then RaisedTrainingMaxes(old(perGpuTrainingMaxes), pod, i, v)
                                      else old(perGpuTrainingMaxes))
    {
      perGpuSessionMaxes := RaisedSessionMaxes(perGpuSessionMaxes, pod, i, v);
      if pod in sessionIsCurrentlyTraining && sessionIsCurrentlyTraining[pod] {
        perGpuTrainingMaxes := RaisedTrainingMaxes(perGpuTrainingMaxes, pod, i, v);
      }
    }

    /**
     * `updateMaxUtilizationPerGpuDevice`: raise the pod's per-device maximum
     * and, while the pod is training, the current training's per-device maximum.
     * A GPU index that does not parse panics; one outside the eight slots
     * panics after a pod without a row has been given the zero row.
     */
    method UpdateMaxUtilizationPerGpuDevice(rec: GpuRecord) returns (r: MaxUpdate)
      requires Valid()
      modifies this`perGpuSessionMaxes, this`perGpuTrainingMaxes
      ensures Valid()
      ensures GoStrconv.Atoi(rec.gpuIdx).None? ==> r == PanicBadGpuIndex
      ensures GoStrconv.Atoi(rec.gpuIdx).Some? && !(0 <= GoStrconv.Atoi(rec.gpuIdx).value < DevicesPerHost) ==> r == PanicIndexOutOfRange
      ensures r == PanicBadGpuIndex ==> perGpuSessionMaxes == old(perGpuSessionMaxes)
      ensures r == PanicIndexOutOfRange ==>
        perGpuSessionMaxes == (if rec.pod in old(perGpuSessionMaxes) then old(perGpuSessionMaxes)
                               else old(perGpuSessionMaxes)[rec.pod := ZeroRow()])
      ensures r != MaxUpdated ==> perGpuTrainingMaxes == old(perGpuTrainingMaxes)
      ensures r == MaxUpdated ==>
        var i := GoStrconv.Atoi(rec.gpuIdx).value;
        && 0 <= i < DevicesPerHost
        && perGpuSessionMaxes == RaisedSessionMaxes(old(perGpuSessionMaxes), rec.pod, i, rec.value)
        && perGpuTrainingMaxes == (if rec.pod in sessionIsCurrentlyTraining && sessionIsCurrentlyTraining[rec.pod]
             then RaisedTrainingMaxes(old(perGpuTrainingMaxes), rec.pod, i, rec.value)
             else old(perGpuTrainingMaxes))
    {
      var parsed := GoStrconv.Atoi(rec.gpuIdx);
      if parsed.None? {
        return PanicBadGpuIndex;
      }
      var gpuIndex := parsed.value;
      if gpuIndex < 0 || gpuIndex >= DevicesPerHost {
        // The pod's zero row is stored before the out-of-range index panics.
        var sessions := perGpuSessionMaxes;
        if rec.pod !in sessions {
          assert SessionRowsWellFormed(sessions[rec.pod := ZeroRow()]);
          perGpuSessionMaxes := sessions[rec.pod := ZeroRow()];
        }
        return PanicIndexOutOfRange;
      }
      RaiseMaxes(rec.pod, gpuIndex, rec.value);
      return MaxUpdated;
    }
  }
}
