/**
 * Resource-map construction of the workload generator
 * (driver-backend/internal/generator/generator.go): the per-session and
 * per-training resource maps built from a template, and the per-session and
 * per-training GPU counts read from the trace summary files.
 */
module Generator {
  import opened Wrappers
  import opened GeneratorUtil

  datatype ResourceRequest = ResourceRequest(cpus: real, memoryMb: real, gpus: int)

  datatype TrainingEvent = TrainingEvent(millicpus: real, memUsageMb: real, gpuUtil: seq<real>)

  /** A template session; `trainings` is None where the source's slice is nil. */
  datatype TemplateSession = TemplateSession(id: string, current: ResourceRequest, trainings: Option<seq<TrainingEvent>>)

  datatype TemplateMaps = TemplateMaps(
    cpuSession: map<string, real>, memSession: map<string, real>, gpuSession: map<string, int>,
    cpuTask: map<string, seq<real>>, memTask: map<string, seq<real>>, gpuTask: map<string, seq<int>>)

  /** How `GenerateTemplateWorkload` ends its map-building phase. */
  datatype TemplateOutcome = Built(maps: TemplateMaps) | PanicNilSessions | PanicNilRequest | PanicNilTrainings(sessionId: string)

  const NoMaps := TemplateMaps(map[], map[], map[], map[], map[], map[])

  predicate AllTrainingsPresent(ss: seq<TemplateSession>)
  {
    forall k :: 0 <= k < |ss| ==> ss[k].trainings.Some?
  }

  function CpuPerTraining(ts: seq<TrainingEvent>): (r: seq<real>)
    ensures |r| == |ts| && forall i :: 0 <= i < |ts| ==> r[i] == ts[i].millicpus
  {
    seq(|ts|, i requires 0 <= i < |ts| => ts[i].millicpus)
  }

  function MemPerTraining(ts: seq<TrainingEvent>): (r: seq<real>)
    ensures |r| == |ts| && forall i :: 0 <= i < |ts| ==> r[i] == ts[i].memUsageMb
  {
    seq(|ts|, i requires 0 <= i < |ts| => ts[i].memUsageMb)
  }

  function GpusPerTraining(ts: seq<TrainingEvent>): (r: seq<int>)
    ensures |r| == |ts| && forall i :: 0 <= i < |ts| ==> r[i] == |ts[i].gpuUtil|
  {
    seq(|ts|, i requires 0 <= i < |ts| => |ts[i].gpuUtil|)
  }

  /** The maps after one more session: its current request always, its per-training lists only if it has trainings. */
  function AddSession(m: TemplateMaps, s: TemplateSession): TemplateMaps
    requires s.trainings.Some?
  {
    var withSession := m.(cpuSession := m.cpuSession[s.id := s.current.cpus],
                          memSession := m.memSession[s.id := s.current.memoryMb],
                          gpuSession := m.gpuSession[s.id := s.current.gpus]);
    var ts := s.trainings.value;
    if |ts| == 0 then withSession
    else withSession.(cpuTask := m.cpuTask[s.id := CpuPerTraining(ts)],
                      memTask := m.memTask[s.id := MemPerTraining(ts)],
                      gpuTask := m.gpuTask[s.id := GpusPerTraining(ts)])
  }

  /** The maps built from the sessions in order. */
  function TemplateMapsOf(ss: seq<TemplateSession>): TemplateMaps
    requires AllTrainingsPresent(ss)
  {
    if ss == [] then NoMaps else AddSession(TemplateMapsOf(ss[..|ss| - 1]), ss[|ss| - 1])
  }

  /** No later session carries the same id. */
  predicate LastWithId(ss: seq<TemplateSession>, k: int)
    requires 0 <= k < |ss|
  {
    forall j :: k < j < |ss| ==> ss[j].id != ss[k].id
  }

  /** No later session with the same id has any training. */
  predicate LastTrainedWithId(ss: seq<TemplateSession>, k: int)
    requires 0 <= k < |ss| && AllTrainingsPresent(ss)
  {
    forall j :: k < j < |ss| && ss[j].id == ss[k].id ==> |ss[j].trainings.value| == 0
  }

  /**
   * Every session has an entry in the three session maps, taken from its
   * current resource request (the last session wins when ids repeat), and no
   * other id has one.
   */
  lemma {:induction false} SessionEntries(ss: seq<TemplateSession>, k: int)
    requires AllTrainingsPresent(ss) && 0 <= k < |ss| && LastWithId(ss, k)
    ensures var m := TemplateMapsOf(ss);
      && ss[k].id in m.cpuSession && m.cpuSession[ss[k].id] == ss[k].current.cpus
      && ss[k].id in m.memSession && m.memSession[ss[k].id] == ss[k].current.memoryMb
      && ss[k].id in m.gpuSession && m.gpuSession[ss[k].id] == ss[k].current.gpus
  {
    if k < |ss| - 1 {
      SessionEntries(ss[..|ss| - 1], k);
    }
  }

  /** The maps of a prefix one session longer. */
  lemma PrefixStep(ss: seq<TemplateSession>, i: int)
    requires 0 <= i < |ss| && AllTrainingsPresent(ss[..i]) && ss[i].trainings.Some?
    ensures AllTrainingsPresent(ss[..i + 1])
    ensures TemplateMapsOf(ss[..i + 1]) == AddSession(TemplateMapsOf(ss[..i]), ss[i])
  {
    assert ss[..i + 1][..i] == ss[..i];
    assert forall k :: 0 <= k < i + 1 ==> ss[..i + 1][k] == ss[k];
  }

  /** Storing under a key adds exactly that key. */
  lemma StoreKeys<V>(m: map<string, V>, k: string, v: V)
    ensures m[k := v].Keys == m.Keys + {k}
  {
  }

  /** Adding a session adds its id to the keys of the three session maps. */
  lemma AddSessionKeys(m: TemplateMaps, s: TemplateSession)
    requires s.trainings.Some?
    ensures var r := AddSession(m, s);
      && r.cpuSession.Keys == m.cpuSession.Keys + {s.id}
      && r.memSession.Keys == m.memSession.Keys + {s.id}
      && r.gpuSession.Keys == m.gpuSession.Keys + {s.id}
  {
    StoreKeys(m.cpuSession, s.id, s.current.cpus);
    StoreKeys(m.memSession, s.id, s.current.memoryMb);
    StoreKeys(m.gpuSession, s.id, s.current.gpus);
  }

  /** Adding a session adds its id to the keys of the three per-task maps exactly when it has trainings. */
  lemma AddSessionTaskKeys(m: TemplateMaps, s: TemplateSession)
    requires s.trainings.Some?
    ensures var r := AddSession(m, s);
      && r.cpuTask.Keys == m.cpuTask.Keys + (if |s.trainings.value| > 0 then {s.id} else {})
      && r.memTask.Keys == m.memTask.Keys + (if |s.trainings.value| > 0 then {s.id} else {})
      && r.gpuTask.Keys == m.gpuTask.Keys + (if |s.trainings.value| > 0 then {s.id} else {})
  {
    var ts := s.trainings.value;
    if |ts| > 0 {
      StoreKeys(m.cpuTask, s.id, CpuPerTraining(ts));
      StoreKeys(m.memTask, s.id, MemPerTraining(ts));
      StoreKeys(m.gpuTask, s.id, GpusPerTraining(ts));
    } else {
      assert m.cpuTask.Keys + {} == m.cpuTask.Keys;
      assert m.memTask.Keys + {} == m.memTask.Keys;
      assert m.gpuTask.Keys + {} == m.gpuTask.Keys;
    }
  }

  /** Exactly the ids of the sessions are keys of the three session maps. */
  lemma {:induction false} SessionMapKeys(ss: seq<TemplateSession>)
    requires AllTrainingsPresent(ss)
    ensures var m := TemplateMapsOf(ss);
      && m.memSession.Keys == m.cpuSession.Keys && m.gpuSession.Keys == m.cpuSession.Keys
      && m.cpuSession.Keys == (set k | 0 <= k < |ss| :: ss[k].id)
  {
    if ss != [] {
      var init := ss[..|ss| - 1];
      SessionMapKeys(init);
      AddSessionKeys(TemplateMapsOf(init), ss[|ss| - 1]);
      assert (set k | 0 <= k < |ss| :: ss[k].id) == (set k | 0 <= k < |init| :: init[k].id) + {ss[|ss| - 1].id} by {
        assert forall k :: 0 <= k < |init| ==> init[k] == ss[k];
      }
    }
  }

  /** Exactly the ids of sessions that have trainings are keys of the three per-task maps. */
  lemma {:induction false} TaskMapKeys(ss: seq<TemplateSession>)
    requires AllTrainingsPresent(ss)
    ensures var m := TemplateMapsOf(ss);
      && m.memTask.Keys == m.cpuTask.Keys && m.gpuTask.Keys == m.cpuTask.Keys
      && m.cpuTask.Keys == (set k | 0 <= k < |ss| && |ss[k].trainings.value| > 0 :: ss[k].id)
  {
    if ss != [] {
      var init := ss[..|ss| - 1];
      TaskMapKeys(init);
      AddSessionTaskKeys(TemplateMapsOf(init), ss[|ss| - 1]);
      var last := ss[|ss| - 1];
      var now := set k | 0 <= k < |ss| && |ss[k].trainings.value| > 0 :: ss[k].id;
      var before := set k | 0 <= k < |init| && |init[k].trainings.value| > 0 :: init[k].id;
      assert now == before + (if |last.trainings.value| > 0 then {last.id} else {}) by {
        assert forall k :: 0 <= k < |init| ==> init[k] == ss[k];
      }
    }
  }

  /**
   * A session with trainings (and no later same-id session with trainings)
   * has per-task lists as long as its trainings, entry i holding training i's
   * millicpus, memory and GPU count.
   */
  lemma {:induction false} TaskEntries(ss: seq<TemplateSession>, k: int)
    requires AllTrainingsPresent(ss) && 0 <= k < |ss| && LastTrainedWithId(ss, k)
    requires |ss[k].trainings.value| > 0
    ensures var m := TemplateMapsOf(ss); var ts := ss[k].trainings.value; var id := ss[k].id;
      && id in m.cpuTask && m.cpuTask[id] == CpuPerTraining(ts)
      && id in m.memTask && m.memTask[id] == MemPerTraining(ts)
      && id in m.gpuTask && m.gpuTask[id] == GpusPerTraining(ts)
  {
    if k < |ss| - 1 {
      TaskEntries(ss[..|ss| - 1], k);
    }
  }

  /** The inner loop of `GenerateTemplateWorkload`: one entry per training, in order. */
  method PerTrainingLists(ts: seq<TrainingEvent>) returns (cpu: seq<real>, mem: seq<real>, gpus: seq<int>)
    ensures |cpu| == |ts| && |mem| == |ts| && |gpus| == |ts|
    ensures forall i :: 0 <= i < |ts| ==> cpu[i] == ts[i].millicpus && mem[i] == ts[i].memUsageMb && gpus[i] == |ts[i].gpuUtil|
  {
    var cpuPerTrainingTask := new real[|ts|];
    var memPerTrainingTask := new real[|ts|];
    var numGpusPerTrainingTask := new int[|ts|];
    for t := 0 to |ts|
      invariant forall i :: 0 <= i < t ==> cpuPerTrainingTask[i] == ts[i].millicpus
      invariant forall i :: 0 <= i < t ==> memPerTrainingTask[i] == ts[i].memUsageMb
      invariant forall i :: 0 <= i < t ==> numGpusPerTrainingTask[i] == |ts[i].gpuUtil|
    {
      cpuPerTrainingTask[t] := ts[t].millicpus;
      memPerTrainingTask[t] := ts[t].memUsageMb;
      numGpusPerTrainingTask[t] := |ts[t].gpuUtil|;
    }
    return cpuPerTrainingTask[..], memPerTrainingTask[..], numGpusPerTrainingTask[..];
  }

  /**
   * The map-building phase of `GenerateTemplateWorkload`. A nil session list,
   * a nil registration request, or a session whose trainings are nil panics;
   * otherwise every session contributes to the maps in order.
   */
  method GenerateTemplateWorkload(sessions: Option<seq<TemplateSession>>, hasRequest: bool) returns (out: TemplateOutcome)
    ensures sessions.None? ==> out == PanicNilSessions
    ensures sessions.Some? && !hasRequest ==> out == PanicNilRequest
    ensures sessions.Some? && hasRequest && AllTrainingsPresent(sessions.value) ==> out == Built(TemplateMapsOf(sessions.value))
    ensures sessions.Some? && hasRequest && !AllTrainingsPresent(sessions.value) ==> out.PanicNilTrainings?
    ensures out.PanicNilTrainings? ==>
      sessions.Some? && exists k :: 0 <= k < |sessions.value| && sessions.value[k].trainings.None? && sessions.value[k].id == out.sessionId
  {
    if sessions.None? {
      return PanicNilSessions;
    }
    if !hasRequest {
      return PanicNilRequest;
    }
    var ss := sessions.value;
    var cpuSession, memSession, gpuSession := map[], map[], map[];
    var cpuTask, memTask, gpuTask := map[], map[], map[];
    var i := 0;
    while i < |ss|
      invariant 0 <= i <= |ss| && AllTrainingsPresent(ss[..i])
      invariant TemplateMaps(cpuSession, memSession, gpuSession, cpuTask, memTask, gpuTask) == TemplateMapsOf(ss[..i])
    {
      var session := ss[i];
      ghost var before := TemplateMaps(cpuSession, memSession, gpuSession, cpuTask, memTask, gpuTask);
      cpuSession := cpuSession[session.id := session.current.cpus];
      memSession := memSession[session.id := session.current.memoryMb];
      gpuSession := gpuSession[session.id := session.current.gpus];
      if session.trainings.None? {
        return PanicNilTrainings(session.id);
      }
      PrefixStep(ss, i);
      var ts := session.trainings.value;
      if |ts| > 0 {
        var cpuPerTrainingTask, memPerTrainingTask, numGpusPerTrainingTask := PerTrainingLists(ts);
        assert cpuPerTrainingTask == CpuPerTraining(ts) && memPerTrainingTask == MemPerTraining(ts);
        assert numGpusPerTrainingTask == GpusPerTraining(ts);
        cpuTask := cpuTask[session.id := cpuPerTrainingTask];
        memTask := memTask[session.id := memPerTrainingTask];
        gpuTask := gpuTask[session.id := numGpusPerTrainingTask];
      }
      assert TemplateMaps(cpuSession, memSession, gpuSession, cpuTask, memTask, gpuTask) == AddSession(before, session);
      i := i + 1;
    }
    assert ss[..i] == ss;
    return Built(TemplateMaps(cpuSession, memSession, gpuSession, cpuTask, memTask, gpuTask));
  }

  // ---------------------------------------------------------------------------
  // GPU counts read from the trace summary files.

  /** Go's `int(x)` on a float: truncation toward zero. */
  function Trunc(x: real): (r: int)
    ensures x >= 0.0 ==> 0 <= r && r as real <= x < r as real + 1.0
    ensures x < 0.0 ==> r <= 0 && r as real - 1.0 < x <= r as real
  {
    if x >= 0.0 then x.Floor else -((-x).Floor)
  }

  /**
   * One row of a max-GPU file, already parsed: the recorded GPU count and the
   * maximum utilisation rounded to whole GPUs (the float rounding is not modelled).
   */
  datatype GpuRow = GpuRow(sessionId: string, numGpus: real, roundedUtil: int)

  /** The GPU count the generator assigns to a row. */
  function GpuCount(row: GpuRow, adjustGpuReservations: bool): int
  {
    if adjustGpuReservations then ClampGpus(row.roundedUtil, Trunc(row.numGpus)) else Trunc(row.numGpus)
  }

  /** With adjustment a count lies in [1, max(recorded, 1)]; without it is the truncated recorded count. */
  lemma GpuCountBounds(row: GpuRow, adjust: bool)
    ensures adjust ==> 1 <= GpuCount(row, adjust) <= MaxInt(Trunc(row.numGpus), 1)
    ensures !adjust ==> GpuCount(row, adjust) == Trunc(row.numGpus)
  {
  }

  /** `getSessionGpuMap`: one count per session id, a later row overwriting an earlier one. */
  method SessionGpuMap(rows: seq<GpuRow>, adjustGpuReservations: bool) returns (m: map<string, int>)
    ensures m.Keys == set k | 0 <= k < |rows| :: rows[k].sessionId
    ensures forall k :: 0 <= k < |rows| && (forall j :: k < j < |rows| ==> rows[j].sessionId != rows[k].sessionId) ==>
      m[rows[k].sessionId] == GpuCount(rows[k], adjustGpuReservations)
  {
    m := map[];
    var i := 0;
    while i < |rows|
      invariant 0 <= i <= |rows|
      invariant m.Keys == set k | 0 <= k < i :: rows[k].sessionId
      invariant forall k :: 0 <= k < i && (forall j :: k < j < i ==> rows[j].sessionId != rows[k].sessionId) ==>
        m[rows[k].sessionId] == GpuCount(rows[k], adjustGpuReservations)
    {
      m := m[rows[i].sessionId := GpuCount(rows[i], adjustGpuReservations)];
      i := i + 1;
    }
  }

  /** The values of the rows keyed `id`, in file order. */
  function ValuesFor<T>(rows: seq<(string, T)>, id: string): seq<T>
  {
    if rows == [] then []
    else ValuesFor(rows[..|rows| - 1], id) + (if rows[|rows| - 1].0 == id then [rows[|rows| - 1].1] else [])
  }

  /** The k-th value kept for an id is the value of the k-th row with that id. */
  lemma {:induction false} ValuesForCount<T>(rows: seq<(string, T)>, id: string)
    ensures |ValuesFor(rows, id)| == |set k | 0 <= k < |rows| && rows[k].0 == id|
    ensures |ValuesFor(rows, id)| > 0 <==> exists k :: 0 <= k < |rows| && rows[k].0 == id
  {
    if rows != [] {
      var init := rows[..|rows| - 1];
      ValuesForCount(init, id);
      var s := set k | 0 <= k < |rows| && rows[k].0 == id;
      var s0 := set k | 0 <= k < |init| && init[k].0 == id;
      if rows[|rows| - 1].0 == id {
        assert s == s0 + {|rows| - 1};
      } else {
        assert s == s0;
        if exists k :: 0 <= k < |rows| && rows[k].0 == id {
          var k :| 0 <= k < |rows| && rows[k].0 == id;
          assert init[k].0 == id;
        }
      }
    }
  }

  /**
   * The per-training lists of `getTrainingTaskCpuMap`, `getTrainingTaskGpuMap`
   * and `getTrainingTaskMemMap`: each row's value is appended to its session's
   * list, so a session's list holds its rows' values in file order.
   */
  method AppendBySession<T>(rows: seq<(string, T)>) returns (m: map<string, seq<T>>)
    ensures m.Keys == set k | 0 <= k < |rows| :: rows[k].0
    ensures forall id :: id in m ==> m[id] == ValuesFor(rows, id)
  {
    m := map[];
    var i := 0;
    while i < |rows|
      invariant 0 <= i <= |rows|
      invariant m.Keys == set k | 0 <= k < i :: rows[k].0
      invariant forall id :: id in m ==> m[id] == ValuesFor(rows[..i], id)
      invariant forall id :: id !in m ==> ValuesFor(rows[..i], id) == []
    {
      var id := rows[i].0;
      var list := if id in m then m[id] else [];
      m := m[id := list + [rows[i].1]];
      assert rows[..i + 1][..i] == rows[..i];
      i := i + 1;
    }
    assert rows[..i] == rows;
  }

  /** `getTrainingTaskGpuMap`: every row's GPU count appended to its session's list in file order. */
  method TrainingTaskGpuMap(rows: seq<GpuRow>, adjustGpuReservations: bool) returns (m: map<string, seq<int>>)
    ensures m.Keys == set k | 0 <= k < |rows| :: rows[k].sessionId
    ensures forall id :: id in m ==> m[id] == ValuesFor(seq(|rows|, i requires 0 <= i < |rows| => (rows[i].sessionId, GpuCount(rows[i], adjustGpuReservations))), id)
  {
    var pairs := seq(|rows|, i requires 0 <= i < |rows| => (rows[i].sessionId, GpuCount(rows[i], adjustGpuReservations)));
    m := AppendBySession(pairs);
    assert forall k :: 0 <= k < |rows| ==> pairs[k].0 == rows[k].sessionId;
    assert (set k | 0 <= k < |pairs| :: pairs[k].0) == set k | 0 <= k < |rows| :: rows[k].sessionId;
  }
}
