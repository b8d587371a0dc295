/**
 * The workload manager (driver-backend/internal/server/workload/manager.go):
 * the registry of workloads and their drivers, the lookups that fail with
 * ErrWorkloadNotFound, the one-time start of the push routine, and the
 * bookkeeping of the set of workloads whose updates are pushed.
 */
module WorkloadManager {
  import opened Wrappers
  import opened WorkloadLifecycle
  import DomainWorkload
  import WorkloadDriver

  type Workload = DomainWorkload.BasicWorkload
  type Driver = WorkloadDriver.BasicWorkloadDriver

  datatype ManagerError =
    /** ErrWorkloadNotFound, wrapped with the id that was looked up. */
    | WorkloadNotFound(workloadId: string)
    /** An error returned by the workload's driver, passed on unchanged. */
    | ErrDriver(error: WorkloadDriver.DriverError)
    /** The random words ran out before the driver's id was drawn (see NewBasicWorkloadDriver). */
    | ErrIdsExhausted

  /**
   * The workloads of `ws` that are in progress, keyed by id; a later
   * workload with the same id replaces an earlier one, as the loop's map
   * assignment does.
   */
  function ActiveWorkloads(ws: seq<Workload>): (m: map<string, Workload>)
    reads set w | w in ws
    ensures forall k :: k in m ==> m[k] in ws && m[k].id == k && IsInProgress(m[k].state)
    ensures forall i :: 0 <= i < |ws| && IsInProgress(ws[i].state) ==> ws[i].id in m
  {
    if ws == [] then map[]
    else
      var m := ActiveWorkloads(ws[..|ws| - 1]);
      var w := ws[|ws| - 1];
      if IsInProgress(w.state) then m[w.id := w] else m
  }

  /** The workloads of an active map that are still in progress. */
  function StillActive(active: map<string, Workload>): (r: map<string, Workload>)
    reads active.Values
    ensures r.Keys <= active.Keys
    ensures forall k :: k in active ==> (k in r <==> IsInProgress(active[k].state))
    ensures forall k :: k in r ==> r[k] == active[k]
  {
    map k | k in active && IsInProgress(active[k].state) :: active[k]
  }

  /** Dropping finished workloads a second time, with no state change between, drops nothing more. */
  lemma StillActiveIdempotent(active: map<string, Workload>)
    ensures StillActive(StillActive(active)) == StillActive(active)
  {
  }

  /**
   * One round of the push routine on its active set: every workload in the
   * set is pushed, and those no longer in progress are then removed: a
   * finished workload is pushed once more and then leaves the set.
   */
  method PushRound(active: map<string, Workload>) returns (pushed: set<string>, remaining: map<string, Workload>)
    ensures pushed == active.Keys
    ensures remaining == StillActive(active)
    ensures forall id :: id in active && !IsInProgress(active[id].state) ==> id in pushed && id !in remaining
  {
    var keys := active.Keys;
    var noLongerActive: set<string> := {};
    pushed := {};
    while keys != {}
      invariant keys <= active.Keys && pushed == active.Keys - keys
      invariant noLongerActive == set k | k in pushed && !IsInProgress(active[k].state)
      decreases keys
    {
      var k :| k in keys;
      if !IsInProgress(active[k].state) {
        noLongerActive := noLongerActive + {k};
      }
      pushed := pushed + {k};
      keys := keys - {k};
    }
    remaining := active;
    var toDelete := noLongerActive;
    while toDelete != {}
      invariant toDelete <= noLongerActive
      invariant remaining == map k | k in active && k !in noLongerActive - toDelete :: active[k]
      decreases toDelete
    {
      var id :| id in toDelete;
      remaining := map k | k in remaining && k != id :: remaining[k];
      toDelete := toDelete - {id};
    }
  }

  class BasicWorkloadManager {
    /** The preset keys of the server configuration, handed to every new driver. */
    const presetKeys: set<string>
    /** atomic.Int32: 1 once the push routine has been started. */
    var pushGoroutineActive: int
    /** The registered workloads, in registration order. */
    var workloads: seq<Workload>
    var workloadsMap: map<string, Workload>
    var workloadDrivers: map<string, Driver>

    /**
     * The registry invariant: the slice and both maps know the same ids,
     * each map entry is filed under its own id, and a driver's workload is
     * the one the workload map holds.
     */
    ghost predicate Valid()
      reads this, workloadDrivers.Values, workloadsMap.Values
    {
      && (pushGoroutineActive == 0 || pushGoroutineActive == 1)
      && (forall i :: 0 <= i < |workloads| ==> workloads[i].id in workloadsMap)
      && workloadsMap.Keys == workloadDrivers.Keys
      && (forall k :: k in workloadsMap ==> workloadsMap[k].id == k && workloadsMap[k] in workloads)
      && (forall k :: k in workloadDrivers ==>
            workloadDrivers[k].id == k && workloadDrivers[k].workload == workloadsMap[k]
            && workloadDrivers[k].Valid())
    }

    constructor (presetKeys: set<string>)
      ensures Valid() && this.presetKeys == presetKeys
      ensures pushGoroutineActive == 0 && workloads == [] && workloadsMap == map[] && workloadDrivers == map[]
    {
      this.presetKeys := presetKeys;
      pushGoroutineActive := 0;
      workloads := [];
      workloadsMap := map[];
      workloadDrivers := map[];
    }

    /**
     * GetWorkloadWebsocketHandler: the push routine is started by the call
     * whose compare-and-swap takes the flag from 0 to 1, so at most once.
     */
    method GetWorkloadWebsocketHandler() returns (startsPushRoutine: bool)
      requires Valid()
      modifies this
      ensures Valid() && pushGoroutineActive == 1
      ensures startsPushRoutine <==> old(pushGoroutineActive) == 0
      ensures workloads == old(workloads) && workloadsMap == old(workloadsMap)
      ensures workloadDrivers == old(workloadDrivers)
    {
      if pushGoroutineActive == 0 {
        pushGoroutineActive := 1;
        return true;
      }
      return false;
    }

    /** GetWorkloadDriver and the not-found check of every per-workload operation. */
    function Lookup(workloadId: string): (r: Result<Driver, ManagerError>)
      reads this
      ensures r.Err? <==> workloadId !in workloadDrivers
      ensures r.Err? ==> r.error == WorkloadNotFound(workloadId)
      ensures r.Ok? ==> r.value == workloadDrivers[workloadId]
    {
      if workloadId in workloadDrivers then Ok(workloadDrivers[workloadId])
      else Err(WorkloadNotFound(workloadId))
    }

    /** A driver found by id drives that id's registered workload. */
    lemma LookupFindsRegisteredWorkload(workloadId: string)
      requires Valid() && Lookup(workloadId).Ok?
      ensures Lookup(workloadId).value.workload == workloadsMap[workloadId]
      ensures workloadsMap[workloadId] in workloads && workloadsMap[workloadId].id == workloadId
    {
    }

    /** GetActiveWorkloads: the registered workloads in progress, keyed by id. */
    method GetActiveWorkloads() returns (active: map<string, Workload>)
      ensures active == ActiveWorkloads(workloads)
    {
      active := map[];
      var i := 0;
      while i < |workloads|
        invariant 0 <= i <= |workloads|
        invariant active == ActiveWorkloads(workloads[..i])
      {
        var w := workloads[i];
        assert workloads[..i + 1][..i] == workloads[..i];
        if IsInProgress(w.state) {
          active := active[w.id := w];
        }
        i := i + 1;
      }
      assert workloads[..i] == workloads;
    }

    /**
     * RegisterWorkload: a new driver registers the request; on success the
     * workload is appended once to the slice and filed under its id in both
     * maps, and on any error nothing changes.
     */
    method RegisterWorkload(req: WorkloadDriver.RegistrationRequest, words: seq<int>,
                            sourceError: Option<string>, randomSeed: int)
      returns (r: Result<Workload, ManagerError>)
      requires Valid()
      requires forall k :: 0 <= k < |words| ==> 0 <= words[k] < WorkloadDriver.Int63Bound
      requires WorkloadDriver.DrawnSeed(randomSeed)
      modifies this
      ensures Valid() && pushGoroutineActive == old(pushGoroutineActive)
      ensures r.Err? ==>
                workloads == old(workloads) && workloadsMap == old(workloadsMap)
                && workloadDrivers == old(workloadDrivers)
      ensures r.Err? ==> r.error == ErrIdsExhausted || r.error.ErrDriver?
      ensures WorkloadDriver.CreationError(presetKeys, req, sourceError).Some? ==> r.Err?
      ensures r.Err? && r.error.ErrDriver? ==>
                Some(r.error.error) == WorkloadDriver.CreationError(presetKeys, req, sourceError)
      ensures r.Ok? ==>
                fresh(r.value) && r.value.state == Ready && r.value.name == req.workloadName
                && workloads == old(workloads) + [r.value]
                && workloadsMap == old(workloadsMap)[r.value.id := r.value]
                && workloadDrivers.Keys == old(workloadDrivers).Keys + {r.value.id}
                && fresh(workloadDrivers[r.value.id])
                && (forall k :: k in old(workloadDrivers) && k != r.value.id ==> workloadDrivers[k] == old(workloadDrivers)[k])
    {
      var d := WorkloadDriver.NewBasicWorkloadDriver(words, presetKeys);
      if d == null {
        return Err(ErrIdsExhausted);
      }
      var o := d.RegisterWorkload(req, sourceError, randomSeed);
      if o.RegisterFailed? {
        return Err(ErrDriver(o.error));
      }
      var w := d.workload;
      Enroll(d);
      return Ok(w);
    }

    /** The bookkeeping after a successful registration: one append, and the id filed in both maps. */
    method Enroll(d: Driver)
      requires Valid() && d.Valid() && d.workload != null
      modifies this
      ensures Valid() && pushGoroutineActive == old(pushGoroutineActive)
      ensures workloads == old(workloads) + [d.workload]
      ensures workloadsMap == old(workloadsMap)[d.id := d.workload]
      ensures workloadDrivers == old(workloadDrivers)[d.id := d]
    {
      var w := d.workload;
      var id := w.id;
      ghost var oldWorkloads := workloads;
      workloads := workloads + [w];
      workloadsMap := workloadsMap[id := w];
      workloadDrivers := workloadDrivers[id := d];
      forall k | k in workloadsMap
        ensures workloadsMap[k].id == k && workloadsMap[k] in workloads
      {
        if k != id {
          assert old(workloadsMap)[k] in oldWorkloads;
        }
      }
      forall k | k in workloadDrivers
        ensures workloadDrivers[k].id == k && workloadDrivers[k].workload == workloadsMap[k]
        ensures workloadDrivers[k].Valid()
      {
      }
    }

    /**
     * PauseWorkload: an unknown id is ErrWorkloadNotFound and changes
     * nothing; otherwise the driver's own PauseWorkload decides, its error is
     * passed on, and no other workload or driver changes.
     */
    method PauseWorkload(workloadId: string) returns (r: Result<Workload, ManagerError>)
      requires Valid()
      modifies workloadDrivers.Values, workloadsMap.Values
      ensures Valid()
      ensures workloads == old(workloads) && workloadsMap == old(workloadsMap)
      ensures workloadDrivers == old(workloadDrivers) && pushGoroutineActive == old(pushGoroutineActive)
      ensures workloadId !in workloadDrivers ==>
                r == Err(WorkloadNotFound(workloadId))
                && (forall k :: k in workloadDrivers ==> workloadDrivers[k].paused == old(workloadDrivers[k].paused))
      ensures forall k :: k in workloadsMap && k != workloadId ==>
                workloadsMap[k].View() == old(workloadsMap[k].View())
                && workloadDrivers[k].paused == old(workloadDrivers[k].paused)
      ensures workloadId in workloadDrivers ==> workloadDrivers[workloadId].paused
      ensures workloadId in workloadDrivers && old(workloadDrivers[workloadId].paused) ==>
                r == Err(ErrDriver(WorkloadDriver.ErrWorkloadAlreadyPaused))
      ensures workloadId in workloadDrivers && !old(workloadDrivers[workloadId].paused) ==>
                (SetPausingFrom(old(workloadsMap[workloadId].state)).Ok? ==>
                   r == Ok(workloadsMap[workloadId]) && workloadsMap[workloadId].state == Pausing)
                && (SetPausingFrom(old(workloadsMap[workloadId].state)).Err? ==>
                      r == Err(ErrDriver(WorkloadDriver.ErrWorkload(ErrWorkloadNotPaused))))
    {
      if workloadId !in workloadDrivers {
        return Err(WorkloadNotFound(workloadId));
      }
      var d := workloadDrivers[workloadId];
      var err := d.PauseWorkload();
      OthersUnchanged(workloadId);
      if err.Some? {
        return Err(ErrDriver(err.value));
      }
      return Ok(d.workload);
    }

    /**
     * UnpauseWorkload: an unknown id is ErrWorkloadNotFound; otherwise the
     * driver's UnpauseWorkload decides and its error is passed on.
     */
    method UnpauseWorkload(workloadId: string) returns (r: Result<Workload, ManagerError>)
      requires Valid()
      modifies workloadDrivers.Values
      ensures Valid()
      ensures workloads == old(workloads) && workloadsMap == old(workloadsMap)
      ensures workloadDrivers == old(workloadDrivers) && pushGoroutineActive == old(pushGoroutineActive)
      ensures workloadId !in workloadDrivers ==> r == Err(WorkloadNotFound(workloadId))
      ensures forall k :: k in workloadDrivers && k != workloadId ==>
                workloadDrivers[k].paused == old(workloadDrivers[k].paused)
      ensures workloadId in workloadDrivers ==>
                !workloadDrivers[workloadId].paused
                && (old(workloadDrivers[workloadId].paused) <==> r == Ok(workloadsMap[workloadId]))
                && (!old(workloadDrivers[workloadId].paused) ==>
                      r == Err(ErrDriver(WorkloadDriver.ErrWorkloadAlreadyUnpaused)))
    {
      if workloadId !in workloadDrivers {
        return Err(WorkloadNotFound(workloadId));
      }
      var d := workloadDrivers[workloadId];
      var err := d.UnpauseWorkload();
      OthersUnchanged(workloadId);
      if err.Some? {
        return Err(ErrDriver(err.value));
      }
      return Ok(d.workload);
    }

    /** Distinct registry ids name distinct drivers and distinct workloads. */
    lemma DistinctIdsDistinctObjects(a: string, b: string)
      requires Valid() && a in workloadDrivers && b in workloadDrivers && a != b
      ensures workloadDrivers[a] != workloadDrivers[b] && workloadsMap[a] != workloadsMap[b]
      ensures workloadDrivers[a].workload != workloadDrivers[b].workload
    {
    }

    /** A change confined to one id's driver and workload leaves the registry valid. */
    twostate lemma OthersUnchanged(id: string)
      requires old(Valid()) && id in workloadDrivers && unchanged(this)
      requires forall k :: k in workloadDrivers && k != id ==> unchanged(workloadDrivers[k], workloadsMap[k])
      requires workloadDrivers[id].Valid() && workloadDrivers[id].workload == old(workloadDrivers[id].workload)
      ensures Valid()
      ensures forall k :: k in workloadsMap && k != id ==>
                workloadsMap[k].View() == old(workloadsMap[k].View())
                && workloadDrivers[k].paused == old(workloadDrivers[k].paused)
    {
      forall k | k in workloadDrivers && k != id
        ensures workloadDrivers[k].Valid()
      {
        assert old(workloadDrivers[k].Valid());
      }
    }
  }

  /** The second request for the websocket handler never starts another push routine. */
  method PushRoutineStartsOnce(m: BasicWorkloadManager) returns (first: bool, second: bool)
    requires m.Valid()
    modifies m
    ensures !second
  {
    first := m.GetWorkloadWebsocketHandler();
    second := m.GetWorkloadWebsocketHandler();
  }
}
