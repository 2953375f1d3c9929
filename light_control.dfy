/**
 * The robot server's status-bar task: it polls the current run's engine
 * status and writes the matching status-bar state to the hardware, but only
 * when the engine status has changed since the previous poll.
 */
module LightControl {
  import opened Wrappers

  /** The protocol engine's run status. */
  datatype EngineStatus =
    | Idle
    | Running
    | Paused
    | BlockedByOpenDoor
    | StopRequested
    | Stopped
    | Finishing
    | Failed
    | Succeeded

  /** The status-bar states this task asks the hardware to show. */
  datatype StatusBarState = BarIdle | BarRunning | BarPaused | BarHardwareError | BarRunCompleted

  /** `_engine_status_to_status_bar`: no run shows as idle; every engine status has a bar state. */
  function EngineStatusToStatusBar(status: Option<EngineStatus>): (state: StatusBarState)
    ensures state == BarIdle <==> status == None || status == Some(Idle)
    ensures state == BarRunning <==>
              status == Some(Running) || status == Some(StopRequested) ||
              status == Some(Stopped) || status == Some(Finishing)
    ensures state == BarPaused <==> status == Some(Paused) || status == Some(BlockedByOpenDoor)
    ensures state == BarHardwareError <==> status == Some(Failed)
    ensures state == BarRunCompleted <==> status == Some(Succeeded)
  {
    match status
    case None => BarIdle
    case Some(s) =>
      match s
      case Idle => BarIdle
      case Running => BarRunning
      case Paused => BarPaused
      case BlockedByOpenDoor => BarPaused
      case StopRequested => BarRunning
      case Stopped => BarRunning
      case Finishing => BarRunning
      case Failed => BarHardwareError
      case Succeeded => BarRunCompleted
  }

  /** The hardware writes one `update(prev, new)` call makes. */
  function UpdateWrites(prevStatus: Option<EngineStatus>, newStatus: Option<EngineStatus>): seq<StatusBarState>
  {
    if prevStatus == newStatus then [] else [EngineStatusToStatusBar(newStatus)]
  }

  /**
   * The change is judged on engine statuses, not on bar states: going from no
   * run to an idle run writes IDLE although the bar already showed IDLE, and
   * going from stopped to finishing writes RUNNING again.
   */
  lemma ChangeJudgedOnEngineStatus()
    ensures EngineStatusToStatusBar(None) == EngineStatusToStatusBar(Some(Idle))
    ensures UpdateWrites(None, Some(Idle)) == [BarIdle]
    ensures UpdateWrites(Some(Stopped), Some(Finishing)) == [BarRunning]
  {
  }

  /**
   * The writes made while polling `polled[0], polled[1], ...`: the first poll
   * only initialises `prev_status`, and every later poll is one `update`.
   */
  function TraceWrites(polled: seq<Option<EngineStatus>>): seq<StatusBarState>
    decreases |polled|
  {
    if |polled| < 2 then []
    else TraceWrites(polled[..|polled| - 1]) + UpdateWrites(polled[|polled| - 2], polled[|polled| - 1])
  }

  /** The polls i at which the status differs from the one polled just before. */
  function ChangePoints(polled: seq<Option<EngineStatus>>): set<nat>
  {
    set i: nat | i < |polled| && ChangesAt(polled, i)
  }

  /** Poll i reports a different status from poll i - 1. */
  predicate ChangesAt(polled: seq<Option<EngineStatus>>, i: nat)
  {
    1 <= i < |polled| && polled[i - 1] != polled[i]
  }

  lemma ChangePointsExtend(polled: seq<Option<EngineStatus>>)
    requires |polled| >= 2
    ensures ChangePoints(polled) ==
              ChangePoints(polled[..|polled| - 1]) +
              (if polled[|polled| - 2] != polled[|polled| - 1] then {|polled| - 1} else {})
    ensures |polled| - 1 !in ChangePoints(polled[..|polled| - 1])
  {
    var n := |polled|;
    var front := polled[..n - 1];
    var extra: set<nat> := if polled[n - 2] != polled[n - 1] then {n - 1} else {};
    forall i: nat | i in ChangePoints(polled)
      ensures i in ChangePoints(front) + extra
    {
      if i < n - 1 {
        assert front[i - 1] == polled[i - 1] && front[i] == polled[i];
        assert ChangesAt(front, i);
      }
    }
    forall i: nat | i in ChangePoints(front) + extra
      ensures i in ChangePoints(polled)
    {
      if i in ChangePoints(front) {
        assert front[i - 1] == polled[i - 1] && front[i] == polled[i];
        assert ChangesAt(polled, i);
      }
    }
  }

  /** One hardware write per status change: the writes are exactly as many as the change points. */
  lemma {:induction false} WritesCountChanges(polled: seq<Option<EngineStatus>>)
    ensures |TraceWrites(polled)| == |ChangePoints(polled)|
    decreases |polled|
  {
    if |polled| < 2 {
      assert ChangePoints(polled) == {};
    } else {
      var n := |polled|;
      WritesCountChanges(polled[..n - 1]);
      ChangePointsExtend(polled);
    }
  }

  /** A trace that writes at all leaves the bar showing the state of the last polled status. */
  lemma {:induction false} LastWriteShowsLastStatus(polled: seq<Option<EngineStatus>>)
    requires TraceWrites(polled) != []
    ensures |polled| >= 2
    ensures TraceWrites(polled)[|TraceWrites(polled)| - 1] == EngineStatusToStatusBar(polled[|polled| - 1])
    decreases |polled|
  {
    var n := |polled|;
    if polled[n - 2] == polled[n - 1] {
      var front := polled[..n - 1];
      LastWriteShowsLastStatus(front);
      assert front[|front| - 1] == polled[n - 1];
    }
  }

  /** A trace whose status never changes makes no hardware write. */
  lemma SteadyTraceWritesNothing(polled: seq<Option<EngineStatus>>)
    requires forall i :: 0 <= i < |polled| ==> polled[i] == polled[0]
    ensures TraceWrites(polled) == []
  {
    WritesCountChanges(polled);
    forall i: nat | 1 <= i < |polled|
      ensures !ChangesAt(polled, i)
    {
      assert polled[i - 1] == polled[0] == polled[i];
    }
    assert ChangePoints(polled) == {};
  }

  /** The status-bar hardware, as a recorder of the states written to it. */
  class StatusBarHardware {
    var writes: seq<StatusBarState>

    constructor ()
      ensures writes == []
    {
      writes := [];
    }

    /** `set_status_bar_state`. */
    method SetStatusBarState(state: StatusBarState)
      modifies this
      ensures writes == old(writes) + [state]
    {
      writes := writes + [state];
    }
  }

  /** The engine store: the current run, if any, and its engine's status. */
  class EngineStore {
    var currentRunId: Option<string>
    var engineStatus: EngineStatus

    constructor (currentRunId: Option<string>, engineStatus: EngineStatus)
      ensures this.currentRunId == currentRunId && this.engineStatus == engineStatus
    {
      this.currentRunId := currentRunId;
      this.engineStatus := engineStatus;
    }
  }

  /** What the engine store holds when the task polls it. */
  datatype StoreSnapshot = StoreSnapshot(currentRunId: Option<string>, engineStatus: EngineStatus)

  /** The status a poll of this snapshot reports. */
  function PolledStatus(s: StoreSnapshot): Option<EngineStatus>
  {
    if s.currentRunId.Some? then Some(s.engineStatus) else None
  }

  function PolledStatuses(snapshots: seq<StoreSnapshot>): (r: seq<Option<EngineStatus>>)
    ensures |r| == |snapshots|
    ensures forall i :: 0 <= i < |snapshots| ==> r[i] == PolledStatus(snapshots[i])
  {
    seq(|snapshots|, i requires 0 <= i < |snapshots| => PolledStatus(snapshots[i]))
  }

  /** `LightController`: sets the status bar to match the protocol status. */
  class LightController {
    const api: StatusBarHardware
    const engineStore: EngineStore

    constructor (api: StatusBarHardware, engineStore: EngineStore)
      ensures this.api == api && this.engineStore == engineStore
    {
      this.api := api;
      this.engineStore := engineStore;
    }

    /** `update`: one write of the new status's bar state when the engine status changed, none otherwise. */
    method Update(prevStatus: Option<EngineStatus>, newStatus: Option<EngineStatus>)
      modifies api
      ensures api.writes == old(api.writes) + UpdateWrites(prevStatus, newStatus)
    {
      if prevStatus == newStatus {
        return;
      }
      api.SetStatusBarState(EngineStatusToStatusBar(newStatus));
    }

    /** `get_current_status`: the engine's status while there is a current run, else none. */
    method GetCurrentStatus() returns (status: Option<EngineStatus>)
      ensures status.None? <==> engineStore.currentRunId.None?
      ensures status.Some? ==> status.value == engineStore.engineStatus
    {
      var currentId := engineStore.currentRunId;
      if currentId.Some? {
        return Some(engineStore.engineStatus);
      }
      return None;
    }
  }

  /**
   * The first `|snapshots| - 1` iterations of `run_light_task`'s endless loop.
   * Before each poll the environment leaves the engine store as the next
   * snapshot says (the sleep between polls is where runs start and change).
   * The bar receives exactly the trace's writes, and `prev_status` ends as
   * the last polled status.
   */
  method RunLightTask(driver: LightController, snapshots: seq<StoreSnapshot>)
    returns (prevStatus: Option<EngineStatus>)
    requires |snapshots| >= 1
    modifies driver.api, driver.engineStore
    ensures driver.api.writes == old(driver.api.writes) + TraceWrites(PolledStatuses(snapshots))
    ensures prevStatus == PolledStatus(snapshots[|snapshots| - 1])
  {
    ghost var polled := PolledStatuses(snapshots);
    driver.engineStore.currentRunId, driver.engineStore.engineStatus :=
      snapshots[0].currentRunId, snapshots[0].engineStatus;
    prevStatus := driver.GetCurrentStatus();
    var i := 1;
    while i < |snapshots|
      invariant 1 <= i <= |snapshots|
      invariant prevStatus == polled[i - 1]
      invariant driver.api.writes == old(driver.api.writes) + TraceWrites(polled[..i])
    {
      driver.engineStore.currentRunId, driver.engineStore.engineStatus :=
        snapshots[i].currentRunId, snapshots[i].engineStatus;
      var newStatus := driver.GetCurrentStatus();
      driver.Update(prevStatus, newStatus);
      assert polled[..i + 1][..i] == polled[..i];
      prevStatus := newStatus;
      i := i + 1;
    }
    assert polled[..|snapshots|] == polled;
  }
}
