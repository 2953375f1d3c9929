/**
 * The on-device running-protocol command list: its stop and play/pause
 * buttons, the analytics event each press reports, and the highlighted row.
 */
module CommandList {
  import opened Wrappers
  import opened ApiClient

  /** The analytics event names `ANALYTICS_PROTOCOL_RUN_*`. */
  datatype AnalyticsEvent = ProtocolRunStart | ProtocolRunResume | ProtocolRunPause

  /** Robot details the app attaches to a start event (`RobotAnalyticsData`). */
  datatype RobotAnalyticsData = RobotAnalyticsData(fields: map<string, string>)

  /** The `properties` of a tracked event: left out, `{}`, or the robot's analytics data. */
  datatype EventProperties = NoProperties | EmptyProperties | AnalyticsProperties(data: RobotAnalyticsData)

  /** The callbacks the list receives, as calls made to them. */
  datatype Call =
    | PlayRun
    | PauseRun
    | SetShowConfirmCancelRunModal(show: bool)
    | TrackProtocolRunEvent(name: AnalyticsEvent, properties: EventProperties)

  /** How many of `calls` are run actions (`playRun` or `pauseRun`). */
  function RunActionCount(calls: seq<Call>): nat
  {
    if calls == [] then 0
    else (if calls[0] == PlayRun || calls[0] == PauseRun then 1 else 0) + RunActionCount(calls[1..])
  }

  /** How many of `calls` report an analytics event. */
  function TrackedEventCount(calls: seq<Call>): nat
  {
    if calls == [] then 0
    else (if calls[0].TrackProtocolRunEvent? then 1 else 0) + TrackedEventCount(calls[1..])
  }

  /** `onStop`: pause a running run, then always ask to confirm the cancel. */
  function StopCalls(runStatus: Option<RunStatus>): (calls: seq<Call>)
    ensures calls != [] && calls[|calls| - 1] == SetShowConfirmCancelRunModal(true)
    ensures PauseRun in calls <==> runStatus == Some(Running)
    ensures PlayRun !in calls
    ensures TrackedEventCount(calls) == 0
  {
    var calls := (if runStatus == Some(Running) then [PauseRun] else []) + [SetShowConfirmCancelRunModal(true)];
    assert calls[|calls| - 1..] == [SetShowConfirmCancelRunModal(true)];
    assert TrackedEventCount(calls[|calls| - 1..][1..]) == 0;
    assert |calls| == 2 ==> calls[1..] == calls[|calls| - 1..];
    calls
  }

  /** The event a play/pause press reports. */
  function ToggleEvent(runStatus: Option<RunStatus>, robotAnalyticsData: Option<RobotAnalyticsData>): Call
  {
    if runStatus == Some(Running) then TrackProtocolRunEvent(ProtocolRunPause, NoProperties)
    else TrackProtocolRunEvent(
      if runStatus == Some(Idle) then ProtocolRunStart else ProtocolRunResume,
      if runStatus == Some(Idle) && robotAnalyticsData.Some? then AnalyticsProperties(robotAnalyticsData.value)
      else EmptyProperties)
  }

  /**
   * `onTogglePlayPause`: exactly one run action, pause iff the run is
   * running, followed by exactly one tracked event: pause when running,
   * start when idle, resume otherwise; the robot's data goes with a start
   * only, and only when it is known.
   */
  function TogglePlayPauseCalls(runStatus: Option<RunStatus>, robotAnalyticsData: Option<RobotAnalyticsData>)
    : (calls: seq<Call>)
    ensures RunActionCount(calls) == 1 && TrackedEventCount(calls) == 1
    ensures |calls| == 2 && calls[1].TrackProtocolRunEvent?
    ensures PauseRun in calls <==> runStatus == Some(Running)
    ensures PlayRun in calls <==> runStatus != Some(Running)
    ensures calls[1].name == ProtocolRunPause <==> runStatus == Some(Running)
    ensures calls[1].name == ProtocolRunStart <==> runStatus == Some(Idle)
    ensures calls[1].name == ProtocolRunResume <==> runStatus != Some(Running) && runStatus != Some(Idle)
    ensures calls[1].properties.AnalyticsProperties? <==> runStatus == Some(Idle) && robotAnalyticsData.Some?
    ensures calls[1].properties.AnalyticsProperties? ==> robotAnalyticsData == Some(calls[1].properties.data)
    ensures calls[1].properties == NoProperties <==> runStatus == Some(Running)
  {
    var calls := [if runStatus == Some(Running) then PauseRun else PlayRun, ToggleEvent(runStatus, robotAnalyticsData)];
    assert calls[1..][1..] == [];
    assert calls[1].TrackProtocolRunEvent?;
    assert RunActionCount(calls[1..]) == 0 && TrackedEventCount(calls[1..]) == 1;
    calls
  }

  /** The props' callbacks, recording the calls made to them in order. */
  class RunCallbacks {
    var calls: seq<Call>

    constructor ()
      ensures calls == []
    {
      calls := [];
    }

    method Call(c: Call)
      modifies this
      ensures calls == old(calls) + [c]
    {
      calls := calls + [c];
    }
  }

  /** `onStop`. */
  method OnStop(runStatus: Option<RunStatus>, callbacks: RunCallbacks)
    modifies callbacks
    ensures callbacks.calls == old(callbacks.calls) + StopCalls(runStatus)
  {
    if runStatus == Some(Running) {
      callbacks.Call(PauseRun);
    }
    callbacks.Call(SetShowConfirmCancelRunModal(true));
  }

  /** `onTogglePlayPause`. */
  method OnTogglePlayPause(
    runStatus: Option<RunStatus>, robotAnalyticsData: Option<RobotAnalyticsData>, callbacks: RunCallbacks)
    modifies callbacks
    ensures callbacks.calls == old(callbacks.calls) + TogglePlayPauseCalls(runStatus, robotAnalyticsData)
  {
    if runStatus == Some(Running) {
      callbacks.Call(PauseRun);
      callbacks.Call(TrackProtocolRunEvent(ProtocolRunPause, NoProperties));
    } else {
      callbacks.Call(PlayRun);
      callbacks.Call(TrackProtocolRunEvent(
        if runStatus == Some(Idle) then ProtocolRunStart else ProtocolRunResume,
        if runStatus == Some(Idle) && robotAnalyticsData.Some? then AnalyticsProperties(robotAnalyticsData.value)
        else EmptyProperties));
    }
  }

  /** The row at `index` gets the highlight colour when it is the current run command's. */
  predicate RowIsHighlighted(index: nat, currentRunCommandIndex: Option<int>)
  {
    currentRunCommandIndex == Some(index)
  }

  /**
   * The highlighted rows of a list of `rowCount` commands: at most one, and
   * one exactly when the current index names a row of the list.
   */
  function HighlightedRows(rowCount: nat, currentRunCommandIndex: Option<int>): (rows: set<nat>)
    ensures |rows| <= 1
    ensures |rows| == 1 <==>
              currentRunCommandIndex.Some? && 0 <= currentRunCommandIndex.value < rowCount
    ensures forall i: nat :: i in rows ==> i < rowCount && RowIsHighlighted(i, currentRunCommandIndex)
  {
    var rows := set i: nat | i < rowCount && RowIsHighlighted(i, currentRunCommandIndex);
    if currentRunCommandIndex.Some? && 0 <= currentRunCommandIndex.value < rowCount then
      assert rows == {currentRunCommandIndex.value as nat};
      rows
    else
      assert rows == {};
      rows
  }
}
