/**
 * The desktop run-progress meter: which analysis step the run is at, the
 * "i/n" counter, the progress bar, the run-log download link and the gate
 * of the intervention modal.
 */
module ProgressMeter {
  import opened Wrappers
  import opened ApiClient
  import IM = InterventionModal

  /** A completed protocol analysis, as far as the meter reads it. */
  datatype Analysis = Analysis(commands: seq<AnalysisCommand>)

  /** `TERMINAL_RUN_STATUSES`. */
  const TerminalRunStatuses: seq<RunStatus> := [Stopped, Failed, Finishing, Succeeded]

  /** `TERMINAL_RUN_STATUSES.includes(status)`: exactly stopped, failed, finishing and succeeded. */
  function IsTerminal(status: RunStatus): (terminal: bool)
    ensures terminal <==>
              status == Stopped || status == Failed || status == Finishing || status == Succeeded
  {
    status in TerminalRunStatuses
  }

  /** `downloadIsDisabled`. */
  predicate DownloadIsDisabled(runStatus: Option<RunStatus>)
  {
    runStatus == Some(Running) || runStatus == Some(Idle) || runStatus == Some(Finishing)
  }

  /**
   * The run log can be downloaded once a run has stopped, failed or
   * succeeded, and also when the status is unknown, paused or waiting on the
   * door; a finishing run is terminal but still cannot download.
   */
  lemma DownloadAvailability(s: RunStatus)
    ensures IsTerminal(s) && s != Finishing ==> !DownloadIsDisabled(Some(s))
    ensures DownloadIsDisabled(Some(Finishing)) && IsTerminal(Finishing)
    ensures !DownloadIsDisabled(None)
    ensures DownloadIsDisabled(Some(s)) ==> s == Running || s == Idle || IsTerminal(s)
  {
  }

  /** The calls the page makes; the setter of the modal flag is one of them. */
  datatype MeterCall =
    | PreventDefault
    | StopPropagation
    | DownloadRunLog
    | SetShowInterventionModal(show: bool)
    | ResumeRunHandler

  /** The calls one click on the download link makes: none while downloading is disabled. */
  function DownloadClickCalls(runStatus: Option<RunStatus>): (calls: seq<MeterCall>)
    ensures calls == [] <==> DownloadIsDisabled(runStatus)
    ensures DownloadRunLog in calls <==> !DownloadIsDisabled(runStatus)
    ensures calls != [] ==> calls[|calls| - 1] == DownloadRunLog
  {
    if DownloadIsDisabled(runStatus) then [] else [PreventDefault, StopPropagation, DownloadRunLog]
  }

  /** `analysis?.commands ?? []`. */
  function AnalysisCommands(analysis: Option<Analysis>): seq<AnalysisCommand>
  {
    if analysis.Some? then analysis.value.commands else []
  }

  /** `lastRunCommand?.key`: `undefined` when there is no last run command. */
  function LastRunKey(lastRunCommand: Option<RunCommandSummary>): JsKey
  {
    if lastRunCommand.Some? then lastRunCommand.value.key else Undefined
  }

  /**
   * `lastRunAnalysisCommandIndex`. `findIndex` always returns a number, so
   * the trailing `?? 0` never applies: the index is -1 or a valid position.
   */
  function LastRunAnalysisCommandIndex(analysis: Option<Analysis>, lastRunCommand: Option<RunCommandSummary>): (index: int)
    ensures -1 <= index < |AnalysisCommands(analysis)|
    ensures index >= 0 ==> AnalysisCommands(analysis)[index].key == LastRunKey(lastRunCommand)
    ensures index >= 0 ==>
              forall i :: 0 <= i < index ==> AnalysisCommands(analysis)[i].key != LastRunKey(lastRunCommand)
    ensures index == -1 <==>
              forall i :: 0 <= i < |AnalysisCommands(analysis)| ==>
                AnalysisCommands(analysis)[i].key != LastRunKey(lastRunCommand)
  {
    FindIndexByKey(AnalysisCommands(analysis), LastRunKey(lastRunCommand))
  }

  /**
   * Without a last run command the probe is `undefined`, which matches an
   * analysis command that has no key: the index is the first key-less
   * command, and -1 only when every analysis command has a key.
   */
  lemma IndexWithoutLastRunCommand(analysis: Option<Analysis>)
    ensures (forall i :: 0 <= i < |AnalysisCommands(analysis)| ==> AnalysisCommands(analysis)[i].key.Key?)
            ==> LastRunAnalysisCommandIndex(analysis, None) == -1
    ensures (exists i :: 0 <= i < |AnalysisCommands(analysis)| && AnalysisCommands(analysis)[i].key.Undefined?)
            ==> LastRunAnalysisCommandIndex(analysis, None) >= 0
  {
  }

  /** The counter text after the step title. */
  datatype CountText =
    | NoCount                          // ''
    | StepOfTotal(step: nat, total: nat)   // ` ${index + 1}/${analysisCommands.length}`
    | RunTotalOfUnknown(runTotal: int) // `${runCommandsLength}/?`

  /**
   * `countOfTotalText`. The final `else if (analysis == null)` branch assigns
   * the value the text already has, so it changes nothing.
   */
  function CountOfTotalText(
    analysis: Option<Analysis>,
    lastRunCommand: Option<RunCommandSummary>,
    runCommandsLength: Option<int>): (text: CountText)
    ensures text.StepOfTotal? <==> LastRunAnalysisCommandIndex(analysis, lastRunCommand) >= 0
    ensures text.StepOfTotal? ==>
              && 1 <= text.step <= text.total
              && text.total == |AnalysisCommands(analysis)|
              && AnalysisCommands(analysis)[text.step - 1].key == LastRunKey(lastRunCommand)
    ensures text.RunTotalOfUnknown? <==>
              && LastRunAnalysisCommandIndex(analysis, lastRunCommand) == -1
              && LastRunKey(lastRunCommand).Key?
              && runCommandsLength.Some?
    ensures text.RunTotalOfUnknown? ==> runCommandsLength == Some(text.runTotal)
  {
    var commands := AnalysisCommands(analysis);
    var index := LastRunAnalysisCommandIndex(analysis, lastRunCommand);
    if index >= 0 && index <= |commands| - 1 then
      StepOfTotal(index + 1, |commands|)
    else if index == -1 && LastRunKey(lastRunCommand).Key? && runCommandsLength.Some? then
      RunTotalOfUnknown(runCommandsLength.value)
    else
      NoCount
  }

  /** A last run command whose key is in the analysis is shown as its first position out of the analysis length. */
  lemma CountOfFoundCommand(
    analysis: Option<Analysis>, lastRunCommand: Option<RunCommandSummary>,
    runCommandsLength: Option<int>, p: nat)
    requires p < |AnalysisCommands(analysis)|
    requires AnalysisCommands(analysis)[p].key == LastRunKey(lastRunCommand)
    requires forall i :: 0 <= i < p ==> AnalysisCommands(analysis)[i].key != LastRunKey(lastRunCommand)
    ensures CountOfTotalText(analysis, lastRunCommand, runCommandsLength) ==
              StepOfTotal(p + 1, |AnalysisCommands(analysis)|)
  {
  }

  /** `runHasNotBeenStarted`. */
  predicate RunHasNotBeenStarted(
    analysis: Option<Analysis>, lastRunCommand: Option<RunCommandSummary>, runStatus: Option<RunStatus>)
  {
    || (LastRunAnalysisCommandIndex(analysis, lastRunCommand) == 0 && runStatus == Some(BlockedByOpenDoor))
    || runStatus == Some(Idle)
  }

  /** What stands after the step title. */
  datatype StepContents =
    | NoStepContents
    | NotStartedYet
    | AnalysisCommandText(command: AnalysisCommand)
    | RunCommandText
    | ProtocolCompleted

  /**
   * `currentStepContents`: "not started yet", else the analysis command at
   * the index, else the run's own command when the key is not in the
   * analysis, else "protocol completed" for a terminal run.
   */
  function CurrentStepContents(
    analysis: Option<Analysis>,
    lastRunCommand: Option<RunCommandSummary>,
    runStatus: Option<RunStatus>,
    runCommandDetailsPresent: bool): (contents: StepContents)
    ensures contents == NotStartedYet <==> RunHasNotBeenStarted(analysis, lastRunCommand, runStatus)
    ensures contents.AnalysisCommandText? <==>
              && !RunHasNotBeenStarted(analysis, lastRunCommand, runStatus)
              && analysis.Some?
              && LastRunAnalysisCommandIndex(analysis, lastRunCommand) >= 0
    ensures contents.AnalysisCommandText? ==>
              && contents.command == AnalysisCommands(analysis)[LastRunAnalysisCommandIndex(analysis, lastRunCommand)]
              && contents.command.key == LastRunKey(lastRunCommand)
    ensures contents == RunCommandText <==>
              && !RunHasNotBeenStarted(analysis, lastRunCommand, runStatus)
              && analysis.Some?
              && LastRunAnalysisCommandIndex(analysis, lastRunCommand) == -1
              && runCommandDetailsPresent
    ensures contents == ProtocolCompleted <==>
              && !RunHasNotBeenStarted(analysis, lastRunCommand, runStatus)
              && !(analysis.Some? && (LastRunAnalysisCommandIndex(analysis, lastRunCommand) >= 0 || runCommandDetailsPresent))
              && runStatus.Some? && IsTerminal(runStatus.value)
    ensures contents == NoStepContents <==>
              && !RunHasNotBeenStarted(analysis, lastRunCommand, runStatus)
              && !(analysis.Some? && (LastRunAnalysisCommandIndex(analysis, lastRunCommand) >= 0 || runCommandDetailsPresent))
              && (runStatus.None? || !IsTerminal(runStatus.value))
  {
    var commands := AnalysisCommands(analysis);
    var index := LastRunAnalysisCommandIndex(analysis, lastRunCommand);
    if RunHasNotBeenStarted(analysis, lastRunCommand, runStatus) then NotStartedYet
    else if analysis.Some? && 0 <= index < |commands| then AnalysisCommandText(commands[index])
    else if analysis.Some? && index == -1 && runCommandDetailsPresent then RunCommandText
    else if runStatus.Some? && IsTerminal(runStatus.value) then ProtocolCompleted
    else NoStepContents
  }

  lemma FractionAtMostOne(k: nat, n: nat)
    requires 1 <= k <= n
    ensures 0.0 < (k as real / n as real) * 100.0 <= 100.0
  {
    assert k as real / n as real <= 1.0 by {
      assert (k as real / n as real) * n as real == k as real;
    }
  }

  /**
   * The `ProgressBar`'s `percentComplete`, or `None` when no bar is rendered:
   * a bar exactly when there is an analysis and the index was found; 0 when
   * the run has not been started, else `(index + 1) / length * 100`, which
   * lies in (0, 100].
   */
  function ProgressBarPercent(
    analysis: Option<Analysis>,
    lastRunCommand: Option<RunCommandSummary>,
    runStatus: Option<RunStatus>): (percent: Option<real>)
    ensures percent.Some? <==> analysis.Some? && LastRunAnalysisCommandIndex(analysis, lastRunCommand) >= 0
    ensures percent.Some? ==> 0.0 <= percent.value <= 100.0
    ensures percent.Some? ==>
              (percent.value == 0.0 <==> RunHasNotBeenStarted(analysis, lastRunCommand, runStatus))
    ensures percent.Some? && !RunHasNotBeenStarted(analysis, lastRunCommand, runStatus) ==>
              percent.value ==
                ((LastRunAnalysisCommandIndex(analysis, lastRunCommand) + 1) as real / |AnalysisCommands(analysis)| as real) * 100.0
    ensures (&& percent.Some?
             && LastRunAnalysisCommandIndex(analysis, lastRunCommand) == |AnalysisCommands(analysis)| - 1
             && !RunHasNotBeenStarted(analysis, lastRunCommand, runStatus))
            ==> percent.value == 100.0
  {
    var commands := AnalysisCommands(analysis);
    var index := LastRunAnalysisCommandIndex(analysis, lastRunCommand);
    if analysis.Some? && index >= 0 then
      if RunHasNotBeenStarted(analysis, lastRunCommand, runStatus) then Some(0.0)
      else
        FractionAtMostOne(index + 1, |commands|);
        Some(((index + 1) as real / |commands| as real) * 100.0)
    else None
  }

  /**
   * The flag after the render-time update: it is set when the last run
   * command is an intervention, and rendering never clears it.
   */
  function FlagAfterRender(
    showInterventionModal: bool,
    lastRunCommand: Option<RunCommandSummary>,
    isInterventionCommand: RunCommandSummary -> bool): bool
  {
    showInterventionModal || (lastRunCommand.Some? && isInterventionCommand(lastRunCommand.value))
  }

  /** The guard of the `InterventionModal` portal. */
  predicate InterventionModalShown(
    showInterventionModal: bool,
    analysis: Option<Analysis>,
    runStatus: Option<RunStatus>,
    runDataPresent: bool,
    lastRunCommand: Option<RunCommandSummary>,
    isInterventionCommand: RunCommandSummary -> bool)
  {
    && showInterventionModal
    && analysis.Some?
    && runStatus.Some?
    && runDataPresent
    && lastRunCommand.Some?
    && !IsTerminal(runStatus.value)
    && isInterventionCommand(lastRunCommand.value)
  }

  /**
   * Once the render-time update has run, the modal is up exactly when the
   * status is known and not terminal, the run data and analysis are loaded,
   * and the last run command is an intervention, whatever the flag was.
   */
  lemma ModalShownAfterRender(
    flag: bool, analysis: Option<Analysis>, runStatus: Option<RunStatus>, runDataPresent: bool,
    lastRunCommand: Option<RunCommandSummary>, isInterventionCommand: RunCommandSummary -> bool)
    ensures InterventionModalShown(
              FlagAfterRender(flag, lastRunCommand, isInterventionCommand),
              analysis, runStatus, runDataPresent, lastRunCommand, isInterventionCommand)
            <==>
            && analysis.Some? && runDataPresent
            && runStatus.Some? && !IsTerminal(runStatus.value)
            && lastRunCommand.Some? && isInterventionCommand(lastRunCommand.value)
  {
  }

  /**
   * `oldLabwareLocation`: looked up only for a move-labware last command
   * while the run data is loaded. The lookup reads `lastRunCommand.params`
   * without `?.`, so a move-labware command without params throws. The
   * helper `getLoadedLabware(runData, id)?.location ?? null` is the
   * parameter `locationOf`.
   */
  function OldLabwareLocation(
    lastRunCommand: Option<RunCommandSummary>,
    runDataPresent: bool,
    locationOf: Option<string> -> Option<string>): (r: JsValue<Option<string>>)
    ensures r.TypeError? <==>
              && lastRunCommand.Some? && lastRunCommand.value.commandType == "moveLabware"
              && runDataPresent && lastRunCommand.value.params.None?
    ensures r.Value? && r.v.Some? ==>
              lastRunCommand.Some? && lastRunCommand.value.commandType == "moveLabware" && runDataPresent
    ensures lastRunCommand.Some? && lastRunCommand.value.commandType == "moveLabware" && runDataPresent &&
            lastRunCommand.value.params.Some? ==>
              r == Value(locationOf(lastRunCommand.value.params.value.labwareId))
    ensures (lastRunCommand.None? || lastRunCommand.value.commandType != "moveLabware" || !runDataPresent) ==>
              r == Value(None)
  {
    if lastRunCommand.Some? && lastRunCommand.value.commandType == "moveLabware" && runDataPresent then
      if lastRunCommand.value.params.None? then TypeError
      else Value(locationOf(lastRunCommand.value.params.value.labwareId))
    else Value(None)
  }

  /**
   * The props the meter hands to the modal. The labware name is
   * `getLabwareNameFromRunData` applied to `lastRunCommand.params.labwareId`,
   * read without `?.`: a last command without params throws. The display
   * locations and the robot type are inputs; `oldLabwareLocation` is `None`
   * when the old location is unknown.
   */
  function MeterModalProps(
    robotName: string,
    lastRunCommand: RunCommandSummary,
    moduleRenderInfo: IM.ModuleRenderInfoById,
    labwareRenderInfo: IM.LabwareRenderInfoById,
    labwareNameOf: Option<string> -> string,
    oldLabwareLocation: Option<string>,
    displayLocation: string -> string,
    newLocationText: string,
    robotType: IM.RobotType): (r: JsValue<IM.InterventionModalProps>)
    ensures r.TypeError? <==> lastRunCommand.params.None?
    ensures r.Value? ==>
              && r.v.command == lastRunCommand
              && r.v.robotName == robotName
              && IM.MoveLabwarePropsPresent(r.v)
              && r.v.robotType == Some(robotType)
              && r.v.moduleRenderInfo == Some(moduleRenderInfo)
              && r.v.labwareRenderInfo == Some(labwareRenderInfo)
              && r.v.labwareName == Some(labwareNameOf(lastRunCommand.params.value.labwareId))
              && r.v.oldDisplayLocation ==
                   Some(if oldLabwareLocation.Some? then displayLocation(oldLabwareLocation.value) else "")
              && r.v.newDisplayLocation ==
                   Some(if lastRunCommand.commandType == "moveLabware" then newLocationText else "")
  {
    if lastRunCommand.params.None? then TypeError
    else
      Value(IM.InterventionModalProps(
        robotName,
        lastRunCommand,
        Some(robotType),
        Some(moduleRenderInfo),
        Some(labwareRenderInfo),
        Some(labwareNameOf(lastRunCommand.params.value.labwareId)),
        Some(if oldLabwareLocation.Some? then displayLocation(oldLabwareLocation.value) else ""),
        Some(if lastRunCommand.commandType == "moveLabware" then newLocationText else "")))
  }

  /**
   * A move-labware stop always gets move content when its params are there,
   * because the meter passes all five move-labware props; without params the
   * render throws instead.
   */
  lemma MeterMoveLabwareHasContent(
    robotName: string, lastRunCommand: RunCommandSummary,
    moduleRenderInfo: IM.ModuleRenderInfoById, labwareRenderInfo: IM.LabwareRenderInfoById,
    labwareNameOf: Option<string> -> string, oldLabwareLocation: Option<string>,
    displayLocation: string -> string, newLocationText: string, robotType: IM.RobotType)
    requires lastRunCommand.commandType == "moveLabware"
    ensures var r := MeterModalProps(robotName, lastRunCommand, moduleRenderInfo, labwareRenderInfo,
                                     labwareNameOf, oldLabwareLocation, displayLocation, newLocationText, robotType);
            && (r.Value? <==> lastRunCommand.params.Some?)
            && (r.Value? ==> IM.ModalContentFor(r.v).MoveLabwareContent?)
  {
  }

  /**
   * The bar never shrinks as the matched command moves on, and outside the
   * idle status it strictly grows (an open door at the first command shows 0,
   * and any later command more).
   */
  lemma {:induction false} ProgressBarGrowsWithIndex(
    analysis: Option<Analysis>, earlier: Option<RunCommandSummary>, later: Option<RunCommandSummary>,
    runStatus: Option<RunStatus>)
    requires analysis.Some?
    requires 0 <= LastRunAnalysisCommandIndex(analysis, earlier) < LastRunAnalysisCommandIndex(analysis, later)
    ensures ProgressBarPercent(analysis, earlier, runStatus).Some?
    ensures ProgressBarPercent(analysis, later, runStatus).Some?
    ensures ProgressBarPercent(analysis, earlier, runStatus).value <= ProgressBarPercent(analysis, later, runStatus).value
    ensures runStatus != Some(Idle) ==>
              ProgressBarPercent(analysis, earlier, runStatus).value < ProgressBarPercent(analysis, later, runStatus).value
  {
    var p := ProgressBarPercent(analysis, earlier, runStatus);
    var q := ProgressBarPercent(analysis, later, runStatus);
    assert !RunHasNotBeenStarted(analysis, later, runStatus) <==> runStatus != Some(Idle);
    if RunHasNotBeenStarted(analysis, earlier, runStatus) {
      assert p.value == 0.0;
    } else {
      ShareGrowsWithCount(
        LastRunAnalysisCommandIndex(analysis, earlier) + 1,
        LastRunAnalysisCommandIndex(analysis, later) + 1,
        |AnalysisCommands(analysis)|);
    }
  }

  /** For a fixed positive total, a larger count is a larger share. */
  lemma ShareGrowsWithCount(a: int, b: int, n: int)
    requires 0 <= a < b && 0 < n
    ensures (a as real / n as real) * 100.0 < (b as real / n as real) * 100.0
  {
    var x := a as real / n as real;
    var y := b as real / n as real;
    assert x * n as real == a as real;
    assert y * n as real == b as real;
    assert (y - x) * n as real == (b - a) as real;
  }

  /** The meter's own state and the calls it makes. */
  class RunProgressMeterState {
    var showInterventionModal: bool
    var calls: seq<MeterCall>

    constructor ()
      ensures !showInterventionModal && calls == []
    {
      showInterventionModal := false;
      calls := [];
    }

    /** The render-time update of the modal flag. */
    method Render(lastRunCommand: Option<RunCommandSummary>, isInterventionCommand: RunCommandSummary -> bool)
      modifies this
      ensures showInterventionModal == FlagAfterRender(old(showInterventionModal), lastRunCommand, isInterventionCommand)
      ensures calls == old(calls) +
                (if showInterventionModal != old(showInterventionModal) then [SetShowInterventionModal(true)] else [])
    {
      if lastRunCommand.Some? && isInterventionCommand(lastRunCommand.value) && !showInterventionModal {
        showInterventionModal := true;
        calls := calls + [SetShowInterventionModal(true)];
      }
    }

    /** The modal's `onResume`: the flag is cleared before the run is resumed. */
    method OnResume()
      modifies this
      ensures !showInterventionModal
      ensures calls == old(calls) + [SetShowInterventionModal(false), ResumeRunHandler]
    {
      showInterventionModal := false;
      calls := calls + [SetShowInterventionModal(false)];
      calls := calls + [ResumeRunHandler];
    }

    /** `onDownloadClick`. */
    method OnDownloadClick(runStatus: Option<RunStatus>)
      modifies this
      ensures showInterventionModal == old(showInterventionModal)
      ensures calls == old(calls) + DownloadClickCalls(runStatus)
    {
      if DownloadIsDisabled(runStatus) {
        return;
      }
      calls := calls + [PreventDefault];
      calls := calls + [StopPropagation];
      calls := calls + [DownloadRunLog];
    }
  }
}
