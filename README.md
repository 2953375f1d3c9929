# Opentrons run screens, status light and module contexts: a Dafny model

This project models the decision logic of seven files of the Opentrons
robot software and proves properties of that logic:

- **Status-bar light task** (robot server). It maps the protocol engine's
  run status to a status-bar state. It writes the bar only when the polled
  status changes. It polls the engine store in a loop.
- **Run progress meter** (desktop app). It covers:
  - the "current step" count and text, and the progress-bar percentage;
  - when the run log can be downloaded;
  - the flag that opens the intervention modal and its reset on resume.
- **Intervention modal**. It chooses pause content, move-labware content or
  none from the command type and the props it receives.
- **Running-protocol command list** (touchscreen). It covers the stop and
  play/pause handlers with their analytics events, and which row is
  highlighted.
- **Running-protocol page** (touchscreen). It covers:
  - the swipe-driven switch between the current-command screen and the
    command list;
  - the step meter, the page bullets and the name fallbacks.
- **Protocol-setup page** (touchscreen). It covers:
  - the "prepare to run" summary: loading guard, instrument count,
    readiness, the modules, labware, labware-position-check and liquids
    details;
  - the play, position-check and close handlers, and the setup sub-screen
    selector.
- **Python protocol API module contexts**. It covers:
  - loading labware onto a module, and the accessors that only legacy cores
    support;
  - the magnetic module's `engage` precedence and `calibrate` version gate;
  - the set-then-wait call orders of the temperature, thermocycler and
    heater-shaker contexts;
  - the thermocycler's optional lid statuses.

The project is split into modules:

- `Wrappers` holds `Option` and `Result`.
- `ApiClient` holds:
  - the run statuses;
  - command summaries with a JavaScript-style key;
  - the `findIndex` lookup shared by two screens;
  - the protocol-name expression shared by two screens.
- There is one module per source file: `LightControl`, `ProgressMeter`,
  `InterventionModal`, `CommandList`, `RunningProtocol`, `ProtocolSetup`
  and `ModuleContexts`.

## How the model is built

Pure derivations are functions, and each states its meaning in its
`ensures`. State the source changes in place is a class:

- the React `useState` flags (`showInterventionModal`, `currentOption` and
  the swipe type, `setupScreen`, the snackbar and modal flags);
- the light controller and its hardware;
- the module, protocol and core-map objects of the Python API.

Each method's contract gives the new state, in terms of a specification
function where there is one. Callbacks and hardware cores are recorders:
they append each call they receive to a `calls` log, so the order of calls
is part of every contract.

JavaScript values the screens compare with `===` or read through
`?.`/`??` are modelled explicitly:

- A command key is `Undefined`, `Null` or `Key(s)`. This matters:
  - `lastRunCommand?.key` is `undefined` when there is no last command, and
    then it matches an analysis command that has no key;
  - the running page's key is `null`, which never matches a string key.
- `files[0].name` on an empty file list throws a `TypeError`, and so does
  `lastRunCommand.params.labwareId` on a command without params; `JsValue`
  models each throw.

Hooks, queries and helpers whose code is not part of this model are inputs
(values) or parameters (functions). These include:

- `useRunStatus`, `useMostRecentCompletedAnalysis`, `useSwipe`;
- `isInterventionCommand`, `getUnmatchedModulesForProtocol`,
  `getAreInstrumentsReady`, `getProtocolUsesGripper`,
  `getLabwareSetupItemGroups`, `useLPCDisabledReason`,
  `getModuleDisplayName`, `getLoadedLabware`,
  `getLabwareNameFromRunData`, `getLabwareDisplayLocationFromRunData`;
- `validation.ensure_hold_time_seconds` and the heater-shaker temperature
  validator. These may fail: they return a `Result`, and the failure path
  is modelled.

The loop in `run_light_task` never ends. It is modelled as a run over a
finite sequence of engine-store snapshots, one per poll. The first snapshot
is the state before the loop. The proofs relate the status-bar writes of
any such run to the polled statuses.

Three parts of this code keep state that changes from one step to the
next: the running page's swipe transition, the progress meter's
render-time intervention flag, and the light task's change detection.
Each is a class whose methods are proved against a specification function.

## Model

| member | source | states |
|---|---|---|
| LightControl.EngineStatusToStatusBar | robot-server/robot_server/runs/light_control_task.py:14-29 | for each status-bar state, exactly which engine statuses (or none) map to it: idle for no status or idle; running for running, stop-requested, stopped and finishing; paused for paused and blocked-by-open-door; hardware error for failed; run completed for succeeded |
| LightControl.ChangeJudgedOnEngineStatus | robot-server/robot_server/runs/light_control_task.py:40-50 | a change is judged on engine statuses, not bar states: none to idle still writes idle, and stopped to finishing still writes running |
| LightControl.LightController.constructor | robot-server/robot_server/runs/light_control_task.py:35-38 | keeps the hardware and the engine store it is given |
| LightControl.LightController.Update | robot-server/robot_server/runs/light_control_task.py:40-50 | the hardware receives no write when the statuses are equal, else exactly one write of the mapped new status |
| LightControl.LightController.GetCurrentStatus | robot-server/robot_server/runs/light_control_task.py:52-58 | no status exactly when there is no current run id, else the engine's status |
| LightControl.RunLightTask | robot-server/robot_server/runs/light_control_task.py:61-71 | after any number of polls the hardware has received exactly the writes that the change-detection trace of the polled statuses gives, and the last polled status is the one carried on |
| LightControl.WritesCountChanges | robot-server/robot_server/runs/light_control_task.py:61-71 | the number of status-bar writes equals the number of polls at which the status differs from the previous poll; the helper lemma `ChangePointsExtend` says how the change points grow by one poll |
| LightControl.LastWriteShowsLastStatus | robot-server/robot_server/runs/light_control_task.py:61-71 | whenever anything was written, the last write shows the mapped last polled status |
| LightControl.SteadyTraceWritesNothing | robot-server/robot_server/runs/light_control_task.py:44-46 | a run whose status never changes writes nothing |
| ApiClient.FindIndexByKey | app/src/organisms/RunProgressMeter/index.tsx:114-115 | `findIndex` by `===` on keys: -1 exactly when no command has the key, else the first index whose key matches |
| ApiClient.NullKeyIsNeverFound | app/src/pages/OnDeviceDisplay/RunningProtocol.tsx:76-80 | a `null` key is never found among commands whose keys are strings or absent |
| ApiClient.ProtocolName | app/src/pages/OnDeviceDisplay/RunningProtocol.tsx:88-90 | the metadata name, else the first file's name; a `TypeError` exactly when a record has neither a name nor files; no name without a record |
| ProgressMeter.IsTerminal | app/src/organisms/RunProgressMeter/index.tsx:62-67 | terminal exactly for stopped, failed, finishing and succeeded |
| ProgressMeter.DownloadAvailability | app/src/organisms/RunProgressMeter/index.tsx:98-101 | the run log can be downloaded in every terminal status except finishing, and with an unknown status; it is disabled only while running, idle or finishing; stated of `DownloadIsDisabled`, the `downloadIsDisabled` test |
| ProgressMeter.DownloadClickCalls | app/src/organisms/RunProgressMeter/index.tsx:183-188 | a click makes no call exactly when download is disabled; otherwise the download is the last call (`DownloadIsDisabled`) |
| ProgressMeter.RunProgressMeterState.OnDownloadClick | app/src/organisms/RunProgressMeter/index.tsx:183-188 | appends exactly those calls and leaves the modal flag alone |
| ProgressMeter.LastRunAnalysisCommandIndex | app/src/organisms/RunProgressMeter/index.tsx:114-115 | the index of the first analysis command keyed like the last run command, or -1 exactly when none is; the `?? 0` fallback never applies |
| ProgressMeter.IndexWithoutLastRunCommand | app/src/organisms/RunProgressMeter/index.tsx:94-115 | with no last run command the index is -1 when every analysis command has a key, and found when one has none |
| ProgressMeter.CountOfTotalText | app/src/organisms/RunProgressMeter/index.tsx:120-136 | "step/total" exactly when the index is found, with step = index + 1 and total = number of analysis commands; "runTotal/?" exactly when it is not found and the last command has a key and the run total is known; otherwise empty |
| ProgressMeter.CountOfFoundCommand | app/src/organisms/RunProgressMeter/index.tsx:120-127 | a command found at position p gives "p+1/total" |
| ProgressMeter.CurrentStepContents | app/src/organisms/RunProgressMeter/index.tsx:138-173 | "not started" exactly when the run has not started. Otherwise, in this precedence: the matched analysis command's text exactly when the index is found; the run command's text exactly when it is not found and the run command's details are loaded; "protocol completed" exactly when neither applies and the status is terminal; nothing in every other case; "not started" is `RunHasNotBeenStarted` (index.tsx:138-141) |
| ProgressMeter.ProgressBarPercent | app/src/organisms/RunProgressMeter/index.tsx:300-308 | the bar shows exactly when there is an analysis and the index is found; its value lies in [0,100]; it is 0 exactly when the run has not started, else exactly (index+1)/total × 100, and 100 at the last command |
| ProgressMeter.ProgressBarGrowsWithIndex | app/src/organisms/RunProgressMeter/index.tsx:300-308 | for two found indices, the later one never shows less of the bar, and strictly more in every status but idle |
| ProgressMeter.ModalShownAfterRender | app/src/organisms/RunProgressMeter/index.tsx:175-215 | after the render-time update, the modal is shown exactly when the analysis and run data are loaded, the status is known and not terminal, and the last command is an intervention, whatever the flag was before; the portal guard is `InterventionModalShown` (index.tsx:209-215) |
| ProgressMeter.OldLabwareLocation | app/src/organisms/RunProgressMeter/index.tsx:196-201 | the old location is looked up only for a move-labware command with run data loaded; that lookup throws exactly when the command has no params, and otherwise gives the helper's location of its labware id |
| ProgressMeter.MeterModalProps | app/src/organisms/RunProgressMeter/index.tsx:217-247 | throws exactly when the last command has no params (the unguarded `params.labwareId`); otherwise passes the command and robot name, the robot type and both render-info maps unchanged, the labware name of that id, the old location's display text or '', and the new location's text exactly for a move-labware command |
| ProgressMeter.MeterMoveLabwareHasContent | app/src/organisms/RunProgressMeter/index.tsx:217-247 | a move-labware intervention renders exactly when it has params, and then always gets move content |
| ProgressMeter.RunProgressMeterState.constructor | app/src/organisms/RunProgressMeter/index.tsx:77-80 | the modal flag starts false |
| ProgressMeter.RunProgressMeterState.Render | app/src/organisms/RunProgressMeter/index.tsx:175-181 | the flag is set when the last command is an intervention and it is not already set; a render never clears it |
| ProgressMeter.RunProgressMeterState.OnResume | app/src/organisms/RunProgressMeter/index.tsx:248-251 | clears the flag, then calls the resume handler |
| InterventionModal.ModalContentFor | app/src/organisms/InterventionModal/index.tsx:117-144 | pause content exactly for 'pause' and 'waitForResume', with `startedAt` and the message passed through or null; move content exactly for 'moveLabware' with all five props present, carrying them and the labware name or ''; no content otherwise |
| CommandList.StopCalls | app/src/organisms/OnDeviceDisplay/RunningProtocol/RunningProtocolCommandList.tsx:98-101 | stop pauses exactly when running, never plays or tracks, and always ends by opening the cancel modal |
| CommandList.OnStop | app/src/organisms/OnDeviceDisplay/RunningProtocol/RunningProtocolCommandList.tsx:98-101 | the callbacks receive exactly those calls in that order |
| CommandList.TogglePlayPauseCalls | app/src/organisms/OnDeviceDisplay/RunningProtocol/RunningProtocolCommandList.tsx:103-120 | exactly one run action and one tracked event follow. The action is pause iff running, else play. The event is run-pause iff running, run-start iff idle, run-resume otherwise. It carries the robot analytics data exactly when idle with data, no properties exactly when pausing, and `{}` otherwise |
| CommandList.OnTogglePlayPause | app/src/organisms/OnDeviceDisplay/RunningProtocol/RunningProtocolCommandList.tsx:103-120 | the callbacks receive exactly those calls in that order |
| CommandList.HighlightedRows | app/src/organisms/OnDeviceDisplay/RunningProtocol/RunningProtocolCommandList.tsx:160-164 | at most one row is highlighted, exactly one when the current index names a row, and only the row at that index |
| RunningProtocol.SwipeTransition | app/src/pages/OnDeviceDisplay/RunningProtocol.tsx:97-113 | swipe-left on the current-command screen opens the list, swipe-right on the list goes back, and each consumes the swipe; the screen changes only in those two cases, and otherwise nothing changes |
| RunningProtocol.SwipeTransitionIdempotent | app/src/pages/OnDeviceDisplay/RunningProtocol.tsx:97-113 | running the effect a second time changes nothing |
| RunningProtocol.SwipeRoundTrip | app/src/pages/OnDeviceDisplay/RunningProtocol.tsx:97-113 | swipe-right on the current screen does nothing; swipe-left then swipe-right returns to the current screen with no swipe pending |
| RunningProtocol.RunningProtocolPage.constructor | app/src/pages/OnDeviceDisplay/RunningProtocol.tsx:67-69 | the page opens on the current-command screen |
| RunningProtocol.RunningProtocolPage.SwipeEffect | app/src/pages/OnDeviceDisplay/RunningProtocol.tsx:97-113 | the effect, whose two tests both read the values it was rendered with, leaves the state `SwipeTransition` gives |
| RunningProtocol.Bullets | app/src/pages/OnDeviceDisplay/RunningProtocol.tsx:181-184 | exactly one bullet is active, the first exactly on the current-command screen |
| RunningProtocol.StepMeter | app/src/pages/OnDeviceDisplay/RunningProtocol.tsx:76-130 | shown exactly with an analysis; total = number of commands; current step = the `findIndex` result plus one, so it lies in [0, total], is 0 exactly when the key is not found, and otherwise names the matching command; the index is `CurrentRunCommandIndex` (RunningProtocol.tsx:78-80) |
| RunningProtocol.StepZeroBeforeFirstCommand | app/src/pages/OnDeviceDisplay/RunningProtocol.tsx:76-80 | before the run reports a command the meter shows step 0 |
| RunningProtocol.HighlightFollowsStepMeter | app/src/pages/OnDeviceDisplay/RunningProtocol.tsx:76-80 | the command list given the page's index highlights exactly the row of the meter's step, and none at step 0 |
| RunningProtocol.RobotName | app/src/pages/OnDeviceDisplay/RunningProtocol.tsx:94 | the local robot's name, or 'no name' |
| ProtocolSetup.FindModuleById | app/src/pages/OnDeviceDisplay/ProtocolSetup.tsx:290-293 | `find` by id: the first module with that id, or none exactly when no module has it or there is no id |
| ProtocolSetup.ModulesDetailFor | app/src/pages/OnDeviceDisplay/ProtocolSetup.tsx:289-312 | one missing module names it (its display name, or '' when the analysis does not list it); several give the multiple-missing text; none gives the connected count |
| ProtocolSetup.PrepareToRun | app/src/pages/OnDeviceDisplay/ProtocolSetup.tsx:204-331 | The skeleton shows exactly when some record is missing (analysis, instruments, calibration, or attached modules of a protocol that has modules). A throw happens exactly when the name expression throws, or when the attached modules are null past the guard (`truncateString` is not modelled; see Left out). Otherwise: play is enabled; specced instruments = pipettes + 1 with a gripper; ready-to-run iff instruments are ready and no module is missing; each status and detail is chosen as in the source; the loading guard is `ShowSkeleton` |
| ProtocolSetup.ReadyToRunIffStepsReady | app/src/pages/OnDeviceDisplay/ProtocolSetup.tsx:273-279 | the page is ready to run exactly when both the instruments and modules steps show ready |
| ProtocolSetup.MissingModulesAreNamed | app/src/pages/OnDeviceDisplay/ProtocolSetup.tsx:303-312 | the connected count shows exactly when the modules step is ready, and a mismatch never shows beside it |
| ProtocolSetup.PrepareToRunState.constructor | app/src/pages/OnDeviceDisplay/ProtocolSetup.tsx:209-246 | the snackbars and the cancel modal start hidden |
| ProtocolSetup.PrepareToRunState.OnPlay | app/src/pages/OnDeviceDisplay/ProtocolSetup.tsx:281-287 | plays exactly when ready to run, else only shows the snackbar |
| ProtocolSetup.PrepareToRunState.HandleLpcClick | app/src/pages/OnDeviceDisplay/ProtocolSetup.tsx:333-339 | launches the position check exactly when there is no disabled reason, else only shows the snackbar, which `LPCSnackbarShown` then reports as on screen |
| ProtocolSetup.PrepareToRunState.OnClose | app/src/pages/OnDeviceDisplay/ProtocolSetup.tsx:373 | opens the confirm-cancel modal and nothing else |
| ProtocolSetup.PrepareToRunState.OnConfirmCancelClose | app/src/pages/OnDeviceDisplay/ProtocolSetup.tsx:214-217 | closes the modal, then goes back |
| ProtocolSetup.PrepareToRunState.ClosePlaySnackbar | app/src/pages/OnDeviceDisplay/ProtocolSetup.tsx:447 | hides the play snackbar and nothing else |
| ProtocolSetup.PrepareToRunState.CloseLPCSnackbar | app/src/pages/OnDeviceDisplay/ProtocolSetup.tsx:451-463 | hides the position-check snackbar and nothing else; afterwards the snackbar, shown only while its flag is set and there is a disabled reason (`LPCSnackbarShown`), is off screen whatever the reason |
| ProtocolSetup.PrepareToRunState.OnClickSetupStep | app/src/pages/OnDeviceDisplay/ProtocolSetup.tsx:391-431 | each step selects its own sub-screen, except the position-check step, which runs the position-check click and leaves the screen; the screen changes through `ProtocolSetupPage.SetSetupScreen`, which sets exactly the given screen |
| ProtocolSetup.ProtocolSetupPage.constructor | app/src/pages/OnDeviceDisplay/ProtocolSetup.tsx:490-492 | the page opens on 'prepare to run' |
| ProtocolSetup.SetupComponentFor | app/src/pages/OnDeviceDisplay/ProtocolSetup.tsx:479-526 | 'prepare to run' exactly selects its own component, and the 'lpc' component is never selected; each of the instruments, modules, labware and liquids screens exactly selects its own component |
| ProtocolSetup.SetupComponentForIsInjective | app/src/pages/OnDeviceDisplay/ProtocolSetup.tsx:493-515 | no two screens share a component |
| ProtocolSetup.PagePadding | app/src/pages/OnDeviceDisplay/ProtocolSetup.tsx:519-524 | the 'prepare to run' padding exactly on that screen |
| ModuleContexts.VersionLessIsStrictTotalOrder | api/src/opentrons/protocol_api/module_contexts.py:120 | the API-version comparison is irreflexive, transitive and total |
| ModuleContexts.MajorVersionDominates | api/src/opentrons/protocol_api/module_contexts.py:333 | a lower major version is older whatever the minor versions |
| ModuleContexts.LoadLabwareWarningNeedsOldVersionAndNewParameter | api/src/opentrons/protocol_api/module_contexts.py:120-126 | the default load parameters never warn, and nor does any protocol at 2.1 or later |
| ModuleContexts.ModuleContext.constructor | api/src/opentrons/protocol_api/module_contexts.py:48-60 | keeps the core, protocol core, core map and API version |
| ModuleContexts.ModuleContext.LoadLabware | api/src/opentrons/protocol_api/module_contexts.py:97-146 | warns exactly when older than 2.1 with a label, a namespace or a version other than 1. It makes one load request onto this module. It attaches the labware to the legacy geometry exactly for a legacy core, and always records it in the core map under its core id |
| ModuleContexts.ProtocolCore.LoadLabware | api/src/opentrons/protocol_api/module_contexts.py:128-134 | records the request and returns a fresh labware core id |
| ModuleContexts.ModuleCore.AddLabware | api/src/opentrons/protocol_api/module_contexts.py:136-137 | the legacy core places the labware on its geometry |
| ModuleContexts.LoadedCoreMap.Add | api/src/opentrons/protocol_api/module_contexts.py:144 | the map gains exactly that entry |
| ModuleContexts.ModuleContext.LoadLabwareObject | api/src/opentrons/protocol_api/module_contexts.py:67-95 | an `APIVersionError` with no effect unless the core is legacy. A legacy core logs the deprecation, then raises `AssertionError` when the labware's parent is not this module's geometry, and otherwise adds the labware to the geometry |
| ModuleContexts.ModuleContext.Geometry | api/src/opentrons/protocol_api/module_contexts.py:194-209 | the geometry exactly for a legacy core, else an `APIVersionError` with the deprecation text |
| ModuleContexts.EngageCall | api/src/opentrons/protocol_api/module_contexts.py:373-388 | `height` gives a from-home engage. Otherwise `height_from_base` at 2.2 or later gives a from-base engage. Otherwise it engages to the labware, with the offset or 0, and keeps the half-millimetre correction exactly below 2.3 |
| ModuleContexts.HeightTakesPrecedence | api/src/opentrons/protocol_api/module_contexts.py:373-374 | with `height` given, the other arguments do not matter |
| ModuleContexts.HeightFromBaseIgnoredBeforeVersion | api/src/opentrons/protocol_api/module_contexts.py:376-388 | below 2.2 a `height_from_base` is silently dropped, as if absent |
| ModuleContexts.HeightFromBaseOverridesOffset | api/src/opentrons/protocol_api/module_contexts.py:381-382 | from 2.2 on, `offset` does not matter once `height_from_base` is given |
| ModuleContexts.MagneticModuleContext.Engage | api/src/opentrons/protocol_api/module_contexts.py:336-388 | exactly one core engage call, the one `EngageCall` gives |
| ModuleContexts.MagneticModuleContext.Calibrate | api/src/opentrons/protocol_api/module_contexts.py:321-334 | always warns; calls the hardware calibrate exactly below 2.14 |
| ModuleContexts.MagneticModuleContext.Disengage | api/src/opentrons/protocol_api/module_contexts.py:390-394 | one disengage call |
| ModuleContexts.TemperatureModuleContext.SetTemperature | api/src/opentrons/protocol_api/module_contexts.py:244-252 | sets the target, then waits for it |
| ModuleContexts.TemperatureModuleContext.StartSetTemperature | api/src/opentrons/protocol_api/module_contexts.py:256-261 | sets the target without waiting |
| ModuleContexts.TemperatureModuleContext.AwaitTemperature | api/src/opentrons/protocol_api/module_contexts.py:265-270 | waits for the given temperature only |
| ModuleContexts.TemperatureModuleContext.Deactivate | api/src/opentrons/protocol_api/module_contexts.py:274-276 | one deactivate call |
| ModuleContexts.SetBlockTemperatureCalls | api/src/opentrons/protocol_api/module_contexts.py:458-466 | the validation error, or exactly the block set (with the validated hold time and volume) followed by the block wait |
| ModuleContexts.RampRateIsIgnored | api/src/opentrons/protocol_api/module_contexts.py:428-466 | `ramp_rate` never changes what is sent |
| ModuleContexts.ThermocyclerContext.SetBlockTemperature | api/src/opentrons/protocol_api/module_contexts.py:426-466 | a rejected hold time sends nothing; otherwise the core receives the set, then the wait |
| ModuleContexts.ThermocyclerContext.SetLidTemperature | api/src/opentrons/protocol_api/module_contexts.py:470-483 | sets the lid target, then waits for it |
| ModuleContexts.ThermocyclerContext.LidPosition | api/src/opentrons/protocol_api/module_contexts.py:539-550 | None exactly when the core reports none, else the status string |
| ModuleContexts.ThermocyclerContext.LidTemperatureStatus | api/src/opentrons/protocol_api/module_contexts.py:566-580 | None exactly when the core reports none, else the status string |
| ModuleContexts.HeaterShakerContext.SetTargetTemperature | api/src/opentrons/protocol_api/module_contexts.py:743-759 | a rejected temperature sends nothing; otherwise one set of the validated temperature |
| ModuleContexts.HeaterShakerContext.WaitForTemperature | api/src/opentrons/protocol_api/module_contexts.py:761-769 | one wait call |
| ModuleContexts.HeaterShakerContext.SetAndWaitForTemperature | api/src/opentrons/protocol_api/module_contexts.py:730-741 | the set, then the wait, and neither when the temperature is rejected |

## Left out

- Rendering, styling, translated text, portals and tooltips are left out. Texts are abstract tags: the count text is `StepOfTotal`/`RunTotalOfUnknown`, and the setup details are `MissingModule`, `ModulesConnected`, and so on.
- The code of the hooks, queries and helpers listed above is not part of this model. Their results are inputs, and their functions are parameters.
- `asyncio.sleep`, and the concurrency of the light task, are left out. The never-ending loop is modelled over a finite sequence of polls.
- Logging, `@publish` broker messages and the `@requires_version` decorator are left out. The warnings `calibrate`, `load_labware` and `load_labware_object` log are kept as a `warnings` log; their text is not.
- Floating-point temperatures, heights and volumes are `real` values passed through unchanged. The progress percentage is real division.
- ProgressMeter.RunProgressMeterState.OnDownloadClick: the handler's return value (`false` when disabled) is not modelled, only its calls.
- The RunProgressMeter header text (the ':' after "current step" and the ': ' separator) is rendering and is left out.
- The thermocycler contexts' other pass-through accessors and actions are left out because each only relays one core call or value: `open_lid`, `close_lid`, `execute_profile`, `deactivate_lid`/`deactivate_block`/`deactivate`, `block_temperature_status` and the temperature, cycle and step getters.
- For the same reason the heater-shaker's other pass-through accessors and actions are left out. So are `api_version`, `requested_as` and `__repr__`.
- `load_labware_from_definition` first registers the definition with the protocol core (`add_labware_definition`), then calls `load_labware` with the returned name, namespace and version; `load_labware_by_name` logs a deprecation warning, then calls `load_labware`; the `labware` property reads the core map. Each adds nothing to `load_labware` beyond that, so they are left out.
- The `validation` helpers and `validate_heater_shaker_temperature` are parameters that may return an error. Their rules are not part of this model.
- The magnetic `status` property and the temperature module's `temperature`, `target` and `status` getters are single pass-throughs and are left out.
- ModuleContexts.ModuleCore.AddLabware: the legacy core's `add_labware_core` code is not part of this model. It is assumed to place the labware on the module's geometry. A non-legacy labware's parent is whatever its core reports (`CoreParent`).
- The `InterventionModal` component's rendering is left out: its header naming the robot, and its footer button's wiring to the `onResume` prop. Only its content switch (`ModalContentFor`) is modelled; the handler the meter passes as `onResume` is `ProgressMeter.RunProgressMeterState.OnResume`.
- ProtocolSetup.PrepareToRun: the header renders `truncateString(protocolName as string, 100)`, which receives `undefined` when there is no name. `truncateString`'s code is not part of this model, so the render's throw cases are those of the code shown, and the truncation is not modelled.
- One `ModuleCore` class stands for every kind of module core, since the model only records calls and the two lid statuses.
- The api-client's `RunStatus` type is not part of this model. It is taken to have ten statuses. The screens name seven of them (idle, running, stopped, failed, finishing, succeeded and blocked-by-open-door); pause-requested, paused and stop-requested are the api-client type's remaining statuses, which no modelled screen tests for.
- The hardware's `StatusBarState` type is not part of this model. It is given only the five values the status map produces.
- Some code paths can never have an effect. The model states each as proved above:
  - the `?? 0` after `findIndex`;
  - the `analysis == null` branch of the count text, which re-assigns the value it already has;
  - the repeated loading guard of the PlayButton's `disabled`;
  - the `: 1` fallback of the step meter;
  - the 'lpc' entry of the setup-screen map.
