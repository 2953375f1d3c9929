/**
 * The on-device protocol-setup page: the "prepare to run" summary (skeleton
 * guard, instrument and module readiness, the detail of each setup step),
 * its handlers, and the selector of the setup sub-screen.
 */
module ProtocolSetup {
  import opened Wrappers
  import opened ApiClient

  /** A module the protocol's analysis loads. */
  datatype ProtocolModule = ProtocolModule(id: string, model: string)

  /** The parts of the most recent completed analysis the page reads. */
  datatype SetupAnalysis = SetupAnalysis(modules: seq<ProtocolModule>, pipetteCount: nat, liquidCount: nat)

  /**
   * Everything the page fetches or derives through helpers whose code is not
   * part of this model: the queried records, the attached-module count
   * (`useAttachedModules`, which may be null while loading), and the results of
   * `getUnmatchedModulesForProtocol`, `getAreInstrumentsReady`,
   * `getProtocolUsesGripper`, `getLabwareSetupItemGroups` and
   * `useLPCDisabledReason`.
   */
  datatype SetupInputs = SetupInputs(
    protocolRecord: Option<ProtocolRecord>,
    analysis: Option<SetupAnalysis>,
    instrumentsPresent: bool,
    calibrationPresent: bool,
    attachedModuleCount: Option<nat>,
    missingModuleIds: seq<string>,
    remainingAttachedModuleCount: nat,
    areInstrumentsReady: bool,
    usesGripper: bool,
    onDeckLabwareCount: nat,
    offDeckLabwareCount: nat,
    lpcDisabledReason: Option<string>)

  /** `ProtocolSetupStep`'s `status`. */
  datatype StepStatus = Ready | NotReady | General

  /** The first detail line of the modules step. */
  datatype ModulesDetail = MissingModule(displayName: string) | MultipleModulesMissing | ModulesConnected(count: nat)

  /** The detail line of the labware-position-check step. */
  datatype LpcDetail = CurrentlyUnavailable | Recommended

  /** The detail line of the liquids step. */
  datatype LiquidsDetail = InitialLiquids(count: nat) | LiquidsNotInSetup

  /** What the prepared page shows, as abstract tags rather than translated text. */
  datatype PrepareToRunView = PrepareToRunView(
    protocolName: Option<string>,
    playDisabled: bool,
    isReadyToRun: bool,
    speccedInstrumentCount: nat,
    instrumentsStatus: StepStatus,
    modulesDetail: ModulesDetail,
    showModuleMismatch: bool,
    modulesStatus: StepStatus,
    lpcDetail: LpcDetail,
    lpcActionUnavailable: bool,
    labwareDetail: Option<nat>,
    labwareSubDetail: Option<nat>,
    liquidsDetail: LiquidsDetail)

  /** A render of `PrepareToRun`: the skeleton, the page, or a thrown `TypeError`. */
  datatype PrepareToRunRender = Skeleton | Prepared(view: PrepareToRunView) | RenderTypeError

  predicate ProtocolHasModules(analysis: Option<SetupAnalysis>)
  {
    analysis.Some? && |analysis.value.modules| > 0
  }

  /** The loading guard: some record the page needs has not arrived yet. */
  predicate ShowSkeleton(inputs: SetupInputs)
  {
    inputs.analysis.None? || !inputs.instrumentsPresent ||
    (ProtocolHasModules(inputs.analysis) && inputs.attachedModuleCount.None?) ||
    !inputs.calibrationPresent
  }

  /** `modules.find(module => module.id === id)`; an absent id (`first` of an empty list) matches nothing. */
  function FindModuleById(modules: seq<ProtocolModule>, id: Option<string>): (r: Option<ProtocolModule>)
    ensures r.None? <==> id.None? || forall i :: 0 <= i < |modules| ==> modules[i].id != id.value
    ensures r.Some? ==> exists i :: 0 <= i < |modules| && modules[i] == r.value && r.value.id == id.value &&
                                    forall j :: 0 <= j < i ==> modules[j].id != id.value
  {
    if id.None? || |modules| == 0 then None
    else if modules[0].id == id.value then Some(modules[0])
    else
      var r := FindModuleById(modules[1..], id);
      assert forall i :: 1 <= i < |modules| ==> modules[i] == modules[1..][i - 1];
      r
  }

  /**
   * The modules detail: one missing module is named (its display name, or ''
   * when the analysis does not list it), several give the multiple-missing
   * text, none gives the connected count.
   */
  function ModulesDetailFor(modules: seq<ProtocolModule>, missingModuleIds: seq<string>,
                            attachedModuleCount: nat, displayName: string -> string): (d: ModulesDetail)
    ensures d.MissingModule? <==> |missingModuleIds| == 1
    ensures d.MultipleModulesMissing? <==> |missingModuleIds| > 1
    ensures d.ModulesConnected? <==> |missingModuleIds| == 0
    ensures d.ModulesConnected? ==> d.count == attachedModuleCount
    ensures d.MissingModule? ==>
              var found := FindModuleById(modules, Some(missingModuleIds[0]));
              d.displayName == (if found.Some? then displayName(found.value.model) else "")
  {
    var firstMissingModuleId := if |missingModuleIds| > 0 then Some(missingModuleIds[0]) else None;
    var firstMissingModule := FindModuleById(modules, firstMissingModuleId);
    var firstMissingModuleDisplayName := if firstMissingModule.Some? then displayName(firstMissingModule.value.model) else "";
    if |missingModuleIds| > 0 then
      if |missingModuleIds| == 1 then MissingModule(firstMissingModuleDisplayName) else MultipleModulesMissing
    else ModulesConnected(attachedModuleCount)
  }

  /**
   * `PrepareToRun`. The protocol name is read before the loading guard, so a
   * record with neither a name nor files throws even where the skeleton would
   * show; past the guard the attached modules may still be null when the
   * protocol has no modules, and reading their length throws.
   */
  function PrepareToRun(inputs: SetupInputs, displayName: string -> string): (r: PrepareToRunRender)
    ensures r.Skeleton? <==> ProtocolName(inputs.protocolRecord).Value? && ShowSkeleton(inputs)
    ensures r.RenderTypeError? <==>
              ProtocolName(inputs.protocolRecord).TypeError? ||
              (!ShowSkeleton(inputs) && inputs.attachedModuleCount.None?)
    ensures r.Prepared? ==>
              var v := r.view;
              var analysis := inputs.analysis.value;
              var missing := |inputs.missingModuleIds| > 0;
              && v.protocolName == ProtocolName(inputs.protocolRecord).v
              && !v.playDisabled
              && v.speccedInstrumentCount == analysis.pipetteCount + (if inputs.usesGripper then 1 else 0)
              && (v.isReadyToRun <==> inputs.areInstrumentsReady && !missing)
              && (v.instrumentsStatus == Ready <==> inputs.areInstrumentsReady)
              && (v.instrumentsStatus == NotReady <==> !inputs.areInstrumentsReady)
              && (v.modulesStatus == NotReady <==> missing)
              && (v.modulesStatus == Ready <==> !missing)
              && v.modulesDetail == ModulesDetailFor(analysis.modules, inputs.missingModuleIds,
                                                     inputs.attachedModuleCount.value, displayName)
              && (v.showModuleMismatch <==> missing && inputs.remainingAttachedModuleCount > 0)
              && (v.lpcActionUnavailable <==> inputs.lpcDisabledReason.Some?)
              && (v.lpcDetail == Recommended <==> inputs.lpcDisabledReason.None?)
              && (v.labwareDetail.None? <==> inputs.onDeckLabwareCount == 0)
              && (v.labwareDetail.Some? ==> v.labwareDetail.value == inputs.onDeckLabwareCount)
              && (v.labwareSubDetail.None? <==> inputs.offDeckLabwareCount == 0)
              && (v.labwareSubDetail.Some? ==> v.labwareSubDetail.value == inputs.offDeckLabwareCount)
              && (v.liquidsDetail == LiquidsNotInSetup <==> analysis.liquidCount == 0)
              && (v.liquidsDetail.InitialLiquids? ==> v.liquidsDetail.count == analysis.liquidCount)
  {
    var protocolName := ProtocolName(inputs.protocolRecord);
    if protocolName.TypeError? then RenderTypeError
    else if ShowSkeleton(inputs) then Skeleton
    else if inputs.attachedModuleCount.None? then RenderTypeError
    else
      var analysis := inputs.analysis.value;
      var isMissingModules := |inputs.missingModuleIds| > 0;
      var isUnmatchedModules := inputs.remainingAttachedModuleCount > 0 && isMissingModules;
      Prepared(PrepareToRunView(
        protocolName := protocolName.v,
        // The button repeats the loading guard, which is false by now.
        playDisabled := ShowSkeleton(inputs),
        isReadyToRun := inputs.areInstrumentsReady && !isMissingModules,
        speccedInstrumentCount := analysis.pipetteCount + (if inputs.usesGripper then 1 else 0),
        instrumentsStatus := if inputs.areInstrumentsReady then Ready else NotReady,
        modulesDetail := ModulesDetailFor(analysis.modules, inputs.missingModuleIds,
                                          inputs.attachedModuleCount.value, displayName),
        showModuleMismatch := isMissingModules && isUnmatchedModules,
        modulesStatus := if isMissingModules then NotReady else Ready,
        lpcDetail := if inputs.lpcDisabledReason.Some? then CurrentlyUnavailable else Recommended,
        lpcActionUnavailable := inputs.lpcDisabledReason.Some?,
        labwareDetail := if inputs.onDeckLabwareCount > 0 then Some(inputs.onDeckLabwareCount) else None,
        labwareSubDetail := if inputs.offDeckLabwareCount > 0 then Some(inputs.offDeckLabwareCount) else None,
        liquidsDetail := if analysis.liquidCount > 0 then InitialLiquids(analysis.liquidCount) else LiquidsNotInSetup))
  }

  /** The page is ready to run exactly when both step statuses it shows are ready. */
  lemma ReadyToRunIffStepsReady(inputs: SetupInputs, displayName: string -> string)
    requires PrepareToRun(inputs, displayName).Prepared?
    ensures var v := PrepareToRun(inputs, displayName).view;
            v.isReadyToRun <==> v.instrumentsStatus == Ready && v.modulesStatus == Ready
  {
  }

  /** A module reported missing never shows the connected count, and a mismatch is only ever shown beside a missing-module text. */
  lemma MissingModulesAreNamed(inputs: SetupInputs, displayName: string -> string)
    requires PrepareToRun(inputs, displayName).Prepared?
    ensures var v := PrepareToRun(inputs, displayName).view;
            (v.modulesDetail.ModulesConnected? <==> v.modulesStatus == Ready) &&
            (v.showModuleMismatch ==> !v.modulesDetail.ModulesConnected?)
  {
  }

  /** `SetupScreens`: the sub-screens `setSetupScreen` can select. */
  datatype SetupScreen = PrepareToRunScreen | InstrumentsScreen | ModulesScreen | LabwareScreen | LiquidsScreen

  /** The entries of `setupComponentByScreen`, including the `lpc` entry no `SetupScreens` value names. */
  datatype SetupComponent =
    | PrepareToRunComponent
    | InstrumentsComponent
    | ModulesComponent
    | LabwareComponent
    | LabwarePositionCheckComponent
    | LiquidsComponent

  /** The component shown for a screen: a different one per screen, and never the labware-position-check one. */
  function SetupComponentFor(screen: SetupScreen): (c: SetupComponent)
    ensures c != LabwarePositionCheckComponent
    ensures c == PrepareToRunComponent <==> screen == PrepareToRunScreen
    ensures c == InstrumentsComponent <==> screen == InstrumentsScreen
    ensures c == ModulesComponent <==> screen == ModulesScreen
    ensures c == LabwareComponent <==> screen == LabwareScreen
    ensures c == LiquidsComponent <==> screen == LiquidsScreen
  {
    match screen
    case PrepareToRunScreen => PrepareToRunComponent
    case InstrumentsScreen => InstrumentsComponent
    case ModulesScreen => ModulesComponent
    case LabwareScreen => LabwareComponent
    case LiquidsScreen => LiquidsComponent
  }

  /** No two screens share a component. */
  lemma SetupComponentForIsInjective(screen: SetupScreen, other: SetupScreen)
    requires screen != other
    ensures SetupComponentFor(screen) != SetupComponentFor(other)
  {
  }

  /** The two paddings of the page's frame. */
  datatype Padding = PrepareToRunPadding | SubScreenPadding

  function PagePadding(screen: SetupScreen): (p: Padding)
    ensures p == PrepareToRunPadding <==> screen == PrepareToRunScreen
  {
    if screen == PrepareToRunScreen then PrepareToRunPadding else SubScreenPadding
  }

  /** `ProtocolSetup`'s `setupScreen` state. */
  class ProtocolSetupPage {
    var setupScreen: SetupScreen

    /** The page opens on "prepare to run". */
    constructor ()
      ensures setupScreen == PrepareToRunScreen
    {
      setupScreen := PrepareToRunScreen;
    }

    method SetSetupScreen(screen: SetupScreen)
      modifies this
      ensures setupScreen == screen
    {
      setupScreen := screen;
    }
  }

  /** The calls `PrepareToRun`'s handlers make outside its own state. */
  datatype SetupCall = Play | LaunchLPC | GoBack

  /** The setup steps a user can press. */
  datatype SetupStep = InstrumentsStep | ModulesStep | LabwarePositionCheckStep | LabwareStep | LiquidsStep

  /** `PrepareToRun`'s own flags, the calls its handlers made, and the page whose screen it sets. */
  class PrepareToRunState {
    const page: ProtocolSetupPage
    var showPlaySnackbar: bool
    var showLPCSnackbar: bool
    var showConfirmCancelModal: bool
    var calls: seq<SetupCall>

    constructor (page: ProtocolSetupPage)
      ensures this.page == page
      ensures !showPlaySnackbar && !showLPCSnackbar && !showConfirmCancelModal && calls == []
    {
      this.page := page;
      showPlaySnackbar := false;
      showLPCSnackbar := false;
      showConfirmCancelModal := false;
      calls := [];
    }

    /** `onPlay`: play when ready, else show the complete-setup snackbar. */
    method OnPlay(view: PrepareToRunView)
      modifies this
      ensures view.isReadyToRun ==> calls == old(calls) + [Play] && showPlaySnackbar == old(showPlaySnackbar)
      ensures !view.isReadyToRun ==> calls == old(calls) && showPlaySnackbar
      ensures showLPCSnackbar == old(showLPCSnackbar) && showConfirmCancelModal == old(showConfirmCancelModal)
    {
      if view.isReadyToRun {
        calls := calls + [Play];
      } else {
        showPlaySnackbar := true;
      }
    }

    /** `handleLpcClick`: show the reason when the check is unavailable, else launch it. */
    method HandleLpcClick(lpcDisabledReason: Option<string>)
      modifies this
      ensures lpcDisabledReason.Some? ==> showLPCSnackbar && calls == old(calls)
      ensures lpcDisabledReason.Some? ==> LPCSnackbarShown(lpcDisabledReason)
      ensures lpcDisabledReason.None? ==> calls == old(calls) + [LaunchLPC] && showLPCSnackbar == old(showLPCSnackbar)
      ensures showPlaySnackbar == old(showPlaySnackbar) && showConfirmCancelModal == old(showConfirmCancelModal)
    {
      if lpcDisabledReason.Some? {
        showLPCSnackbar := true;
      } else {
        calls := calls + [LaunchLPC];
      }
    }

    /** The close button opens the confirm-cancel modal. */
    method OnClose()
      modifies this
      ensures showConfirmCancelModal
      ensures showPlaySnackbar == old(showPlaySnackbar) && showLPCSnackbar == old(showLPCSnackbar) && calls == old(calls)
    {
      showConfirmCancelModal := true;
    }

    /** `onConfirmCancelClose`: close the modal, then go back. */
    method OnConfirmCancelClose()
      modifies this
      ensures !showConfirmCancelModal && calls == old(calls) + [GoBack]
      ensures showPlaySnackbar == old(showPlaySnackbar) && showLPCSnackbar == old(showLPCSnackbar)
    {
      showConfirmCancelModal := false;
      calls := calls + [GoBack];
    }

    method ClosePlaySnackbar()
      modifies this
      ensures !showPlaySnackbar
      ensures showLPCSnackbar == old(showLPCSnackbar) && showConfirmCancelModal == old(showConfirmCancelModal)
      ensures calls == old(calls)
    {
      showPlaySnackbar := false;
    }

    method CloseLPCSnackbar()
      modifies this
      ensures !showLPCSnackbar
      ensures forall reason :: !LPCSnackbarShown(reason)
      ensures showPlaySnackbar == old(showPlaySnackbar) && showConfirmCancelModal == old(showConfirmCancelModal)
      ensures calls == old(calls)
    {
      showLPCSnackbar := false;
    }

    /** The labware-position-check snackbar shows only while there is a reason to show. */
    predicate LPCSnackbarShown(lpcDisabledReason: Option<string>)
      reads this
    {
      showLPCSnackbar && lpcDisabledReason.Some?
    }

    /**
     * Pressing a setup step: the position-check step runs `handleLpcClick`
     * and leaves the screen; every other step selects its own sub-screen.
     */
    method OnClickSetupStep(step: SetupStep, lpcDisabledReason: Option<string>)
      modifies this, page
      ensures step == InstrumentsStep ==> page.setupScreen == InstrumentsScreen
      ensures step == ModulesStep ==> page.setupScreen == ModulesScreen
      ensures step == LabwareStep ==> page.setupScreen == LabwareScreen
      ensures step == LiquidsStep ==> page.setupScreen == LiquidsScreen
      ensures step != LabwarePositionCheckStep ==>
                calls == old(calls) && showLPCSnackbar == old(showLPCSnackbar)
      ensures step == LabwarePositionCheckStep ==>
                page.setupScreen == old(page.setupScreen) &&
                (lpcDisabledReason.Some? ==> LPCSnackbarShown(lpcDisabledReason) && calls == old(calls)) &&
                (lpcDisabledReason.None? ==> calls == old(calls) + [LaunchLPC] && showLPCSnackbar == old(showLPCSnackbar))
      ensures showPlaySnackbar == old(showPlaySnackbar) && showConfirmCancelModal == old(showConfirmCancelModal)
    {
      match step
      case InstrumentsStep => page.SetSetupScreen(InstrumentsScreen);
      case ModulesStep => page.SetSetupScreen(ModulesScreen);
      case LabwarePositionCheckStep => HandleLpcClick(lpcDisabledReason);
      case LabwareStep => page.SetSetupScreen(LabwareScreen);
      case LiquidsStep => page.SetSetupScreen(LiquidsScreen);
    }
  }
}
