/**
 * The on-device running-protocol page: two screens (the current command and
 * the command list) switched by swiping, a step meter, two page bullets and
 * the names it shows.
 */
module RunningProtocol {
  import opened Wrappers
  import opened ApiClient
  import CommandList

  /** `ScreenOption`. */
  datatype ScreenOption = CurrentRunningProtocolCommand | RunningProtocolCommandList

  /** The swipe types the page reacts to; `useSwipe` may report others. */
  const SwipeLeft: string := "swipe-left"
  const SwipeRight: string := "swipe-right"
  const NoSwipe: string := ""

  /** The page's screen together with the swipe the gesture hook last reported. */
  datatype ScreenState = ScreenState(currentOption: ScreenOption, swipeType: string)

  /**
   * The `useEffect` rule: swiping left on the current-command screen opens
   * the list, swiping right on the list goes back, and each such move
   * consumes the swipe; every other screen and swipe pair stays as it is.
   */
  function SwipeTransition(s: ScreenState): (r: ScreenState)
    ensures s.currentOption == CurrentRunningProtocolCommand && s.swipeType == SwipeLeft ==>
              r == ScreenState(RunningProtocolCommandList, NoSwipe)
    ensures s.currentOption == RunningProtocolCommandList && s.swipeType == SwipeRight ==>
              r == ScreenState(CurrentRunningProtocolCommand, NoSwipe)
    ensures r.currentOption != s.currentOption <==>
              (s.currentOption == CurrentRunningProtocolCommand && s.swipeType == SwipeLeft) ||
              (s.currentOption == RunningProtocolCommandList && s.swipeType == SwipeRight)
    ensures r.currentOption == s.currentOption ==> r == s
  {
    if s.currentOption == CurrentRunningProtocolCommand && s.swipeType == SwipeLeft then
      ScreenState(RunningProtocolCommandList, NoSwipe)
    else if s.currentOption == RunningProtocolCommandList && s.swipeType == SwipeRight then
      ScreenState(CurrentRunningProtocolCommand, NoSwipe)
    else s
  }

  /** Running the effect again changes nothing: a consumed swipe cannot move the page twice. */
  lemma SwipeTransitionIdempotent(s: ScreenState)
    ensures SwipeTransition(SwipeTransition(s)) == SwipeTransition(s)
  {
  }

  /** The same swipe in the wrong direction for the screen does nothing, and left then right comes back. */
  lemma SwipeRoundTrip(s: ScreenState)
    requires s.currentOption == CurrentRunningProtocolCommand
    ensures SwipeTransition(s.(swipeType := SwipeRight)) == s.(swipeType := SwipeRight)
    ensures SwipeTransition(SwipeTransition(s.(swipeType := SwipeLeft)).(swipeType := SwipeRight)) ==
              ScreenState(CurrentRunningProtocolCommand, NoSwipe)
  {
  }

  /** The page's state: `currentOption` and the swipe hook's `swipeType`. */
  class RunningProtocolPage {
    var currentOption: ScreenOption
    var swipeType: string

    /** The page opens on the current-command screen, with no swipe. */
    constructor ()
      ensures currentOption == CurrentRunningProtocolCommand && swipeType == NoSwipe
    {
      currentOption := CurrentRunningProtocolCommand;
      swipeType := NoSwipe;
    }

    /** The gesture hook reports a swipe. */
    method Swipe(kind: string)
      modifies this
      ensures swipeType == kind && currentOption == old(currentOption)
    {
      swipeType := kind;
    }

    /** One run of the effect; both tests read the values the effect was rendered with. */
    method SwipeEffect()
      modifies this
      ensures ScreenState(currentOption, swipeType) == SwipeTransition(old(ScreenState(currentOption, swipeType)))
    {
      var option, swipe := currentOption, swipeType;
      if option == CurrentRunningProtocolCommand && swipe == SwipeLeft {
        currentOption := RunningProtocolCommandList;
        swipeType := NoSwipe;
      }
      if option == RunningProtocolCommandList && swipe == SwipeRight {
        currentOption := CurrentRunningProtocolCommand;
        swipeType := NoSwipe;
      }
    }
  }

  /** The two page bullets: is the first active, is the second active. */
  function Bullets(option: ScreenOption): (active: (bool, bool))
    ensures active.0 != active.1
    ensures active.0 <==> option == CurrentRunningProtocolCommand
  {
    (option == CurrentRunningProtocolCommand, option == RunningProtocolCommandList)
  }

  /** `useLastRunCommandKey`'s `string | null`, as the key compared with `===`. */
  function CurrentRunCommandKey(lastRunCommandKey: Option<string>): JsKey
  {
    if lastRunCommandKey.Some? then Key(lastRunCommandKey.value) else Null
  }

  /** `robotSideAnalysis?.commands.findIndex(c => c.key === currentRunCommandKey)`. */
  function CurrentRunCommandIndex(analysis: Option<seq<AnalysisCommand>>, lastRunCommandKey: Option<string>)
    : Option<int>
  {
    if analysis.Some? then Some(FindIndexByKey(analysis.value, CurrentRunCommandKey(lastRunCommandKey)))
    else None
  }

  datatype StepMeterProps = StepMeterProps(totalSteps: nat, currentStep: int)

  /**
   * The `StepMeter`, rendered only with an analysis: the total is the number
   * of analysis commands and the current step is one past the found index,
   * so it lies in [0, totalSteps] and is 0 exactly when the key is not found.
   */
  function StepMeter(analysis: Option<seq<AnalysisCommand>>, lastRunCommandKey: Option<string>)
    : (meter: Option<StepMeterProps>)
    ensures meter.Some? <==> analysis.Some?
    ensures meter.Some? ==> meter.value.totalSteps == |analysis.value|
    ensures meter.Some? ==>
              meter.value.currentStep == FindIndexByKey(analysis.value, CurrentRunCommandKey(lastRunCommandKey)) + 1
    ensures meter.Some? ==> 0 <= meter.value.currentStep <= meter.value.totalSteps
    ensures meter.Some? ==>
              (meter.value.currentStep == 0 <==>
               forall i :: 0 <= i < |analysis.value| ==> analysis.value[i].key != CurrentRunCommandKey(lastRunCommandKey))
    ensures meter.Some? && meter.value.currentStep >= 1 ==>
              analysis.value[meter.value.currentStep - 1].key == CurrentRunCommandKey(lastRunCommandKey)
  {
    match analysis
    case None => None
    case Some(commands) =>
      var index := CurrentRunCommandIndex(analysis, lastRunCommandKey);
      // `currentRunCommandIndex` is never null once there is an analysis, so the `: 1` is dead.
      Some(StepMeterProps(|commands|, if index.Some? then index.value + 1 else 1))
  }

  /** Before the run reports any command, the meter shows step 0 of a well-typed analysis. */
  lemma StepZeroBeforeFirstCommand(commands: seq<AnalysisCommand>)
    requires WellTypedKeys(commands)
    ensures StepMeter(Some(commands), None) == Some(StepMeterProps(|commands|, 0))
  {
  }

  /**
   * The command list given this page's index highlights exactly the row of
   * the step the meter shows, and no row when the meter is at step 0.
   */
  lemma HighlightFollowsStepMeter(commands: seq<AnalysisCommand>, lastRunCommandKey: Option<string>)
    ensures var meter := StepMeter(Some(commands), lastRunCommandKey).value;
            var rows := CommandList.HighlightedRows(|commands|, CurrentRunCommandIndex(Some(commands), lastRunCommandKey));
            (meter.currentStep == 0 ==> rows == {}) &&
            (meter.currentStep >= 1 ==> rows == {(meter.currentStep - 1) as nat})
  {
  }

  /** The robot's name, or the fallback when no local robot is known. */
  function RobotName(localRobotName: Option<string>): (name: string)
    ensures localRobotName.Some? ==> name == localRobotName.value
    ensures localRobotName.None? ==> name == "no name"
  {
    if localRobotName.Some? then localRobotName.value else "no name"
  }
}
