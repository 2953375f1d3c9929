/**
 * The intervention modal shown when a run stops for the operator: it picks
 * its content from the type of the command that stopped the run.
 */
module InterventionModal {
  import opened Wrappers
  import opened ApiClient

  /** `RobotType` of shared-data. */
  datatype RobotType = OT2Standard | OT3Standard

  /** Render data the modal passes through unread, keyed by module or labware id. */
  datatype ModuleRenderInfoById = ModuleRenderInfoById(byId: map<string, string>)
  datatype LabwareRenderInfoById = LabwareRenderInfoById(byId: map<string, string>)

  /** `InterventionModalProps`; the optional props are `Option`s. */
  datatype InterventionModalProps = InterventionModalProps(
    robotName: string,
    command: RunCommandSummary,
    robotType: Option<RobotType>,
    moduleRenderInfo: Option<ModuleRenderInfoById>,
    labwareRenderInfo: Option<LabwareRenderInfoById>,
    labwareName: Option<string>,
    oldDisplayLocation: Option<string>,
    newDisplayLocation: Option<string>)

  /** The body of the modal: the `modalContent` element or `null`. */
  datatype ModalContent =
    | PauseContent(startedAt: Option<string>, message: Option<string>)
    | MoveLabwareContent(
        robotType: RobotType,
        moduleRenderInfo: ModuleRenderInfoById,
        labwareRenderInfo: LabwareRenderInfoById,
        labwareName: string,
        oldDisplayLocation: string,
        newDisplayLocation: string)
    | NoContent

  /** A pause, legacy or current. */
  predicate IsPauseCommandType(commandType: string)
  {
    commandType == "pause" || commandType == "waitForResume"
  }

  /** The five props a move-labware content cannot do without. */
  predicate MoveLabwarePropsPresent(props: InterventionModalProps)
  {
    && props.robotType.Some?
    && props.moduleRenderInfo.Some?
    && props.oldDisplayLocation.Some?
    && props.newDisplayLocation.Some?
    && props.labwareRenderInfo.Some?
  }

  /** `command.params?.message ?? null`. */
  function CommandMessage(command: RunCommandSummary): Option<string>
  {
    if command.params.Some? then command.params.value.message else None
  }

  /**
   * The `switch (command.commandType)`: pause content for both pause command
   * types, move content for `moveLabware` when its five props are all given,
   * and no content otherwise.
   */
  function ModalContentFor(props: InterventionModalProps): (content: ModalContent)
    ensures content.PauseContent? <==> IsPauseCommandType(props.command.commandType)
    ensures content.PauseContent? ==>
              content.startedAt == props.command.startedAt &&
              content.message == CommandMessage(props.command)
    ensures content.MoveLabwareContent? <==>
              props.command.commandType == "moveLabware" && MoveLabwarePropsPresent(props)
    ensures content.MoveLabwareContent? ==>
              && Some(content.robotType) == props.robotType
              && Some(content.moduleRenderInfo) == props.moduleRenderInfo
              && Some(content.labwareRenderInfo) == props.labwareRenderInfo
              && Some(content.oldDisplayLocation) == props.oldDisplayLocation
              && Some(content.newDisplayLocation) == props.newDisplayLocation
              && content.labwareName == (if props.labwareName.Some? then props.labwareName.value else "")
    ensures content == NoContent <==>
              !IsPauseCommandType(props.command.commandType) &&
              (props.command.commandType != "moveLabware" || !MoveLabwarePropsPresent(props))
  {
    match props.command.commandType
    case "pause" =>
      PauseContent(props.command.startedAt, CommandMessage(props.command))
    case "waitForResume" =>
      PauseContent(props.command.startedAt, CommandMessage(props.command))
    case "moveLabware" =>
      if MoveLabwarePropsPresent(props) then
        MoveLabwareContent(
          props.robotType.value,
          props.moduleRenderInfo.value,
          props.labwareRenderInfo.value,
          if props.labwareName.Some? then props.labwareName.value else "",
          props.oldDisplayLocation.value,
          props.newDisplayLocation.value)
      else NoContent
    case _ => NoContent
  }
}
