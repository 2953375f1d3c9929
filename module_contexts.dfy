/**
 * The Python protocol API's module contexts: how each context method turns
 * into calls on the module's core, gated by the protocol's API version, and
 * how labware is loaded onto a module.
 *
 * The cores are recorders: each keeps the calls it received, in order.
 * Temperatures, heights and volumes are passed through as `real`.
 */
module ModuleContexts {
  import opened Wrappers

  /** `APIVersion`: a (major, minor) pair, ordered lexicographically. */
  datatype APIVersion = APIVersion(major: nat, minor: nat)

  predicate VersionLess(a: APIVersion, b: APIVersion)
  {
    a.major < b.major || (a.major == b.major && a.minor < b.minor)
  }

  /** The order is a strict total order. */
  lemma VersionLessIsStrictTotalOrder(a: APIVersion, b: APIVersion, c: APIVersion)
    ensures !VersionLess(a, a)
    ensures VersionLess(a, b) && VersionLess(b, c) ==> VersionLess(a, c)
    ensures a != b ==> (VersionLess(a, b) <==> !VersionLess(b, a))
  {
  }

  /** A later major version is later whatever the minor versions. */
  lemma MajorVersionDominates(a: APIVersion, b: APIVersion)
    requires a.major < b.major
    ensures VersionLess(a, b) && !VersionLess(b, a)
  {
  }

  /** The thermocycler lid positions and their `.value` strings. */
  datatype LidStatus = LidClosed | LidInBetween | LidOpen | LidUnknown
  {
    function Value(): string
    {
      match this
      case LidClosed => "closed"
      case LidInBetween => "in_between"
      case LidOpen => "open"
      case LidUnknown => "unknown"
    }
  }

  /** The temperature statuses and their `.value` strings. */
  datatype TemperatureStatus = HoldingAtTarget | Cooling | Heating | TemperatureIdle | TemperatureError
  {
    function Value(): string
    {
      match this
      case HoldingAtTarget => "holding at target"
      case Cooling => "cooling"
      case Heating => "heating"
      case TemperatureIdle => "idle"
      case TemperatureError => "error"
    }
  }

  /** Where a labware sits: on a module's legacy geometry, or wherever its core reports. */
  datatype LabwareParent = GeometryParent(geometryId: nat) | CoreParent

  /** A labware, known by the id of its core. */
  datatype Labware = Labware(coreId: nat, parent: LabwareParent)

  /** The calls a module core receives. */
  datatype CoreCall =
    | EngageFromHome(heightFromHome: real)
    | EngageFromBase(heightFromBase: real)
    | EngageToLabware(offset: real, preserveHalfMm: bool)
    | Disengage
    | HardwareCalibrate
    | SetTargetTemperature(celsius: real)
    | WaitForTargetTemperature(awaited: Option<real>)
    | Deactivate
    | SetTargetBlockTemperature(blockCelsius: real, holdTimeSeconds: Option<real>, blockMaxVolume: Option<real>)
    | WaitForBlockTemperature
    | SetTargetLidTemperature(lidCelsius: real)
    | WaitForLidTemperature
    | AddLabwareCore(labwareCoreId: nat)
    | GeometryAddLabware(labware: Labware)

  /** A module's core; a legacy core also owns the module's deck geometry. */
  class ModuleCore {
    const id: nat
    const isLegacy: bool
    const geometryId: nat
    var calls: seq<CoreCall>
    var lidPosition: Option<LidStatus>
    var lidTemperatureStatus: Option<TemperatureStatus>

    constructor (id: nat, isLegacy: bool, geometryId: nat)
      ensures this.id == id && this.isLegacy == isLegacy && this.geometryId == geometryId
      ensures calls == [] && lidPosition.None? && lidTemperatureStatus.None?
    {
      this.id := id;
      this.isLegacy := isLegacy;
      this.geometryId := geometryId;
      calls := [];
      lidPosition := None;
      lidTemperatureStatus := None;
    }

    method Record(c: CoreCall)
      modifies this
      ensures calls == old(calls) + [c]
      ensures lidPosition == old(lidPosition) && lidTemperatureStatus == old(lidTemperatureStatus)
    {
      calls := calls + [c];
    }

    /** The legacy core's `add_labware_core`: the labware lands on this module's geometry. */
    method AddLabware(labwareCoreId: nat) returns (labware: Labware)
      modifies this
      ensures calls == old(calls) + [AddLabwareCore(labwareCoreId)]
      ensures labware == Labware(labwareCoreId, GeometryParent(geometryId))
      ensures lidPosition == old(lidPosition) && lidTemperatureStatus == old(lidTemperatureStatus)
    {
      Record(AddLabwareCore(labwareCoreId));
      labware := Labware(labwareCoreId, GeometryParent(geometryId));
    }
  }

  /** One `ProtocolCore.load_labware` request. */
  datatype LoadLabwareRequest = LoadLabwareRequest(
    loadName: string, displayLabel: Option<string>, namespace: Option<string>, version: int, locationId: nat)

  /** The protocol's core; it hands out labware core ids in load order. */
  class ProtocolCore {
    var requests: seq<LoadLabwareRequest>

    constructor ()
      ensures requests == []
    {
      requests := [];
    }

    method LoadLabware(request: LoadLabwareRequest) returns (labwareCoreId: nat)
      modifies this
      ensures requests == old(requests) + [request]
      ensures labwareCoreId == |old(requests)|
    {
      labwareCoreId := |requests|;
      requests := requests + [request];
    }
  }

  /** `LoadedCoreMap`: the labware object created for each labware core. */
  class LoadedCoreMap {
    var entries: map<nat, Labware>

    constructor ()
      ensures entries == map[]
    {
      entries := map[];
    }

    method Add(labwareCoreId: nat, labware: Labware)
      modifies this
      ensures entries == old(entries)[labwareCoreId := labware]
    {
      entries := entries[labwareCoreId := labware];
    }
  }

  /** The warnings the contexts log. */
  datatype Warning = NewLoadParametersWarning | LoadLabwareObjectDeprecated | CalibrateIsUseless

  /** The errors the contexts raise. */
  datatype ModuleError = APIVersionError(message: string) | AssertionError(message: string)

  const LoadLabwareObjectDeprecation: string :=
    "`ModuleContext.load_labware_object` is an internal, deprecated method." +
    " Use `ModuleContext.load_labware` or `load_labware_by_definition` instead."
  const GeometryDeprecation: string :=
    "`ModuleContext.geometry` has been deprecated; use properties of the `ModuleContext` itself, instead."
  const LabwareParentMismatch: string := "Labware is not configured with this module as its parent"

  /** `load_labware` warns when a protocol older than 2.1 uses a load parameter added in 2.1. */
  predicate LoadLabwareWarns(apiVersion: APIVersion, displayLabel: Option<string>, namespace: Option<string>, version: int)
  {
    VersionLess(apiVersion, APIVersion(2, 1)) && (displayLabel.Some? || namespace.Some? || version != 1)
  }

  /** Neither the default parameters nor a protocol at 2.1 or later can trigger the warning. */
  lemma LoadLabwareWarningNeedsOldVersionAndNewParameter(apiVersion: APIVersion, displayLabel: Option<string>,
                                                          namespace: Option<string>, version: int)
    ensures displayLabel.None? && namespace.None? && version == 1 ==> !LoadLabwareWarns(apiVersion, displayLabel, namespace, version)
    ensures !VersionLess(apiVersion, APIVersion(2, 1)) ==> !LoadLabwareWarns(apiVersion, displayLabel, namespace, version)
  {
  }

  /** `ModuleContext`: a loaded module, with its core, the protocol core, the core map and the API version. */
  class ModuleContext {
    const core: ModuleCore
    const protocolCore: ProtocolCore
    const coreMap: LoadedCoreMap
    const apiVersion: APIVersion
    var warnings: seq<Warning>

    constructor (core: ModuleCore, protocolCore: ProtocolCore, coreMap: LoadedCoreMap, apiVersion: APIVersion)
      ensures this.core == core && this.protocolCore == protocolCore && this.coreMap == coreMap
      ensures this.apiVersion == apiVersion && warnings == []
    {
      this.core := core;
      this.protocolCore := protocolCore;
      this.coreMap := coreMap;
      this.apiVersion := apiVersion;
      warnings := [];
    }

    /**
     * `load_labware`: warn on 2.1 parameters in an older protocol, have the
     * protocol core load the labware onto this module, attach it to the
     * legacy geometry when the core is legacy, and always record it in the
     * core map.
     */
    method LoadLabware(name: string, displayLabel: Option<string>, namespace: Option<string>, version: int)
      returns (labware: Labware)
      modifies this, core, protocolCore, coreMap
      ensures warnings == old(warnings) +
                (if LoadLabwareWarns(apiVersion, displayLabel, namespace, version) then [NewLoadParametersWarning] else [])
      ensures protocolCore.requests == old(protocolCore.requests) + [LoadLabwareRequest(name, displayLabel, namespace, version, core.id)]
      ensures labware.coreId == |old(protocolCore.requests)|
      ensures coreMap.entries == old(coreMap.entries)[labware.coreId := labware]
      ensures core.isLegacy ==>
                core.calls == old(core.calls) + [AddLabwareCore(labware.coreId)] &&
                labware.parent == GeometryParent(core.geometryId)
      ensures !core.isLegacy ==> core.calls == old(core.calls) && labware.parent == CoreParent
      ensures core.lidPosition == old(core.lidPosition) && core.lidTemperatureStatus == old(core.lidTemperatureStatus)
    {
      if VersionLess(apiVersion, APIVersion(2, 1)) && (displayLabel.Some? || namespace.Some? || version != 1) {
        warnings := warnings + [NewLoadParametersWarning];
      }
      var labwareCore := protocolCore.LoadLabware(LoadLabwareRequest(name, displayLabel, namespace, version, core.id));
      if core.isLegacy {
        labware := core.AddLabware(labwareCore);
      } else {
        labware := Labware(labwareCore, CoreParent);
      }
      coreMap.Add(labwareCore, labware);
    }

    /**
     * `load_labware_object`: only a legacy core accepts it; it then logs the
     * deprecation, insists that the labware's parent is this module's
     * geometry, and adds the labware to that geometry.
     */
    method LoadLabwareObject(labware: Labware) returns (r: Result<Labware, ModuleError>)
      modifies this, core
      ensures !core.isLegacy ==>
                r == Failure(APIVersionError(LoadLabwareObjectDeprecation)) &&
                warnings == old(warnings) && core.calls == old(core.calls)
      ensures core.isLegacy ==> warnings == old(warnings) + [LoadLabwareObjectDeprecated]
      ensures core.isLegacy && labware.parent != GeometryParent(core.geometryId) ==>
                r == Failure(AssertionError(LabwareParentMismatch)) && core.calls == old(core.calls)
      ensures core.isLegacy && labware.parent == GeometryParent(core.geometryId) ==>
                r == Success(labware) && core.calls == old(core.calls) + [GeometryAddLabware(labware)]
      ensures core.lidPosition == old(core.lidPosition) && core.lidTemperatureStatus == old(core.lidTemperatureStatus)
    {
      if !core.isLegacy {
        return Failure(APIVersionError(LoadLabwareObjectDeprecation));
      }
      warnings := warnings + [LoadLabwareObjectDeprecated];
      if labware.parent != GeometryParent(core.geometryId) {
        return Failure(AssertionError(LabwareParentMismatch));
      }
      core.Record(GeometryAddLabware(labware));
      r := Success(labware);
    }

    /** `geometry`: the legacy geometry, or an `APIVersionError` for any other core. */
    function Geometry(): (r: Result<nat, ModuleError>)
      reads this, core
      ensures r.Success? <==> core.isLegacy
      ensures r.Success? ==> r.value == core.geometryId
      ensures r.Failure? ==> r.error == APIVersionError(GeometryDeprecation)
    {
      if core.isLegacy then Success(core.geometryId) else Failure(APIVersionError(GeometryDeprecation))
    }
  }

  /** The version from which `height_from_base` is honoured. */
  const HeightFromBaseVersion := APIVersion(2, 2)
  /** The version from which the magnets no longer keep the half-millimetre correction. */
  const FullMillimetreVersion := APIVersion(2, 3)
  /** The version from which `calibrate` no longer reaches the hardware. */
  const CalibrateNoOpVersion := APIVersion(2, 14)

  /**
   * The single core call `engage` makes. `offset or 0` maps an absent offset
   * to 0 and a given 0.0 to itself, so it is the offset or 0.
   */
  function EngageCall(apiVersion: APIVersion, height: Option<real>, offset: Option<real>, heightFromBase: Option<real>)
    : (c: CoreCall)
    ensures c.EngageFromHome? <==> height.Some?
    ensures c.EngageFromHome? ==> c.heightFromHome == height.value
    ensures c.EngageFromBase? <==> height.None? && heightFromBase.Some? && !VersionLess(apiVersion, HeightFromBaseVersion)
    ensures c.EngageFromBase? ==> c.heightFromBase == heightFromBase.value
    ensures c.EngageToLabware? <==> height.None? && (heightFromBase.None? || VersionLess(apiVersion, HeightFromBaseVersion))
    ensures c.EngageToLabware? ==>
              c.offset == (if offset.Some? then offset.value else 0.0) &&
              (c.preserveHalfMm <==> VersionLess(apiVersion, FullMillimetreVersion))
  {
    if height.Some? then EngageFromHome(height.value)
    else if heightFromBase.Some? && !VersionLess(apiVersion, HeightFromBaseVersion) then EngageFromBase(heightFromBase.value)
    else EngageToLabware(if offset.Some? && offset.value != 0.0 then offset.value else 0.0,
                         VersionLess(apiVersion, FullMillimetreVersion))
  }

  /** `height` wins over every other argument. */
  lemma HeightTakesPrecedence(apiVersion: APIVersion, height: real,
                              offset1: Option<real>, base1: Option<real>, offset2: Option<real>, base2: Option<real>)
    ensures EngageCall(apiVersion, Some(height), offset1, base1) == EngageCall(apiVersion, Some(height), offset2, base2)
  {
  }

  /** Below 2.2 a `height_from_base` is dropped without an error, as if it had not been given. */
  lemma HeightFromBaseIgnoredBeforeVersion(apiVersion: APIVersion, offset: Option<real>, heightFromBase: real)
    requires VersionLess(apiVersion, HeightFromBaseVersion)
    ensures EngageCall(apiVersion, None, offset, Some(heightFromBase)) == EngageCall(apiVersion, None, offset, None)
  {
  }

  /** From 2.2 on, `height_from_base` wins over `offset`. */
  lemma HeightFromBaseOverridesOffset(apiVersion: APIVersion, offset1: Option<real>, offset2: Option<real>, heightFromBase: real)
    requires !VersionLess(apiVersion, HeightFromBaseVersion)
    ensures EngageCall(apiVersion, None, offset1, Some(heightFromBase)) == EngageCall(apiVersion, None, offset2, Some(heightFromBase))
  {
  }

  /** The set-then-wait sequence of the thermocycler's `set_block_temperature`, or the validation error. */
  function SetBlockTemperatureCalls(temperature: real, holdTimeSeconds: Option<real>, holdTimeMinutes: Option<real>,
                                    rampRate: Option<real>, blockMaxVolume: Option<real>,
                                    ensureHoldTimeSeconds: (Option<real>, Option<real>) -> Result<Option<real>, string>)
    : (r: Result<seq<CoreCall>, string>)
    ensures r.Failure? <==> ensureHoldTimeSeconds(holdTimeSeconds, holdTimeMinutes).Failure?
    ensures r.Success? ==>
              |r.value| == 2 &&
              r.value[0] == SetTargetBlockTemperature(temperature, ensureHoldTimeSeconds(holdTimeSeconds, holdTimeMinutes).value, blockMaxVolume) &&
              r.value[1] == WaitForBlockTemperature
  {
    var seconds := ensureHoldTimeSeconds(holdTimeSeconds, holdTimeMinutes);
    if seconds.Failure? then Failure(seconds.error)
    else Success([SetTargetBlockTemperature(temperature, seconds.value, blockMaxVolume), WaitForBlockTemperature])
  }

  /** `ramp_rate` is accepted and never used. */
  lemma RampRateIsIgnored(temperature: real, holdTimeSeconds: Option<real>, holdTimeMinutes: Option<real>,
                          rampRate1: Option<real>, rampRate2: Option<real>, blockMaxVolume: Option<real>,
                          ensureHoldTimeSeconds: (Option<real>, Option<real>) -> Result<Option<real>, string>)
    ensures SetBlockTemperatureCalls(temperature, holdTimeSeconds, holdTimeMinutes, rampRate1, blockMaxVolume, ensureHoldTimeSeconds) ==
            SetBlockTemperatureCalls(temperature, holdTimeSeconds, holdTimeMinutes, rampRate2, blockMaxVolume, ensureHoldTimeSeconds)
  {
  }

  /** `MagneticModuleContext`. */
  class MagneticModuleContext {
    const context: ModuleContext

    constructor (context: ModuleContext)
      ensures this.context == context
    {
      this.context := context;
    }

    /** `calibrate`: always warns; reaches the hardware only before 2.14. */
    method Calibrate()
      modifies context, context.core
      ensures context.warnings == old(context.warnings) + [CalibrateIsUseless]
      ensures context.core.calls == old(context.core.calls) +
                (if VersionLess(context.apiVersion, CalibrateNoOpVersion) then [HardwareCalibrate] else [])
      ensures context.core.lidPosition == old(context.core.lidPosition)
      ensures context.core.lidTemperatureStatus == old(context.core.lidTemperatureStatus)
    {
      context.warnings := context.warnings + [CalibrateIsUseless];
      if VersionLess(context.apiVersion, CalibrateNoOpVersion) {
        context.core.Record(HardwareCalibrate);
      }
    }

    /** `engage`: exactly one engage call, chosen by `EngageCall`. */
    method Engage(height: Option<real>, offset: Option<real>, heightFromBase: Option<real>)
      modifies context.core
      ensures context.core.calls == old(context.core.calls) + [EngageCall(context.apiVersion, height, offset, heightFromBase)]
      ensures context.core.lidPosition == old(context.core.lidPosition)
      ensures context.core.lidTemperatureStatus == old(context.core.lidTemperatureStatus)
    {
      if height.Some? {
        context.core.Record(EngageFromHome(height.value));
      } else if heightFromBase.Some? && !VersionLess(context.apiVersion, HeightFromBaseVersion) {
        context.core.Record(EngageFromBase(heightFromBase.value));
      } else {
        var off := if offset.Some? && offset.value != 0.0 then offset.value else 0.0;
        context.core.Record(EngageToLabware(off, VersionLess(context.apiVersion, FullMillimetreVersion)));
      }
    }

    method Disengage()
      modifies context.core
      ensures context.core.calls == old(context.core.calls) + [CoreCall.Disengage]
      ensures context.core.lidPosition == old(context.core.lidPosition)
      ensures context.core.lidTemperatureStatus == old(context.core.lidTemperatureStatus)
    {
      context.core.Record(CoreCall.Disengage);
    }
  }

  /** `TemperatureModuleContext`. */
  class TemperatureModuleContext {
    const context: ModuleContext

    constructor (context: ModuleContext)
      ensures this.context == context
    {
      this.context := context;
    }

    /** `set_temperature`: set the target, then wait for it. */
    method SetTemperature(celsius: real)
      modifies context.core
      ensures context.core.calls == old(context.core.calls) + [SetTargetTemperature(celsius), WaitForTargetTemperature(None)]
      ensures context.core.lidPosition == old(context.core.lidPosition)
      ensures context.core.lidTemperatureStatus == old(context.core.lidTemperatureStatus)
    {
      context.core.Record(SetTargetTemperature(celsius));
      context.core.Record(WaitForTargetTemperature(None));
    }

    /** `start_set_temperature`: set the target without waiting. */
    method StartSetTemperature(celsius: real)
      modifies context.core
      ensures context.core.calls == old(context.core.calls) + [SetTargetTemperature(celsius)]
      ensures context.core.lidPosition == old(context.core.lidPosition)
      ensures context.core.lidTemperatureStatus == old(context.core.lidTemperatureStatus)
    {
      context.core.Record(SetTargetTemperature(celsius));
    }

    /** `await_temperature`: wait for the given temperature. */
    method AwaitTemperature(celsius: real)
      modifies context.core
      ensures context.core.calls == old(context.core.calls) + [WaitForTargetTemperature(Some(celsius))]
      ensures context.core.lidPosition == old(context.core.lidPosition)
      ensures context.core.lidTemperatureStatus == old(context.core.lidTemperatureStatus)
    {
      context.core.Record(WaitForTargetTemperature(Some(celsius)));
    }

    method Deactivate()
      modifies context.core
      ensures context.core.calls == old(context.core.calls) + [CoreCall.Deactivate]
      ensures context.core.lidPosition == old(context.core.lidPosition)
      ensures context.core.lidTemperatureStatus == old(context.core.lidTemperatureStatus)
    {
      context.core.Record(CoreCall.Deactivate);
    }
  }

  /** `ThermocyclerContext`. */
  class ThermocyclerContext {
    const context: ModuleContext

    constructor (context: ModuleContext)
      ensures this.context == context
    {
      this.context := context;
    }

    /** `set_block_temperature`: validate the hold time, set the block target, then wait for it. */
    method SetBlockTemperature(temperature: real, holdTimeSeconds: Option<real>, holdTimeMinutes: Option<real>,
                               rampRate: Option<real>, blockMaxVolume: Option<real>,
                               ensureHoldTimeSeconds: (Option<real>, Option<real>) -> Result<Option<real>, string>)
      returns (error: Option<string>)
      modifies context.core
      ensures var expected := SetBlockTemperatureCalls(temperature, holdTimeSeconds, holdTimeMinutes, rampRate,
                                                        blockMaxVolume, ensureHoldTimeSeconds);
              (expected.Failure? ==> error == Some(expected.error) && context.core.calls == old(context.core.calls)) &&
              (expected.Success? ==> error.None? && context.core.calls == old(context.core.calls) + expected.value)
      ensures context.core.lidPosition == old(context.core.lidPosition)
      ensures context.core.lidTemperatureStatus == old(context.core.lidTemperatureStatus)
    {
      var seconds := ensureHoldTimeSeconds(holdTimeSeconds, holdTimeMinutes);
      if seconds.Failure? {
        return Some(seconds.error);
      }
      context.core.Record(SetTargetBlockTemperature(temperature, seconds.value, blockMaxVolume));
      context.core.Record(WaitForBlockTemperature);
      error := None;
    }

    /** `set_lid_temperature`: set the lid target, then wait for it. */
    method SetLidTemperature(temperature: real)
      modifies context.core
      ensures context.core.calls == old(context.core.calls) + [SetTargetLidTemperature(temperature), WaitForLidTemperature]
      ensures context.core.lidPosition == old(context.core.lidPosition)
      ensures context.core.lidTemperatureStatus == old(context.core.lidTemperatureStatus)
    {
      context.core.Record(SetTargetLidTemperature(temperature));
      context.core.Record(WaitForLidTemperature);
    }

    /** `lid_position`: the status string, or None exactly when the core reports none. */
    function LidPosition(): (position: Option<string>)
      reads this, context, context.core
      ensures position.None? <==> context.core.lidPosition.None?
      ensures position.Some? ==> position.value == context.core.lidPosition.value.Value()
    {
      if context.core.lidPosition.Some? then Some(context.core.lidPosition.value.Value()) else None
    }

    /** `lid_temperature_status`: the status string, or None exactly when the core reports none. */
    function LidTemperatureStatus(): (status: Option<string>)
      reads this, context, context.core
      ensures status.None? <==> context.core.lidTemperatureStatus.None?
      ensures status.Some? ==> status.value == context.core.lidTemperatureStatus.value.Value()
    {
      if context.core.lidTemperatureStatus.Some? then Some(context.core.lidTemperatureStatus.value.Value()) else None
    }
  }

  /** `HeaterShakerContext`; the temperature validator is a parameter. */
  class HeaterShakerContext {
    const context: ModuleContext

    constructor (context: ModuleContext)
      ensures this.context == context
    {
      this.context := context;
    }

    /** `set_target_temperature`: validate, then set the target. */
    method SetTargetTemperature(celsius: real, validate: real -> Result<real, string>) returns (error: Option<string>)
      modifies context.core
      ensures validate(celsius).Failure? ==> error == Some(validate(celsius).error) && context.core.calls == old(context.core.calls)
      ensures validate(celsius).Success? ==>
                error.None? && context.core.calls == old(context.core.calls) + [CoreCall.SetTargetTemperature(validate(celsius).value)]
      ensures context.core.lidPosition == old(context.core.lidPosition)
      ensures context.core.lidTemperatureStatus == old(context.core.lidTemperatureStatus)
    {
      var validated := validate(celsius);
      if validated.Failure? {
        return Some(validated.error);
      }
      context.core.Record(CoreCall.SetTargetTemperature(validated.value));
      error := None;
    }

    /** `wait_for_temperature`. */
    method WaitForTemperature()
      modifies context.core
      ensures context.core.calls == old(context.core.calls) + [WaitForTargetTemperature(None)]
      ensures context.core.lidPosition == old(context.core.lidPosition)
      ensures context.core.lidTemperatureStatus == old(context.core.lidTemperatureStatus)
    {
      context.core.Record(WaitForTargetTemperature(None));
    }

    /** `set_and_wait_for_temperature`: the set, then the wait; a rejected temperature stops before either. */
    method SetAndWaitForTemperature(celsius: real, validate: real -> Result<real, string>) returns (error: Option<string>)
      modifies context.core
      ensures validate(celsius).Failure? ==> error == Some(validate(celsius).error) && context.core.calls == old(context.core.calls)
      ensures validate(celsius).Success? ==>
                error.None? &&
                context.core.calls == old(context.core.calls) +
                  [CoreCall.SetTargetTemperature(validate(celsius).value), WaitForTargetTemperature(None)]
      ensures context.core.lidPosition == old(context.core.lidPosition)
      ensures context.core.lidTemperatureStatus == old(context.core.lidTemperatureStatus)
    {
      error := SetTargetTemperature(celsius, validate);
      if error.Some? {
        return;
      }
      WaitForTemperature();
    }
  }
}
