/**
 * Values the app receives from the robot's HTTP API (run records, analyses,
 * command summaries), shared by the run screens, and the two small lookups
 * the screens apply to them.
 */
module ApiClient {
  import opened Wrappers

  /** The status of a run as the robot server reports it (`RUN_STATUS_*`). */
  datatype RunStatus =
    | Idle
    | Running
    | PauseRequested
    | Paused
    | StopRequested
    | Stopped
    | Failed
    | Finishing
    | Succeeded
    | BlockedByOpenDoor

  /**
   * A command key as JavaScript sees it.  Both compared sides of `===` can be
   * `undefined` (a missing optional key, or an optional chain through `null`),
   * `null` (a hook with no answer) or a string, and `===` tells all three apart.
   */
  datatype JsKey = Undefined | Null | Key(s: string)

  /** A command of a completed protocol analysis; `key` is optional in its type. */
  datatype AnalysisCommand = AnalysisCommand(id: string, key: JsKey, commandType: string)

  /** The parameters of a run command that the intervention screens read. */
  datatype CommandParams = CommandParams(message: Option<string>, labwareId: Option<string>)

  /** A command of a run record, as the commands endpoint summarises it. */
  datatype RunCommandSummary = RunCommandSummary(
    id: string,
    key: JsKey,
    commandType: string,
    startedAt: Option<string>,
    params: Option<CommandParams>)

  /** An analysis command's key can be absent but never `null`. */
  predicate WellTypedKeys(commands: seq<AnalysisCommand>)
  {
    forall i :: 0 <= i < |commands| ==> !commands[i].key.Null?
  }

  /**
   * `commands.findIndex(c => c.key === key)`: the position of the first
   * command whose key is strictly equal to `key`, or -1 when there is none.
   */
  function FindIndexByKey(commands: seq<AnalysisCommand>, key: JsKey): (r: int)
    ensures -1 <= r < |commands|
    ensures r == -1 <==> forall i :: 0 <= i < |commands| ==> commands[i].key != key
    ensures r >= 0 ==> commands[r].key == key
    ensures r >= 0 ==> forall i :: 0 <= i < r ==> commands[i].key != key
  {
    if |commands| == 0 then -1
    else if commands[0].key == key then 0
    else
      var rest := FindIndexByKey(commands[1..], key);
      if rest == -1 then -1 else rest + 1
  }

  /** A `null` key (the last-run-command hook before it has an answer) matches no analysis command. */
  lemma NullKeyIsNeverFound(commands: seq<AnalysisCommand>)
    requires WellTypedKeys(commands)
    ensures FindIndexByKey(commands, Null) == -1
  {
  }

  datatype ProtocolFile = ProtocolFile(name: string)

  /** The part of a protocol record that names the protocol. */
  datatype ProtocolRecord = ProtocolRecord(protocolName: Option<string>, files: seq<ProtocolFile>)

  /** The value of a JavaScript expression, or the `TypeError` its evaluation throws. */
  datatype JsValue<+T> = Value(v: T) | TypeError

  /**
   * `protocolRecord?.data.metadata.protocolName ?? protocolRecord?.data.files[0].name`:
   * the metadata name, else the first file's name; `undefined` without a record.
   * With a record that has neither a name nor a file, `files[0]` is `undefined`
   * and reading its `name` throws.
   */
  function ProtocolName(record: Option<ProtocolRecord>): (r: JsValue<Option<string>>)
    ensures r == TypeError <==>
              record.Some? && record.value.protocolName.None? && |record.value.files| == 0
    ensures record.None? ==> r == Value(None)
    ensures r.Value? && r.v.Some? ==>
              record.Some? &&
              (record.value.protocolName == r.v ||
               (record.value.protocolName.None? && r.v.value == record.value.files[0].name))
    ensures r.Value? && record.Some? ==> r.v.Some?
  {
    match record
    case None => Value(None)
    case Some(rec) =>
      if rec.protocolName.Some? then Value(rec.protocolName)
      else if |rec.files| == 0 then TypeError
      else Value(Some(rec.files[0].name))
  }
}
