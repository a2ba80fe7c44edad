/** What the components see of Klippy, the downstream G-code interpreter:
    whether it is reachable, whether each `run_gcode` call returns normally
    or raises, and the status updates it publishes. */
module Downstream {
  import opened Wrappers

  /** The `klippy_apis` handle of a cnc_extended_api handler: `None` until
      `server:klippy_ready` (Unavailable), afterwards a handle whose
      successive `run_gcode` calls within one request return normally or
      raise. `outcomes[i]` says how the i-th call (from 0) ends; calls past
      the end of the list return normally. */
  datatype Klippy = Unavailable | Available(outcomes: seq<bool>)

  /** Whether the i-th `run_gcode` call returns normally. */
  function Accepts(outcomes: seq<bool>, i: nat): bool
  {
    i >= |outcomes| || outcomes[i]
  }

  /** A request's answer together with every command string handed to
      `run_gcode`, in order (a call that raised included). */
  datatype Handled<R> = Handled(reply: R, sent: seq<string>)

  /** A field value of a status object: text, or anything else. */
  datatype Value = Text(text: string) | Other

  /** A `server:status_update` payload: status objects by name, each a
      dictionary of fields. */
  type StatusUpdate = map<string, map<string, Value>>

  /** `status_update.get('print_stats', {}).get('state')`. */
  function PrintState(update: StatusUpdate): (r: Option<Value>)
    ensures r.Some? <==> "print_stats" in update && "state" in update["print_stats"]
  {
    if "print_stats" in update && "state" in update["print_stats"]
    then Some(update["print_stats"]["state"])
    else None
  }

  /** The update reports a finished job: `print_stats.state == "complete"`. */
  predicate ReportsComplete(update: StatusUpdate)
  {
    PrintState(update) == Some(Text("complete"))
  }

  /** The command that rewinds the virtual SD card file to its start. */
  const ResetFile: string := "SDCARD_RESET_FILE"

  /** A log line written by a status listener. */
  datatype Log = LogInfo(text: string) | LogDebug(text: string)

  /** What a status listener does with one update: the commands it sends
      and the line it logs, if any. */
  datatype Reaction = Reaction(sent: seq<string>, log: Option<Log>)

  /** The answer of a manual reset endpoint: `{"result": "ok", "message": ...}`. */
  datatype Acknowledged = Acknowledged(message: string)

  const ResetFailed: string := "Could not reset file position"

  /** The reaction shared by both completion listeners: on a finished job,
      look up the Klippy API and send one reset; a failure is logged at debug
      level and otherwise ignored. */
  function ResetOnComplete(update: StatusUpdate, klippy: Klippy, done: string): (r: Reaction)
    ensures r.sent == if ReportsComplete(update) && klippy.Available? then [ResetFile] else []
    ensures !ReportsComplete(update) ==> r.log.None?
    ensures ReportsComplete(update) ==>
              r.log == Some(if klippy.Available? && Accepts(klippy.outcomes, 0) then LogInfo(done) else LogDebug(ResetFailed))
  {
    if !ReportsComplete(update) then Reaction([], None)
    else match klippy
      case Unavailable => Reaction([], Some(LogDebug(ResetFailed)))
      case Available(outcomes) =>
        Reaction([ResetFile], Some(if Accepts(outcomes, 0) then LogInfo(done) else LogDebug(ResetFailed)))
  }

  /** The manual endpoints: always "ok", with a message that says whether
      the reset went through. */
  function AcknowledgeReset(klippy: Klippy, executed: string, notConnected: string): (r: Handled<Acknowledged>)
    ensures r.sent == if klippy.Available? then [ResetFile] else []
    ensures r.reply.message == if klippy.Available? && Accepts(klippy.outcomes, 0) then executed else notConnected
  {
    match klippy
    case Unavailable => Handled(Acknowledged(notConnected), [])
    case Available(outcomes) => Handled(Acknowledged(if Accepts(outcomes, 0) then executed else notConnected), [ResetFile])
  }
}
