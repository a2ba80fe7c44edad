/** The M2 RESTART component: a `server:status_update` listener that rewinds
    the job file when a job completes, and the POST /server/cnc/restart
    endpoint that does the same on request. */
module M2RestartHandler {
  import opened Wrappers
  import opened Downstream

  const Detected: string := "M2 RESTART detected - File position reset for repeat (CNC mode)"
  const Executed: string := "M2 RESTART executed - file position reset for repeat"
  const NotConnected: string := "M2 RESTART acknowledged (Klipper not connected)"

  /** The listener: one reset for an update whose `print_stats.state` is
      "complete", nothing for any other update. */
  function CheckRestartExecution(update: StatusUpdate, klippy: Klippy): (r: Reaction)
    ensures r.sent == if ReportsComplete(update) && klippy.Available? then [ResetFile] else []
    ensures ReportsComplete(update) ==>
              r.log == Some(if klippy.Available? && Accepts(klippy.outcomes, 0) then LogInfo(Detected) else LogDebug(ResetFailed))
    ensures !ReportsComplete(update) ==> r.log.None?
  {
    ResetOnComplete(update, klippy, Detected)
  }

  /** POST /server/cnc/restart. */
  function HandleRestartEndpoint(klippy: Klippy): (r: Handled<Acknowledged>)
    ensures r.sent == if klippy.Available? then [ResetFile] else []
    ensures r.reply.message == if klippy.Available? && Accepts(klippy.outcomes, 0) then Executed else NotConnected
  {
    AcknowledgeReset(klippy, Executed, NotConnected)
  }

  /** The listener keeps no state and reads nothing but `print_stats.state`. */
  lemma DependsOnlyOnState(u: StatusUpdate, v: StatusUpdate, klippy: Klippy)
    requires PrintState(u) == PrintState(v)
    ensures CheckRestartExecution(u, klippy) == CheckRestartExecution(v, klippy)
  {
  }
}
