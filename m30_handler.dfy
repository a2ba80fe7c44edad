/** The M30 component: a `server:status_update` listener that rewinds the
    job file when a job completes, and the POST /server/cnc/m30 endpoint. */
module M30Handler {
  import opened Wrappers
  import opened Downstream

  const Detected: string := "Job complete - File position reset for repeat (M30 behavior)"
  const Executed: string := "M30 executed - file position reset for repeat"
  const NotConnected: string := "M30 acknowledged (Klipper not connected)"

  /** The listener: one reset for an update whose `print_stats.state` is
      "complete", nothing otherwise. No G-code text is inspected. */
  function CheckM30Execution(update: StatusUpdate, klippy: Klippy): (r: Reaction)
    ensures r.sent == if ReportsComplete(update) && klippy.Available? then [ResetFile] else []
    ensures ReportsComplete(update) ==>
              r.log == Some(if klippy.Available? && Accepts(klippy.outcomes, 0) then LogInfo(Detected) else LogDebug(ResetFailed))
    ensures !ReportsComplete(update) ==> r.log.None?
  {
    ResetOnComplete(update, klippy, Detected)
  }

  /** POST /server/cnc/m30. */
  function HandleM30Endpoint(klippy: Klippy): (r: Handled<Acknowledged>)
    ensures r.sent == if klippy.Available? then [ResetFile] else []
    ensures r.reply.message == if klippy.Available? && Accepts(klippy.outcomes, 0) then Executed else NotConnected
  {
    AcknowledgeReset(klippy, Executed, NotConnected)
  }

  /** The listener keeps no state and reads nothing but `print_stats.state`. */
  lemma DependsOnlyOnState(u: StatusUpdate, v: StatusUpdate, klippy: Klippy)
    requires PrintState(u) == PrintState(v)
    ensures CheckM30Execution(u, klippy) == CheckM30Execution(v, klippy)
  {
  }
}
