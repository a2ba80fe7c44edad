# CNC request handlers and completion listeners of Moonraker-for-CNC

This project models, in Dafny, the CNC components of a Moonraker fork:

- the CNC M-code endpoints (`/server/cnc/...`): tool change, coolant, spindle, modal state, pallet change, digital and analog I/O, and subroutines;
- the tool database endpoints (`/server/tools/...`);
- the two program-completion listeners (M2 RESTART and M30), each with its manual reset endpoint.

Each handler turns typed request parameters into the exact command text that goes to Klippy's `run_gcode`, then answers with a result. The model states that text exactly:

- its field order;
- which fields are quoted;
- the defaults used when a field is left out;
- the error paths.

The tool database commands (ADD_TOOL, UPDATE_TOOL, the id commands, both forms of TOOL_INFO, EXPORT_TOOLS, IMPORT_TOOLS) and the M98, M66, digital-output and analog-output codes are paired with a reading of their text, and the round trip is proved. The coolant, spindle, modal and pallet codes are fixed words or short lists of them, so they are stated exactly instead; the tool-change list is recovered from its joined text by splitting.

Layout, one module per file:

- `wrappers.dfy`: `Option`.
- `text.dfy`: Python's rendering of integers (`IntText`) and its inverse `ParseInt`. Python's `str.join` and `str.split` with their round trip. ASCII `lower()`.
- `downstream.dfy`: the Klippy connection, seen by a handler as `Unavailable` or as `Available(outcomes)`. `outcomes[i]` says whether the i-th `run_gcode` call of the request returns or raises. It also holds the status-update payload and the reset reaction shared by both listeners.
- `extended_command.dfy`: the `NAME KEY=value KEY="value"` syntax of the tool database commands. `Render` writes a command. `Parse` reads one back. `ParseRender` proves that `Parse` inverts `Render` for commands whose values contain no separator.
- `cnc_extended_api.dfy`: the CNC M-code handlers. They return the reply and the list of strings handed to `run_gcode`. The tool-change, coolant, spindle and modal-clear handlers build their command lists step by step, so they are methods. The others are functions.
- `tool_database.dfy`: the tool database handlers. The list, info and stats queries are sequence functions over the reported tool list.
- `m2_restart_handler.dfy`, `m30_handler.dfy`: the two completion listeners and their endpoints.
- `status_dispatch.dfy`: delivery of one status update, or a stream of them, to the registered listeners, one after another.

Floating-point request values (diameters, feeds, timeouts, analog levels) are carried as the text Python prints for them (`FloatText`). A tool's runtime and distance are `real`.

Three facts about the code shape the model:

- No reset coordinator exists. Both listeners subscribe to `server:status_update` on their own and keep no flag between updates, so one completed job causes two `SDCARD_RESET_FILE` sends, and a redelivered completion causes two more (`StatusDispatch.BothComponentsResetTwice`, `StatusDispatch.DeliverAllResets`).
- The modal-state endpoint keeps no stack depth and has no capacity or "nothing saved" error. It maps actions to M70–M73 and clears by sending M71 up to 10 times.
- Tool usage accumulation and the collision and wear alerts run on the printer side. The handlers here only send commands and read the reported status.

## Model

| member | source | states |
|---|---|---|
| CncExtendedApi.ToolChangeCommands | moonraker/components/cnc_extended_api.py:132-140 | "M0" comes first exactly when pause is set. Then always "T<tool>". The literal, non-interpolated prompt "M117 Insert Tool T{tool} and resume" comes last exactly when manual is set. No command holds a newline. |
| CncExtendedApi.ToolChangeLines | moonraker/components/cnc_extended_api.py:143-149 | Splitting the newline-joined text that is sent gives back exactly the command list echoed in the answer. |
| CncExtendedApi.HandleToolChange | moonraker/components/cnc_extended_api.py:107-156 | Without Klippy: "Klippy not connected" and nothing sent. Otherwise: one send of the joined list built from tool 0 / manual true / pause true defaults. Success echoes tool, manual and commands; a raising send gives the error answer. |
| CncExtendedApi.CoolantCommands | moonraker/components/cnc_extended_api.py:226-230 | One command per supplied flag, mist first. Mist gives M7 or M9; flood gives M8 or M9. An absent flag gives nothing. |
| CncExtendedApi.CoolantEdgeCases | moonraker/components/cnc_extended_api.py:226-233 | Both flags false sends "M9\nM9". Both absent sends the empty string. |
| CncExtendedApi.HandleCoolant | moonraker/components/cnc_extended_api.py:219-240 | Not connected: error, nothing sent. Otherwise one send of the joined coolant commands, then success or the exception's error. |
| CncExtendedApi.SpindleCommands | moonraker/components/cnc_extended_api.py:282-295 | Disabled gives exactly ["M5"]. Enabled gives "S<speed>" only when speed > 0, then M3 for "cw" or M4 for "ccw". Any other direction is refused. |
| CncExtendedApi.HandleSpindle | moonraker/components/cnc_extended_api.py:274-306 | The direction (default "cw") is lower-cased and speed defaults to 0. An invalid direction answers "Invalid direction" with nothing sent. A disabled spindle reports direction None and speed 0. |
| CncExtendedApi.ModalCommand | moonraker/components/cnc_extended_api.py:340-347 | save↔M70, invalidate↔M71, restore↔M72, auto_save↔M73. Every other action has no command. |
| CncExtendedApi.HandleModalAction | moonraker/components/cnc_extended_api.py:337-362 | The action defaults to "save". An unknown action answers "Invalid action: <action>" with nothing sent. A known one sends its single code and echoes action and command on success. |
| CncExtendedApi.ClearAttempts | moonraker/components/cnc_extended_api.py:366-377 | The number of M71 sends is between 1 and 10. Every send before the last returned. Below 10, the last send raised. |
| CncExtendedApi.ClearAttemptsUnique | moonraker/components/cnc_extended_api.py:368-372 | Those three facts determine the count: it is min(10, index of the first failing send + 1). |
| CncExtendedApi.HandleModalClear | moonraker/components/cnc_extended_api.py:364-379 | The loop sends exactly ClearAttempts copies of "M71", stops right after the first failure, and always answers success. Without Klippy it answers "not connected". |
| CncExtendedApi.HandlePalletChange | moonraker/components/cnc_extended_api.py:383-417 | Always sends exactly M60. Pause defaults to true and is only echoed. Success or the exception's error. |
| CncExtendedApi.DigitalOutputRoundTrip | moonraker/components/cnc_extended_api.py:498-503 | "<code> P<pin>" determines pin, value and mode. Synchronized uses M62/M63 and immediate uses M64/M65, ON/OFF by value. |
| CncExtendedApi.WaitRoundTrip | moonraker/components/cnc_extended_api.py:473-476 | "M66 E<pin>" for an analog input and "M66 P<pin>" otherwise, then " L<mode> Q<timeout>". All four inputs read back from the text. |
| CncExtendedApi.AnalogOutputRoundTrip | moonraker/components/cnc_extended_api.py:559-564 | "M67 E<pin> Q<value>" when synchronized, M68 otherwise. Pin, value and mode read back. |
| CncExtendedApi.HandleDigitalIo | moonraker/components/cnc_extended_api.py:459-515 | The action defaults to "set". "wait" sends the M66 command and answers "Waiting on analog/digital input <pin>". Any other action sends the digital output command. mode/timeout/analog/synchronized default to 0/0.0/false/false. |
| CncExtendedApi.HandleAnalogIo | moonraker/components/cnc_extended_api.py:549-576 | Sends the analog output command, synchronized defaulting to false, and echoes it on success. |
| CncExtendedApi.SubroutineCallRoundTrip | moonraker/components/cnc_extended_api.py:603-605 | "M98 P<program>" gets " L<repeats>" only when repeats > 1. Reading back recovers the program, and the repeats when above 1 (1 otherwise). |
| CncExtendedApi.HandleSubroutine | moonraker/components/cnc_extended_api.py:588-640 | The action defaults to "call" and repeats to 1. "call" sends the M98 command with message "Called subroutine O<p> (<r> times)". "return" sends exactly M99. Any other action answers "Invalid action: <action>" with nothing sent. |
| ExtendedCommand.ParseRender | moonraker/components/tool_database.py:204-209 | A command whose name, keys and bare values hold no blank or double quote, and whose quoted values hold no double quote, reads back from its text unchanged. |
| ToolDatabase.OfType | moonraker/components/tool_database.py:149-150 | Keeps exactly the tools whose type equals the filter: every kept tool has it and every such tool is kept. |
| ToolDatabase.OfTypeAppend | moonraker/components/tool_database.py:150 | Filtering distributes over concatenation, so the listing order is kept. |
| ToolDatabase.OfTypeIdempotent | moonraker/components/tool_database.py:150 | Filtering twice by the same type equals filtering once. |
| ToolDatabase.HandleListTools | moonraker/components/tool_database.py:140-156 | An absent or empty type lists all tools. A non-empty one lists OfType. tool_count is the listed length, and current_tool is passed through. |
| ToolDatabase.AddToolCommand | moonraker/components/tool_database.py:193-209 | ADD_TOOL with keys in the fixed order ID, NAME, TYPE, DIAMETER, LENGTH, FLUTE_LENGTH, OFFSET_X/Y/Z, MAX_RPM, FEEDRATE, PLUNGE_RATE, ANGLE, DESCRIPTION. Only NAME and DESCRIPTION are quoted. |
| ToolDatabase.AddToolRequiredValues | moonraker/components/tool_database.py:186-190 | The command's ID, NAME, TYPE, DIAMETER and LENGTH are the request's values. |
| ToolDatabase.AddToolDefaults | moonraker/components/tool_database.py:193-201 | Each of the nine optional fields, independently of the others, is sent with the supplied value, or at its default when omitted: 0.0 for FLUTE_LENGTH, the offsets, FEEDRATE, PLUNGE_RATE and ANGLE, 0 for MAX_RPM, "" for DESCRIPTION. |
| ToolDatabase.AddToolRoundTrip | moonraker/components/tool_database.py:204-209 | The ADD_TOOL text reads back as the command, given a name and description without double quotes and a type without blanks. |
| ToolDatabase.HandleAddTool | moonraker/components/tool_database.py:186-216 | The text built by the successive `+=` pieces is exactly Render(AddToolCommand). The answer is "Tool <id> added successfully", or the raise. |
| ToolDatabase.HandleUpdateTool | moonraker/components/tool_database.py:236-284 | The loop over the 17-row parameter table sends exactly Render(UpdateCommand): the ID, then each supplied field. The answer is "Tool <id> updated successfully", or the raise. |
| ToolDatabase.UpdateIdOnly | moonraker/components/tool_database.py:239 | When no field is supplied (absent or unparsable), the command is just "UPDATE_TOOL ID=<id>". |
| ToolDatabase.UpdateParamsLookup | moonraker/components/tool_database.py:262-277 | Over a table with distinct keys, a row's key is in the patch exactly when that field is supplied, with the supplied value, quoted for string fields. |
| ToolDatabase.UpdatePatch | moonraker/components/tool_database.py:262-277 | The sent command carries the ID and each table field exactly when supplied, with its value. Every key that is neither ID nor a table key is absent. |
| ToolDatabase.SuppliedRows | moonraker/components/tool_database.py:262-277 | Keeps exactly the table rows the request supplies. |
| ToolDatabase.SuppliedRowsAppend | moonraker/components/tool_database.py:262 | The supplied rows of a concatenation are those of each part, in order. |
| ToolDatabase.UpdateOrder | moonraker/components/tool_database.py:262-277 | The patch holds one parameter per supplied row, in table order, with that row's key and value. |
| ToolDatabase.UpdateAllSupplied | moonraker/components/tool_database.py:242-277 | With every field supplied, all rows are kept and the keys follow the whole table's order. |
| ToolDatabase.UpdateRoundTrip | moonraker/components/tool_database.py:262-279 | The sent update text reads back as the same command, given values without separators. |
| ToolDatabase.UpdateTableKeys | moonraker/components/tool_database.py:242-260 | The table's 17 keys are distinct, each at least three characters of upper-case letters and underscores (so free of blanks, quotes and '='), and none is "ID". |
| ToolDatabase.HandleDeleteTool | moonraker/components/tool_database.py:299-307 | Sends exactly "REMOVE_TOOL ID=<id>" and answers "Tool <id> deleted successfully", or the raise. |
| ToolDatabase.HandleSelectTool | moonraker/components/tool_database.py:325-338 | Sends exactly "SELECT_TOOL ID=<id>". Answers "Tool <id> selected" with the current_tool read after the send, or the raise. |
| ToolDatabase.IdCommandRoundTrip | moonraker/components/tool_database.py:299-302 | An id command reads back with its name and the same id. |
| ToolDatabase.FirstWithId | moonraker/components/tool_database.py:387 | The position found has the id, and no earlier tool has it. |
| ToolDatabase.FindByIdSpec | moonraker/components/tool_database.py:387 | The lookup fails exactly when no tool has the id. Otherwise it returns the first tool with that id. |
| ToolDatabase.FindByIdAppend | moonraker/components/tool_database.py:387 | Earlier tools shadow later ones with the same id. |
| ToolDatabase.HandleToolInfo | moonraker/components/tool_database.py:373-395 | A non-zero id sends "TOOL_INFO ID=<id>" and answers with the tool at FirstWithId, the first listed tool with that id. A missing or 0 id sends "TOOL_INFO" and answers with current_tool. No tool answers "not found". |
| ToolDatabase.InfoRoundTrip | moonraker/components/tool_database.py:375-378 | Both TOOL_INFO forms read back as the command meant, with or without the id. |
| ToolDatabase.ActiveTools | moonraker/components/tool_database.py:418 | Keeps exactly the active tools. A record without is_active counts as active. |
| ToolDatabase.InactiveTools | moonraker/components/tool_database.py:419 | Keeps exactly the tools whose is_active is false. |
| ToolDatabase.ActiveToolsAppend | moonraker/components/tool_database.py:418 | The active filter distributes over concatenation, so it keeps list order and duplicates. |
| ToolDatabase.InactiveToolsAppend | moonraker/components/tool_database.py:419 | The inactive filter distributes over concatenation, so it keeps list order and duplicates. |
| ToolDatabase.ActiveSplit | moonraker/components/tool_database.py:418-419 | active_tools + inactive_tools == tool_count. |
| ToolDatabase.RuntimeSumAppend | moonraker/components/tool_database.py:421 | The runtime total (missing runtimes counting 0) is additive over concatenation. |
| ToolDatabase.DistanceSumAppend | moonraker/components/tool_database.py:422 | The distance total (missing distances counting 0) is additive over concatenation. |
| ToolDatabase.MostUsedIndex | moonraker/components/tool_database.py:424 | Python's max: the chosen tool's runtime is at least every tool's runtime, and strictly above every earlier one's. |
| ToolDatabase.MostUsedIsFirstMaximal | moonraker/components/tool_database.py:424 | The first position with the maximal runtime is the one max returns. |
| ToolDatabase.MostUsedBound | moonraker/components/tool_database.py:421-424 | total_runtime ≤ tool_count × the most used tool's runtime. |
| ToolDatabase.HandleToolStats | moonraker/components/tool_database.py:415-433 | tool_count is active + inactive. The totals are the sums. most_used_tool is None exactly for an empty list, otherwise the tool at MostUsedIndex: the first listed tool with the largest runtime. |
| ToolDatabase.HandleStartMonitoring | moonraker/components/tool_database.py:445-450 | Sends START_TOOL_MONITORING and answers "Tool monitoring started", or the raise. |
| ToolDatabase.HandleStopMonitoring | moonraker/components/tool_database.py:462-467 | Sends STOP_TOOL_MONITORING and answers "Tool monitoring stopped", or the raise. |
| ToolDatabase.HandleExportTools | moonraker/components/tool_database.py:504-513 | The filename defaults to tools_export.json and is sent quoted. The reported path is "~/printer_data/tools/" followed by that filename. |
| ToolDatabase.ExportRoundTrip | moonraker/components/tool_database.py:504-512 | The export command reads back with its filename, and the reported path ends with that filename. |
| ToolDatabase.HandleImportTools | moonraker/components/tool_database.py:531-540 | Sends IMPORT_TOOLS FILENAME="<f>" OVERWRITE=1 or 0, overwrite defaulting to false. Answers "Tools imported successfully", or the raise. |
| ToolDatabase.ImportRoundTrip | moonraker/components/tool_database.py:531-535 | The import command reads back, and OVERWRITE is 1 exactly when overwrite was requested. |
| Downstream.PrintState | moonraker/components/m2_restart_handler.py:84-85 | A state is found exactly when the update carries print_stats with a state field. |
| M2RestartHandler.CheckRestartExecution | moonraker/components/m2_restart_handler.py:78-94 | Exactly one SDCARD_RESET_FILE when print_stats.state is "complete" and the API is found, otherwise nothing. A failure is logged at debug level and not retried. |
| M2RestartHandler.HandleRestartEndpoint | moonraker/components/m2_restart_handler.py:50-61 | Always answers ok. The message is "M2 RESTART executed - file position reset for repeat" if the send returned, "M2 RESTART acknowledged (Klipper not connected)" otherwise. |
| M2RestartHandler.DependsOnlyOnState | moonraker/components/m2_restart_handler.py:84-85 | Two updates with the same print_stats.state get the same reaction. |
| M30Handler.CheckM30Execution | moonraker/components/m30_handler.py:77-92 | Exactly one SDCARD_RESET_FILE when print_stats.state is "complete" and the API is found, otherwise nothing. A failure is swallowed with a debug log. |
| M30Handler.HandleM30Endpoint | moonraker/components/m30_handler.py:49-60 | Always answers ok. The message is "M30 executed - file position reset for repeat" or "M30 acknowledged (Klipper not connected)". |
| M30Handler.DependsOnlyOnState | moonraker/components/m30_handler.py:82-83 | Detection reads only print_stats.state; no G-code text is inspected. |
| StatusDispatch.DeliverResets | moonraker/components/m2_restart_handler.py:71-73 | One update delivered to n listeners sends n resets if it reports completion and none otherwise, whatever became of the other sends. |
| StatusDispatch.BothComponentsResetTwice | moonraker/components/m30_handler.py:70-72 | With both components registered, one completion sends SDCARD_RESET_FILE twice. |
| StatusDispatch.DeliverAllResets | moonraker/components/m2_restart_handler.py:78-94 | Over a stream of updates, the resets number the listener count times the completed updates. |
| StatusDispatch.RedeliveredCompletion | moonraker/components/m30_handler.py:77-92 | A completion delivered twice sends exactly 2 × listeners SDCARD_RESET_FILE commands: nothing deduplicates. |

## Left out

- Endpoint and event registration, `load_component`, `_handle_klippy_ready`, logging calls and async/await are framework plumbing. Listener delivery is modelled as sequential calls over a list of listeners.
- The `web_request.get_*` parsing layer: parameters with a default are `Option` inputs, and required ones are plain inputs. A missing or malformed parameter makes `get_*` raise. Almost everywhere that read comes before any `try`, so the exception leaves the handler and the web framework answers with an error; in the subroutine endpoint the `program` read sits inside the `try` (cnc_extended_api.py:600) and becomes the error answer. Neither path is modelled.
- HandleUpdateTool: a field that fails to parse is the `Unparsable` argument. The loop skips it, as the bare `except` does.
- The GET handlers that only query and pass a status dictionary through (`_handle_cnc_status`, the GET branches of coolant, spindle, modal state, digital and analog I/O, and `_handle_monitoring_status`) have no logic to state.
- Python's `str(float)` rendering is not modelled. Float values are their printed text (`FloatText`), assumed free of blanks and double quotes. Runtime and distance sums are exact `real`s, without IEEE rounding.
- Unicode case folding: HandleSpindle lowers ASCII letters only.
- The tool-database status query is a parameter of the handler (`ToolDb`); a failing query is not modelled. Tool records carry only the fields the handlers read (id, type, is_active, total_runtime, total_distance), and a record missing `id` or `type` (a KeyError in the source) is not modelled. An empty `current_tool` dictionary and a missing one are both `None`.
- ToolDatabase.HandleToolStats: is_active is modelled as a boolean, not as an arbitrary truthy value.
- The answers' `success` flags and echoed fields beyond those in the reply datatypes are left out. The error answer carries no exception text (`Raised`).
- The round-trip lemmas (ExtendedCommand.ParseRender, ToolDatabase.AddToolRoundTrip, ToolDatabase.UpdateRoundTrip, ToolDatabase.ExportRoundTrip, ToolDatabase.ImportRoundTrip) hold only for values without double quotes and for bare values without blanks, because the command syntax has no escaping.
- The compiled `M30` regular expression in m30_handler.py is never used, so it has nothing to model.
- The outer `except` of the two reset endpoints, which answers `{"error": ...}` when logging itself fails, is not modelled.
- The debug log of a failed reset omits the exception text.
