/** The POST and DELETE handlers of the CNC M-code REST endpoints
    (`/server/cnc/...`): each turns its request parameters into the exact
    G-code text handed to Klippy's `run_gcode`, and answers with a result
    dictionary. Parameters with a default are `Option` inputs (None when
    the request leaves them out); parameters without one are plain inputs. */
module CncExtendedApi {
  import opened Wrappers
  import opened Text
  import opened Downstream

  /** The handlers' answers. The three error shapes are
      `{'result': 'error', 'message': ...}` with the message
      'Klippy not connected', the text of the exception `run_gcode` raised,
      or the handler's own complaint about an argument. */
  datatype Reply =
    | NotConnected
    | Raised
    | Invalid(message: string)
    | ToolChanged(tool: int, manual: bool, commands: seq<string>)
    | CoolantSet(mist: Option<bool>, flood: Option<bool>)
    | SpindleSet(enable: bool, direction: Option<string>, speed: int)
    | ModalApplied(action: string, command: string)
    | ModalCleared
    | PalletChanged(pause: bool)
    | DigitalSet(command: string, pin: int, on: bool, synchronized: bool)
    | Waiting(command: string, message: string)
    | AnalogSet(command: string, pin: int, level: FloatText, synchronized: bool)
    | SubroutineCalled(command: string, program: int, repeats: int, message: string)
    | SubroutineReturned

  // ---------------------------------------------------------------------
  // Tool change (M6)

  /** The operator prompt. It is written without interpolation, so it holds
      the literal characters `{tool}`, whatever the tool number. */
  const ManualPrompt: string := "M117 Insert Tool T{tool} and resume"

  /** The tool-change command list: an optional pause, the tool selection,
      an optional operator prompt. */
  function ToolChangeCommands(tool: int, manual: bool, pause: bool): (cmds: seq<string>)
    ensures |cmds| == (if pause then 1 else 0) + 1 + (if manual then 1 else 0)
    ensures cmds[0] == "M0" <==> pause
    ensures cmds[if pause then 1 else 0] == "T" + IntText(tool)
    ensures cmds[|cmds| - 1] == ManualPrompt <==> manual
    ensures forall k | 0 <= k < |cmds| :: Free(cmds[k], '\n')
  {
    IntTextBare(tool);
    var select := "T" + IntText(tool);
    assert select[0] == 'T';
    (if pause then ["M0"] else []) + [select] + (if manual then [ManualPrompt] else [])
  }

  /** Klippy receives the list as one newline-joined text; splitting that
      text at its newlines gives the list back. */
  lemma ToolChangeLines(tool: int, manual: bool, pause: bool)
    ensures Split(Join(ToolChangeCommands(tool, manual, pause), '\n'), '\n')
         == ToolChangeCommands(tool, manual, pause)
  {
    SplitJoin(ToolChangeCommands(tool, manual, pause), '\n');
  }

  /** POST /server/cnc/tool_change: `tool` defaults to 0, `manual` and
      `pause` to true; the command list is sent in one `run_gcode` call and
      echoed in the answer. */
  method HandleToolChange(klippy: Klippy, tool: Option<int>, manual: Option<bool>, pause: Option<bool>)
    returns (reply: Reply, sent: seq<string>)
    ensures klippy.Unavailable? ==> reply == NotConnected && sent == []
    ensures klippy.Available? ==>
      var cmds := ToolChangeCommands(tool.GetOr(0), manual.GetOr(true), pause.GetOr(true));
      && sent == [Join(cmds, '\n')]
      && reply == if Accepts(klippy.outcomes, 0)
                  then ToolChanged(tool.GetOr(0), manual.GetOr(true), cmds)
                  else Raised
  {
    var t, m, p := tool.GetOr(0), manual.GetOr(true), pause.GetOr(true);
    if klippy.Unavailable? {
      return NotConnected, [];
    }
    var commands: seq<string> := [];
    if p {
      commands := commands + ["M0"];
    }
    commands := commands + ["T" + IntText(t)];
    if m {
      commands := commands + [ManualPrompt];
    }
    assert commands == ToolChangeCommands(t, m, p);
    sent := [Join(commands, '\n')];
    reply := if Accepts(klippy.outcomes, 0) then ToolChanged(t, m, commands) else Raised;
  }

  // ---------------------------------------------------------------------
  // Coolant (M7 / M8 / M9)

  /** One command per flag supplied, mist first: M7 or M9 for mist, M8 or
      M9 for flood. */
  function CoolantCommands(mist: Option<bool>, flood: Option<bool>): (cmds: seq<string>)
    ensures |cmds| == (if mist.Some? then 1 else 0) + (if flood.Some? then 1 else 0)
    ensures mist.Some? ==> cmds[0] == if mist.value then "M7" else "M9"
    ensures flood.Some? ==> cmds[|cmds| - 1] == if flood.value then "M8" else "M9"
  {
    (if mist.Some? then [if mist.value then "M7" else "M9"] else [])
    + (if flood.Some? then [if flood.value then "M8" else "M9"] else [])
  }

  /** Turning both off sends M9 twice; supplying neither sends the empty text. */
  lemma CoolantEdgeCases()
    ensures Join(CoolantCommands(Some(false), Some(false)), '\n') == "M9\nM9"
    ensures Join(CoolantCommands(None, None), '\n') == ""
  {
  }

  /** POST /server/cnc/coolant. */
  method HandleCoolant(klippy: Klippy, mist: Option<bool>, flood: Option<bool>)
    returns (reply: Reply, sent: seq<string>)
    ensures klippy.Unavailable? ==> reply == NotConnected && sent == []
    ensures klippy.Available? ==>
      && sent == [Join(CoolantCommands(mist, flood), '\n')]
      && reply == if Accepts(klippy.outcomes, 0) then CoolantSet(mist, flood) else Raised
  {
    if klippy.Unavailable? {
      return NotConnected, [];
    }
    var commands: seq<string> := [];
    if mist.Some? {
      commands := commands + [if mist.value then "M7" else "M9"];
    }
    if flood.Some? {
      commands := commands + [if flood.value then "M8" else "M9"];
    }
    sent := [Join(commands, '\n')];
    reply := if Accepts(klippy.outcomes, 0) then CoolantSet(mist, flood) else Raised;
  }

  // ---------------------------------------------------------------------
  // Spindle (S / M3 / M4 / M5)

  /** The spindle command list for an already lower-cased direction; None
      when the spindle is enabled with a direction other than "cw" or "ccw". */
  function SpindleCommands(enable: bool, direction: string, speed: int): (r: Option<seq<string>>)
    ensures !enable ==> r == Some(["M5"])
    ensures enable ==> (r.Some? <==> direction == "cw" || direction == "ccw")
    ensures enable && r.Some? ==>
      && |r.value| == (if speed > 0 then 2 else 1)
      && r.value[|r.value| - 1] == (if direction == "cw" then "M3" else "M4")
      && (speed > 0 ==> r.value[0] == "S" + IntText(speed))
  {
    if !enable then Some(["M5"])
    else if direction == "cw" || direction == "ccw" then
      Some((if speed > 0 then ["S" + IntText(speed)] else []) + [if direction == "cw" then "M3" else "M4"])
    else None
  }

  /** POST /server/cnc/spindle: `direction` defaults to "cw" and is
      lower-cased, `speed` defaults to 0. A disabled spindle reports
      direction None and speed 0. */
  method HandleSpindle(klippy: Klippy, enable: bool, direction: Option<string>, speed: Option<int>)
    returns (reply: Reply, sent: seq<string>)
    ensures klippy.Unavailable? ==> reply == NotConnected && sent == []
    ensures klippy.Available? ==>
      var dir := Lower(direction.GetOr("cw"));
      match SpindleCommands(enable, dir, speed.GetOr(0))
      case None => reply == Invalid("Invalid direction") && sent == []
      case Some(cmds) =>
        && sent == [Join(cmds, '\n')]
        && reply == if Accepts(klippy.outcomes, 0)
                    then SpindleSet(enable, if enable then Some(dir) else None, if enable then speed.GetOr(0) else 0)
                    else Raised
  {
    var dir, s := Lower(direction.GetOr("cw")), speed.GetOr(0);
    if klippy.Unavailable? {
      return NotConnected, [];
    }
    var commands: seq<string> := [];
    if enable {
      if s > 0 {
        commands := commands + ["S" + IntText(s)];
      }
      if dir == "cw" {
        commands := commands + ["M3"];
      } else if dir == "ccw" {
        commands := commands + ["M4"];
      } else {
        return Invalid("Invalid direction"), [];
      }
    } else {
      commands := commands + ["M5"];
    }
    sent := [Join(commands, '\n')];
    reply := if Accepts(klippy.outcomes, 0)
             then SpindleSet(enable, if enable then Some(dir) else None, if enable then s else 0)
             else Raised;
  }

  // ---------------------------------------------------------------------
  // Modal state (M70 - M73)

  /** The action-to-command table of POST /server/cnc/modal_state. */
  function ModalCommand(action: string): (r: Option<string>)
    ensures r == Some("M70") <==> action == "save"
    ensures r == Some("M71") <==> action == "invalidate"
    ensures r == Some("M72") <==> action == "restore"
    ensures r == Some("M73") <==> action == "auto_save"
    ensures r.None? <==> action != "save" && action != "invalidate" && action != "restore" && action != "auto_save"
  {
    if action == "save" then Some("M70")
    else if action == "restore" then Some("M72")
    else if action == "invalidate" then Some("M71")
    else if action == "auto_save" then Some("M73")
    else None
  }

  /** POST /server/cnc/modal_state: `action` defaults to "save"; an action
      outside the table is refused without sending anything. */
  function HandleModalAction(klippy: Klippy, action: Option<string>): (h: Handled<Reply>)
    ensures klippy.Unavailable? ==> h == Handled(NotConnected, [])
    ensures klippy.Available? && ModalCommand(action.GetOr("save")).None? ==>
      h == Handled(Invalid("Invalid action: " + action.GetOr("save")), [])
    ensures klippy.Available? && ModalCommand(action.GetOr("save")).Some? ==>
      var code := ModalCommand(action.GetOr("save")).value;
      && h.sent == [code]
      && (h.reply.ModalApplied? <==> Accepts(klippy.outcomes, 0))
      && (h.reply.ModalApplied? ==> h.reply == ModalApplied(action.GetOr("save"), code))
      && (!h.reply.ModalApplied? ==> h.reply == Raised)
  {
    var a := action.GetOr("save");
    if klippy.Unavailable? then Handled(NotConnected, [])
    else match ModalCommand(a)
      case None => Handled(Invalid("Invalid action: " + a), [])
      case Some(code) =>
        Handled(if Accepts(klippy.outcomes, 0) then ModalApplied(a, code) else Raised, [code])
  }

  /** The bound on the modal-state stack depth that the clear loop assumes. */
  const MaxNestedStates: nat := 10

  /** How many M71 the clear loop sends: one more than the index of the
      first refused send, and at most MaxNestedStates. */
  function ClearAttempts(outcomes: seq<bool>): (n: nat)
    ensures 1 <= n <= MaxNestedStates
    ensures forall k | 0 <= k < n - 1 :: Accepts(outcomes, k)
    ensures n < MaxNestedStates ==> !Accepts(outcomes, n - 1)
  {
    AttemptsFrom(outcomes, 0)
  }

  function AttemptsFrom(outcomes: seq<bool>, i: nat): (n: nat)
    requires i < MaxNestedStates
    ensures i + 1 <= n <= MaxNestedStates
    ensures forall k | i <= k < n - 1 :: Accepts(outcomes, k)
    ensures n < MaxNestedStates ==> !Accepts(outcomes, n - 1)
    decreases MaxNestedStates - i
  {
    if !Accepts(outcomes, i) || i == MaxNestedStates - 1 then i + 1
    else AttemptsFrom(outcomes, i + 1)
  }

  /** The properties in ClearAttempts' contract pin the count down. */
  lemma ClearAttemptsUnique(outcomes: seq<bool>, n: nat)
    requires 1 <= n <= MaxNestedStates
    requires forall k | 0 <= k < n - 1 :: Accepts(outcomes, k)
    requires n < MaxNestedStates ==> !Accepts(outcomes, n - 1)
    ensures n == ClearAttempts(outcomes)
  {
  }

  /** DELETE /server/cnc/modal_state: sends M71 until one send raises, at
      most MaxNestedStates times, and answers success whatever happened. */
  method HandleModalClear(klippy: Klippy) returns (reply: Reply, sent: seq<string>)
    ensures klippy.Unavailable? ==> reply == NotConnected && sent == []
    ensures klippy.Available? ==>
      reply == ModalCleared && sent == seq(ClearAttempts(klippy.outcomes), _ => "M71")
  {
    if klippy.Unavailable? {
      return NotConnected, [];
    }
    sent := [];
    for i := 0 to MaxNestedStates
      invariant sent == seq(i, _ => "M71")
      invariant forall k | 0 <= k < i :: Accepts(klippy.outcomes, k)
    {
      sent := sent + ["M71"];
      if !Accepts(klippy.outcomes, i) {
        break;
      }
    }
    ClearAttemptsUnique(klippy.outcomes, |sent|);
    reply := ModalCleared;
  }

  // ---------------------------------------------------------------------
  // Pallet change (M60)

  /** POST /server/cnc/pallet_change: `pause` (default true) is echoed but
      does not change the command, which is always M60. */
  function HandlePalletChange(klippy: Klippy, pause: Option<bool>): (h: Handled<Reply>)
    ensures klippy.Unavailable? ==> h == Handled(NotConnected, [])
    ensures klippy.Available? ==> h.sent == ["M60"]
    ensures klippy.Available? ==>
      h.reply == if Accepts(klippy.outcomes, 0) then PalletChanged(pause.GetOr(true)) else Raised
  {
    if klippy.Unavailable? then Handled(NotConnected, [])
    else Handled(if Accepts(klippy.outcomes, 0) then PalletChanged(pause.GetOr(true)) else Raised, ["M60"])
  }

  // ---------------------------------------------------------------------
  // Digital and analog I/O (M62 - M68)

  /** `P<pin>` after M62 (on) / M63 (off) when synchronized with motion,
      M64 (on) / M65 (off) when immediate. */
  function DigitalOutputCommand(pin: int, value: bool, synchronized: bool): string
  {
    var code := if synchronized then (if value then "M62" else "M63") else (if value then "M64" else "M65");
    code + " " + ("P" + IntText(pin))
  }

  /** M66 waits on input `pin`: written `E<pin>` for an analog input and
      `P<pin>` for a digital one, then the mode and the timeout. */
  function WaitCommand(pin: int, mode: int, timeout: FloatText, analog: bool): string
  {
    var input := [if analog then 'E' else 'P'] + IntText(pin);
    "M66" + " " + (input + " " + ("L" + IntText(mode) + " " + ("Q" + timeout)))
  }

  /** M67 (synchronized) or M68 (immediate) sets analog output `pin` to `value`. */
  function AnalogOutputCommand(pin: int, value: FloatText, synchronized: bool): string
  {
    (if synchronized then "M67" else "M68") + " " + ("E" + IntText(pin) + " " + ("Q" + value))
  }

  /** The number text of a G-code word such as `P12`, when it starts with `letter`. */
  function WordValue(word: string, letter: char): Option<string>
  {
    if |word| > 0 && word[0] == letter then Some(word[1..]) else None
  }

  /** A word is its letter followed by its number text, and contains no blank. */
  lemma WordValueOf(letter: char, text: string)
    requires letter != ' ' && Free(text, ' ')
    ensures WordValue([letter] + text, letter) == Some(text)
    ensures Free([letter] + text, ' ')
  {
    assert ([letter] + text)[1..] == text;
  }

  /** Reads a digital output command back into (pin, on, synchronized). */
  function DecodeDigitalOutput(line: string): Option<(int, bool, bool)>
  {
    DigitalOutputWords(Split(line, ' '))
  }

  function DigitalOutputWords(words: seq<string>): Option<(int, bool, bool)>
  {
    if |words| != 2 || WordValue(words[1], 'P').None? then None
    else
      var pin := ParseInt(WordValue(words[1], 'P').value);
      if words[0] == "M62" then Some((pin, true, true))
      else if words[0] == "M63" then Some((pin, false, true))
      else if words[0] == "M64" then Some((pin, true, false))
      else if words[0] == "M65" then Some((pin, false, false))
      else None
  }

  /** Each of the four codes means one (on, synchronized) combination and the
      pin is written in full: the command determines all three inputs. */
  lemma DigitalOutputRoundTrip(pin: int, on: bool, synchronized: bool)
    ensures DecodeDigitalOutput(DigitalOutputCommand(pin, on, synchronized)) == Some((pin, on, synchronized))
  {
    var code := if synchronized then (if on then "M62" else "M63") else (if on then "M64" else "M65");
    var p := "P" + IntText(pin);
    IntTextBare(pin);
    WordValueOf('P', IntText(pin));
    SplitTwo(code, p, ' ');
    DigitalOutputWordsOf(code, pin, on, synchronized);
  }

  lemma DigitalOutputWordsOf(code: string, pin: int, on: bool, synchronized: bool)
    requires code == if synchronized then (if on then "M62" else "M63") else (if on then "M64" else "M65")
    requires WordValue("P" + IntText(pin), 'P') == Some(IntText(pin))
    ensures DigitalOutputWords([code, "P" + IntText(pin)]) == Some((pin, on, synchronized))
  {
    IntTextRoundTrip(pin);
  }

  /** Reads an M66 command back into (pin, mode, timeout, analog). */
  function DecodeWait(line: string): Option<(int, int, string, bool)>
  {
    WaitWords(Split(line, ' '))
  }

  function WaitWords(words: seq<string>): Option<(int, int, string, bool)>
  {
    if |words| != 4 || words[0] != "M66" || |words[1]| == 0 || (words[1][0] != 'E' && words[1][0] != 'P')
       || WordValue(words[2], 'L').None? || WordValue(words[3], 'Q').None?
    then None
    else Some((ParseInt(words[1][1..]), ParseInt(WordValue(words[2], 'L').value),
               WordValue(words[3], 'Q').value, words[1][0] == 'E'))
  }

  lemma WaitRoundTrip(pin: int, mode: int, timeout: FloatText, analog: bool)
    ensures DecodeWait(WaitCommand(pin, mode, timeout, analog)) == Some((pin, mode, timeout, analog))
  {
    var e := [if analog then 'E' else 'P'] + IntText(pin);
    var l := "L" + IntText(mode);
    var q := "Q" + timeout;
    IntTextBare(pin);
    IntTextBare(mode);
    WordValueOf(if analog then 'E' else 'P', IntText(pin));
    WordValueOf('L', IntText(mode));
    WordValueOf('Q', timeout);
    SplitFour("M66", e, l, q, ' ');
    WaitWordsOf(pin, mode, timeout, analog);
  }

  lemma WaitWordsOf(pin: int, mode: int, timeout: FloatText, analog: bool)
    requires WordValue("L" + IntText(mode), 'L') == Some(IntText(mode))
    requires WordValue("Q" + timeout, 'Q') == Some(timeout)
    ensures WaitWords(["M66", [if analog then 'E' else 'P'] + IntText(pin), "L" + IntText(mode), "Q" + timeout])
         == Some((pin, mode, timeout, analog))
  {
    var e := [if analog then 'E' else 'P'] + IntText(pin);
    assert e[0] == (if analog then 'E' else 'P') && e[1..] == IntText(pin);
    IntTextRoundTrip(pin);
    IntTextRoundTrip(mode);
  }

  /** Reads an M67 / M68 command back into (pin, level, synchronized). */
  function DecodeAnalogOutput(line: string): Option<(int, string, bool)>
  {
    AnalogOutputWords(Split(line, ' '))
  }

  function AnalogOutputWords(words: seq<string>): Option<(int, string, bool)>
  {
    if |words| != 3 || (words[0] != "M67" && words[0] != "M68")
       || WordValue(words[1], 'E').None? || WordValue(words[2], 'Q').None?
    then None
    else Some((ParseInt(WordValue(words[1], 'E').value), WordValue(words[2], 'Q').value, words[0] == "M67"))
  }

  lemma AnalogOutputRoundTrip(pin: int, level: FloatText, synchronized: bool)
    ensures DecodeAnalogOutput(AnalogOutputCommand(pin, level, synchronized)) == Some((pin, level, synchronized))
  {
    var code := if synchronized then "M67" else "M68";
    var e := "E" + IntText(pin);
    var q := "Q" + level;
    IntTextBare(pin);
    WordValueOf('E', IntText(pin));
    WordValueOf('Q', level);
    SplitThree(code, e, q, ' ');
    IntTextRoundTrip(pin);
  }

  /** The request of POST /server/cnc/digital_io. `action` defaults to
      "set", `synchronized` and `analog` to false, `mode` to 0 and
      `timeout` to 0.0. */
  datatype DigitalIoRequest = DigitalIoRequest(
    action: Option<string>,
    pin: int,
    value: bool,
    synchronized: Option<bool>,
    mode: Option<int>,
    timeout: Option<FloatText>,
    analog: Option<bool>)

  /** POST /server/cnc/digital_io: "wait" waits on an input, any other
      action sets a digital output. */
  function HandleDigitalIo(klippy: Klippy, req: DigitalIoRequest): (h: Handled<Reply>)
    ensures klippy.Unavailable? ==> h == Handled(NotConnected, [])
    ensures klippy.Available? && req.action.GetOr("set") == "wait" ==>
      var cmd := WaitCommand(req.pin, req.mode.GetOr(0), req.timeout.GetOr("0.0"), req.analog.GetOr(false));
      && h.sent == [cmd]
      && h.reply == if Accepts(klippy.outcomes, 0)
                    then Waiting(cmd, "Waiting on " + (if req.analog.GetOr(false) then "analog" else "digital")
                                      + " input " + IntText(req.pin))
                    else Raised
    ensures klippy.Available? && req.action.GetOr("set") != "wait" ==>
      var cmd := DigitalOutputCommand(req.pin, req.value, req.synchronized.GetOr(false));
      && h.sent == [cmd]
      && h.reply == if Accepts(klippy.outcomes, 0)
                    then DigitalSet(cmd, req.pin, req.value, req.synchronized.GetOr(false))
                    else Raised
  {
    if klippy.Unavailable? then Handled(NotConnected, [])
    else if req.action.GetOr("set") == "wait" then
      var analog := req.analog.GetOr(false);
      var cmd := WaitCommand(req.pin, req.mode.GetOr(0), req.timeout.GetOr("0.0"), analog);
      var message := "Waiting on " + (if analog then "analog" else "digital") + " input " + IntText(req.pin);
      Handled(if Accepts(klippy.outcomes, 0) then Waiting(cmd, message) else Raised, [cmd])
    else
      var sync := req.synchronized.GetOr(false);
      var cmd := DigitalOutputCommand(req.pin, req.value, sync);
      Handled(if Accepts(klippy.outcomes, 0) then DigitalSet(cmd, req.pin, req.value, sync) else Raised, [cmd])
  }

  /** POST /server/cnc/analog_io: `synchronized` defaults to false. */
  function HandleAnalogIo(klippy: Klippy, pin: int, value: FloatText, synchronized: Option<bool>): (h: Handled<Reply>)
    ensures klippy.Unavailable? ==> h == Handled(NotConnected, [])
    ensures klippy.Available? ==>
      var cmd := AnalogOutputCommand(pin, value, synchronized.GetOr(false));
      && h.sent == [cmd]
      && h.reply == if Accepts(klippy.outcomes, 0)
                    then AnalogSet(cmd, pin, value, synchronized.GetOr(false))
                    else Raised
  {
    if klippy.Unavailable? then Handled(NotConnected, [])
    else
      var sync := synchronized.GetOr(false);
      var cmd := AnalogOutputCommand(pin, value, sync);
      Handled(if Accepts(klippy.outcomes, 0) then AnalogSet(cmd, pin, value, sync) else Raised, [cmd])
  }

  // ---------------------------------------------------------------------
  // Subroutines (M98 / M99)

  /** M98 calls program `program`; the repeat count is written only when
      it is above 1. */
  function SubroutineCallCommand(program: int, repeats: int): string
  {
    var p := "P" + IntText(program);
    "M98" + " " + (if repeats > 1 then p + " " + ("L" + IntText(repeats)) else p)
  }

  /** Reads an M98 command back into (program, repeats); a missing L word
      means one run. */
  function DecodeSubroutineCall(line: string): Option<(int, int)>
  {
    SubroutineCallWords(Split(line, ' '))
  }

  function SubroutineCallWords(words: seq<string>): Option<(int, int)>
  {
    if !(|words| == 2 || |words| == 3) || words[0] != "M98" || WordValue(words[1], 'P').None? then None
    else if |words| == 2 then Some((ParseInt(WordValue(words[1], 'P').value), 1))
    else if WordValue(words[2], 'L').None? then None
    else Some((ParseInt(WordValue(words[1], 'P').value), ParseInt(WordValue(words[2], 'L').value)))
  }

  /** The program number always reads back; a repeat count of 1 or less
      reads back as 1, since no L word is written for it. */
  lemma SubroutineCallRoundTrip(program: int, repeats: int)
    ensures DecodeSubroutineCall(SubroutineCallCommand(program, repeats))
         == Some((program, if repeats > 1 then repeats else 1))
  {
    var prog := IntText(program);
    var p := "P" + prog;
    IntTextBare(program);
    WordValueOf('P', prog);
    var line := SubroutineCallCommand(program, repeats);
    var rep := IntText(repeats);
    IntTextBare(repeats);
    WordValueOf('L', rep);
    if repeats > 1 {
      var l := "L" + rep;
      SplitThree("M98", p, l, ' ');
      SubroutineWordsOf(program, repeats);
    } else {
      SplitTwo("M98", p, ' ');
      SubroutineWordsOf(program, repeats);
    }
  }

  lemma SubroutineWordsOf(program: int, repeats: int)
    requires WordValue("P" + IntText(program), 'P') == Some(IntText(program))
    requires WordValue("L" + IntText(repeats), 'L') == Some(IntText(repeats))
    ensures repeats > 1 ==> SubroutineCallWords(["M98", "P" + IntText(program), "L" + IntText(repeats)])
                            == Some((program, repeats))
    ensures SubroutineCallWords(["M98", "P" + IntText(program)]) == Some((program, 1))
  {
    IntTextRoundTrip(program);
    IntTextRoundTrip(repeats);
  }

  /** POST /server/cnc/subroutine: `action` defaults to "call" and
      `repeats` to 1; "return" sends M99; any other action is refused
      without sending anything. */
  function HandleSubroutine(klippy: Klippy, action: Option<string>, program: int, repeats: Option<int>)
    : (h: Handled<Reply>)
    ensures klippy.Unavailable? ==> h == Handled(NotConnected, [])
    ensures klippy.Available? && action.GetOr("call") == "call" ==>
      var cmd := SubroutineCallCommand(program, repeats.GetOr(1));
      && h.sent == [cmd]
      && h.reply == if Accepts(klippy.outcomes, 0)
                    then SubroutineCalled(cmd, program, repeats.GetOr(1),
                           "Called subroutine O" + IntText(program) + " (" + IntText(repeats.GetOr(1)) + " times)")
                    else Raised
    ensures klippy.Available? && action.GetOr("call") == "return" ==>
      h == Handled(if Accepts(klippy.outcomes, 0) then SubroutineReturned else Raised, ["M99"])
    ensures klippy.Available? && action.GetOr("call") != "call" && action.GetOr("call") != "return" ==>
      h == Handled(Invalid("Invalid action: " + action.GetOr("call")), [])
  {
    var a := action.GetOr("call");
    if klippy.Unavailable? then Handled(NotConnected, [])
    else if a == "call" then
      var r := repeats.GetOr(1);
      var cmd := SubroutineCallCommand(program, r);
      var message := "Called subroutine O" + IntText(program) + " (" + IntText(r) + " times)";
      Handled(if Accepts(klippy.outcomes, 0) then SubroutineCalled(cmd, program, r, message) else Raised, [cmd])
    else if a == "return" then
      Handled(if Accepts(klippy.outcomes, 0) then SubroutineReturned else Raised, ["M99"])
    else Handled(Invalid("Invalid action: " + a), [])
  }
}
