/** The tool database endpoints (/server/tools/...): each request becomes one
    extended command for the printer-side tool database, and the list, info
    and stats requests read the tool list that the printer reports. */
module ToolDatabase {
  import opened Wrappers
  import opened Text
  import opened Downstream
  import opened ExtendedCommand

  /** A tool record as the printer reports it, reduced to the fields these
      handlers read; `is_active`, `total_runtime` and `total_distance` may be
      missing from a record. */
  datatype Tool = Tool(id: int, kind: string, isActive: Option<bool>,
                       totalRuntime: Option<real>, totalDistance: Option<real>)

  /** The `tool_database` status object: its tool list and the current tool
      (None when the status carries no current tool or an empty one). */
  datatype ToolDb = ToolDb(tools: seq<Tool>, current: Option<Tool>)

  datatype Reply =
    | Raised
    | NotFound
    | Listed(tools: seq<Tool>, current: Option<Tool>, toolCount: nat)
    | Done(message: string)
    | Selected(message: string, current: Option<Tool>)
    | Info(tool: Tool)
    | Stats(toolCount: nat, activeTools: nat, inactiveTools: nat,
            totalRuntime: real, totalDistance: real, mostUsedTool: Option<Tool>)
    | Exported(filename: string, path: string)

  /** The reply of a handler whose only send either returned (`accepted`) or raised. */
  function Sent(command: Command, accepted: bool, reply: Reply): Handled<Reply>
  {
    Handled(if accepted then reply else Raised, [Render(command)])
  }

  function IdParam(id: int): Param
  {
    Param("ID", IntText(id), false)
  }

  /** A command that carries only an id. */
  lemma IdCommandText(name: string, id: int)
    ensures Render(Command(name, [IdParam(id)])) == name + " ID=" + IntText(id)
  {
    assert [] + [IdParam(id)] == [IdParam(id)];
    RenderPush(name, [], IdParam(id));
  }

  // ---------------------------------------------------------------- list

  /** The tools of one type, in listing order. */
  function OfType(tools: seq<Tool>, kind: string): (r: seq<Tool>)
    ensures |r| <= |tools|
    ensures forall t | t in r :: t in tools && t.kind == kind
    ensures forall t | t in tools && t.kind == kind :: t in r
  {
    if tools == [] then []
    else (if tools[0].kind == kind then [tools[0]] else []) + OfType(tools[1..], kind)
  }

  /** Filtering keeps the listing order: it distributes over concatenation. */
  lemma {:induction false} OfTypeAppend(a: seq<Tool>, b: seq<Tool>, kind: string)
    ensures OfType(a + b, kind) == OfType(a, kind) + OfType(b, kind)
  {
    if a == [] {
      assert a + b == b;
    } else {
      assert (a + b)[1..] == a[1..] + b;
      OfTypeAppend(a[1..], b, kind);
    }
  }

  /** Filtering twice by the same type changes nothing. */
  lemma {:induction false} OfTypeIdempotent(tools: seq<Tool>, kind: string)
    ensures OfType(OfType(tools, kind), kind) == OfType(tools, kind)
  {
    if tools != [] {
      OfTypeIdempotent(tools[1..], kind);
      var head := if tools[0].kind == kind then [tools[0]] else [];
      OfTypeAppend(head, OfType(tools[1..], kind), kind);
    }
  }

  /** GET /server/tools/list: a missing or empty type lists every tool. */
  function HandleListTools(kind: Option<string>, db: ToolDb): (r: Reply)
    ensures r.Listed? && r.current == db.current && r.toolCount == |r.tools|
    ensures kind.None? || kind.value == "" ==> r.tools == db.tools
    ensures kind.Some? && kind.value != "" ==> r.tools == OfType(db.tools, kind.value)
  {
    var tools := if kind.Some? && kind.value != "" then OfType(db.tools, kind.value) else db.tools;
    Listed(tools, db.current, |tools|)
  }

  // ---------------------------------------------------------------- add

  /** The body of POST /server/tools/add; the optional fields are None when
      the request leaves them out. */
  datatype AddToolRequest = AddToolRequest(
    id: int, name: string, kind: string, diameter: FloatText, length: FloatText,
    fluteLength: Option<FloatText>, offsetX: Option<FloatText>, offsetY: Option<FloatText>,
    offsetZ: Option<FloatText>, maxRpm: Option<int>, feedrate: Option<FloatText>,
    plungeRate: Option<FloatText>, angle: Option<FloatText>, description: Option<string>)

  function AddToolParams(req: AddToolRequest): seq<Param>
  {
    [ IdParam(req.id),
      Param("NAME", req.name, true),
      Param("TYPE", req.kind, false),
      Param("DIAMETER", req.diameter, false),
      Param("LENGTH", req.length, false),
      Param("FLUTE_LENGTH", req.fluteLength.GetOr("0.0"), false),
      Param("OFFSET_X", req.offsetX.GetOr("0.0"), false),
      Param("OFFSET_Y", req.offsetY.GetOr("0.0"), false),
      Param("OFFSET_Z", req.offsetZ.GetOr("0.0"), false),
      Param("MAX_RPM", IntText(req.maxRpm.GetOr(0)), false),
      Param("FEEDRATE", req.feedrate.GetOr("0.0"), false),
      Param("PLUNGE_RATE", req.plungeRate.GetOr("0.0"), false),
      Param("ANGLE", req.angle.GetOr("0.0"), false),
      Param("DESCRIPTION", req.description.GetOr(""), true) ]
  }

  /** The ADD_TOOL command: every field in a fixed order, only NAME and
      DESCRIPTION quoted, omitted fields at their defaults. */
  function AddToolCommand(req: AddToolRequest): (c: Command)
    ensures c.name == "ADD_TOOL" && |c.params| == 14
    ensures Keys(c.params) == AddToolKeys
    ensures forall k | 0 <= k < |c.params| ::
              c.params[k].quoted <==> c.params[k].key == "NAME" || c.params[k].key == "DESCRIPTION"
  {
    Command("ADD_TOOL", AddToolParams(req))
  }

  const AddToolKeys: seq<string> :=
    ["ID", "NAME", "TYPE", "DIAMETER", "LENGTH", "FLUTE_LENGTH", "OFFSET_X", "OFFSET_Y",
     "OFFSET_Z", "MAX_RPM", "FEEDRATE", "PLUNGE_RATE", "ANGLE", "DESCRIPTION"]

  function Keys(ps: seq<Param>): (keys: seq<string>)
    ensures |keys| == |ps| && forall k | 0 <= k < |ps| :: keys[k] == ps[k].key
  {
    seq(|ps|, k requires 0 <= k < |ps| => ps[k].key)
  }

  /** The value a command gives to `key`: its last parameter with that key. */
  function Lookup(ps: seq<Param>, key: string): (r: Option<Param>)
    ensures r.Some? ==> r.value in ps && r.value.key == key
    ensures r.None? ==> forall p | p in ps :: p.key != key
  {
    if ps == [] then None
    else if ps[|ps| - 1].key == key then Some(ps[|ps| - 1])
    else
      var r := Lookup(ps[..|ps| - 1], key);
      assert forall p | p in ps :: p in ps[..|ps| - 1] || p == ps[|ps| - 1];
      r
  }

  /** A parameter that no later parameter overrides is the command's value
      for its key. */
  lemma {:induction false} LookupAt(ps: seq<Param>, k: nat)
    requires k < |ps|
    requires forall j | k < j < |ps| :: ps[j].key != ps[k].key
    ensures Lookup(ps, ps[k].key) == Some(ps[k])
    decreases |ps|
  {
    if k < |ps| - 1 {
      LookupAt(ps[..|ps| - 1], k);
    }
  }

  /** With distinct keys, each parameter is the command's value for its key. */
  lemma LookupKeyAt(ps: seq<Param>, keys: seq<string>, k: nat)
    requires Keys(ps) == keys && k < |keys|
    requires forall i, j | 0 <= i < j < |keys| :: keys[i] != keys[j]
    ensures Lookup(ps, keys[k]) == Some(ps[k])
  {
    LookupAt(ps, k);
  }

  /** The command's value for each required field is the request's. */
  lemma AddToolRequiredValues(req: AddToolRequest)
    ensures Lookup(AddToolCommand(req).params, "ID") == Some(Param("ID", IntText(req.id), false))
    ensures Lookup(AddToolCommand(req).params, "NAME") == Some(Param("NAME", req.name, true))
    ensures Lookup(AddToolCommand(req).params, "TYPE") == Some(Param("TYPE", req.kind, false))
    ensures Lookup(AddToolCommand(req).params, "DIAMETER") == Some(Param("DIAMETER", req.diameter, false))
    ensures Lookup(AddToolCommand(req).params, "LENGTH") == Some(Param("LENGTH", req.length, false))
  {
    AddToolIdentityValues(req);
    AddToolDimensionValues(req);
  }

  lemma AddToolIdentityValues(req: AddToolRequest)
    ensures Lookup(AddToolCommand(req).params, "ID") == Some(AddToolParams(req)[0])
    ensures Lookup(AddToolCommand(req).params, "NAME") == Some(AddToolParams(req)[1])
    ensures Lookup(AddToolCommand(req).params, "TYPE") == Some(AddToolParams(req)[2])
  {
    var ps := AddToolCommand(req).params;
    AddToolKeysDistinct();
    LookupKeyAt(ps, AddToolKeys, 0);
    LookupKeyAt(ps, AddToolKeys, 1);
    LookupKeyAt(ps, AddToolKeys, 2);
  }

  lemma AddToolDimensionValues(req: AddToolRequest)
    ensures Lookup(AddToolCommand(req).params, "DIAMETER") == Some(AddToolParams(req)[3])
    ensures Lookup(AddToolCommand(req).params, "LENGTH") == Some(AddToolParams(req)[4])
  {
    var ps := AddToolCommand(req).params;
    AddToolKeysDistinct();
    LookupKeyAt(ps, AddToolKeys, 3);
    LookupKeyAt(ps, AddToolKeys, 4);
  }

  /** Each optional field, independently of the others, is sent with the
      request's value when supplied and at its default when omitted: 0.0 for
      the lengths, offsets, rates and angle, 0 for MAX_RPM, "" for DESCRIPTION. */
  lemma AddToolDefaults(req: AddToolRequest)
    ensures Lookup(AddToolCommand(req).params, "FLUTE_LENGTH")
         == Some(Param("FLUTE_LENGTH", if req.fluteLength.Some? then req.fluteLength.value else "0.0", false))
    ensures Lookup(AddToolCommand(req).params, "OFFSET_X")
         == Some(Param("OFFSET_X", if req.offsetX.Some? then req.offsetX.value else "0.0", false))
    ensures Lookup(AddToolCommand(req).params, "OFFSET_Y")
         == Some(Param("OFFSET_Y", if req.offsetY.Some? then req.offsetY.value else "0.0", false))
    ensures Lookup(AddToolCommand(req).params, "OFFSET_Z")
         == Some(Param("OFFSET_Z", if req.offsetZ.Some? then req.offsetZ.value else "0.0", false))
    ensures Lookup(AddToolCommand(req).params, "MAX_RPM")
         == Some(Param("MAX_RPM", if req.maxRpm.Some? then IntText(req.maxRpm.value) else "0", false))
    ensures Lookup(AddToolCommand(req).params, "FEEDRATE")
         == Some(Param("FEEDRATE", if req.feedrate.Some? then req.feedrate.value else "0.0", false))
    ensures Lookup(AddToolCommand(req).params, "PLUNGE_RATE")
         == Some(Param("PLUNGE_RATE", if req.plungeRate.Some? then req.plungeRate.value else "0.0", false))
    ensures Lookup(AddToolCommand(req).params, "ANGLE")
         == Some(Param("ANGLE", if req.angle.Some? then req.angle.value else "0.0", false))
    ensures Lookup(AddToolCommand(req).params, "DESCRIPTION")
         == Some(Param("DESCRIPTION", if req.description.Some? then req.description.value else "", true))
  {
    AddToolMeasures(req);
    AddToolRates(req);
  }

  lemma AddToolMeasures(req: AddToolRequest)
    ensures Lookup(AddToolCommand(req).params, "FLUTE_LENGTH") == Some(AddToolParams(req)[5])
    ensures Lookup(AddToolCommand(req).params, "OFFSET_X") == Some(AddToolParams(req)[6])
    ensures Lookup(AddToolCommand(req).params, "OFFSET_Y") == Some(AddToolParams(req)[7])
    ensures Lookup(AddToolCommand(req).params, "OFFSET_Z") == Some(AddToolParams(req)[8])
  {
    var ps := AddToolCommand(req).params;
    AddToolKeysDistinct();
    LookupKeyAt(ps, AddToolKeys, 5);
    LookupKeyAt(ps, AddToolKeys, 6);
    LookupKeyAt(ps, AddToolKeys, 7);
    LookupKeyAt(ps, AddToolKeys, 8);
  }

  lemma AddToolRates(req: AddToolRequest)
    ensures Lookup(AddToolCommand(req).params, "MAX_RPM") == Some(AddToolParams(req)[9])
    ensures Lookup(AddToolCommand(req).params, "FEEDRATE") == Some(AddToolParams(req)[10])
    ensures Lookup(AddToolCommand(req).params, "PLUNGE_RATE") == Some(AddToolParams(req)[11])
    ensures Lookup(AddToolCommand(req).params, "ANGLE") == Some(AddToolParams(req)[12])
    ensures Lookup(AddToolCommand(req).params, "DESCRIPTION") == Some(AddToolParams(req)[13])
  {
    var ps := AddToolCommand(req).params;
    AddToolKeysDistinct();
    LookupKeyAt(ps, AddToolKeys, 9);
    LookupKeyAt(ps, AddToolKeys, 10);
    LookupKeyAt(ps, AddToolKeys, 11);
    LookupKeyAt(ps, AddToolKeys, 12);
    LookupKeyAt(ps, AddToolKeys, 13);
  }

  /** The ADD_TOOL text reads back as the command, given a name and a
      description without double quotes and a type without blanks. */
  lemma AddToolRoundTrip(req: AddToolRequest)
    requires Free(req.name, '"') && Bare(req.kind) && Free(req.description.GetOr(""), '"')
    ensures Parse(Render(AddToolCommand(req))) == Some(AddToolCommand(req))
  {
    AddToolWellFormed(req);
    ParseRender(AddToolCommand(req));
  }

  lemma AddToolWellFormed(req: AddToolRequest)
    requires Free(req.name, '"') && Bare(req.kind) && Free(req.description.GetOr(""), '"')
    ensures WellFormed(AddToolCommand(req))
  {
    var ps := AddToolParams(req);
    AddToolKeyWords();
    IntTextBare(req.id);
    IntTextBare(req.maxRpm.GetOr(0));
    assert Bare("ADD_TOOL");
    forall k | 0 <= k < |ps|
      ensures WellFormedParam(ps[k])
    {
      if k > 0 {
        KeyParam(ps[k].key, ps[k].value, ps[k].quoted);
      }
    }
  }

  lemma AddToolKeysDistinct()
    ensures forall i, j | 0 <= i < j < |AddToolKeys| :: AddToolKeys[i] != AddToolKeys[j]
  {
    AddToolKeysDistinctFront();
    AddToolKeysDistinctBack();
    AddToolKeysDistinctAcross();
  }

  lemma AddToolKeysDistinctFront()
    ensures forall i, j | 0 <= i < j < 7 :: AddToolKeys[i] != AddToolKeys[j]
  {
  }

  lemma AddToolKeysDistinctBack()
    ensures forall i, j | 7 <= i < j < |AddToolKeys| :: AddToolKeys[i] != AddToolKeys[j]
  {
  }

  lemma AddToolKeysDistinctAcross()
    ensures forall i, j | 0 <= i < 7 <= j < |AddToolKeys| :: AddToolKeys[i] != AddToolKeys[j]
  {
  }

  /** Every key after ID is an upper-case word. */
  lemma AddToolKeyWords()
    ensures forall k | 1 <= k < |AddToolKeys| :: KeyWord(AddToolKeys[k])
  {
    AddToolKeyWordsFront();
    AddToolKeyWordsBack();
  }

  lemma AddToolKeyWordsFront()
    ensures forall k | 1 <= k < 7 :: KeyWord(AddToolKeys[k])
  {
  }

  lemma AddToolKeyWordsBack()
    ensures forall k | 7 <= k < |AddToolKeys| :: KeyWord(AddToolKeys[k])
  {
  }

  /** POST /server/tools/add: the command text is built piece by piece. */
  method HandleAddTool(req: AddToolRequest, accepted: bool) returns (reply: Reply, sent: seq<string>)
    ensures sent == [Render(AddToolCommand(req))]
    ensures reply == if accepted then Done("Tool " + IntText(req.id) + " added successfully") else Raised
  {
    var fluteLength := req.fluteLength.GetOr("0.0");
    var offsetX := req.offsetX.GetOr("0.0");
    var offsetY := req.offsetY.GetOr("0.0");
    var offsetZ := req.offsetZ.GetOr("0.0");
    var maxRpm := req.maxRpm.GetOr(0);
    var feedrate := req.feedrate.GetOr("0.0");
    var plungeRate := req.plungeRate.GetOr("0.0");
    var angle := req.angle.GetOr("0.0");
    var description := req.description.GetOr("");
    // `text` is the command text written so far, without the trailing blank.
    var gcode := "ADD_TOOL ID=" + IntText(req.id) + " NAME=\"" + req.name + "\" TYPE=" + req.kind + " ";
    AddIdentity(req, gcode);
    ghost var text := Render(Command("ADD_TOOL", IdentityParams(req)));
    AddDimensions(req, text, gcode);
    gcode := gcode + "DIAMETER=" + req.diameter + " LENGTH=" + req.length + " ";
    text := text + RenderParams(DimensionParams(req));
    AddFlute(req, text, gcode, fluteLength);
    gcode := gcode + "FLUTE_LENGTH=" + fluteLength + " ";
    text := text + RenderParams(FluteParams(req));
    AddOffsets(req, text, gcode, offsetX, offsetY, offsetZ);
    gcode := gcode + "OFFSET_X=" + offsetX + " " + "OFFSET_Y=" + offsetY + " " + "OFFSET_Z=" + offsetZ + " ";
    text := text + RenderParams(OffsetParams(req));
    AddFeeds(req, text, gcode, IntText(maxRpm), feedrate, plungeRate);
    gcode := gcode + "MAX_RPM=" + IntText(maxRpm) + " " + "FEEDRATE=" + feedrate + " " + "PLUNGE_RATE=" + plungeRate + " ";
    text := text + RenderParams(FeedParams(req));
    AddTail(req, text, gcode, angle, description);
    gcode := gcode + "ANGLE=" + angle + " DESCRIPTION=\"" + description + "\"";
    AddToolText(req);

    sent := [gcode];
    reply := if accepted then Done("Tool " + IntText(req.id) + " added successfully") else Raised;
  }

  // The parameters of ADD_TOOL in the groups the handler writes them in.

  function IdentityParams(req: AddToolRequest): seq<Param>
  {
    [IdParam(req.id), Param("NAME", req.name, true), Param("TYPE", req.kind, false)]
  }

  function DimensionParams(req: AddToolRequest): seq<Param>
  {
    [Param("DIAMETER", req.diameter, false), Param("LENGTH", req.length, false)]
  }

  function FluteParams(req: AddToolRequest): seq<Param>
  {
    [Param("FLUTE_LENGTH", req.fluteLength.GetOr("0.0"), false)]
  }

  function OffsetParams(req: AddToolRequest): seq<Param>
  {
    [Param("OFFSET_X", req.offsetX.GetOr("0.0"), false),
     Param("OFFSET_Y", req.offsetY.GetOr("0.0"), false),
     Param("OFFSET_Z", req.offsetZ.GetOr("0.0"), false)]
  }

  function FeedParams(req: AddToolRequest): seq<Param>
  {
    [Param("MAX_RPM", IntText(req.maxRpm.GetOr(0)), false),
     Param("FEEDRATE", req.feedrate.GetOr("0.0"), false),
     Param("PLUNGE_RATE", req.plungeRate.GetOr("0.0"), false)]
  }

  function TailParams(req: AddToolRequest): seq<Param>
  {
    [Param("ANGLE", req.angle.GetOr("0.0"), false), Param("DESCRIPTION", req.description.GetOr(""), true)]
  }

  /** The ADD_TOOL text is the name followed by the text of each group in turn. */
  lemma AddToolText(req: AddToolRequest)
    ensures Render(AddToolCommand(req))
         == "ADD_TOOL" + RenderParams(IdentityParams(req)) + RenderParams(DimensionParams(req))
          + RenderParams(FluteParams(req)) + RenderParams(OffsetParams(req))
          + RenderParams(FeedParams(req)) + RenderParams(TailParams(req))
  {
    AddToolGroups(req);
    RenderSix("ADD_TOOL", IdentityParams(req), DimensionParams(req), FluteParams(req),
              OffsetParams(req), FeedParams(req), TailParams(req));
  }

  lemma RenderSix(name: string, i: seq<Param>, d: seq<Param>, f: seq<Param>, o: seq<Param>, e: seq<Param>, t: seq<Param>)
    ensures Render(Command(name, i + d + f + o + e + t))
         == name + RenderParams(i) + RenderParams(d) + RenderParams(f) + RenderParams(o) + RenderParams(e) + RenderParams(t)
  {
    RenderPushAll(name, i, d);
    RenderPushAll(name, i + d, f);
    RenderPushAll(name, i + d + f, o);
    RenderPushAll(name, i + d + f + o, e);
    RenderPushAll(name, i + d + f + o + e, t);
  }

  /** The parameters of ADD_TOOL are its groups, in order. */
  lemma AddToolGroups(req: AddToolRequest)
    ensures AddToolParams(req)
         == IdentityParams(req) + DimensionParams(req) + FluteParams(req)
          + OffsetParams(req) + FeedParams(req) + TailParams(req)
  {
    var ps := AddToolParams(req);
    assert IdentityParams(req) == ps[..3];
    assert ps[..3] + DimensionParams(req) == ps[..5];
    assert ps[..5] + FluteParams(req) == ps[..6];
    assert ps[..6] + OffsetParams(req) == ps[..9];
    assert ps[..9] + FeedParams(req) == ps[..12];
    assert ps[..12] + TailParams(req) == ps;
  }

  // Each piece of the ADD_TOOL text is the text of its group; `g` is the
  // text so far, `x` followed by one blank.

  /** One unquoted parameter written as `KEY=value` after the blank. */
  lemma BareWord(x: string, key: string, keyIs: string, value: string)
    requires keyIs == key + "="
    ensures x + " " + keyIs + value == x + RenderParam(Param(key, value, false))
  {
  }

  /** One quoted parameter written as `KEY="value"` after the blank. */
  lemma QuotedWord(x: string, key: string, keyIs: string, value: string)
    requires keyIs == key + "=\""
    ensures x + " " + keyIs + value + "\"" == x + RenderParam(Param(key, value, true))
  {
  }

  lemma AddIdentity(req: AddToolRequest, g: string)
    requires g == "ADD_TOOL ID=" + IntText(req.id) + " NAME=\"" + req.name + "\" TYPE=" + req.kind + " "
    ensures g == Render(Command("ADD_TOOL", IdentityParams(req))) + " "
  {
    var p, q, r := IdParam(req.id), Param("NAME", req.name, true), Param("TYPE", req.kind, false);
    RenderName("ADD_TOOL");
    RenderPush("ADD_TOOL", [], p);
    assert [] + [p] == [p];
    RenderPush("ADD_TOOL", [p], q);
    assert [p] + [q] == [p, q];
    RenderPush("ADD_TOOL", [p, q], r);
    assert [p, q] + [r] == [p, q, r];
    BareWord("ADD_TOOL", "ID", "ID=", IntText(req.id));
    QuotedWord(Render(Command("ADD_TOOL", [p])), "NAME", "NAME=\"", req.name);
    BareWord(Render(Command("ADD_TOOL", [p, q])), "TYPE", "TYPE=", req.kind);
    IdentityLiterals(IntText(req.id), req.name, req.kind);
  }

  /** The first line of the ADD_TOOL text cut at the blanks between parameters. */
  lemma IdentityLiterals(id: string, name: string, kind: string)
    ensures "ADD_TOOL ID=" + id + " NAME=\"" + name + "\" TYPE=" + kind + " "
         == "ADD_TOOL" + " " + "ID=" + id + " " + "NAME=\"" + name + "\"" + " " + "TYPE=" + kind + " "
  {
    assert "ADD_TOOL" + " " + "ID=" == "ADD_TOOL ID=";
    assert " " + "NAME=\"" == " NAME=\"";
    assert "\"" + " " + "TYPE=" == "\" TYPE=";
  }

  lemma AddDimensions(req: AddToolRequest, x: string, g: string)
    requires g == x + " "
    ensures g + "DIAMETER=" + req.diameter + " LENGTH=" + req.length + " "
         == x + RenderParams(DimensionParams(req)) + " "
  {
    var p, q := Param("DIAMETER", req.diameter, false), Param("LENGTH", req.length, false);
    RenderTwo(p, q);
    BareWord(x, "DIAMETER", "DIAMETER=", req.diameter);
    BareWord(x + RenderParam(p), "LENGTH", "LENGTH=", req.length);
    assert " " + "LENGTH=" == " LENGTH=";
  }

  lemma AddFlute(req: AddToolRequest, x: string, g: string, fluteLength: string)
    requires fluteLength == req.fluteLength.GetOr("0.0")
    requires g == x + " "
    ensures g + "FLUTE_LENGTH=" + fluteLength + " " == x + RenderParams(FluteParams(req)) + " "
  {
    var p := Param("FLUTE_LENGTH", fluteLength, false);
    RenderOne(p);
    BareWord(x, "FLUTE_LENGTH", "FLUTE_LENGTH=", fluteLength);
  }

  lemma AddOffsets(req: AddToolRequest, x: string, g: string, ox: string, oy: string, oz: string)
    requires ox == req.offsetX.GetOr("0.0") && oy == req.offsetY.GetOr("0.0") && oz == req.offsetZ.GetOr("0.0")
    requires g == x + " "
    ensures g + "OFFSET_X=" + ox + " " + "OFFSET_Y=" + oy + " " + "OFFSET_Z=" + oz + " "
         == x + RenderParams(OffsetParams(req)) + " "
  {
    var p, q, r := Param("OFFSET_X", ox, false), Param("OFFSET_Y", oy, false), Param("OFFSET_Z", oz, false);
    RenderThree(p, q, r);
    BareWord(x, "OFFSET_X", "OFFSET_X=", ox);
    BareWord(x + RenderParam(p), "OFFSET_Y", "OFFSET_Y=", oy);
    BareWord(x + RenderParam(p) + RenderParam(q), "OFFSET_Z", "OFFSET_Z=", oz);
  }

  lemma AddFeeds(req: AddToolRequest, x: string, g: string, rpm: string, feed: string, plunge: string)
    requires rpm == IntText(req.maxRpm.GetOr(0)) && feed == req.feedrate.GetOr("0.0")
    requires plunge == req.plungeRate.GetOr("0.0")
    requires g == x + " "
    ensures g + "MAX_RPM=" + rpm + " " + "FEEDRATE=" + feed + " " + "PLUNGE_RATE=" + plunge + " "
         == x + RenderParams(FeedParams(req)) + " "
  {
    var p, q, r := Param("MAX_RPM", rpm, false), Param("FEEDRATE", feed, false), Param("PLUNGE_RATE", plunge, false);
    RenderThree(p, q, r);
    BareWord(x, "MAX_RPM", "MAX_RPM=", rpm);
    BareWord(x + RenderParam(p), "FEEDRATE", "FEEDRATE=", feed);
    BareWord(x + RenderParam(p) + RenderParam(q), "PLUNGE_RATE", "PLUNGE_RATE=", plunge);
  }

  lemma AddTail(req: AddToolRequest, x: string, g: string, angle: string, description: string)
    requires angle == req.angle.GetOr("0.0") && description == req.description.GetOr("")
    requires g == x + " "
    ensures g + "ANGLE=" + angle + " DESCRIPTION=\"" + description + "\"" == x + RenderParams(TailParams(req))
  {
    var p, q := Param("ANGLE", angle, false), Param("DESCRIPTION", description, true);
    RenderTwo(p, q);
    BareWord(x, "ANGLE", "ANGLE=", angle);
    var y := x + RenderParam(p);
    QuotedWord(y, "DESCRIPTION", "DESCRIPTION=\"", description);
    BlankBefore(y, "DESCRIPTION=\"", " DESCRIPTION=\"");
    assert y + RenderParam(q) == x + (RenderParam(p) + RenderParam(q));
  }

  /** Text that starts with a blank, appended, is the blank then the rest. */
  lemma BlankBefore(y: string, word: string, text: string)
    requires text == " " + word
    ensures y + text == y + " " + word
  {
  }

  // ---------------------------------------------------------------- update

  datatype Kind = StrField | FloatField | IntField

  /** A row of the update parameter table: request field, command key, type. */
  datatype Field = Field(name: string, key: string, kind: Kind)

  const UpdateTable: seq<Field> := [
    Field("name", "NAME", StrField),
    Field("type", "TYPE", StrField),
    Field("diameter", "DIAMETER", FloatField),
    Field("length", "LENGTH", FloatField),
    Field("flute_length", "FLUTE_LENGTH", FloatField),
    Field("offset_x", "OFFSET_X", FloatField),
    Field("offset_y", "OFFSET_Y", FloatField),
    Field("offset_z", "OFFSET_Z", FloatField),
    Field("max_rpm", "MAX_RPM", IntField),
    Field("feedrate", "FEEDRATE", FloatField),
    Field("plunge_rate", "PLUNGE_RATE", FloatField),
    Field("angle", "ANGLE", FloatField),
    Field("description", "DESCRIPTION", StrField),
    Field("is_active", "IS_ACTIVE", IntField),
    Field("max_runtime", "MAX_RUNTIME", IntField),
    Field("max_distance", "MAX_DISTANCE", FloatField),
    Field("wear_warning_threshold", "WEAR_WARNING_THRESHOLD", IntField)
  ]

  /** A request field as the parsing layer sees it: a value of the field's
      type (carried as its text), or one that fails to parse. A field the
      request leaves out is absent from the map. */
  datatype Arg = Supplied(text: string) | Unparsable

  predicate IsSupplied(args: map<string, Arg>, f: Field)
  {
    f.name in args && args[f.name].Supplied?
  }

  /** The parameter a table row contributes: its value when supplied,
      quoted for a string field; nothing otherwise. */
  function UpdateEntry(f: Field, args: map<string, Arg>): (r: seq<Param>)
    ensures |r| <= 1
  {
    if IsSupplied(args, f) then [Patched(f, args)] else []
  }

  function Patched(f: Field, args: map<string, Arg>): Param
    requires IsSupplied(args, f)
  {
    Param(f.key, args[f.name].text, f.kind == StrField)
  }

  function UpdateParams(table: seq<Field>, args: map<string, Arg>): (ps: seq<Param>)
    ensures |ps| <= |table|
  {
    if table == [] then []
    else UpdateParams(table[..|table| - 1], args) + UpdateEntry(table[|table| - 1], args)
  }

  /** UPDATE_TOOL: the id, then the supplied fields in table order. */
  function UpdateCommand(id: int, args: map<string, Arg>): Command
  {
    Command("UPDATE_TOOL", [IdParam(id)] + UpdateParams(UpdateTable, args))
  }

  /** POST /server/tools/update: one pass over the parameter table, appending
      each supplied field and skipping absent or unparsable ones. */
  method HandleUpdateTool(id: int, args: map<string, Arg>, accepted: bool) returns (reply: Reply, sent: seq<string>)
    ensures sent == [Render(UpdateCommand(id, args))]
    ensures reply == if accepted then Done("Tool " + IntText(id) + " updated successfully") else Raised
  {
    var gcode := "UPDATE_TOOL ID=" + IntText(id);
    assert UpdateTable[..0] == [];
    IdCommandText("UPDATE_TOOL", id);
    assert [IdParam(id)] + [] == [IdParam(id)];
    for i := 0 to |UpdateTable|
      invariant gcode == Render(Command("UPDATE_TOOL", [IdParam(id)] + UpdateParams(UpdateTable[..i], args)))
    {
      var field := UpdateTable[i];
      UpdateParamsStep(UpdateTable, args, i, [IdParam(id)]);
      UpdateText([IdParam(id)] + UpdateParams(UpdateTable[..i], args), gcode, field, args);
      if field.name in args && args[field.name].Supplied? {
        var value := args[field.name].text;
        if field.kind == StrField {
          gcode := gcode + " " + field.key + "=" + "\"" + value + "\"";
        } else {
          gcode := gcode + " " + field.key + "=" + value;
        }
      }
    }
    assert UpdateTable[..|UpdateTable|] == UpdateTable;
    sent := [gcode];
    reply := if accepted then Done("Tool " + IntText(id) + " updated successfully") else Raised;
  }

  /** The text one row appends to the command. */
  lemma UpdateText(before: seq<Param>, g: string, f: Field, args: map<string, Arg>)
    requires g == Render(Command("UPDATE_TOOL", before))
    ensures IsSupplied(args, f) && f.kind == StrField ==>
              g + " " + f.key + "=" + "\"" + args[f.name].text + "\"" == Render(Command("UPDATE_TOOL", before + UpdateEntry(f, args)))
    ensures IsSupplied(args, f) && f.kind != StrField ==>
              g + " " + f.key + "=" + args[f.name].text == Render(Command("UPDATE_TOOL", before + UpdateEntry(f, args)))
    ensures !IsSupplied(args, f) ==> g == Render(Command("UPDATE_TOOL", before + UpdateEntry(f, args)))
  {
    if IsSupplied(args, f) {
      RenderPush("UPDATE_TOOL", before, Param(f.key, args[f.name].text, f.kind == StrField));
    } else {
      assert before + UpdateEntry(f, args) == before;
    }
  }

  /** One more row of the table, as the loop takes it. */
  lemma UpdateParamsStep(table: seq<Field>, args: map<string, Arg>, i: nat, head: seq<Param>)
    requires i < |table|
    ensures head + UpdateParams(table[..i + 1], args) == head + UpdateParams(table[..i], args) + UpdateEntry(table[i], args)
  {
    assert table[..i + 1][..i] == table[..i];
  }

  predicate DistinctKeys(table: seq<Field>)
  {
    forall i, j | 0 <= i < j < |table| :: table[i].key != table[j].key
  }

  /** The rows the request supplies, in table order. */
  function SuppliedRows(table: seq<Field>, args: map<string, Arg>): (rows: seq<Field>)
    ensures forall k | 0 <= k < |rows| :: IsSupplied(args, rows[k])
    ensures forall f | f in table && IsSupplied(args, f) :: f in rows
    ensures forall f | f in rows :: f in table
  {
    if table == [] then []
    else (if IsSupplied(args, table[0]) then [table[0]] else []) + SuppliedRows(table[1..], args)
  }

  lemma {:induction false} SuppliedRowsAppend(a: seq<Field>, b: seq<Field>, args: map<string, Arg>)
    ensures SuppliedRows(a + b, args) == SuppliedRows(a, args) + SuppliedRows(b, args)
  {
    if a == [] {
      assert a + b == b;
    } else {
      assert (a + b)[1..] == a[1..] + b;
      SuppliedRowsAppend(a[1..], b, args);
    }
  }

  /** A request that supplies nothing sends just the id. */
  lemma {:induction false} UpdateNothing(table: seq<Field>, args: map<string, Arg>)
    requires forall k | 0 <= k < |table| :: !IsSupplied(args, table[k])
    ensures UpdateParams(table, args) == []
  {
    if table != [] {
      UpdateNothing(table[..|table| - 1], args);
    }
  }

  lemma UpdateIdOnly(id: int, args: map<string, Arg>)
    requires forall k | 0 <= k < |UpdateTable| :: !IsSupplied(args, UpdateTable[k])
    ensures Render(UpdateCommand(id, args)) == "UPDATE_TOOL ID=" + IntText(id)
  {
    UpdateNothing(UpdateTable, args);
    assert [IdParam(id)] + [] == [IdParam(id)];
    assert UpdateCommand(id, args) == Command("UPDATE_TOOL", [IdParam(id)]);
    IdCommandText("UPDATE_TOOL", id);
    assert "UPDATE_TOOL" + " ID=" == "UPDATE_TOOL ID=";
  }

  /** A key outside the table never appears in the patch. */
  lemma {:induction false} UpdateParamsAbsent(table: seq<Field>, args: map<string, Arg>, key: string)
    requires forall k | 0 <= k < |table| :: table[k].key != key
    ensures Lookup(UpdateParams(table, args), key) == None
  {
    if table != [] {
      UpdateParamsAbsent(table[..|table| - 1], args, key);
    }
  }

  /** Patch semantics: the command carries a table field exactly when the
      request supplies it, with the supplied value. */
  lemma {:induction false} UpdateParamsLookup(table: seq<Field>, args: map<string, Arg>, k: nat)
    requires DistinctKeys(table) && k < |table|
    ensures Lookup(UpdateParams(table, args), table[k].key)
         == if IsSupplied(args, table[k]) then Some(Param(table[k].key, args[table[k].name].text, table[k].kind == StrField))
            else None
    decreases |table|
  {
    var init := table[..|table| - 1];
    var last := table[|table| - 1];
    var ps := UpdateParams(init, args);
    if k == |table| - 1 {
      UpdateParamsAbsent(init, args, last.key);
      if !IsSupplied(args, last) {
        assert UpdateParams(table, args) == ps;
      }
    } else {
      UpdateParamsLookup(init, args, k);
      if IsSupplied(args, last) {
        assert (ps + UpdateEntry(last, args))[..|ps|] == ps;
      } else {
        assert UpdateParams(table, args) == ps;
      }
    }
  }

  /** A parameter in front does not shadow a later one with another key. */
  lemma {:induction false} LookupCons(q: Param, ps: seq<Param>, key: string)
    ensures Lookup([q] + ps, key)
         == if Lookup(ps, key).Some? then Lookup(ps, key) else if q.key == key then Some(q) else None
    decreases |ps|
  {
    if ps == [] {
      assert [q] + ps == [q];
      assert [q][..0] == [];
    } else {
      assert ([q] + ps)[..|ps|] == [q] + ps[..|ps| - 1];
      LookupCons(q, ps[..|ps| - 1], key);
    }
  }

  /** The command read as a patch: the id, and each table field present with
      its value exactly when the request supplies it. */
  lemma UpdatePatch(id: int, args: map<string, Arg>, k: nat)
    requires k < |UpdateTable|
    ensures Lookup(UpdateCommand(id, args).params, "ID") == Some(IdParam(id))
    ensures Lookup(UpdateCommand(id, args).params, UpdateTable[k].key)
         == if IsSupplied(args, UpdateTable[k])
            then Some(Param(UpdateTable[k].key, args[UpdateTable[k].name].text, UpdateTable[k].kind == StrField))
            else None
    ensures forall key | key != "ID" && (forall j | 0 <= j < |UpdateTable| :: UpdateTable[j].key != key) ::
              Lookup(UpdateCommand(id, args).params, key) == None
  {
    var ps := UpdateParams(UpdateTable, args);
    UpdateTableKeys();
    UpdateParamsAbsent(UpdateTable, args, "ID");
    LookupCons(IdParam(id), ps, "ID");
    UpdateParamsLookup(UpdateTable, args, k);
    LookupCons(IdParam(id), ps, UpdateTable[k].key);
    forall key | key != "ID" && (forall j | 0 <= j < |UpdateTable| :: UpdateTable[j].key != key)
      ensures Lookup(UpdateCommand(id, args).params, key) == None
    {
      UpdateParamsAbsent(UpdateTable, args, key);
      LookupCons(IdParam(id), ps, key);
    }
  }

  /** The patch carries one parameter per supplied row, in table order. */
  lemma {:induction false} UpdateOrder(table: seq<Field>, args: map<string, Arg>)
    ensures |UpdateParams(table, args)| == |SuppliedRows(table, args)|
    ensures forall k | 0 <= k < |SuppliedRows(table, args)| ::
              UpdateParams(table, args)[k] == Patched(SuppliedRows(table, args)[k], args)
  {
    if table != [] {
      var init, last := table[..|table| - 1], table[|table| - 1];
      UpdateOrder(init, args);
      assert table == init + [last];
      SuppliedRowsAppend(init, [last], args);
      assert [last][1..] == [];
    }
  }

  /** With every field supplied the parameters follow the whole table. */
  lemma UpdateAllSupplied(table: seq<Field>, args: map<string, Arg>)
    requires forall k | 0 <= k < |table| :: IsSupplied(args, table[k])
    ensures SuppliedRows(table, args) == table
    ensures |UpdateParams(table, args)| == |table|
    ensures forall k | 0 <= k < |table| :: UpdateParams(table, args)[k].key == table[k].key
  {
    SuppliedAll(table, args);
    UpdateOrder(table, args);
  }

  lemma {:induction false} SuppliedAll(table: seq<Field>, args: map<string, Arg>)
    requires forall k | 0 <= k < |table| :: IsSupplied(args, table[k])
    ensures SuppliedRows(table, args) == table
  {
    if table != [] {
      assert forall k | 0 <= k < |table[1..]| :: table[1..][k] == table[k + 1];
      SuppliedAll(table[1..], args);
      assert IsSupplied(args, table[0]);
      assert [table[0]] + table[1..] == table;
    }
  }

  predicate WellFormedArgs(table: seq<Field>, args: map<string, Arg>)
  {
    forall k | 0 <= k < |table| && IsSupplied(args, table[k]) ::
      if table[k].kind == StrField then Free(args[table[k].name].text, '"') else Bare(args[table[k].name].text)
  }

  lemma {:induction false} UpdateParamsWellFormed(table: seq<Field>, args: map<string, Arg>)
    requires forall k | 0 <= k < |table| :: Bare(table[k].key) && Free(table[k].key, '=')
    requires WellFormedArgs(table, args)
    ensures forall p | p in UpdateParams(table, args) :: WellFormedParam(p)
  {
    if table != [] {
      UpdateParamsWellFormed(table[..|table| - 1], args);
    }
  }

  /** The sent text reads back as the same patch, given values that the
      unescaped syntax can carry. */
  lemma UpdateRoundTrip(id: int, args: map<string, Arg>)
    requires WellFormedArgs(UpdateTable, args)
    ensures Parse(Render(UpdateCommand(id, args))) == Some(UpdateCommand(id, args))
  {
    UpdateCommandWellFormed(id, args);
    ParseRender(UpdateCommand(id, args));
  }

  lemma UpdateCommandWellFormed(id: int, args: map<string, Arg>)
    requires WellFormedArgs(UpdateTable, args)
    ensures WellFormed(UpdateCommand(id, args))
  {
    UpdateTableKeys();
    UpdateParamsWellFormed(UpdateTable, args);
    IntTextBare(id);
    var c := UpdateCommand(id, args);
    assert forall p | p in c.params :: p == IdParam(id) || p in UpdateParams(UpdateTable, args);
  }

  lemma UpdateTableKeys()
    ensures DistinctKeys(UpdateTable)
    ensures forall k | 0 <= k < |UpdateTable| :: KeyWord(UpdateTable[k].key)
    ensures forall k | 0 <= k < |UpdateTable| :: UpdateTable[k].key != "ID"
    ensures forall k | 0 <= k < |UpdateTable| :: Bare(UpdateTable[k].key) && Free(UpdateTable[k].key, '=')
  {
    UpdateTableDistinct();
    UpdateTableWordsFront();
    UpdateTableWordsBack();
    UpdateTableBare();
  }

  lemma UpdateTableDistinct()
    ensures DistinctKeys(UpdateTable)
  {
    UpdateTableDistinctFront();
    UpdateTableDistinctBack();
    UpdateTableDistinctAcross();
  }

  lemma UpdateTableDistinctFront()
    ensures forall i, j | 0 <= i < j < 9 :: UpdateTable[i].key != UpdateTable[j].key
  {
  }

  lemma UpdateTableDistinctBack()
    ensures forall i, j | 9 <= i < j < |UpdateTable| :: UpdateTable[i].key != UpdateTable[j].key
  {
  }

  lemma UpdateTableDistinctAcross()
    ensures forall i, j | 0 <= i < 9 <= j < |UpdateTable| :: UpdateTable[i].key != UpdateTable[j].key
  {
  }

  lemma UpdateTableBare()
    ensures forall k | 0 <= k < |UpdateTable| :: UpdateTable[k].key != "ID"
    ensures forall k | 0 <= k < |UpdateTable| :: Bare(UpdateTable[k].key) && Free(UpdateTable[k].key, '=')
  {
    UpdateTableWordsFront();
    UpdateTableWordsBack();
    forall k | 0 <= k < |UpdateTable|
      ensures UpdateTable[k].key != "ID"
      ensures Bare(UpdateTable[k].key) && Free(UpdateTable[k].key, '=')
    {
      KeyBare(UpdateTable[k].key);
    }
  }

  lemma UpdateTableWordsFront()
    ensures forall k | 0 <= k < 9 :: KeyWord(UpdateTable[k].key)
  {
  }

  lemma UpdateTableWordsBack()
    ensures forall k | 9 <= k < |UpdateTable| :: KeyWord(UpdateTable[k].key)
  {
    UpdateTableWordsMiddle();
    UpdateTableWordsLast();
  }

  lemma UpdateTableWordsMiddle()
    ensures forall k | 9 <= k < 13 :: KeyWord(UpdateTable[k].key)
  {
  }

  lemma UpdateTableWordsLast()
    ensures forall k | 13 <= k < |UpdateTable| :: KeyWord(UpdateTable[k].key)
  {
  }

  /** Command keys are upper-case words. */
  predicate KeyWord(key: string)
  {
    |key| > 2 && forall i | 0 <= i < |key| :: 'A' <= key[i] <= 'Z' || key[i] == '_'
  }

  lemma KeyBare(key: string)
    requires KeyWord(key)
    ensures key != "ID" && Bare(key) && Free(key, '=')
  {
  }

  // ---------------------------------------------------------------- delete, select

  /** DELETE /server/tools/delete. */
  function HandleDeleteTool(id: int, accepted: bool): (r: Handled<Reply>)
    ensures r.sent == ["REMOVE_TOOL ID=" + IntText(id)]
    ensures r.reply == if accepted then Done("Tool " + IntText(id) + " deleted successfully") else Raised
  {
    IdCommandText("REMOVE_TOOL", id);
    assert "REMOVE_TOOL" + " ID=" == "REMOVE_TOOL ID=";
    Sent(Command("REMOVE_TOOL", [IdParam(id)]), accepted, Done("Tool " + IntText(id) + " deleted successfully"))
  }

  /** POST /server/tools/select: `after` is the tool database status read
      back once the SELECT_TOOL command has returned. */
  function HandleSelectTool(id: int, accepted: bool, after: ToolDb): (r: Handled<Reply>)
    ensures r.sent == ["SELECT_TOOL ID=" + IntText(id)]
    ensures accepted ==> r.reply == Selected("Tool " + IntText(id) + " selected", after.current)
    ensures !accepted ==> r.reply == Raised
  {
    IdCommandText("SELECT_TOOL", id);
    assert "SELECT_TOOL" + " ID=" == "SELECT_TOOL ID=";
    Sent(Command("SELECT_TOOL", [IdParam(id)]), accepted, Selected("Tool " + IntText(id) + " selected", after.current))
  }

  /** An id command reads back with its id. */
  lemma IdCommandRoundTrip(name: string, id: int)
    requires Bare(name)
    ensures Parse(name + " ID=" + IntText(id)) == Some(Command(name, [Param("ID", IntText(id), false)]))
    ensures ParseInt(IntText(id)) == id
  {
    IdCommandText(name, id);
    IntTextBare(id);
    ParseRender(Command(name, [IdParam(id)]));
    IntTextRoundTrip(id);
  }

  // ---------------------------------------------------------------- info

  /** The position of the first tool with this id, or |tools| when none has it. */
  function FirstWithId(tools: seq<Tool>, id: int): (k: nat)
    ensures k <= |tools|
    ensures k < |tools| ==> tools[k].id == id
    ensures forall j | 0 <= j < k :: tools[j].id != id
  {
    if tools == [] then 0
    else if tools[0].id == id then 0
    else 1 + FirstWithId(tools[1..], id)
  }

  function FindById(tools: seq<Tool>, id: int): (r: Option<Tool>)
  {
    var k := FirstWithId(tools, id);
    if k < |tools| then Some(tools[k]) else None
  }

  /** The lookup finds a tool exactly when one has the id, and then the first. */
  lemma FindByIdSpec(tools: seq<Tool>, id: int)
    ensures FindById(tools, id).None? <==> forall t | t in tools :: t.id != id
    ensures FindById(tools, id).Some? ==>
              exists k | 0 <= k < |tools| :: tools[k] == FindById(tools, id).value && tools[k].id == id
                && forall j | 0 <= j < k :: tools[j].id != id
  {
    var k := FirstWithId(tools, id);
    if k == |tools| {
      assert forall t | t in tools :: t.id != id;
    }
  }

  /** Earlier tools shadow later ones with the same id. */
  lemma {:induction false} FindByIdAppend(a: seq<Tool>, b: seq<Tool>, id: int)
    ensures FindById(a + b, id) == if FindById(a, id).Some? then FindById(a, id) else FindById(b, id)
  {
    if a == [] {
      assert a + b == b;
    } else {
      assert (a + b)[1..] == a[1..] + b;
      FindByIdAppend(a[1..], b, id);
    }
  }

  function InfoCommand(id: Option<int>): Command
  {
    if id.Some? && id.value != 0 then Command("TOOL_INFO", [IdParam(id.value)]) else Command("TOOL_INFO", [])
  }

  /** GET /server/tools/info: a non-zero id looks the tool up in `db` (the
      status read after the command), otherwise the current tool answers. */
  function HandleToolInfo(id: Option<int>, accepted: bool, db: ToolDb): (r: Handled<Reply>)
    ensures id.Some? && id.value != 0 ==> r.sent == ["TOOL_INFO ID=" + IntText(id.value)]
    ensures id.None? || id.value == 0 ==> r.sent == ["TOOL_INFO"]
    ensures !accepted ==> r.reply == Raised
    ensures accepted && id.Some? && id.value != 0 ==>
              (r.reply == NotFound <==> forall t | t in db.tools :: t.id != id.value)
              && (r.reply.Info? ==> r.reply.tool in db.tools && r.reply.tool.id == id.value)
    ensures accepted && id.Some? && id.value != 0 ==>
              r.reply == if FirstWithId(db.tools, id.value) < |db.tools|
                         then Info(db.tools[FirstWithId(db.tools, id.value)]) else NotFound
    ensures accepted && (id.None? || id.value == 0) ==>
              r.reply == if db.current.Some? then Info(db.current.value) else NotFound
  {
    if id.Some? && id.value != 0 then
      IdCommandText("TOOL_INFO", id.value);
      assert "TOOL_INFO" + " ID=" == "TOOL_INFO ID=";
      FindByIdSpec(db.tools, id.value);
      var tool := FindById(db.tools, id.value);
      Sent(InfoCommand(id), accepted, if tool.Some? then Info(tool.value) else NotFound)
    else
      RenderName("TOOL_INFO");
      var tool := db.current;
      Sent(InfoCommand(id), accepted, if tool.Some? then Info(tool.value) else NotFound)
  }

  /** Both forms of TOOL_INFO read back as the command that was meant. */
  lemma InfoRoundTrip(id: Option<int>, accepted: bool, db: ToolDb)
    ensures Parse(HandleToolInfo(id, accepted, db).sent[0]) == Some(InfoCommand(id))
  {
    if id.Some? && id.value != 0 {
      IntTextBare(id.value);
    }
    assert Bare("TOOL_INFO");
    ParseRender(InfoCommand(id));
  }

  // ---------------------------------------------------------------- stats

  /** A record without `is_active` counts as active. */
  predicate IsActive(t: Tool)
  {
    t.isActive.GetOr(true)
  }

  function Runtime(t: Tool): real
  {
    t.totalRuntime.GetOr(0.0)
  }

  function Distance(t: Tool): real
  {
    t.totalDistance.GetOr(0.0)
  }

  function ActiveTools(tools: seq<Tool>): (r: seq<Tool>)
    ensures forall t | t in r :: t in tools && IsActive(t)
    ensures forall t | t in tools && IsActive(t) :: t in r
  {
    if tools == [] then [] else (if IsActive(tools[0]) then [tools[0]] else []) + ActiveTools(tools[1..])
  }

  function InactiveTools(tools: seq<Tool>): (r: seq<Tool>)
    ensures forall t | t in r :: t in tools && !IsActive(t)
    ensures forall t | t in tools && !IsActive(t) :: t in r
  {
    if tools == [] then [] else (if IsActive(tools[0]) then [] else [tools[0]]) + InactiveTools(tools[1..])
  }

  /** Every tool is counted once, as active or as inactive. */
  lemma {:induction false} ActiveSplit(tools: seq<Tool>)
    ensures |ActiveTools(tools)| + |InactiveTools(tools)| == |tools|
  {
    if tools != [] {
      ActiveSplit(tools[1..]);
    }
  }

  /** The filters keep order and multiplicity: filtering a concatenation
      concatenates the filtered parts. */
  lemma {:induction false} ActiveToolsAppend(a: seq<Tool>, b: seq<Tool>)
    ensures ActiveTools(a + b) == ActiveTools(a) + ActiveTools(b)
  {
    if a == [] {
      assert a + b == b;
    } else {
      assert (a + b)[1..] == a[1..] + b;
      ActiveToolsAppend(a[1..], b);
    }
  }

  lemma {:induction false} InactiveToolsAppend(a: seq<Tool>, b: seq<Tool>)
    ensures InactiveTools(a + b) == InactiveTools(a) + InactiveTools(b)
  {
    if a == [] {
      assert a + b == b;
    } else {
      assert (a + b)[1..] == a[1..] + b;
      InactiveToolsAppend(a[1..], b);
    }
  }

  function RuntimeSum(tools: seq<Tool>): real
  {
    if tools == [] then 0.0 else Runtime(tools[0]) + RuntimeSum(tools[1..])
  }

  function DistanceSum(tools: seq<Tool>): real
  {
    if tools == [] then 0.0 else Distance(tools[0]) + DistanceSum(tools[1..])
  }

  lemma {:induction false} RuntimeSumAppend(a: seq<Tool>, b: seq<Tool>)
    ensures RuntimeSum(a + b) == RuntimeSum(a) + RuntimeSum(b)
  {
    if a == [] {
      assert a + b == b;
    } else {
      assert (a + b)[1..] == a[1..] + b;
      RuntimeSumAppend(a[1..], b);
    }
  }

  lemma {:induction false} DistanceSumAppend(a: seq<Tool>, b: seq<Tool>)
    ensures DistanceSum(a + b) == DistanceSum(a) + DistanceSum(b)
  {
    if a == [] {
      assert a + b == b;
    } else {
      assert (a + b)[1..] == a[1..] + b;
      DistanceSumAppend(a[1..], b);
    }
  }

  /** Python's `max(tools, key=runtime)`: a later tool replaces the best so
      far only when its runtime is strictly larger. */
  function MostUsedIndex(tools: seq<Tool>): (r: nat)
    requires |tools| > 0
    ensures r < |tools|
    ensures forall k | 0 <= k < |tools| :: Runtime(tools[k]) <= Runtime(tools[r])
    ensures forall k | 0 <= k < r :: Runtime(tools[k]) < Runtime(tools[r])
  {
    if |tools| == 1 then 0
    else
      var r := MostUsedIndex(tools[..|tools| - 1]);
      assert forall k | 0 <= k < |tools| - 1 :: tools[k] == tools[..|tools| - 1][k];
      if Runtime(tools[|tools| - 1]) > Runtime(tools[r]) then |tools| - 1 else r
  }

  function MostUsed(tools: seq<Tool>): Option<Tool>
  {
    if tools == [] then None else Some(tools[MostUsedIndex(tools)])
  }

  /** The most used tool is the first one with the largest runtime, and no
      other position has that description. */
  lemma MostUsedIsFirstMaximal(tools: seq<Tool>, k: nat)
    requires k < |tools|
    requires forall j | 0 <= j < |tools| :: Runtime(tools[j]) <= Runtime(tools[k])
    requires forall j | 0 <= j < k :: Runtime(tools[j]) < Runtime(tools[k])
    ensures MostUsedIndex(tools) == k
  {
  }

  /** No tool's runtime exceeds the most used one's, so the total is at most
      the tool count times that runtime. */
  lemma {:induction false} RuntimeSumBound(tools: seq<Tool>, m: real)
    requires forall k | 0 <= k < |tools| :: Runtime(tools[k]) <= m
    ensures RuntimeSum(tools) <= |tools| as real * m
  {
    if tools != [] {
      assert forall k | 0 <= k < |tools| - 1 :: tools[1..][k] == tools[k + 1];
      RuntimeSumBound(tools[1..], m);
    }
  }

  lemma MostUsedBound(tools: seq<Tool>, m: real)
    requires MostUsed(tools).Some? && m == Runtime(MostUsed(tools).value)
    ensures RuntimeSum(tools) <= |tools| as real * m
  {
    RuntimeSumBound(tools, m);
  }

  /** GET /server/tools/stats over the listed tools. */
  function HandleToolStats(db: ToolDb): (r: Reply)
    ensures r.Stats? && r.toolCount == |db.tools| == r.activeTools + r.inactiveTools
    ensures r.activeTools == |ActiveTools(db.tools)| && r.inactiveTools == |InactiveTools(db.tools)|
    ensures r.totalRuntime == RuntimeSum(db.tools) && r.totalDistance == DistanceSum(db.tools)
    ensures r.mostUsedTool.None? <==> db.tools == []
    ensures r.mostUsedTool.Some? ==>
              (r.mostUsedTool.value in db.tools
               && forall t | t in db.tools :: Runtime(t) <= Runtime(r.mostUsedTool.value))
    ensures db.tools != [] ==> r.mostUsedTool == Some(db.tools[MostUsedIndex(db.tools)])
  {
    ActiveSplit(db.tools);
    Stats(|db.tools|, |ActiveTools(db.tools)|, |InactiveTools(db.tools)|,
          RuntimeSum(db.tools), DistanceSum(db.tools), MostUsed(db.tools))
  }

  // ---------------------------------------------------------------- monitoring, export, import

  function HandleStartMonitoring(accepted: bool): (r: Handled<Reply>)
    ensures r.sent == ["START_TOOL_MONITORING"]
    ensures r.reply == if accepted then Done("Tool monitoring started") else Raised
  {
    RenderName("START_TOOL_MONITORING");
    Sent(Command("START_TOOL_MONITORING", []), accepted, Done("Tool monitoring started"))
  }

  function HandleStopMonitoring(accepted: bool): (r: Handled<Reply>)
    ensures r.sent == ["STOP_TOOL_MONITORING"]
    ensures r.reply == if accepted then Done("Tool monitoring stopped") else Raised
  {
    RenderName("STOP_TOOL_MONITORING");
    Sent(Command("STOP_TOOL_MONITORING", []), accepted, Done("Tool monitoring stopped"))
  }

  const DefaultExport: string := "tools_export.json"
  const ExportDir: string := "~/printer_data/tools/"

  function ExportCommand(filename: string): Command
  {
    Command("EXPORT_TOOLS", [Param("FILENAME", filename, true)])
  }

  /** GET /server/tools/export: the reported path is the export directory
      followed by the file name that was sent. */
  function HandleExportTools(filename: Option<string>, accepted: bool): (r: Handled<Reply>)
    ensures r.sent == [Render(ExportCommand(filename.GetOr(DefaultExport)))]
    ensures accepted ==>
              (r.reply.Exported? && r.reply.filename == filename.GetOr(DefaultExport)
               && r.reply.path == ExportDir + r.reply.filename)
    ensures !accepted ==> r.reply == Raised
  {
    var f := filename.GetOr(DefaultExport);
    Sent(ExportCommand(f), accepted, Exported(f, ExportDir + f))
  }

  function ImportCommand(filename: string, overwrite: bool): Command
  {
    Command("IMPORT_TOOLS", [Param("FILENAME", filename, true), Param("OVERWRITE", if overwrite then "1" else "0", false)])
  }

  /** POST /server/tools/import; `overwrite` defaults to false. */
  function HandleImportTools(filename: string, overwrite: Option<bool>, accepted: bool): (r: Handled<Reply>)
    ensures r.sent == [Render(ImportCommand(filename, overwrite.GetOr(false)))]
    ensures r.reply == if accepted then Done("Tools imported successfully") else Raised
  {
    Sent(ImportCommand(filename, overwrite.GetOr(false)), accepted, Done("Tools imported successfully"))
  }

  /** The export command reads back with its file name, which the reply's
      path ends with. */
  lemma ExportRoundTrip(filename: Option<string>)
    requires Free(filename.GetOr(DefaultExport), '"')
    ensures Parse(HandleExportTools(filename, true).sent[0]) == Some(ExportCommand(filename.GetOr(DefaultExport)))
    ensures var f := filename.GetOr(DefaultExport); var path := HandleExportTools(filename, true).reply.path;
              |f| <= |path| && path[|path| - |f|..] == f
  {
    var f := filename.GetOr(DefaultExport);
    ExportWellFormed(f);
    ParseRender(ExportCommand(f));
    var path := ExportDir + f;
    assert path[|path| - |f|..] == f;
  }

  lemma ExportWellFormed(filename: string)
    requires Free(filename, '"')
    ensures WellFormed(ExportCommand(filename))
  {
    assert KeyWord("EXPORT_TOOLS") && KeyWord("FILENAME");
    KeyBare("EXPORT_TOOLS");
    KeyParam("FILENAME", filename, true);
  }

  /** The import command reads back, and its OVERWRITE flag is 1 exactly
      when overwrite was requested. */
  lemma ImportRoundTrip(filename: string, overwrite: Option<bool>)
    requires Free(filename, '"')
    ensures Parse(HandleImportTools(filename, overwrite, true).sent[0]) == Some(ImportCommand(filename, overwrite.GetOr(false)))
    ensures Lookup(ImportCommand(filename, overwrite.GetOr(false)).params, "OVERWRITE").value.value == "1"
            <==> overwrite == Some(true)
  {
    ImportWellFormed(filename, overwrite.GetOr(false));
    ParseRender(ImportCommand(filename, overwrite.GetOr(false)));
    ImportOverwrite(filename, overwrite.GetOr(false));
  }

  lemma ImportWellFormed(filename: string, overwrite: bool)
    requires Free(filename, '"')
    ensures WellFormed(ImportCommand(filename, overwrite))
  {
    assert KeyWord("IMPORT_TOOLS") && KeyWord("FILENAME") && KeyWord("OVERWRITE");
    KeyBare("IMPORT_TOOLS");
    KeyParam("FILENAME", filename, true);
    KeyParam("OVERWRITE", if overwrite then "1" else "0", false);
  }

  /** A parameter with an upper-case key and a value without separators is well formed. */
  lemma KeyParam(key: string, value: string, quoted: bool)
    requires KeyWord(key)
    requires if quoted then Free(value, '"') else Bare(value)
    ensures WellFormedParam(Param(key, value, quoted))
  {
    KeyBare(key);
  }

  lemma ImportOverwrite(filename: string, overwrite: bool)
    ensures Lookup(ImportCommand(filename, overwrite).params, "OVERWRITE")
         == Some(Param("OVERWRITE", if overwrite then "1" else "0", false))
  {
  }
}
