/** The `NAME KEY=value KEY="value" ...` command syntax in which the tool
    database commands are written, with its reading: `Parse` recovers a
    well-formed command from its text. */
module ExtendedCommand {
  import opened Wrappers
  import opened Text

  /** One `KEY=value` parameter; `quoted` values are written between double quotes. */
  datatype Param = Param(key: string, value: string, quoted: bool)

  datatype Command = Command(name: string, params: seq<Param>)

  function RenderParam(p: Param): string
  {
    " " + p.key + "=" + (if p.quoted then "\"" + p.value + "\"" else p.value)
  }

  function RenderParams(ps: seq<Param>): string
  {
    if ps == [] then "" else RenderParam(ps[0]) + RenderParams(ps[1..])
  }

  /** The command text: its name, then each parameter preceded by one blank. */
  function Render(c: Command): string
  {
    c.name + RenderParams(c.params)
  }

  lemma {:induction false} RenderParamsAppend(ps: seq<Param>, p: Param)
    ensures RenderParams(ps + [p]) == RenderParams(ps) + RenderParam(p)
  {
    if ps == [] {
      assert [] + [p] == [p];
    } else {
      assert (ps + [p])[1..] == ps[1..] + [p];
      RenderParamsAppend(ps[1..], p);
    }
  }

  /** The text of a concatenation of parameter lists is the concatenation of their texts. */
  lemma {:induction false} RenderParamsConcat(a: seq<Param>, b: seq<Param>)
    ensures RenderParams(a + b) == RenderParams(a) + RenderParams(b)
  {
    if a == [] {
      assert a + b == b;
    } else {
      assert (a + b)[0] == a[0];
      assert (a + b)[1..] == a[1..] + b;
      RenderParamsConcat(a[1..], b);
    }
  }

  /** Appending parameters appends their text to the command. */
  lemma RenderPushAll(name: string, ps: seq<Param>, qs: seq<Param>)
    ensures Render(Command(name, ps + qs)) == Render(Command(name, ps)) + RenderParams(qs)
  {
    RenderParamsConcat(ps, qs);
  }

  /** The text of a short parameter list, parameter by parameter. */
  lemma RenderOne(p: Param)
    ensures RenderParams([p]) == RenderParam(p)
  {
    assert [p][1..] == [];
    assert RenderParam(p) + "" == RenderParam(p);
  }

  lemma RenderTwo(p: Param, q: Param)
    ensures RenderParams([p, q]) == RenderParam(p) + RenderParam(q)
  {
    assert [p, q][1..] == [q];
    RenderOne(q);
  }

  lemma RenderThree(p: Param, q: Param, r: Param)
    ensures RenderParams([p, q, r]) == RenderParam(p) + RenderParam(q) + RenderParam(r)
  {
    assert [p, q, r][1..] == [q, r];
    RenderTwo(q, r);
  }

  /** A command without parameters is its name alone. */
  lemma RenderName(name: string)
    ensures Render(Command(name, [])) == name
  {
    assert name + "" == name;
  }

  /** Appending a parameter appends its text to the command. */
  lemma RenderPush(name: string, ps: seq<Param>, p: Param)
    ensures Render(Command(name, ps + [p])) == Render(Command(name, ps)) + RenderParam(p)
  {
    RenderParamsAppend(ps, p);
  }

  predicate WellFormedParam(p: Param)
  {
    && Bare(p.key) && Free(p.key, '=')
    && (if p.quoted then Free(p.value, '"') else Bare(p.value))
  }

  /** A command whose text reads back unambiguously. */
  predicate WellFormed(c: Command)
  {
    Bare(c.name) && forall p | p in c.params :: WellFormedParam(p)
  }

  /** Reads the value of parameter `key` at the start of `after`, quoted or
      bare, and returns the parameter with the text that follows it. */
  function ReadValue(key: string, after: string): (r: Option<(Param, string)>)
    ensures r.Some? ==> |r.value.1| < |after| + 1
  {
    if |after| > 0 && after[0] == '"' then
      var j := IndexOf(after[1..], '"');
      if j == |after| - 1 then None
      else Some((Param(key, after[1..j + 1], true), after[j + 2..]))
    else
      var j := IndexOf(after, ' ');
      Some((Param(key, after[..j], false), after[j..]))
  }

  /** Reads one ` KEY=value` parameter at the start of `s`. */
  function ReadParam(s: string): (r: Option<(Param, string)>)
    ensures r.Some? ==> |r.value.1| < |s|
  {
    if s == [] || s[0] != ' ' then None
    else
      var body := s[1..];
      var k := IndexOf(body, '=');
      if k == |body| then None else ReadValue(body[..k], body[k + 1..])
  }

  function ParseParams(s: string): Option<seq<Param>>
    decreases |s|
  {
    if s == [] then Some([])
    else
      match ReadParam(s)
      case None => None
      case Some((p, rest)) =>
        match ParseParams(rest)
        case None => None
        case Some(ps) => Some([p] + ps)
  }

  /** Reads a command text: the name up to the first blank, then the parameters. */
  function Parse(s: string): Option<Command>
  {
    var i := IndexOf(s, ' ');
    match ParseParams(s[i..])
    case None => None
    case Some(ps) => Some(Command(s[..i], ps))
  }

  lemma RenderParamsStart(ps: seq<Param>)
    ensures RenderParams(ps) == [] || RenderParams(ps)[0] == ' '
  {
  }

  /** Reading one rendered parameter in front of further parameters. */
  lemma ReadRenderedParam(p: Param, rest: string)
    requires WellFormedParam(p)
    requires rest == [] || rest[0] == ' '
    ensures ReadParam(RenderParam(p) + rest) == Some((p, rest))
  {
    if p.quoted {
      var after := "\"" + p.value + "\"" + rest;
      assert RenderParam(p) + rest == " " + p.key + "=" + after;
      ReadKey(p.key, after);
      ReadQuoted(p, rest);
    } else {
      var after := p.value + rest;
      assert RenderParam(p) + rest == " " + p.key + "=" + after;
      ReadKey(p.key, after);
      ReadBare(p, rest);
    }
  }

  lemma ReadKey(key: string, after: string)
    requires Free(key, '=')
    ensures ReadParam(" " + key + "=" + after) == ReadValue(key, after)
  {
    var body := key + ("=" + after);
    assert (" " + key + "=" + after)[1..] == body;
    IndexOfAt(key, "=" + after, '=');
    assert body[..|key|] == key;
    assert body[|key| + 1..] == after;
  }

  lemma ReadQuoted(p: Param, rest: string)
    requires p.quoted && Free(p.value, '"')
    ensures ReadValue(p.key, "\"" + p.value + "\"" + rest) == Some((p, rest))
  {
    var after := "\"" + p.value + "\"" + rest;
    assert after[1..] == p.value + ("\"" + rest);
    IndexOfAt(p.value, "\"" + rest, '"');
    assert after[1..|p.value| + 1] == p.value;
    assert after[|p.value| + 2..] == rest;
  }

  lemma ReadBare(p: Param, rest: string)
    requires !p.quoted && Bare(p.value)
    requires rest == [] || rest[0] == ' '
    ensures ReadValue(p.key, p.value + rest) == Some((p, rest))
  {
    var after := p.value + rest;
    assert |p.value| > 0 ==> after[0] == p.value[0];
    assert |p.value| == 0 ==> after == rest;
    IndexOfAt(p.value, rest, ' ');
    assert after[..|p.value|] == p.value;
    assert after[|p.value|..] == rest;
  }

  lemma {:induction false} ParseRenderParams(ps: seq<Param>)
    requires forall p | p in ps :: WellFormedParam(p)
    ensures ParseParams(RenderParams(ps)) == Some(ps)
    decreases |ps|
  {
    if ps != [] {
      assert ps[0] in ps;
      RenderParamsStart(ps[1..]);
      ParseRenderParams(ps[1..]);
      ReadRenderedParam(ps[0], RenderParams(ps[1..]));
      assert [ps[0]] + ps[1..] == ps;
    }
  }

  /** Reading a well-formed command's text gives the command back: its
      name and every parameter's key, value and quoting, in order. */
  lemma ParseRender(c: Command)
    requires WellFormed(c)
    ensures Parse(Render(c)) == Some(c)
  {
    var tail := RenderParams(c.params);
    RenderParamsStart(c.params);
    IndexOfAt(c.name, tail, ' ');
    var s := Render(c);
    assert s[..|c.name|] == c.name;
    assert s[|c.name|..] == tail;
    ParseRenderParams(c.params);
  }
}
