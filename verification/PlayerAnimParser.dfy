/** The script parser itself: the loops of crates/asset_anim/src/playeranim_parse.rs
    over the token object, which may put a token back. Each is shown to end. */
module PlayerAnimParsing {
  import opened Wrappers
  import opened AsciiNames
  import opened AtrSyntax
  import opened AtrLexer
  import opened PlayerAnimModel
  import opened PlayerAnimTheorem

  method ParseConditions(parser: AtrParser, t: Tables, aliases: Aliases) returns (r: Result<Gathered, ScriptError>)
    requires parser.Valid()
    modifies parser
    ensures parser.Valid()
    ensures match Conditions(t, aliases, NOTHING_GATHERED, old(parser.Stream()))
            case Err(e) => r == Err(e)
            case Ok((g, rest)) => r == Ok(g) && parser.Stream() == rest
  {
    var g := NOTHING_GATHERED;
    ghost var goal := Conditions(t, aliases, NOTHING_GATHERED, parser.Stream());
    while true
      invariant parser.Valid()
      invariant goal == Conditions(t, aliases, g, parser.Stream())
      decreases Size(parser.Stream())
    {
      ghost var ts := parser.Stream();
      var token := parser.Parse(false);
      if token == "" || token == "{" {
        if token == "{" {
          parser.Unget();
        }
        assert parser.Stream() == ts;
        return if g.saw then Ok(ClosedOff(g)) else Err(NoConditions);
      }
      assert parser.Stream() == AfterOnLine(ts);
      if IsPose(t, token) {
        var value := parser.Parse(false);
        g := GatherPose(g, token, value);
        assert parser.Stream() == AfterOnLine(AfterOnLine(ts));
      } else {
        g :- GatherToken(t, aliases, g, token);
      }
    }
  }

  method ParseModifiers(parser: AtrParser, t: Tables) returns (r: Result<Extras, ScriptError>)
    requires parser.Valid()
    modifies parser
    ensures parser.Valid()
    ensures match Modifiers(t, Extras(None, None), old(parser.Stream()))
            case Err(e) => r == Err(e)
            case Ok((x, rest)) => r == Ok(x) && parser.Stream() == rest
  {
    var x := Extras(None, None);
    ghost var goal := Modifiers(t, x, parser.Stream());
    while true
      invariant parser.Valid()
      invariant goal == Modifiers(t, x, parser.Stream())
      decreases Size(parser.Stream())
    {
      ghost var ts := parser.Stream();
      var extra := parser.Parse(false);
      if extra == "" {
        return Ok(x);
      }
      assert parser.Stream() == AfterOnLine(ts);
      if EqualsIgnoreCase(extra, "duration") {
        var value := parser.Parse(false);
        x := x.(duration := t.parseInt(value));
      } else if EqualsIgnoreCase(extra, "blendtime") {
        var value := parser.Parse(false);
        if t.parseInt(value).None? {
          return Err(ExpectedBlendtime);
        }
        x := x.(blend := t.parseInt(value));
      } else if EqualsIgnoreCase(extra, "sound") {
        var _ := parser.Parse(false);
      } else if IsNumberModifier(t, extra) {
        var value := parser.Parse(false);
        if !t.isFinite(value) {
          return Err(ExpectedModifier);
        }
      } else if IsBareModifier(t, extra) {
        continue;
      } else {
        parser.Unget();
        return Ok(x);
      }
      assert parser.Stream() == AfterOnLine(AfterOnLine(ts));
    }
  }

  method ParseCommands(parser: AtrParser, t: Tables, skip: bool) returns (r: Result<Listed, ScriptError>)
    requires parser.Valid()
    modifies parser
    ensures parser.Valid()
    ensures match Commands(t, skip, Listed([], 0), old(parser.Stream()))
            case Err(e) => r == Err(e)
            case Ok((l, rest)) => r == Ok(l) && parser.Stream() == rest
  {
    var l := Listed([], 0);
    ghost var goal := Commands(t, skip, l, parser.Stream());
    while true
      invariant parser.Valid()
      invariant goal == Commands(t, skip, l, parser.Stream())
      decreases Size(parser.Stream())
    {
      ghost var ts := parser.Stream();
      var token := parser.Parse(true);
      if token == "" {
        return Err(UnterminatedCommands);
      }
      if token == "}" {
        return Ok(l);
      }
      var bodyPart := IndexCi(token, t.bodyParts);
      if bodyPart.None? || bodyPart.value == 0 {
        parser.Unget();
        return Ok(l);
      }
      var anim := parser.Parse(false);
      if anim == "" {
        return Err(ExpectedAnimation);
      }
      assert parser.Stream() == AfterOnLine(ts.tail);
      var x :- ParseModifiers(parser, t);
      l :- WithCommand(t, skip, l, bodyPart.value, anim, x);
    }
  }

  method ParseItem(parser: AtrParser, t: Tables, aliases: Aliases) returns (r: Result<Read, ScriptError>)
    requires parser.Valid()
    modifies parser
    ensures parser.Valid()
    ensures match ItemAt(t, aliases, old(parser.Stream()))
            case Err(e) => r == Err(e)
            case Ok((read, rest)) => r == Ok(read) && parser.Stream() == rest
  {
    var g :- ParseConditions(parser, t, aliases);
    var brace := parser.Parse(true);
    if brace != "{" {
      parser.Unget();
      return Err(ExpectedBrace);
    }
    var l :- ParseCommands(parser, t, g.skip);
    r := Ok(Read(Item(g.skip, g.conditions, g.raw, l.commands), l.unresolved));
  }

  method ParseDefineBits(parser: AtrParser, t: Tables, aliases: Aliases, index: nat) returns (bits: Mask64)
    requires parser.Valid()
    modifies parser
    ensures parser.Valid()
    ensures (bits, parser.Stream()) == DefineBits(t, aliases, index, Mask({}, false), old(parser.Stream()))
  {
    var m := Mask({}, false);
    ghost var goal := DefineBits(t, aliases, index, m, parser.Stream());
    while true
      invariant parser.Valid()
      invariant goal == DefineBits(t, aliases, index, m, parser.Stream())
      decreases Size(parser.Stream())
    {
      ghost var ts := parser.Stream();
      var token := parser.Parse(false);
      if token == "" {
        return m.bits;
      }
      if EqualsIgnoreCase(token, "set") || IndexCi(token, PARSE_MODES).Some? {
        parser.Unget();
        return m.bits;
      }
      assert parser.Stream() == AfterOnLine(ts);
      m := WithAlias(t, aliases, index, m, token);
    }
  }

  method SkipLine(parser: AtrParser)
    requires parser.Valid()
    modifies parser
    ensures parser.Valid() && parser.Stream() == AfterLine(old(parser.Stream()))
  {
    var token := parser.Parse(false);
    while token != ""
      invariant parser.Valid()
      invariant AfterLine(old(parser.Stream())) == if token == "" then parser.Stream() else AfterLine(parser.Stream())
      decreases Size(parser.Stream()), token != ""
    {
      token := parser.Parse(false);
    }
  }

  method ParseDefine(parser: AtrParser, t: Tables, aliases: Aliases) returns (r: Result<Aliases, ScriptError>)
    requires parser.Valid()
    modifies parser
    ensures parser.Valid()
    ensures match DefineAt(t, aliases, old(parser.Stream()))
            case Err(e) => r == Err(e)
            case Ok((aliases', rest)) => r == Ok(aliases') && parser.Stream() == rest
  {
    ghost var ts := parser.Stream();
    var condition := parser.Parse(false);
    var index := IndexCi(condition, t.conditions);
    assert parser.Stream() == AfterOnLine(ts);
    if index.None? {
      if t.t5 {
        SkipLine(parser);
        return Ok(aliases);
      }
      return Err(UnknownDefine);
    }
    var alias := parser.Parse(false);
    assert parser.Stream() == AfterOnLine(AfterOnLine(ts));
    var eq := parser.Parse(false);
    if eq != "=" {
      parser.Unget();
      return Err(ExpectedEquals);
    }
    var bits := ParseDefineBits(parser, t, aliases, index.value);
    r := Ok(aliases[(index.value, Lower(alias)) := bits]);
  }

  /** One token of a block being skipped; depth follows the braces. */
  method SkipToken(parser: AtrParser, depth: int) returns (next: int, done: bool)
    requires parser.Valid()
    modifies parser
    ensures parser.Valid()
    ensures SkipBlock(depth, old(parser.Stream())) == if done then parser.Stream() else SkipBlock(next, parser.Stream())
    ensures !done ==> Size(parser.Stream()) < Size(old(parser.Stream()))
  {
    next := depth;
    var token := parser.Parse(true);
    if token == "" {
      return next, true;
    }
    if token == "{" {
      next := depth + 1;
    } else if token == "}" {
      next := depth - 1;
      return next, next <= 0;
    }
    done := false;
  }

  method SkipUnknownBlock(parser: AtrParser)
    requires parser.Valid()
    modifies parser
    ensures parser.Valid() && parser.Stream() == SkipBlock(0, old(parser.Stream()))
  {
    var depth := 0;
    ghost var goal := SkipBlock(0, parser.Stream());
    while true
      invariant parser.Valid()
      invariant goal == SkipBlock(depth, parser.Stream())
      decreases Size(parser.Stream())
    {
      var done;
      depth, done := SkipToken(parser, depth);
      if done {
        return;
      }
    }
  }

  /** An item that the main loop has already read the first token of. */
  method ParseItemAgain(parser: AtrParser, t: Tables, aliases: Aliases, ghost ts: Tokens)
    returns (r: Result<Read, ScriptError>)
    requires parser.Valid() && ts.Tok?
    requires StreamAt(parser.src, parser.lastOffset) == Tok(ts.text, false, ts.tail)
    modifies parser
    ensures parser.Valid()
    ensures match ItemAt(t, aliases, Reread(ts))
            case Err(e) => r == Err(e)
            case Ok((read, rest)) => r == Ok(read) && parser.Stream() == rest
  {
    parser.Unget();
    r := ParseItem(parser, t, aliases);
  }

  /** A turn of the main loop, after its token, inside the events. */
  method ParseEventTurn(parser: AtrParser, t: Tables, c: Cursor, token: string, ghost ts: Tokens)
    returns (r: Result<Cursor, ScriptError>)
    requires parser.Valid() && ts.Tok? && token == ts.text && parser.Stream() == ts.tail
    requires StreamAt(parser.src, parser.lastOffset) == Tok(ts.text, false, ts.tail)
    modifies parser
    ensures parser.Valid()
    ensures match EventTurn(t, c, ts)
            case Err(e) => r == Err(e)
            case Ok((c', rest)) => r == Ok(c') && parser.Stream() == rest
  {
    match c.indent
    case 0 =>
      var flushed := FlushEvent(c);
      var event := IndexCi(token, t.events);
      if event.None? {
        SkipUnknownBlock(parser);
        return Ok(flushed);
      }
      r := Ok(flushed.(event := event.value, eventItems := Some([])));
    case 1 =>
      var read :- ParseItemAgain(parser, t, c.aliases, ts);
      r := PushEventItem(c, read);
    case _ =>
      r := Err(UnexpectedToken);
  }

  /** The same inside the animations. */
  method ParseAnimTurn(parser: AtrParser, t: Tables, c: Cursor, token: string, ghost ts: Tokens)
    returns (r: Result<Cursor, ScriptError>)
    requires parser.Valid() && ts.Tok? && token == ts.text && parser.Stream() == ts.tail
    requires StreamAt(parser.src, parser.lastOffset) == Tok(ts.text, false, ts.tail)
    modifies parser
    ensures parser.Valid()
    ensures match AnimTurn(t, c, ts)
            case Err(e) => r == Err(e)
            case Ok((c', rest)) => r == Ok(c') && parser.Stream() == rest
  {
    match c.indent
    case 0 =>
      if !EqualsIgnoreCase(token, "state") {
        return Err(ExpectedState);
      }
      var name := parser.Parse(false);
      if name == "" {
        return Err(ExpectedStateType);
      }
      var state := IndexCi(name, t.states);
      r := Ok(c.(state := if state.Some? then state.value else 0));
    case 1 =>
      var flushed := FlushSlot(c);
      var movetype := IndexCi(token, t.moves);
      if movetype.None? {
        SkipUnknownBlock(parser);
        return Ok(flushed);
      }
      r := Ok(flushed.(movetype := movetype.value, items := Some([])));
    case 2 =>
      var read :- ParseItemAgain(parser, t, c.aliases, ts);
      r := PushItem(c, read);
    case _ =>
      r := Err(UnexpectedToken);
  }

  method ParseTurn(parser: AtrParser, t: Tables, c: Cursor, token: string, ghost ts: Tokens)
    returns (r: Result<Cursor, ScriptError>)
    requires parser.Valid() && ts.Tok? && token == ts.text && parser.Stream() == ts.tail
    requires StreamAt(parser.src, parser.lastOffset) == Tok(ts.text, false, ts.tail)
    modifies parser
    ensures parser.Valid()
    ensures match Turn(t, c, ts)
            case Err(e) => r == Err(e)
            case Ok((c', rest)) => r == Ok(c') && parser.Stream() == rest
  {
    var mode := IndexCi(token, PARSE_MODES);
    if mode.Some? {
      return Ok(ChangeMode(c, mode.value));
    }
    if c.mode == DEFINES {
      if EqualsIgnoreCase(token, "set") {
        var aliases :- ParseDefine(parser, t, c.aliases);
        return Ok(c.(aliases := aliases));
      }
      return Ok(c);
    }
    if c.mode != ANIMATIONS && c.mode != EVENTS {
      return Ok(c);
    }
    if token == "{" {
      return OpenBrace(c);
    }
    if token == "}" {
      return CloseBrace(c);
    }
    if c.mode == EVENTS {
      r := ParseEventTurn(parser, t, c, token, ts);
    } else {
      r := ParseAnimTurn(parser, t, c, token, ts);
    }
  }

  method ReadTypes(t: Tables, types: string) returns (aliases: Aliases)
    ensures aliases == TypeAliases(t, map[], 0, StreamAt(types, 0))
  {
    var parser := new AtrParser(types);
    aliases := map[];
    var index := 0;
    while index < 64
      invariant parser.Valid() && index <= 64
      invariant TypeAliases(t, map[], 0, StreamAt(types, 0)) == TypeAliases(t, aliases, index, parser.Stream())
    {
      var name := parser.Parse(true);
      if name == "" {
        break;
      }
      if IndexCi(name, t.values(PLAYERANIMTYPE)).Some? {
        aliases := WithType(aliases, name, index);
      }
      index := index + 1;
    }
  }

  /** The whole script, from its bytes. On success every accepted item is stored
      where it belongs, the counters are right, and every limit holds. */
  method ParsePlayerAnimScript(script: string, t: Tables, types: Option<string>)
    returns (r: Result<Script, ScriptError>)
    ensures var aliases := if types.Some? then TypeAliases(t, map[], 0, StreamAt(types.value, 0)) else map[];
            && r == ScriptFrom(t, Start(aliases), StreamAt(script, 0))
            && (r.Ok? ==> Promised(t, r.value,
                                   Accepted(t, Start(aliases), StreamAt(script, 0), false),
                                   Accepted(t, Start(aliases), StreamAt(script, 0), true)))
            && AsWritten(t, Start(aliases), StreamAt(script, 0))
  {
    var aliases := map[];
    if types.Some? {
      aliases := ReadTypes(t, types.value);
    }
    ParsedScript(t, aliases, StreamAt(script, 0));
    r := ReadScript(script, t, aliases);
  }

  /** The main loop: one turn after the other, to the end of the text. */
  method ReadScript(script: string, t: Tables, aliases: Aliases) returns (r: Result<Script, ScriptError>)
    ensures r == ScriptFrom(t, Start(aliases), StreamAt(script, 0))
  {
    var parser := new AtrParser(script);
    var c := Start(aliases);
    ghost var goal := ScriptFrom(t, c, StreamAt(script, 0));
    while true
      invariant parser.Valid()
      invariant goal == ScriptFrom(t, c, parser.Stream())
      decreases Size(parser.Stream())
    {
      ghost var ts := parser.Stream();
      var token := parser.Parse(true);
      if token == "" {
        break;
      }
      c :- ParseTurn(parser, t, c, token, ts);
    }
    r := Ok(FlushEvent(FlushSlot(c)).parsed);
  }
}
