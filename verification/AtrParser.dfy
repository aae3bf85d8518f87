/** The recursive parser itself, reading from the token object. */
module AtrParsing {
  import opened Wrappers
  import opened AsciiNames
  import opened AtrSyntax
  import opened AtrLexer

  datatype WorkAnim = WorkAnim(name: string, flags: bv16, ignore: bool)

  method ParseProperties(parser: AtrParser, ignore: bool) returns (r: Result<bv16, Error>)
    requires parser.Valid()
    modifies parser
    ensures parser.Valid()
    ensures match Properties(old(parser.Stream()), ignore, 0)
            case Err(error) => r == Err(error)
            case Ok((flags, rest)) => r == Ok(flags) && parser.Stream() == rest
  {
    var flags: bv16 := 0;
    while true
      invariant parser.Valid()
      invariant Properties(old(parser.Stream()), ignore, 0) == Properties(parser.Stream(), ignore, flags)
      decreases Size(parser.Stream())
    {
      ghost var ts := parser.Stream();
      var token := parser.Parse(false);
      if token == "" {
        return Ok(flags);
      }
      var property := PropertyOf(token);
      if property.None? || (property.value.Unsupported? && !ignore) {
        return Err(BadToken(UnknownProperty));
      }
      assert parser.Stream() == AfterOnLine(ts);
      flags := flags | Bit(property.value);
    }
  }

  method ParseAnnotation(parser: AtrParser, env: Env) returns (r: Result<string, Error>)
    requires parser.Valid()
    modifies parser
    ensures parser.Valid()
    ensures match Annotation(env, old(parser.Stream()))
            case Err(error) => r == Err(error)
            case Ok(rest) => r == Ok(OnLine(rest)) && parser.Stream() == AfterOnLine(rest)
  {
    var onLine := parser.Parse(false);
    if onLine == "[" {
      var key := parser.Parse(false);
      var equals := parser.Parse(false);
      var value := parser.Parse(false);
      var close := parser.Parse(false);
      if !EqualsIgnoreCase(key, "turn") || equals != "=" || !env.isFinite(value) || close != "]" {
        return Err(BadToken(InvalidTurn));
      }
      onLine := parser.Parse(false);
    }
    r := Ok(onLine);
  }

  /** How the line of a name ends: the name may yet turn out a leaf, or its block opens. */
  datatype NameLine = Alone(work: WorkAnim) | Opens(work: WorkAnim)

  /** How the rest of a name's line decides what the name is. */
  lemma {:induction false} ItemLine(env: Env, ctx: Context, name: string, ts: Tokens, children: seq<Anim>, ignored: nat)
    requires !Named(children, name) && Annotation(env, ts).Ok?
    ensures var spec := Item(env, ctx, name, ts, children, ignored);
            var ignore := Ignored(env, ctx, name);
            var ts1 := Annotation(env, ts).value;
            if OnLine(ts1) == "" then spec == Pending(env, ctx, name, ignore, ts1, children, ignored)
            else if IsIdentifier(OnLine(ts1)) then spec == Err(BadToken(AliasNotImplemented))
            else if OnLine(ts1) != ":" then spec == Err(BadToken(Unexpected))
            else
              match Properties(AfterOnLine(ts1), ignore, 0)
              case Err(error) => spec == Err(error)
              case Ok((flags, ts2)) =>
                spec == if ts2.Tok? && ts2.text == "{" then Block(env, ctx, name, flags, ignore, ts2.tail, children, ignored)
                        else Err(BadToken(PropertiesOnPrimitive))
  {}

  method ParseNameLine(parser: AtrParser, env: Env, ctx: Context, token: string, children: seq<Anim>,
          ghost ignored: nat)
    returns (r: Result<NameLine, Error>)
    requires parser.Valid()
    modifies parser
    ensures parser.Valid() && (r.Ok? ==> Size(parser.Stream()) <= Size(old(parser.Stream())))
    ensures var spec := Item(env, ctx, Lower(token), old(parser.Stream()), children, ignored);
            match r
            case Err(error) => spec == Err(error)
            case Ok(Alone(work)) => work.flags == 0 && LineStart(parser.Stream()) && spec == Pending(env, ctx, work.name, work.ignore, parser.Stream(), children, ignored)
            case Ok(Opens(work)) => spec == Block(env, ctx, work.name, work.flags, work.ignore, parser.Stream(), children, ignored)
  {
    var name := Lower(token);
    if Named(children, name) {
      return Err(DuplicateAnimation(name));
    }
    var ignore := !ctx.complete && name !in env.names;
    if Annotation(env, parser.Stream()).Ok? {
      ItemLine(env, ctx, name, parser.Stream(), children, ignored);
    }
    var onLine :- ParseAnnotation(parser, env);
    if onLine == "" {
      return Ok(Alone(WorkAnim(name, 0, ignore)));
    }
    if IsIdentifier(onLine) {
      return Err(BadToken(AliasNotImplemented));
    }
    if onLine != ":" {
      return Err(BadToken(Unexpected));
    }
    var flags :- ParseProperties(parser, ignore);
    var brace := parser.Parse(true);
    if brace != "{" {
      return Err(BadToken(PropertiesOnPrimitive));
    }
    r := Ok(Opens(WorkAnim(name, flags, ignore)));
  }

  method ParseBlock(parser: AtrParser, env: Env, ctx: Context, work: WorkAnim, children: seq<Anim>,
          ignored0: nat)
    returns (r: Result<seq<Anim>, Error>, ignored: nat)
    requires parser.Valid()
    modifies parser
    ensures parser.Valid()
    ensures var spec := Block(env, ctx, work.name, work.flags, work.ignore, old(parser.Stream()), children, ignored0);
            match r
            case Err(error) => spec == Err(error)
            case Ok(children') => spec == Items(env, ctx, parser.Stream(), children', ignored) && Size(parser.Stream()) < Size(old(parser.Stream()))
    decreases Size(parser.Stream()), 2
  {
    ignored := ignored0;
    var after := parser.Parse(false);
    if after != "" {
      return Err(BadToken(TokenAfterOpen)), ignored;
    }
    var childComplete := ctx.complete || (Has(work.flags, COMPLETE) && !work.ignore);
    var nested;
    nested, ignored := ParseInternal(parser, env, Context(!work.ignore, Has(work.flags, LOOPSYNC), childComplete), ignored);
    if nested.Err? {
      return Err(nested.error), ignored;
    }
    if nested.value.1 {
      return Err(BadToken(UnexpectedEnd)), ignored;
    }
    if nested.value.0 != [] && Has(work.flags, UNSUPPORTED_BRANCH) {
      return Err(BadToken(UnsupportedRetained)), ignored;
    }
    if nested.value.0 == [] {
      ignored := ignored + 1;
      r := Ok(children);
    } else {
      if work.ignore {
        ignored := ignored + 1;
      }
      r := Ok(children + [Anim(work.name, work.flags, nested.value.0)]);
    }
  }

  /** What remains to be parsed, with a name still waiting for its line to be closed. */
  ghost function Remaining(env: Env, ctx: Context, ts: Tokens, current: Option<WorkAnim>, children: seq<Anim>,
          ignored: nat): Result<Parsed, Error> {
    if current.None? then Items(env, ctx, ts, children, ignored)
    else Pending(env, ctx, current.value.name, current.value.ignore, ts, children, ignored)
  }

  ghost predicate Agrees(spec: Result<Parsed, Error>, r: Result<(seq<Anim>, bool), Error>, ignored: nat, rest: Tokens) {
    match spec
    case Err(error) => r == Err(error)
    case Ok(p) => r == Ok((p.children, p.eof)) && ignored == p.ignored && rest == p.rest
  }

  function FlushedAll(children: seq<Anim>, current: Option<WorkAnim>): seq<Anim> {
    if current.None? then children else Flushed(children, current.value.name, current.value.ignore)
  }

  function FlushedAllCount(ignored: nat, current: Option<WorkAnim>): nat {
    if current.None? then ignored else FlushedCount(ignored, current.value.ignore)
  }

  lemma {:induction false} RemainingFlushed(env: Env, ctx: Context, ts: Tokens, current: Option<WorkAnim>,
          children: seq<Anim>, ignored: nat)
    requires ts.Tok? && ts.text != "{"
    ensures Remaining(env, ctx, ts, current, children, ignored) == Items(env, ctx, ts, FlushedAll(children, current), FlushedAllCount(ignored, current))
  {}

  lemma {:induction false} RemainingName(env: Env, ctx: Context, ts: Tokens, current: Option<WorkAnim>,
          children: seq<Anim>, ignored: nat)
    requires ts.Tok? && IsIdentifier(ts.text)
    ensures Remaining(env, ctx, ts, current, children, ignored)
            == Item(env, ctx, Lower(ts.text), ts.tail, FlushedAll(children, current), FlushedAllCount(ignored, current))
  {
    assert IsSymbolChar(ts.text[0]);
    RemainingFlushed(env, ctx, ts, current, children, ignored);
  }

  lemma {:induction false} RemainingOpen(env: Env, ctx: Context, ts: Tokens, current: Option<WorkAnim>,
          children: seq<Anim>, ignored: nat)
    requires ts.Tok? && ts.text == "{" && (current.Some? ==> current.value.flags == 0)
    ensures Remaining(env, ctx, ts, current, children, ignored)
            == if current.Some? then Block(env, ctx, current.value.name, 0, current.value.ignore, ts.tail, children, ignored)
               else Err(BadToken(if OnLine(ts.tail) != "" then TokenAfterOpen else BlockWithoutName))
  {
    assert !IsSymbolChar(ts.text[0]);
  }

  lemma {:induction false} RemainingClose(env: Env, ctx: Context, ts: Tokens, current: Option<WorkAnim>,
          children: seq<Anim>, ignored: nat)
    requires ts.Tok? && ts.text == "}"
    ensures Remaining(env, ctx, ts, current, children, ignored)
            == if OnLine(ts.tail) != "" then Err(BadToken(TokenAfterClose))
               else Ok(Parsed(Finished(FlushedAll(children, current), ctx), false, ts.tail, FlushedAllCount(ignored, current)))
  {
    assert !IsSymbolChar(ts.text[0]);
    RemainingFlushed(env, ctx, ts, current, children, ignored);
  }

  lemma {:induction false} RemainingOther(env: Env, ctx: Context, ts: Tokens, current: Option<WorkAnim>,
          children: seq<Anim>, ignored: nat)
    requires ts.Stuck? || (ts.Tok? && !IsIdentifier(ts.text) && ts.text != "{" && ts.text != "}")
    ensures Remaining(env, ctx, ts, current, children, ignored) == Err(BadToken(Unexpected))
  {
    if ts.Tok? {
      RemainingFlushed(env, ctx, ts, current, children, ignored);
    } else if current.Some? {
      assert Remaining(env, ctx, ts, current, children, ignored)
          == Items(env, ctx, ts, Flushed(children, current.value.name, current.value.ignore), FlushedCount(ignored, current.value.ignore));
    }
  }

  /** What the next token means for what remains. */
  lemma {:induction false} RemainingStep(env: Env, ctx: Context, ts: Tokens, current: Option<WorkAnim>,
          children: seq<Anim>, ignored: nat)
    requires current.Some? ==> current.value.flags == 0
    ensures ts.Eof? ==> Remaining(env, ctx, ts, current, children, ignored) == Ok(Parsed(Finished(children, ctx), true, ts, ignored))
    ensures ts.Stuck? ==> Remaining(env, ctx, ts, current, children, ignored) == Err(BadToken(Unexpected))
    ensures ts.Tok? && IsIdentifier(ts.text) ==>
              Remaining(env, ctx, ts, current, children, ignored)
              == Item(env, ctx, Lower(ts.text), ts.tail, FlushedAll(children, current), FlushedAllCount(ignored, current))
    ensures ts.Tok? && !IsIdentifier(ts.text) && ts.text == "{" ==>
              Remaining(env, ctx, ts, current, children, ignored)
              == if current.Some? then Block(env, ctx, current.value.name, 0, current.value.ignore, ts.tail, children, ignored)
                 else Err(BadToken(if OnLine(ts.tail) != "" then TokenAfterOpen else BlockWithoutName))
    ensures ts.Tok? && !IsIdentifier(ts.text) && ts.text == "}" ==>
              Remaining(env, ctx, ts, current, children, ignored)
              == if OnLine(ts.tail) != "" then Err(BadToken(TokenAfterClose))
                 else Ok(Parsed(Finished(FlushedAll(children, current), ctx), false, ts.tail, FlushedAllCount(ignored, current)))
    ensures ts.Tok? && !IsIdentifier(ts.text) && ts.text != "{" && ts.text != "}" ==>
              Remaining(env, ctx, ts, current, children, ignored) == Err(BadToken(Unexpected))
  {
    if ts.Tok? {
      if IsIdentifier(ts.text) {
        RemainingName(env, ctx, ts, current, children, ignored);
      } else if ts.text == "{" {
        RemainingOpen(env, ctx, ts, current, children, ignored);
      } else if ts.text == "}" {
        RemainingClose(env, ctx, ts, current, children, ignored);
      } else {
        RemainingOther(env, ctx, ts, current, children, ignored);
      }
    }
  }

  /** Reads the children of one block, or of the file, in one pass: a node that the
      selection does not want is counted and dropped as soon as it is read. */
  method ParseInternal(parser: AtrParser, env: Env, ctx: Context, ignored0: nat)
    returns (r: Result<(seq<Anim>, bool), Error>, ignored: nat)
    requires parser.Valid()
    modifies parser
    ensures parser.Valid()
    ensures Agrees(Items(env, ctx, old(parser.Stream()), [], ignored0), r, ignored, parser.Stream())
    decreases Size(parser.Stream()), 1
  {
    var children: seq<Anim> := [];
    var current: Option<WorkAnim> := None;
    ignored := ignored0;
    ghost var spec := Items(env, ctx, parser.Stream(), [], ignored0);
    while true
      invariant parser.Valid() && Size(parser.Stream()) <= Size(old(parser.Stream()))
      invariant Remaining(env, ctx, parser.Stream(), current, children, ignored) == spec
      invariant current.Some? ==> current.value.flags == 0
      decreases Size(parser.Stream())
    {
      RemainingStep(env, ctx, parser.Stream(), current, children, ignored);
      var token := parser.Parse(true);
      if parser.hitEof && token == "" {
        return Ok((Finished(children, ctx), true)), ignored;
      }
      var opening: Option<WorkAnim> := None;
      if IsIdentifier(token) {
        children, ignored := FlushedAll(children, current), FlushedAllCount(ignored, current);
        current := None;
        var line := ParseNameLine(parser, env, ctx, token, children, ignored);
        if line.Err? {
          return Err(line.error), ignored;
        }
        if line.value.Alone? {
          current := Some(line.value.work);
          continue;
        }
        opening := Some(line.value.work);
      } else if token == "{" {
        if current.None? {
          var after := parser.Parse(false);
          return Err(BadToken(if after != "" then TokenAfterOpen else BlockWithoutName)), ignored;
        }
        opening := current;
        current := None;
      }
      if opening.Some? {
        var nested;
        nested, ignored := ParseBlock(parser, env, ctx, opening.value, children, ignored);
        if nested.Err? {
          return Err(nested.error), ignored;
        }
        children := nested.value;
        continue;
      }
      if token == "}" {
        var after := parser.Parse(false);
        if after != "" {
          return Err(BadToken(TokenAfterClose)), ignored;
        }
        children, ignored := FlushedAll(children, current), FlushedAllCount(ignored, current);
        return Ok((Finished(children, ctx), false)), ignored;
      }
      return Err(BadToken(Unexpected)), ignored;
    }
  }

  /** A whole tree file: the retained top-level nodes and the number of ignored ones. */
  method ParseAtr(src: string, env: Env) returns (r: Result<(seq<Anim>, nat), Error>)
    ensures r == ParseTokens(env, StreamAt(src, 0))
  {
    var parser := new AtrParser(src);
    var parsed, ignored := ParseInternal(parser, env, Context(true, false, false), 0);
    if parsed.Err? {
      return Err(parsed.error);
    }
    if !parsed.value.1 {
      return Err(BadToken(Unexpected));
    }
    r := Ok((parsed.value.0, ignored));
  }
}
