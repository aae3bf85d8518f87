/** The text form of an animation tree: tokens, the source trees they stand for,
    and the parser of crates/asset_anim/src/atr_compile.rs on tokens. */
module AtrSyntax {
  import opened Wrappers
  import opened AsciiNames

  type Text = s: string | s != "" witness "x"

  /** What is left to read. A token knows whether a line break comes before it.
      At Stuck the parser sees an empty token without being at the end. */
  datatype Tokens =
    | Eof
    | Stuck
    | Tok(text: Text, newline: bool, tail: Tokens)

  function Size(ts: Tokens): nat {
    match ts
    case Tok(_, _, tail) => 1 + Size(tail)
    case _ => 0
  }

  /** The token the parser gets when line breaks stop it, empty if it gets none. */
  function OnLine(ts: Tokens): string {
    if ts.Tok? && !ts.newline then ts.text else ""
  }

  function AfterOnLine(ts: Tokens): (rest: Tokens)
    ensures OnLine(ts) != "" ==> Size(rest) < Size(ts)
    ensures OnLine(ts) == "" ==> rest == ts
  {
    if ts.Tok? && !ts.newline then ts.tail else ts
  }

  predicate LineStart(ts: Tokens) {
    OnLine(ts) == ""
  }

  // ---------- characters ----------

  predicate IsDigit(c: char) {
    '0' <= c <= '9'
  }

  predicate IsAlpha(c: char) {
    'a' <= c <= 'z' || 'A' <= c <= 'Z'
  }

  predicate IsSymbolChar(c: char) {
    IsAlpha(c) || IsDigit(c) || c == '_'
  }

  predicate IsIdentifier(s: string) {
    s != "" && forall i :: 0 <= i < |s| ==> IsSymbolChar(s[i])
  }

  // ---------- properties ----------

  const LOOPSYNC: bv16 := 1
  const NONLOOPSYNC: bv16 := 2
  const COMPLETE: bv16 := 8
  const ADDITIVE: bv16 := 16
  const UNSUPPORTED_BRANCH: bv16 := 0x8000

  datatype Property = LoopSync | NonLoopSync | Complete | Additive | Unsupported

  /** The property a token names; client and separate are Unsupported, and only
      unselected branches may carry them. */
  function PropertyOf(token: string): Option<Property> {
    if EqualsIgnoreCase(token, "loopsync") then Some(LoopSync)
    else if EqualsIgnoreCase(token, "nonloopsync") then Some(NonLoopSync)
    else if EqualsIgnoreCase(token, "complete") then Some(Complete)
    else if EqualsIgnoreCase(token, "additive") then Some(Additive)
    else if EqualsIgnoreCase(token, "client") || EqualsIgnoreCase(token, "separate") then Some(Unsupported)
    else None
  }

  function Bit(p: Property): bv16 {
    match p
    case LoopSync => LOOPSYNC
    case NonLoopSync => NONLOOPSYNC
    case Complete => COMPLETE
    case Additive => ADDITIVE
    case Unsupported => UNSUPPORTED_BRANCH
  }

  predicate Has(flags: bv16, flag: bv16) {
    flags & flag != 0
  }

  // ---------- results ----------

  datatype Anim = Anim(name: string, flags: bv16, children: seq<Anim>)

  /** What is wrong with a token, one case per message of the source. */
  datatype Complaint =
    | Unexpected
    | InvalidTurn
    | AliasNotImplemented
    | UnknownProperty
    | PropertiesOnPrimitive
    | TokenAfterOpen
    | BlockWithoutName
    | TokenAfterClose
    | UnsupportedRetained
    | UnexpectedEnd

  datatype Error = BadToken(complaint: Complaint) | DuplicateAnimation(name: string)

  datatype Parsed = Parsed(children: seq<Anim>, eof: bool, rest: Tokens, ignored: nat)

  /** The selected names, and which tokens read as a finite number. */
  datatype Env = Env(names: set<string>, isFinite: string -> bool)

  /** What a block passes down to its children. */
  datatype Context = Context(includeParent: bool, loopSync: bool, complete: bool)

  function LeafAnim(name: string): Anim {
    Anim(name, 0, [])
  }

  function Finished(children: seq<Anim>, ctx: Context): seq<Anim> {
    if ctx.includeParent && children == [] then [LeafAnim(if ctx.loopSync then "void_loop" else "void")] else children
  }

  predicate Named(children: seq<Anim>, name: string) {
    exists i :: 0 <= i < |children| && children[i].name == name
  }

  predicate Ignored(env: Env, ctx: Context, name: string) {
    !ctx.complete && name !in env.names
  }

  function ChildContext(ctx: Context, flags: bv16, ignore: bool): Context {
    Context(!ignore, Has(flags, LOOPSYNC), ctx.complete || (Has(flags, COMPLETE) && !ignore))
  }

  // ---------- the parser, fused with the selection ----------

  /** An optional "[turn = value]" after a name. */
  function Annotation(env: Env, ts: Tokens): (r: Result<Tokens, Error>)
    ensures r.Ok? ==> Size(r.value) <= Size(ts)
  {
    if OnLine(ts) != "[" then Ok(ts)
    else
      var ts1 := AfterOnLine(ts);
      var ts2 := AfterOnLine(ts1);
      var ts3 := AfterOnLine(ts2);
      var ts4 := AfterOnLine(ts3);
      if EqualsIgnoreCase(OnLine(ts1), "turn") && OnLine(ts2) == "=" && env.isFinite(OnLine(ts3)) && OnLine(ts4) == "]" then
        Ok(AfterOnLine(ts4))
      else Err(BadToken(InvalidTurn))
  }

  function Properties(ts: Tokens, ignore: bool, flags: bv16): (r: Result<(bv16, Tokens), Error>)
    ensures r.Ok? ==> Size(r.value.1) <= Size(ts)
    decreases Size(ts)
  {
    if OnLine(ts) == "" then Ok((flags, ts))
    else
      match PropertyOf(OnLine(ts))
      case None => Err(BadToken(UnknownProperty))
      case Some(p) => if p.Unsupported? && !ignore then Err(BadToken(UnknownProperty)) else Properties(AfterOnLine(ts), ignore, flags | Bit(p))
  }

  /** Reads siblings up to the end of their block or of the input. */
  function Items(env: Env, ctx: Context, ts: Tokens, children: seq<Anim>, ignored: nat): (r: Result<Parsed, Error>)
    ensures r.Ok? ==> if r.value.eof then r.value.rest == Eof else Size(r.value.rest) < Size(ts)
    decreases Size(ts), 3
  {
    match ts
    case Eof => Ok(Parsed(Finished(children, ctx), true, ts, ignored))
    case Stuck => Err(BadToken(Unexpected))
    case Tok(text, _, tail) =>
      if IsIdentifier(text) then Item(env, ctx, Lower(text), tail, children, ignored)
      else if text == "{" then
        Err(BadToken(if OnLine(tail) != "" then TokenAfterOpen else BlockWithoutName))
      else if text == "}" then
        if OnLine(tail) != "" then Err(BadToken(TokenAfterClose))
        else Ok(Parsed(Finished(children, ctx), false, tail, ignored))
      else Err(BadToken(Unexpected))
  }

  function Item(env: Env, ctx: Context, name: string, ts: Tokens, children: seq<Anim>, ignored: nat): (r: Result<Parsed, Error>)
    ensures r.Ok? ==> if r.value.eof then r.value.rest == Eof else Size(r.value.rest) < Size(ts)
    decreases Size(ts), 6
  {
    if Named(children, name) then Err(DuplicateAnimation(name))
    else
      var ignore := Ignored(env, ctx, name);
      match Annotation(env, ts)
      case Err(error) => Err(error)
      case Ok(ts1) =>
        if OnLine(ts1) == "" then Pending(env, ctx, name, ignore, ts1, children, ignored)
        else if IsIdentifier(OnLine(ts1)) then Err(BadToken(AliasNotImplemented))
        else if OnLine(ts1) != ":" then Err(BadToken(Unexpected))
        else
          match Properties(AfterOnLine(ts1), ignore, 0)
          case Err(error) => Err(error)
          case Ok((flags, ts2)) =>
            if !(ts2.Tok? && ts2.text == "{") then Err(BadToken(PropertiesOnPrimitive))
            else Block(env, ctx, name, flags, ignore, ts2.tail, children, ignored)
  }

  function Flushed(children: seq<Anim>, name: string, ignore: bool): seq<Anim> {
    if ignore then children else children + [LeafAnim(name)]
  }

  function FlushedCount(ignored: nat, ignore: bool): nat {
    if ignore then ignored + 1 else ignored
  }

  /** A name alone on its line: a leaf, unless a block follows. At the end of the
      input it is dropped. */
  function Pending(env: Env, ctx: Context, name: string, ignore: bool, ts: Tokens, children: seq<Anim>,
          ignored: nat): (r: Result<Parsed, Error>)
    ensures r.Ok? ==> if r.value.eof then r.value.rest == Eof else Size(r.value.rest) < Size(ts)
    decreases Size(ts), 5
  {
    if ts.Tok? && ts.text == "{" then Block(env, ctx, name, 0, ignore, ts.tail, children, ignored)
    else if ts.Eof? then Ok(Parsed(Finished(children, ctx), true, ts, ignored))
    else Items(env, ctx, ts, Flushed(children, name, ignore), FlushedCount(ignored, ignore))
  }

  /** What a block's own node becomes once its children are known. */
  function Closed(children: seq<Anim>, name: string, flags: bv16, nested: seq<Anim>): Result<seq<Anim>, Error> {
    if nested != [] && Has(flags, UNSUPPORTED_BRANCH) then Err(BadToken(UnsupportedRetained))
    else if nested == [] then Ok(children)
    else Ok(children + [Anim(name, flags, nested)])
  }

  function ClosedCount(ignored: nat, nested: seq<Anim>, ignore: bool): nat {
    if nested == [] || ignore then ignored + 1 else ignored
  }

  function Block(env: Env, ctx: Context, name: string, flags: bv16, ignore: bool, ts: Tokens,
          children: seq<Anim>, ignored: nat): (r: Result<Parsed, Error>)
    ensures r.Ok? ==> if r.value.eof then r.value.rest == Eof else Size(r.value.rest) < Size(ts)
    decreases Size(ts), 4
  {
    if OnLine(ts) != "" then Err(BadToken(TokenAfterOpen))
    else
      match Items(env, ChildContext(ctx, flags, ignore), ts, [], ignored)
      case Err(error) => Err(error)
      case Ok(nested) =>
        if nested.eof then Err(BadToken(UnexpectedEnd))
        else
          match Closed(children, name, flags, nested.children)
          case Err(error) => Err(error)
          case Ok(children') => Items(env, ctx, nested.rest, children', ClosedCount(nested.ignored, nested.children, ignore))
  }

  function ParseTokens(env: Env, ts: Tokens): Result<(seq<Anim>, nat), Error> {
    match Items(env, Context(true, false, false), ts, [], 0)
    case Err(error) => Err(error)
    case Ok(parsed) => if parsed.eof then Ok((parsed.children, parsed.ignored)) else Err(BadToken(Unexpected))
  }
}
