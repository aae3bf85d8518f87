/** What is said of a text that goes wrong: the first thing that is no printed tree, and
    the complaint it gets from crates/asset_anim/src/atr_compile.rs. */
module AtrErrors {
  import opened Wrappers
  import opened AsciiNames
  import opened AtrSyntax
  import opened AtrPrune
  import opened AtrTheorem

  /** Ways to go on after a number of siblings that are no sibling. */
  datatype Wrong =
    | Stray(text: Text, tail: Tokens)
    | NoName(tail: Tokens)
    | OpenAndMore(tail: Tokens)
    | CloseAndMore(tail: Tokens)
    | NotATurn(name: Text, tail: Tokens)
    | TwoNames(name: Text, turn: Option<Turn>, tail: Tokens)
    | NotOnNameLine(name: Text, turn: Option<Turn>, tail: Tokens)
    | NoProperty(name: Text, turn: Option<Turn>, props: seq<string>, tail: Tokens)
    | NoBlock(name: Text, turn: Option<Turn>, props: seq<string>, tail: Tokens)
    | BlockAndMore(name: Text, turn: Option<Turn>, listed: Option<seq<string>>, tail: Tokens)
    | NotClosed(name: Text, turn: Option<Turn>, listed: Option<seq<string>>, below: seq<Source>)

  function Says(w: Wrong): Complaint {
    match w
    case Stray(_, _) => Unexpected
    case NoName(_) => BlockWithoutName
    case OpenAndMore(_) => TokenAfterOpen
    case CloseAndMore(_) => TokenAfterClose
    case NotATurn(_, _) => InvalidTurn
    case TwoNames(_, _, _) => AliasNotImplemented
    case NotOnNameLine(_, _, _) => Unexpected
    case NoProperty(_, _, _, _) => UnknownProperty
    case NoBlock(_, _, _, _) => PropertiesOnPrimitive
    case BlockAndMore(_, _, _, _) => TokenAfterOpen
    case NotClosed(_, _, _, _) => UnexpectedEnd
  }

  predicate GoodName(name: Text, children: seq<Anim>) {
    IsIdentifier(name) && !Named(children, Lower(name))
  }

  /** Properties that may stand there: good ones, and unsupported ones only on a branch
      that is not selected. */
  predicate MayList(env: Env, ctx: Context, name: string, props: seq<string>) {
    GoodProps(props) && (AnyUnsupported(props) ==> Ignored(env, ctx, Lower(name)))
  }

  ghost predicate GoesWrong(env: Env, ctx: Context, children: seq<Anim>, ignored: nat, w: Wrong) {
    match w
    case Stray(text, _) => !IsIdentifier(text) && text != "{" && text != "}"
    case NoName(tail) => OnLine(tail) == ""
    case OpenAndMore(tail) => OnLine(tail) != ""
    case CloseAndMore(tail) => OnLine(tail) != ""
    case NotATurn(name, tail) =>
      && GoodName(name, children) && OnLine(tail) == "["
      && forall turn: Turn, rest :: GoodTurn(env, Some(turn)) ==> tail != PrintTurn(Some(turn), rest)
    case TwoNames(name, turn, tail) => GoodName(name, children) && GoodTurn(env, turn) && IsIdentifier(OnLine(tail))
    case NotOnNameLine(name, turn, tail) =>
      && GoodName(name, children) && GoodTurn(env, turn)
      && !IsIdentifier(OnLine(tail)) && OnLine(tail) !in {"", ":", "["}
    case NoProperty(name, turn, props, tail) =>
      && GoodName(name, children) && GoodTurn(env, turn) && MayList(env, ctx, name, props)
      && OnLine(tail) != "" && !MayList(env, ctx, name, [OnLine(tail)])
    case NoBlock(name, turn, props, tail) =>
      && GoodName(name, children) && GoodTurn(env, turn) && MayList(env, ctx, name, props)
      && LineStart(tail) && !(tail.Tok? && tail.text == "{")
    case BlockAndMore(name, turn, props, tail) =>
      && GoodName(name, children) && GoodTurn(env, turn) && (props.Some? ==> MayList(env, ctx, name, props.value))
      && OnLine(tail) != ""
    case NotClosed(name, turn, props, below) =>
      && GoodName(name, children) && GoodTurn(env, turn) && (props.Some? ==> MayList(env, ctx, name, props.value))
      && GoodForest(env, below) && !EndsInLeaf(below)
      && PruneAll(env, ChildContext(ctx, Flags(props), Ignored(env, ctx, Lower(name))), below, [], ignored).Ok?
  }

  ghost function PrintWrong(env: Env, w: Wrong): Tokens
    requires w.NotClosed? ==> GoodForest(env, w.below)
  {
    match w
    case Stray(text, tail) => Tok(text, true, tail)
    case NoName(tail) => Tok("{", true, tail)
    case OpenAndMore(tail) => Tok("{", true, tail)
    case CloseAndMore(tail) => Tok("}", true, tail)
    case NotATurn(name, tail) => Tok(name, true, tail)
    case TwoNames(name, turn, tail) => Tok(name, true, PrintTurn(turn, tail))
    case NotOnNameLine(name, turn, tail) => Tok(name, true, PrintTurn(turn, tail))
    case NoProperty(name, turn, props, tail) => Tok(name, true, PrintTurn(turn, Word(":", PrintWords(props, tail))))
    case NoBlock(name, turn, props, tail) => Tok(name, true, PrintTurn(turn, Word(":", PrintWords(props, tail))))
    case BlockAndMore(name, turn, props, tail) => Tok(name, true, PrintTurn(turn, PrintProps(props, Tok("{", true, tail))))
    case NotClosed(name, turn, props, below) =>
      Tok(name, true, PrintTurn(turn, PrintProps(props, Tok("{", true, PrintForest(env, below, Eof)))))
  }

  lemma {:induction false} PropertiesUpTo(props: seq<string>, ignore: bool, flags: bv16, tail: Tokens)
    requires GoodProps(props) && (AnyUnsupported(props) ==> ignore)
    ensures Properties(PrintWords(props, tail), ignore, flags) == Properties(tail, ignore, FlagsFrom(props, flags))
    decreases |props|
  {
    if props != [] {
      var p := GoodPropsStep(props);
      var ts := PrintWords(props, tail);
      assert OnLine(ts) == props[0] && AfterOnLine(ts) == PrintWords(props[1..], tail);
      PropsStep(props, flags, p);
      PropertyTaken(ts, ignore, flags, p);
      PropertiesUpTo(props[1..], ignore, flags | Bit(p), tail);
    }
  }

  lemma NameLine(env: Env, ctx: Context, name: Text, turn: Option<Turn>, after: Tokens, children: seq<Anim>,
          ignored: nat)
    requires GoodName(name, children) && GoodTurn(env, turn) && OnLine(after) != "["
    ensures var line := PrintTurn(turn, after);
            && Items(env, ctx, Tok(name, true, line), children, ignored) == Item(env, ctx, Lower(name), line, children, ignored)
            && Annotation(env, line) == Ok(after)
  {
    NotPunctuation(name);
    ReadTurn(env, turn, after);
  }

  lemma StrayRefused(env: Env, ctx: Context, w: Wrong, children: seq<Anim>, ignored: nat)
    requires GoesWrong(env, ctx, children, ignored, w) && (w.Stray? || w.NoName? || w.OpenAndMore? || w.CloseAndMore?)
    ensures Items(env, ctx, PrintWrong(env, w), children, ignored) == Err(BadToken(Says(w)))
  {
    Punctuation();
  }

  lemma NameRefused(env: Env, ctx: Context, w: Wrong, children: seq<Anim>, ignored: nat)
    requires GoesWrong(env, ctx, children, ignored, w) && (w.TwoNames? || w.NotOnNameLine?)
    ensures Items(env, ctx, PrintWrong(env, w), children, ignored) == Err(BadToken(Says(w)))
  {
    if w.TwoNames? {
      NotPunctuation(OnLine(w.tail));
    }
    NameLine(env, ctx, w.name, w.turn, w.tail, children, ignored);
  }

  lemma TurnRefused(env: Env, ctx: Context, w: Wrong, children: seq<Anim>, ignored: nat)
    requires !env.isFinite("") && w.NotATurn? && GoesWrong(env, ctx, children, ignored, w)
    ensures Items(env, ctx, PrintWrong(env, w), children, ignored) == Err(BadToken(InvalidTurn))
  {
    NotPunctuation(w.name);
    if Annotation(env, w.tail).Ok? {
      var turn := SoundAnnotation(env, w.tail);
    }
  }

  lemma PropsRefused(env: Env, ctx: Context, w: Wrong, children: seq<Anim>, ignored: nat)
    requires GoesWrong(env, ctx, children, ignored, w) && (w.NoProperty? || w.NoBlock?)
    ensures Items(env, ctx, PrintWrong(env, w), children, ignored) == Err(BadToken(Says(w)))
  {
    var words := PrintWords(w.props, w.tail);
    var ignore := Ignored(env, ctx, Lower(w.name));
    Punctuation();
    NameLine(env, ctx, w.name, w.turn, Word(":", words), children, ignored);
    PropertiesUpTo(w.props, ignore, 0, w.tail);
    if w.NoProperty? {
      var one := [OnLine(w.tail)];
      assert one[1..] == [];
      assert PropertyOf(OnLine(w.tail)).None? || (PropertyOf(OnLine(w.tail)) == Some(Unsupported) && !ignore) by {
        if PropertyOf(OnLine(w.tail)).Some? {
          assert GoodProps(one);
          assert AnyUnsupported(one) <==> PropertyOf(one[0]) == Some(Unsupported);
        }
      }
    }
  }

  /** The line of a branch, up to its block. */
  lemma BranchLine(env: Env, ctx: Context, name: Text, turn: Option<Turn>, props: Option<seq<string>>, block: Tokens,
          children: seq<Anim>, ignored: nat)
    requires GoodName(name, children) && GoodTurn(env, turn) && (props.Some? ==> MayList(env, ctx, name, props.value))
    ensures Items(env, ctx, Tok(name, true, PrintTurn(turn, PrintProps(props, Tok("{", true, block)))), children, ignored)
            == Block(env, ctx, Lower(name), Flags(props), Ignored(env, ctx, Lower(name)), block, children, ignored)
  {
    var open := Tok("{", true, block);
    Punctuation();
    NameLine(env, ctx, name, turn, PrintProps(props, open), children, ignored);
    if props.Some? {
      PropertiesUpTo(props.value, Ignored(env, ctx, Lower(name)), 0, open);
    }
  }

  lemma BlockRefused(env: Env, ctx: Context, w: Wrong, children: seq<Anim>, ignored: nat)
    requires GoesWrong(env, ctx, children, ignored, w) && (w.BlockAndMore? || w.NotClosed?)
    ensures Items(env, ctx, PrintWrong(env, w), children, ignored) == Err(BadToken(Says(w)))
  {
    if w.BlockAndMore? {
      BranchLine(env, ctx, w.name, w.turn, w.listed, w.tail, children, ignored);
    } else {
      BranchLine(env, ctx, w.name, w.turn, w.listed, PrintForest(env, w.below, Eof), children, ignored);
      var ctx' := ChildContext(ctx, Flags(w.listed), Ignored(env, ctx, Lower(w.name)));
      PrintForestHead(env, w.below, Eof);
      ReadAll(env, ctx', w.below, Eof, [], ignored);
    }
  }

  lemma WrongRefused(env: Env, ctx: Context, w: Wrong, children: seq<Anim>, ignored: nat)
    requires !env.isFinite("") && GoesWrong(env, ctx, children, ignored, w)
    ensures Items(env, ctx, PrintWrong(env, w), children, ignored) == Err(BadToken(Says(w)))
  {
    if w.Stray? || w.NoName? || w.OpenAndMore? || w.CloseAndMore? {
      StrayRefused(env, ctx, w, children, ignored);
    } else if w.TwoNames? || w.NotOnNameLine? {
      NameRefused(env, ctx, w, children, ignored);
    } else if w.NotATurn? {
      TurnRefused(env, ctx, w, children, ignored);
    } else if w.NoProperty? || w.NoBlock? {
      PropsRefused(env, ctx, w, children, ignored);
    } else {
      BlockRefused(env, ctx, w, children, ignored);
    }
  }

  /** A text is refused for the first thing in it that is wrong, whatever good siblings
      come before and whatever comes after. */
  lemma {:induction false} TextRefused(env: Env, forest: seq<Source>, w: Wrong, children: seq<Anim>, ignored: nat)
    requires !env.isFinite("") && GoodForest(env, forest) && PruneAll(env, TOP, forest, [], 0) == Ok((children, ignored))
    requires GoesWrong(env, TOP, children, ignored, w)
    requires EndsInLeaf(forest) ==> !w.NoName? && !w.OpenAndMore?
    ensures ParseTokens(env, PrintForest(env, forest, PrintWrong(env, w))) == Err(BadToken(Says(w)))
  {
    WrongRefused(env, TOP, w, children, ignored);
    var tail := PrintWrong(env, w);
    assert tail.newline && (EndsInLeaf(forest) ==> ClosesLeaf(tail)) by {
      Punctuation();
    }
    ReadAll(env, TOP, forest, tail, [], 0);
  }

  /** So is one that closes a block that was not opened. */
  lemma {:induction false} ClosedTooOften(env: Env, forest: seq<Source>, tail: Tokens, children: seq<Anim>,
          ignored: nat)
    requires GoodForest(env, forest) && PruneAll(env, TOP, forest, [], 0) == Ok((children, ignored)) && LineStart(tail)
    ensures ParseTokens(env, PrintForest(env, forest, Tok("}", true, tail))) == Err(BadToken(Unexpected))
  {
    ReadAll(env, TOP, forest, Tok("}", true, tail), [], 0);
    ReadClose(env, TOP, tail, children, ignored);
  }
}
