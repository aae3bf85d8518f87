/** Source trees, how they are printed, how a selection prunes them, and the proof
    that the one-pass parser is exactly: read the tree, then prune it. */
module AtrPrune {
  import opened Wrappers
  import opened AsciiNames
  import opened AtrSyntax

  datatype Turn = Turn(key: string, value: string)

  datatype Source =
    | Leaf(name: string, turn: Option<Turn>)
    | Branch(name: string, turn: Option<Turn>, props: Option<seq<string>>, children: seq<Source>)

  // ---------- printing ----------

  predicate GoodTurn(env: Env, turn: Option<Turn>) {
    turn.Some? ==> EqualsIgnoreCase(turn.value.key, "turn") && env.isFinite(turn.value.value) && turn.value.value != ""
  }

  predicate GoodProps(props: seq<string>) {
    forall i :: 0 <= i < |props| ==> props[i] != "" && PropertyOf(props[i]).Some?
  }

  predicate Good(env: Env, s: Source)
    decreases s
  {
    && IsIdentifier(s.name)
    && GoodTurn(env, s.turn)
    && (s.Branch? ==> (s.props.Some? ==> GoodProps(s.props.value)) && GoodForest(env, s.children))
  }

  predicate GoodForest(env: Env, forest: seq<Source>)
    decreases forest
  {
    forest != [] ==> Good(env, forest[0]) && GoodForest(env, forest[1..])
  }

  function Word(text: string, tail: Tokens): Tokens {
    if text == "" then tail else Tok(text, false, tail)
  }

  function PrintTurn(turn: Option<Turn>, tail: Tokens): Tokens {
    if turn.None? then tail
    else Word("[", Word(turn.value.key, Word("=", Word(turn.value.value, Word("]", tail)))))
  }

  function PrintWords(words: seq<string>, tail: Tokens): Tokens {
    if words == [] then tail else Word(words[0], PrintWords(words[1..], tail))
  }

  function PrintProps(props: Option<seq<string>>, tail: Tokens): Tokens {
    if props.None? then tail else Word(":", PrintWords(props.value, tail))
  }

  /** The tokens of a source tree, followed by those of tail. */
  function Print(env: Env, s: Source, tail: Tokens): Tokens
    requires Good(env, s)
    decreases s
  {
    match s
    case Leaf(name, turn) => Tok(name, true, PrintTurn(turn, tail))
    case Branch(name, turn, props, children) =>
      Tok(name, true, PrintTurn(turn, PrintProps(props, Tok("{", true, PrintForest(env, children, Tok("}", true, tail))))))
  }

  function PrintForest(env: Env, forest: seq<Source>, tail: Tokens): Tokens
    requires GoodForest(env, forest)
    decreases forest
  {
    if forest == [] then tail else Print(env, forest[0], PrintForest(env, forest[1..], tail))
  }

  // ---------- pruning ----------

  function FlagsFrom(props: seq<string>, flags: bv16): bv16 {
    if props == [] then flags
    else
      var property := PropertyOf(props[0]);
      FlagsFrom(props[1..], if property.Some? then flags | Bit(property.value) else flags)
  }

  function Flags(props: Option<seq<string>>): bv16 {
    if props.None? then 0 else FlagsFrom(props.value, 0)
  }

  predicate AnyUnsupported(props: seq<string>) {
    props != [] && (PropertyOf(props[0]) == Some(Unsupported) || AnyUnsupported(props[1..]))
  }

  predicate MarksUnsupported(props: Option<seq<string>>) {
    props.Some? && AnyUnsupported(props.value)
  }

  /** The retained siblings and the number of ignored nodes after one more source node. */
  function PruneOne(env: Env, ctx: Context, s: Source, children: seq<Anim>, ignored: nat): Result<(seq<Anim>, nat), Error>
    decreases s
  {
    var name := Lower(s.name);
    var ignore := Ignored(env, ctx, name);
    if Named(children, name) then Err(DuplicateAnimation(name))
    else
      match s
      case Leaf(_, _) => Ok((Flushed(children, name, ignore), FlushedCount(ignored, ignore)))
      case Branch(_, _, props, below) =>
        if MarksUnsupported(props) && !ignore then Err(BadToken(UnknownProperty))
        else PruneBlock(env, ctx, name, Flags(props), ignore, below, children, ignored)
  }

  function PruneBlock(env: Env, ctx: Context, name: string, flags: bv16, ignore: bool, below: seq<Source>,
          children: seq<Anim>, ignored: nat): Result<(seq<Anim>, nat), Error>
    decreases below, 1
  {
    var ctx' := ChildContext(ctx, flags, ignore);
    match PruneAll(env, ctx', below, [], ignored)
    case Err(error) => Err(error)
    case Ok((kept, count)) =>
      var nested := Finished(kept, ctx');
      match Closed(children, name, flags, nested)
      case Err(error) => Err(error)
      case Ok(children') => Ok((children', ClosedCount(count, nested, ignore)))
  }

  function PruneAll(env: Env, ctx: Context, forest: seq<Source>, children: seq<Anim>, ignored: nat): Result<(seq<Anim>, nat), Error>
    decreases forest, 0
  {
    if forest == [] then Ok((children, ignored))
    else
      match PruneOne(env, ctx, forest[0], children, ignored)
      case Err(error) => Err(error)
      case Ok((children', ignored')) => PruneAll(env, ctx, forest[1..], children', ignored')
  }

  // ---------- reading back what was printed ----------

  /** A leaf is only a leaf if no block follows, and the input goes on. */
  predicate ClosesLeaf(ts: Tokens) {
    ts.Tok? && ts.newline && ts.text != "{"
  }

  predicate EndsInLeaf(forest: seq<Source>) {
    forest != [] && forest[|forest| - 1].Leaf?
  }

  function Continued(env: Env, ctx: Context, pruned: Result<(seq<Anim>, nat), Error>, tail: Tokens): Result<Parsed, Error> {
    match pruned
    case Err(error) => Err(error)
    case Ok((children, ignored)) => Items(env, ctx, tail, children, ignored)
  }

  lemma {:induction false} ReadTurn(env: Env, turn: Option<Turn>, tail: Tokens)
    requires GoodTurn(env, turn) && OnLine(tail) != "["
    ensures Annotation(env, PrintTurn(turn, tail)) == Ok(tail)
  {
    if turn.Some? {
      assert turn.value.key != "";
      var t4 := Word("]", tail);
      var t3 := Word(turn.value.value, t4);
      var t2 := Word("=", t3);
      var t1 := Word(turn.value.key, t2);
      assert OnLine(t1) == turn.value.key && AfterOnLine(t1) == t2;
      assert OnLine(t2) == "=" && AfterOnLine(t2) == t3;
      assert OnLine(t3) == turn.value.value && AfterOnLine(t3) == t4;
      assert OnLine(t4) == "]" && AfterOnLine(t4) == tail;
    }
  }

  lemma {:induction false} PropertyRefused(ts: Tokens, flags: bv16, p: Property)
    requires OnLine(ts) != "" && PropertyOf(OnLine(ts)) == Some(p) && p.Unsupported?
    ensures Properties(ts, false, flags) == Err(BadToken(UnknownProperty))
  {}

  lemma {:induction false} PropertyTaken(ts: Tokens, ignore: bool, flags: bv16, p: Property)
    requires OnLine(ts) != "" && PropertyOf(OnLine(ts)) == Some(p) && (p.Unsupported? ==> ignore)
    ensures Properties(ts, ignore, flags) == Properties(AfterOnLine(ts), ignore, flags | Bit(p))
  {}

  lemma {:induction false} PropsStep(props: seq<string>, flags: bv16, p: Property)
    requires props != [] && PropertyOf(props[0]) == Some(p)
    ensures AnyUnsupported(props) <==> p.Unsupported? || AnyUnsupported(props[1..])
    ensures FlagsFrom(props, flags) == FlagsFrom(props[1..], flags | Bit(p))
  {}

  lemma GoodPropsStep(props: seq<string>) returns (p: Property)
    requires GoodProps(props) && props != []
    ensures props[0] != "" && PropertyOf(props[0]) == Some(p)
    ensures GoodProps(props[1..])
  {
    assert PropertyOf(props[0]).Some?;
    p := PropertyOf(props[0]).value;
    forall i | 0 <= i < |props[1..]|
      ensures props[1..][i] != "" && PropertyOf(props[1..][i]).Some?
    {
      assert props[1..][i] == props[i + 1];
    }
  }

  lemma {:induction false} ReadWords(props: seq<string>, ignore: bool, flags: bv16, tail: Tokens)
    requires GoodProps(props) && LineStart(tail)
    ensures Properties(PrintWords(props, tail), ignore, flags)
            == if AnyUnsupported(props) && !ignore then Err(BadToken(UnknownProperty)) else Ok((FlagsFrom(props, flags), tail))
    decreases |props|
  {
    if props != [] {
      var p := GoodPropsStep(props);
      var ts := PrintWords(props, tail);
      assert OnLine(ts) == props[0] && AfterOnLine(ts) == PrintWords(props[1..], tail);
      PropsStep(props, flags, p);
      if p.Unsupported? && !ignore {
        PropertyRefused(ts, flags, p);
      } else {
        PropertyTaken(ts, ignore, flags, p);
        ReadWords(props[1..], ignore, flags | Bit(p), tail);
      }
    }
  }

  lemma Punctuation()
    ensures !IsIdentifier("{") && !IsIdentifier("}") && !IsIdentifier("[") && !IsIdentifier(":")
  {
    assert !IsSymbolChar("{"[0]) && !IsSymbolChar("}"[0]) && !IsSymbolChar("["[0]) && !IsSymbolChar(":"[0]);
  }

  lemma {:induction false} ReadClose(env: Env, ctx: Context, tail: Tokens, children: seq<Anim>, ignored: nat)
    requires LineStart(tail)
    ensures Items(env, ctx, Tok("}", true, tail), children, ignored) == Ok(Parsed(Finished(children, ctx), false, tail, ignored))
  {
    Punctuation();
  }

  lemma NotPunctuation(s: string)
    requires IsIdentifier(s)
    ensures s != "{" && s != "}" && s != "[" && s != ":"
  {
    assert IsSymbolChar(s[0]);
  }

  lemma PrintForestHead(env: Env, forest: seq<Source>, tail: Tokens)
    requires GoodForest(env, forest) && LineStart(tail)
    ensures LineStart(PrintForest(env, forest, tail))
    ensures forest != [] ==> ClosesLeaf(PrintForest(env, forest, tail))
  {
    if forest != [] {
      NotPunctuation(forest[0].name);
    }
  }

  lemma {:induction false} ReadBlock(env: Env, ctx: Context, name: string, flags: bv16, ignore: bool,
          below: seq<Source>, tail: Tokens, children: seq<Anim>, ignored: nat)
    requires GoodForest(env, below) && LineStart(tail)
    ensures Block(env, ctx, name, flags, ignore, PrintForest(env, below, Tok("}", true, tail)), children, ignored)
            == Continued(env, ctx, PruneBlock(env, ctx, name, flags, ignore, below, children, ignored), tail)
    decreases below, 2
  {
    var close := Tok("}", true, tail);
    PrintForestHead(env, below, close);
    var ctx' := ChildContext(ctx, flags, ignore);
    ReadAll(env, ctx', below, close, [], ignored);
    match PruneAll(env, ctx', below, [], ignored)
    case Err(_) =>
    case Ok((kept, count)) =>
      ReadClose(env, ctx', tail, kept, count);
  }

  /** Reading a printed source node is pruning it, and then reading on. */
  lemma {:induction false} ReadOne(env: Env, ctx: Context, s: Source, tail: Tokens, children: seq<Anim>, ignored: nat)
    requires Good(env, s) && LineStart(tail) && (s.Leaf? ==> ClosesLeaf(tail))
    ensures Items(env, ctx, Print(env, s, tail), children, ignored) == Continued(env, ctx, PruneOne(env, ctx, s, children, ignored), tail)
    decreases s, 0
  {
    var name := Lower(s.name);
    var ignore := Ignored(env, ctx, name);
    var line := Print(env, s, tail).tail;
    assert Items(env, ctx, Print(env, s, tail), children, ignored) == Item(env, ctx, name, line, children, ignored);
    if !Named(children, name) {
      match s
      case Leaf(_, turn) =>
        ReadTurn(env, turn, tail);
        assert Item(env, ctx, name, line, children, ignored) == Pending(env, ctx, name, ignore, tail, children, ignored);
      case Branch(_, turn, props, below) =>
        var open := Tok("{", true, PrintForest(env, below, Tok("}", true, tail)));
        var ts1 := PrintProps(props, open);
        assert OnLine(ts1) == if props.Some? then ":" else "";
        ReadTurn(env, turn, ts1);
        ReadBlock(env, ctx, name, Flags(props), ignore, below, tail, children, ignored);
        if props.Some? {
          ReadWords(props.value, ignore, 0, open);
          assert AfterOnLine(ts1) == PrintWords(props.value, open);
          Punctuation();
          assert Item(env, ctx, name, line, children, ignored)
              == if AnyUnsupported(props.value) && !ignore then Err(BadToken(UnknownProperty))
                 else Block(env, ctx, name, Flags(props), ignore, open.tail, children, ignored);
        } else {
          assert Item(env, ctx, name, line, children, ignored) == Pending(env, ctx, name, ignore, open, children, ignored);
        }
    }
  }

  lemma {:induction false} ReadAll(env: Env, ctx: Context, forest: seq<Source>, tail: Tokens,
          children: seq<Anim>, ignored: nat)
    requires GoodForest(env, forest) && LineStart(tail) && (EndsInLeaf(forest) ==> ClosesLeaf(tail))
    ensures Items(env, ctx, PrintForest(env, forest, tail), children, ignored) == Continued(env, ctx, PruneAll(env, ctx, forest, children, ignored), tail)
    decreases forest, 1
  {
    if forest != [] {
      var rest := PrintForest(env, forest[1..], tail);
      PrintForestHead(env, forest[1..], tail);
      ReadOne(env, ctx, forest[0], rest, children, ignored);
      match PruneOne(env, ctx, forest[0], children, ignored)
      case Err(_) =>
      case Ok((children', ignored')) =>
        ReadAll(env, ctx, forest[1..], tail, children', ignored');
    }
  }
}
