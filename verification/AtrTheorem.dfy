/** The parser accepts exactly the printed trees, and its result is the pruning
    that the selection asks for, said without any parser. */
module AtrTheorem {
  import opened Wrappers
  import opened AsciiNames
  import opened AtrSyntax
  import opened AtrPrune

  const TOP := Context(true, false, false)

  // ---------- every accepted text is a printed tree ----------

  function Closer(eof: bool, rest: Tokens): Tokens {
    if eof then Eof else Tok("}", true, rest)
  }

  lemma {:induction false} SoundAnnotation(env: Env, ts: Tokens) returns (turn: Option<Turn>)
    requires !env.isFinite("") && Annotation(env, ts).Ok?
    ensures GoodTurn(env, turn) && ts == PrintTurn(turn, Annotation(env, ts).value)
  {
    if OnLine(ts) != "[" {
      turn := None;
    } else {
      var ts1 := AfterOnLine(ts);
      var ts2 := AfterOnLine(ts1);
      var ts3 := AfterOnLine(ts2);
      var ts4 := AfterOnLine(ts3);
      turn := Some(Turn(OnLine(ts1), OnLine(ts3)));
      assert OnLine(ts1) != "" && OnLine(ts3) != "";
      assert ts == Word("[", ts1) && ts1 == Word(OnLine(ts1), ts2) && ts2 == Word("=", ts3);
      assert ts3 == Word(OnLine(ts3), ts4) && ts4 == Word("]", AfterOnLine(ts4));
    }
  }

  lemma {:induction false} SoundProperties(ts: Tokens, ignore: bool, flags: bv16) returns (props: seq<string>)
    requires Properties(ts, ignore, flags).Ok?
    ensures GoodProps(props) && LineStart(Properties(ts, ignore, flags).value.1)
    ensures ts == PrintWords(props, Properties(ts, ignore, flags).value.1)
    decreases Size(ts)
  {
    if OnLine(ts) == "" {
      props := [];
    } else {
      var p := PropertyOf(OnLine(ts)).value;
      PropertyTaken(ts, ignore, flags, p);
      var rest := SoundProperties(AfterOnLine(ts), ignore, flags | Bit(p));
      props := [OnLine(ts)] + rest;
      assert ts == Word(OnLine(ts), AfterOnLine(ts));
    }
  }

  lemma {:induction false} SoundItems(env: Env, ctx: Context, ts: Tokens, children: seq<Anim>, ignored: nat)
    returns (forest: seq<Source>)
    requires !env.isFinite("") && LineStart(ts) && Items(env, ctx, ts, children, ignored).Ok?
    ensures GoodForest(env, forest)
    ensures var p := Items(env, ctx, ts, children, ignored).value;
            ts == PrintForest(env, forest, Closer(p.eof, p.rest)) && (p.eof || LineStart(p.rest))
    decreases Size(ts), 3
  {
    if ts.Tok? && IsIdentifier(ts.text) {
      forest := SoundItem(env, ctx, ts.text, ts.tail, children, ignored);
    } else {
      forest := [];
    }
  }

  lemma {:induction false} SoundItem(env: Env, ctx: Context, text: Text, ts: Tokens, children: seq<Anim>,
          ignored: nat)
    returns (forest: seq<Source>)
    requires !env.isFinite("") && IsIdentifier(text) && Item(env, ctx, Lower(text), ts, children, ignored).Ok?
    ensures GoodForest(env, forest)
    ensures var p := Item(env, ctx, Lower(text), ts, children, ignored).value;
            Tok(text, true, ts) == PrintForest(env, forest, Closer(p.eof, p.rest)) && (p.eof || LineStart(p.rest))
    decreases Size(ts), 6
  {
    var name := Lower(text);
    var ignore := Ignored(env, ctx, name);
    var turn := SoundAnnotation(env, ts);
    var ts1 := Annotation(env, ts).value;
    if OnLine(ts1) == "" {
      forest := SoundPending(env, ctx, text, turn, ts1, children, ignored);
    } else {
      Punctuation();
      var ts2 := AfterOnLine(ts1);
      var props := SoundProperties(ts2, ignore, 0);
      var ts3 := Properties(ts2, ignore, 0).value.1;
      var below, after := SoundBlock(env, ctx, name, Properties(ts2, ignore, 0).value.0, ignore, ts3.tail, children, ignored);
      forest := [Branch(text, turn, Some(props), below)] + after;
      assert forest[1..] == after;
      assert ts1 == Word(":", ts2);
    }
  }

  lemma {:induction false} SoundPending(env: Env, ctx: Context, text: Text, turn: Option<Turn>, ts: Tokens,
          children: seq<Anim>, ignored: nat)
    returns (forest: seq<Source>)
    requires !env.isFinite("") && IsIdentifier(text) && GoodTurn(env, turn) && LineStart(ts)
    requires Pending(env, ctx, Lower(text), Ignored(env, ctx, Lower(text)), ts, children, ignored).Ok?
    ensures GoodForest(env, forest)
    ensures var p := Pending(env, ctx, Lower(text), Ignored(env, ctx, Lower(text)), ts, children, ignored).value;
            Tok(text, true, PrintTurn(turn, ts)) == PrintForest(env, forest, Closer(p.eof, p.rest)) && (p.eof || LineStart(p.rest))
    decreases Size(ts), 5
  {
    var ignore := Ignored(env, ctx, Lower(text));
    if ts.Tok? && ts.text == "{" {
      var below, after := SoundBlock(env, ctx, Lower(text), 0, ignore, ts.tail, children, ignored);
      forest := [Branch(text, turn, None, below)] + after;
      assert forest[1..] == after;
    } else if ts.Eof? {
      forest := [Leaf(text, turn)];
    } else {
      var after := SoundItems(env, ctx, ts, Flushed(children, Lower(text), ignore), FlushedCount(ignored, ignore));
      forest := [Leaf(text, turn)] + after;
      assert forest[1..] == after;
    }
  }

  lemma {:induction false} SoundBlock(env: Env, ctx: Context, name: string, flags: bv16, ignore: bool,
          ts: Tokens, children: seq<Anim>, ignored: nat)
    returns (below: seq<Source>, after: seq<Source>)
    requires !env.isFinite("") && Block(env, ctx, name, flags, ignore, ts, children, ignored).Ok?
    ensures GoodForest(env, below) && GoodForest(env, after)
    ensures var p := Block(env, ctx, name, flags, ignore, ts, children, ignored).value;
            && ts == PrintForest(env, below, Tok("}", true, PrintForest(env, after, Closer(p.eof, p.rest))))
            && (p.eof || LineStart(p.rest))
    decreases Size(ts), 4
  {
    var nested := Items(env, ChildContext(ctx, flags, ignore), ts, [], ignored).value;
    below := SoundItems(env, ChildContext(ctx, flags, ignore), ts, [], ignored);
    after := SoundItems(env, ctx, nested.rest, Closed(children, name, flags, nested.children).value, ClosedCount(nested.ignored, nested.children, ignore));
  }

  // ---------- the whole input ----------

  /** Pruning of the whole input: a leaf with nothing after it is read but dropped. */
  function PruneTop(env: Env, forest: seq<Source>): Result<(seq<Anim>, nat), Error> {
    var read := if EndsInLeaf(forest) then forest[..|forest| - 1] else forest;
    match PruneAll(env, TOP, read, [], 0)
    case Err(error) => Err(error)
    case Ok((children, ignored)) =>
      if EndsInLeaf(forest) && Named(children, Lower(forest[|forest| - 1].name)) then
        Err(DuplicateAnimation(Lower(forest[|forest| - 1].name)))
      else Ok((Finished(children, TOP), ignored))
  }

  lemma {:induction false} PrintSplit(env: Env, forest: seq<Source>, tail: Tokens)
    requires GoodForest(env, forest) && forest != []
    ensures GoodForest(env, forest[..|forest| - 1]) && Good(env, forest[|forest| - 1])
    ensures PrintForest(env, forest, tail) == PrintForest(env, forest[..|forest| - 1], Print(env, forest[|forest| - 1], tail))
    decreases |forest|
  {
    if |forest| == 1 {
      assert forest[1..] == [] && forest[..0] == [];
    } else {
      var rest := forest[1..];
      PrintSplit(env, rest, tail);
      assert rest[..|rest| - 1] == forest[..|forest| - 1][1..];
    }
  }

  lemma {:induction false} ReadLastLeaf(env: Env, leaf: Source, children: seq<Anim>, ignored: nat)
    requires Good(env, leaf) && leaf.Leaf?
    ensures ClosesLeaf(Print(env, leaf, Eof))
    ensures Items(env, TOP, Print(env, leaf, Eof), children, ignored)
            == if Named(children, Lower(leaf.name)) then Err(DuplicateAnimation(Lower(leaf.name)))
               else Ok(Parsed(Finished(children, TOP), true, Eof, ignored))
  {
    NotPunctuation(leaf.name);
    ReadTurn(env, leaf.turn, Eof);
    var line := PrintTurn(leaf.turn, Eof);
    var name := Lower(leaf.name);
    assert Items(env, TOP, Print(env, leaf, Eof), children, ignored) == Item(env, TOP, name, line, children, ignored);
    if !Named(children, name) {
      assert Annotation(env, line) == Ok(Eof) && OnLine(Eof) == "";
      assert Item(env, TOP, name, line, children, ignored) == Pending(env, TOP, name, Ignored(env, TOP, name), Eof, children, ignored);
    }
  }

  /** The tokens as if the text began with a line break. */
  function FromLineStart(ts: Tokens): Tokens {
    if ts.Tok? then ts.(newline := true) else ts
  }

  /** Whether a line break comes before the first token does not matter. */
  lemma FirstBreakIsFree(env: Env, ts: Tokens)
    ensures ParseTokens(env, FromLineStart(ts)) == ParseTokens(env, ts)
  {}

  /** Reading a printed input is pruning its tree. */
  lemma {:induction false} ReadTop(env: Env, forest: seq<Source>)
    requires GoodForest(env, forest)
    ensures ParseTokens(env, PrintForest(env, forest, Eof)) == PruneTop(env, forest)
  {
    if EndsInLeaf(forest) {
      PrintSplit(env, forest, Eof);
      var leaf := forest[|forest| - 1];
      var read := forest[..|forest| - 1];
      ReadLastLeaf(env, leaf, [], 0);
      ReadAll(env, TOP, read, Print(env, leaf, Eof), [], 0);
      match PruneAll(env, TOP, read, [], 0)
      case Err(_) =>
      case Ok((children, ignored)) =>
        ReadLastLeaf(env, leaf, children, ignored);
    } else {
      ReadAll(env, TOP, forest, Eof, [], 0);
    }
  }

  /** The tokens are those of the forest; before the first there need be no line break. */
  predicate PrintsTo(env: Env, forest: seq<Source>, ts: Tokens) {
    GoodForest(env, forest) && FromLineStart(ts) == PrintForest(env, forest, Eof)
  }

  /** The input is accepted exactly if it is the text of a tree whose pruning
      succeeds, and the result is that pruning. */
  lemma {:induction false} AcceptsPrintedTrees(env: Env, ts: Tokens, result: (seq<Anim>, nat))
    requires !env.isFinite("")
    ensures ParseTokens(env, ts) == Ok(result) <==>
            exists forest :: PrintsTo(env, forest, ts) && PruneTop(env, forest) == Ok(result)
  {
    FirstBreakIsFree(env, ts);
    if ParseTokens(env, ts) == Ok(result) {
      var forest := SoundItems(env, TOP, FromLineStart(ts), [], 0);
      ReadTop(env, forest);
      assert PrintsTo(env, forest, ts) && PruneTop(env, forest) == Ok(result);
    }
    forall forest | PrintsTo(env, forest, ts) && PruneTop(env, forest) == Ok(result)
      ensures ParseTokens(env, ts) == Ok(result)
    {
      ReadTop(env, forest);
    }
  }
}
