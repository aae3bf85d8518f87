/** The selection, said about the source tree alone: which nodes stay, what an
    emptied branch is filled with, and how many nodes count as ignored. */
module AtrDeclared {
  import opened Wrappers
  import opened AsciiNames
  import opened AtrSyntax
  import opened AtrPrune
  import opened AtrTheorem

  predicate Selected(env: Env, complete: bool, s: Source) {
    complete || Lower(s.name) in env.names
  }

  predicate Marks(s: Source, p: Property) {
    s.Branch? && s.props.Some? && Lists(s.props.value, p)
  }

  predicate Lists(props: seq<string>, p: Property) {
    exists i :: 0 <= i < |props| && Names(props[i], p)
  }

  /** The word for a property, letter case aside; two words stand for what is not
      supported. */
  predicate Names(word: string, p: Property) {
    match p
    case LoopSync => EqualsIgnoreCase(word, "loopsync")
    case NonLoopSync => EqualsIgnoreCase(word, "nonloopsync")
    case Complete => EqualsIgnoreCase(word, "complete")
    case Additive => EqualsIgnoreCase(word, "additive")
    case Unsupported => EqualsIgnoreCase(word, "client") || EqualsIgnoreCase(word, "separate")
  }

  /** The word decides the property, and no word names two. */
  lemma NamesExact(word: string, p: Property)
    ensures PropertyOf(word) == Some(p) <==> Names(word, p)
  {
    var l, c, a, s := LowerChar("loopsync"[0]), LowerChar("complete"[0]), LowerChar("additive"[0]), LowerChar("separate"[0]);
    assert l == 'l' && c == 'c' && a == 'a' && s == 's';
  }

  /** Everything below a selected branch marked complete is selected. */
  predicate CompleteBelow(env: Env, complete: bool, s: Source) {
    complete || (Selected(env, complete, s) && Marks(s, Complete))
  }

  function Filler(s: Source): Anim {
    LeafAnim(if Marks(s, LoopSync) then "void_loop" else "void")
  }

  /** What is left of a source node: a leaf stays iff it is selected; an unselected
      branch stays iff something below it does; a selected branch always stays. */
  function Kept(env: Env, complete: bool, s: Source): seq<Anim>
    decreases s
  {
    var selected := Selected(env, complete, s);
    match s
    case Leaf(name, _) => if selected then [LeafAnim(Lower(name))] else []
    case Branch(name, _, props, children) =>
      var below := KeptAll(env, CompleteBelow(env, complete, s), children);
      if below != [] then [Anim(Lower(name), Flags(props), below)]
      else if selected then [Anim(Lower(name), Flags(props), [Filler(s)])]
      else []
  }

  function KeptAll(env: Env, complete: bool, forest: seq<Source>): seq<Anim>
    decreases forest
  {
    if forest == [] then [] else Kept(env, complete, forest[0]) + KeptAll(env, complete, forest[1..])
  }

  /** The number of unselected source nodes. */
  function Unselected(env: Env, complete: bool, s: Source): nat
    decreases s
  {
    (if Selected(env, complete, s) then 0 else 1)
    + (if s.Branch? then UnselectedAll(env, CompleteBelow(env, complete, s), s.children) else 0)
  }

  function UnselectedAll(env: Env, complete: bool, forest: seq<Source>): nat
    decreases forest
  {
    if forest == [] then 0 else Unselected(env, complete, forest[0]) + UnselectedAll(env, complete, forest[1..])
  }

  predicate DistinctNames(forest: seq<Source>) {
    forall i, j :: 0 <= i < j < |forest| ==> Lower(forest[i].name) != Lower(forest[j].name)
  }

  /** Sibling names differ, and no branch that stays is marked client or separate. */
  predicate Clean(env: Env, complete: bool, s: Source)
    decreases s
  {
    s.Branch? ==>
      && (Marks(s, Unsupported) ==> Kept(env, complete, s) == [])
      && CleanAll(env, CompleteBelow(env, complete, s), s.children)
  }

  predicate CleanAll(env: Env, complete: bool, forest: seq<Source>)
    decreases forest
  {
    && DistinctNames(forest)
    && (forest != [] ==> Clean(env, complete, forest[0]) && CleanAll(env, complete, forest[1..]))
  }

  // ---------- flags ----------

  lemma BitsDiffer(p: Property, q: Property)
    ensures Has(Bit(p), Bit(q)) <==> p == q
  {}

  lemma {:induction false} HasOr(a: bv16, b: bv16, c: bv16)
    ensures Has(a | b, c) <==> Has(a, c) || Has(b, c)
  {
    assert (a | b) & c == (a & c) | (b & c);
  }

  lemma {:induction false} WithBit(flags: bv16, q: Property, p: Property)
    ensures Has(flags | Bit(q), Bit(p)) <==> Has(flags, Bit(p)) || q == p
  {
    HasOr(flags, Bit(q), Bit(p));
    BitsDiffer(q, p);
  }

  lemma {:induction false} ListsStep(props: seq<string>, p: Property)
    requires props != []
    ensures Lists(props, p) <==> PropertyOf(props[0]) == Some(p) || Lists(props[1..], p)
  {
    var rest := props[1..];
    NamesExact(props[0], p);
    if Lists(rest, p) {
      var i :| 0 <= i < |rest| && Names(rest[i], p);
      assert props[i + 1] == rest[i];
    }
    if Lists(props, p) && PropertyOf(props[0]) != Some(p) {
      var i :| 0 <= i < |props| && Names(props[i], p);
      assert rest[i - 1] == props[i];
    }
  }

  lemma {:induction false} FlagsFromExact(props: seq<string>, flags: bv16, p: Property)
    ensures Has(FlagsFrom(props, flags), Bit(p)) <==> Has(flags, Bit(p)) || Lists(props, p)
    decreases |props|
  {
    if props != [] {
      ListsStep(props, p);
      match PropertyOf(props[0])
      case None =>
        FlagsFromExact(props[1..], flags, p);
      case Some(q) =>
        FlagsFromExact(props[1..], flags | Bit(q), p);
        WithBit(flags, q, p);
    }
  }

  lemma {:induction false} AnyUnsupportedExact(props: seq<string>)
    ensures AnyUnsupported(props) <==> Lists(props, Unsupported)
    decreases |props|
  {
    if props != [] {
      ListsStep(props, Unsupported);
      AnyUnsupportedExact(props[1..]);
    }
  }

  /** A flag bit is set exactly if one of the property words names it. */
  lemma {:induction false} FlagsExact(s: Source, p: Property)
    requires s.Branch?
    ensures Has(Flags(s.props), Bit(p)) <==> Marks(s, p)
    ensures MarksUnsupported(s.props) <==> Marks(s, Unsupported)
  {
    if s.props.Some? {
      FlagsFromExact(s.props.value, 0, p);
      AnyUnsupportedExact(s.props.value);
    }
  }

  // ---------- the fold and the declaration agree ----------

  predicate Apart(children: seq<Anim>, forest: seq<Source>) {
    forall i, j :: 0 <= i < |children| && 0 <= j < |forest| ==> children[i].name != Lower(forest[j].name)
  }

  lemma KeptNames(env: Env, complete: bool, s: Source)
    ensures |Kept(env, complete, s)| <= 1
    ensures forall i :: 0 <= i < |Kept(env, complete, s)| ==> Kept(env, complete, s)[i].name == Lower(s.name)
  {}

  lemma {:induction false} PruneOneDeclared(env: Env, ctx: Context, s: Source, children: seq<Anim>, ignored: nat)
    requires Clean(env, ctx.complete, s) && !Named(children, Lower(s.name))
    ensures PruneOne(env, ctx, s, children, ignored) == Ok((children + Kept(env, ctx.complete, s), ignored + Unselected(env, ctx.complete, s)))
    decreases s, 0
  {
    var ignore := Ignored(env, ctx, Lower(s.name));
    assert children + [] == children;
    assert ignore <==> !Selected(env, ctx.complete, s);
    if s.Branch? {
      FlagsExact(s, LoopSync);
      FlagsExact(s, Complete);
      FlagsExact(s, Unsupported);
      var ctx' := ChildContext(ctx, Flags(s.props), ignore);
      assert ctx'.complete == CompleteBelow(env, ctx.complete, s);
      PruneAllDeclared(env, ctx', s.children, [], ignored);
      var below := KeptAll(env, ctx'.complete, s.children);
      assert [] + below == below;
      PruneBlockDeclared(env, ctx, s, below, children, ignored);
    }
  }

  lemma {:induction false} PruneBlockDeclared(env: Env, ctx: Context, s: Source, below: seq<Anim>,
          children: seq<Anim>, ignored: nat)
    requires s.Branch? && Clean(env, ctx.complete, s)
    requires below == KeptAll(env, CompleteBelow(env, ctx.complete, s), s.children)
    requires var ctx' := ChildContext(ctx, Flags(s.props), Ignored(env, ctx, Lower(s.name)));
             PruneAll(env, ctx', s.children, [], ignored) == Ok((below, ignored + UnselectedAll(env, CompleteBelow(env, ctx.complete, s), s.children)))
    requires Has(Flags(s.props), LOOPSYNC) <==> Marks(s, LoopSync)
    requires Has(Flags(s.props), UNSUPPORTED_BRANCH) <==> Marks(s, Unsupported)
    ensures PruneBlock(env, ctx, Lower(s.name), Flags(s.props), Ignored(env, ctx, Lower(s.name)), s.children, children, ignored)
            == Ok((children + Kept(env, ctx.complete, s), ignored + Unselected(env, ctx.complete, s)))
  {
    if Kept(env, ctx.complete, s) == [] {
      assert children + [] == children;
    }
  }

  lemma {:induction false} PruneAllDeclared(env: Env, ctx: Context, forest: seq<Source>, children: seq<Anim>,
          ignored: nat)
    requires CleanAll(env, ctx.complete, forest) && Apart(children, forest)
    ensures PruneAll(env, ctx, forest, children, ignored) == Ok((children + KeptAll(env, ctx.complete, forest), ignored + UnselectedAll(env, ctx.complete, forest)))
    decreases forest, 1
  {
    if forest == [] {
      assert children + [] == children;
    } else {
      var s := forest[0];
      PruneOneDeclared(env, ctx, s, children, ignored);
      KeptNames(env, ctx.complete, s);
      var children' := children + Kept(env, ctx.complete, s);
      assert Apart(children', forest[1..]);
      PruneAllDeclared(env, ctx, forest[1..], children', ignored + Unselected(env, ctx.complete, s));
      assert children' + KeptAll(env, ctx.complete, forest[1..]) == children + KeptAll(env, ctx.complete, forest);
    }
  }

  /** What the whole input should come out as. */
  function Declared(env: Env, forest: seq<Source>): (seq<Anim>, nat) {
    (Finished(KeptAll(env, false, forest), TOP), UnselectedAll(env, false, forest))
  }

  lemma {:induction false} KeptSplit(env: Env, complete: bool, forest: seq<Source>)
    requires forest != []
    ensures KeptAll(env, complete, forest) == KeptAll(env, complete, forest[..|forest| - 1]) + Kept(env, complete, forest[|forest| - 1])
    decreases |forest|
  {
    var init := forest[..|forest| - 1];
    if |forest| == 1 {
      assert init == [] && forest[1..] == [];
    } else {
      KeptSplit(env, complete, forest[1..]);
      assert forest[1..][..|forest[1..]| - 1] == init[1..];
      assert KeptAll(env, complete, init) == Kept(env, complete, forest[0]) + KeptAll(env, complete, init[1..]);
    }
  }

  lemma {:induction false} UnselectedSplit(env: Env, complete: bool, forest: seq<Source>)
    requires forest != []
    ensures UnselectedAll(env, complete, forest) == UnselectedAll(env, complete, forest[..|forest| - 1]) + Unselected(env, complete, forest[|forest| - 1])
    decreases |forest|
  {
    var init := forest[..|forest| - 1];
    if |forest| == 1 {
      assert init == [] && forest[1..] == [];
    } else {
      UnselectedSplit(env, complete, forest[1..]);
      assert forest[1..][..|forest[1..]| - 1] == init[1..];
      assert UnselectedAll(env, complete, init) == Unselected(env, complete, forest[0]) + UnselectedAll(env, complete, init[1..]);
    }
  }

  lemma {:induction false} CleanInit(env: Env, complete: bool, forest: seq<Source>)
    requires forest != [] && CleanAll(env, complete, forest)
    ensures CleanAll(env, complete, forest[..|forest| - 1])
    decreases |forest|
  {
    var init := forest[..|forest| - 1];
    if |forest| > 1 {
      CleanInit(env, complete, forest[1..]);
      assert forest[1..][..|forest[1..]| - 1] == init[1..];
    }
  }

  lemma {:induction false} DistinctFromInit(env: Env, forest: seq<Source>)
    requires CleanAll(env, false, forest) && forest != []
    ensures !Named(KeptAll(env, false, forest[..|forest| - 1]), Lower(forest[|forest| - 1].name))
  {
    KeptAllNames(env, false, forest[..|forest| - 1]);
  }

  predicate NamedBy(forest: seq<Source>, name: string) {
    exists j :: 0 <= j < |forest| && name == Lower(forest[j].name)
  }

  lemma {:induction false} KeptAllNames(env: Env, complete: bool, forest: seq<Source>)
    ensures forall i :: 0 <= i < |KeptAll(env, complete, forest)| ==> NamedBy(forest, KeptAll(env, complete, forest)[i].name)
    decreases |forest|
  {
    if forest != [] {
      KeptNames(env, complete, forest[0]);
      KeptAllNames(env, complete, forest[1..]);
      var kept := Kept(env, complete, forest[0]);
      var rest := KeptAll(env, complete, forest[1..]);
      var all: seq<Anim> := kept + rest;
      forall i | 0 <= i < |all|
        ensures NamedBy(forest, all[i].name)
      {
        if i < |kept| {
          assert all[i].name == Lower(forest[0].name);
        } else {
          assert NamedBy(forest[1..], rest[i - |kept|].name);
          var j :| 0 <= j < |forest[1..]| && rest[i - |kept|].name == Lower(forest[1..][j].name);
          assert all[i].name == Lower(forest[j + 1].name);
        }
      }
    }
  }

  /** Parsing the printed tree yields the declared pruning and the declared count,
      exactly if the input ends in a block, or ends in a leaf that would have been
      filled in anyway. Otherwise the last leaf is lost. */
  lemma {:induction false} ParseIsDeclared(env: Env, forest: seq<Source>, ts: Tokens)
    requires PrintsTo(env, forest, ts) && CleanAll(env, false, forest)
    ensures ParseTokens(env, ts) == Ok(Declared(env, forest))
            <==> (!EndsInLeaf(forest)
                  || (Kept(env, false, forest[|forest| - 1]) == [LeafAnim("void")] && KeptAll(env, false, forest[..|forest| - 1]) == []))
    ensures ParseTokens(env, ts)
            == Ok(Declared(env, if EndsInLeaf(forest) then forest[..|forest| - 1] else forest))
  {
    FirstBreakIsFree(env, ts);
    ReadTop(env, forest);
    if EndsInLeaf(forest) {
      var init := forest[..|forest| - 1];
      KeptSplit(env, false, forest);
      UnselectedSplit(env, false, forest);
      PruneTopDeclared(env, forest);
      LastLeafMatters(env, KeptAll(env, false, init), forest[|forest| - 1]);
    } else {
      PruneTopDeclared(env, forest);
    }
  }

  lemma {:induction false} PruneTopDeclared(env: Env, forest: seq<Source>)
    requires CleanAll(env, false, forest)
    ensures PruneTop(env, forest) == Ok(Declared(env, if EndsInLeaf(forest) then forest[..|forest| - 1] else forest))
  {
    var read := if EndsInLeaf(forest) then forest[..|forest| - 1] else forest;
    if EndsInLeaf(forest) {
      CleanInit(env, false, forest);
      DistinctFromInit(env, forest);
    }
    PruneReadDeclared(env, read);
  }

  lemma PruneReadDeclared(env: Env, read: seq<Source>)
    requires CleanAll(env, false, read)
    ensures PruneAll(env, TOP, read, [], 0) == Ok((KeptAll(env, false, read), UnselectedAll(env, false, read)))
  {
    PruneAllDeclared(env, TOP, read, [], 0);
    assert [] + KeptAll(env, false, read) == KeptAll(env, false, read);
  }

  lemma {:induction false} LastLeafMatters(env: Env, kept: seq<Anim>, leaf: Source)
    requires leaf.Leaf?
    ensures Finished(kept, TOP) == Finished(kept + Kept(env, false, leaf), TOP) && Unselected(env, false, leaf) == 0
            <==> Kept(env, false, leaf) == [LeafAnim("void")] && kept == []
  {
    if kept == [] {
      assert [] + Kept(env, false, leaf) == Kept(env, false, leaf);
    }
  }

  /** A file that is one selected name is read as an empty tree, filled with "void". */
  lemma {:induction false} OnlyLeafIsLost(env: Env)
    requires env.names == {"idle"}
    ensures ParseTokens(env, Tok("idle", true, Eof)) == Ok(([LeafAnim("void")], 0))
    ensures Declared(env, [Leaf("idle", None)]) == ([LeafAnim("idle")], 0)
  {
    assert Lower("idle") == "idle";
    var forest := [Leaf("idle", None)];
    assert forest[1..] == [];
    assert KeptAll(env, false, forest[1..]) == [];
    assert Kept(env, false, forest[0]) == [LeafAnim("idle")];
    assert KeptAll(env, false, forest) == [LeafAnim("idle")];
    assert UnselectedAll(env, false, forest[1..]) == 0 && Unselected(env, false, forest[0]) == 0;
  }
}
