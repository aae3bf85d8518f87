/** What is said of a player animation script that goes wrong, and where:
    crates/asset_anim/src/playeranim_parse.rs. */
module PlayerAnimErrors {
  import opened Wrappers
  import opened AsciiNames
  import opened AtrSyntax
  import opened PlayerAnimModel
  import opened PlayerAnimDefine
  import opened PlayerAnimWritten
  import opened PlayerAnimScripts

  // ---------- commands ----------

  /** Ways in which a list of commands ends too early. */
  datatype WrongCommand =
    | NoEnd(tail: Tokens)
    | NoAnimation(part: Text, broken: bool, tail: Tokens)
    | NoBlendtime(part: Text, broken: bool, anim: Text, mods: seq<Mod>, word: Text, tail: Tokens)
    | NoModifier(part: Text, broken: bool, anim: Text, mods: seq<Mod>, word: Text, tail: Tokens)

  predicate IsWrongCommand(t: Tables, w: WrongCommand) {
    match w
    case NoEnd(tail) => !tail.Tok?
    case NoAnimation(part, _, tail) => part != "}" && PartOf(t, part).Some? && OnLine(tail) == ""
    case NoBlendtime(part, _, _, mods, word, tail) =>
      && part != "}" && PartOf(t, part).Some? && AllGood(t, mods)
      && Is(word, "blendtime") && t.parseInt(OnLine(tail)).None?
    case NoModifier(part, _, _, mods, word, tail) =>
      && part != "}" && PartOf(t, part).Some? && AllGood(t, mods)
      && IsNumberModifier(t, word) && !t.isFinite(OnLine(tail))
  }

  /** Good modifiers, each with its value. */
  predicate AllGood(t: Tables, mods: seq<Mod>) {
    forall i :: 0 <= i < |mods| ==> GoodMod(t, mods[i]) && !Valueless(mods[i])
  }

  function PrintWrongCommand(w: WrongCommand): Tokens {
    match w
    case NoEnd(tail) => tail
    case NoAnimation(part, broken, tail) => Tok(part, broken, tail)
    case NoBlendtime(part, broken, anim, mods, word, tail) => Tok(part, broken, Tok(anim, false, PrintMods(mods, Tok(word, false, tail))))
    case NoModifier(part, broken, anim, mods, word, tail) => Tok(part, broken, Tok(anim, false, PrintMods(mods, Tok(word, false, tail))))
  }

  function CommandComplaint(w: WrongCommand): ScriptError {
    match w
    case NoEnd(_) => UnterminatedCommands
    case NoAnimation(_, _, _) => ExpectedAnimation
    case NoBlendtime(_, _, _, _, _, _) => ExpectedBlendtime
    case NoModifier(_, _, _, _, _, _) => ExpectedModifier
  }

  /** Good modifiers are passed over. */
  lemma {:induction false} ModifiersUpTo(t: Tables, x: Extras, mods: seq<Mod>, tail: Tokens) returns (x': Extras)
    requires AllGood(t, mods)
    ensures Modifiers(t, x, PrintMods(mods, tail)) == Modifiers(t, x', tail)
    decreases |mods|
  {
    if mods == [] {
      x' := x;
    } else {
      var m := mods[0];
      WordsDiffer(m.word);
      var x1 := if m.Valued? && Is(m.word, "duration") then x.(duration := t.parseInt(m.value))
                else if m.Valued? && Is(m.word, "blendtime") then x.(blend := t.parseInt(m.value)) else x;
      assert GoodMod(t, m);
      assert Modifiers(t, x, PrintMods(mods, tail)) == Modifiers(t, x1, PrintMods(mods[1..], tail));
      x' := ModifiersUpTo(t, x1, mods[1..], tail);
    }
  }

  lemma WrongCommandRefused(t: Tables, skip: bool, l: Listed, w: WrongCommand)
    requires IsWrongCommand(t, w)
    ensures Commands(t, skip, l, PrintWrongCommand(w)) == Err(CommandComplaint(w))
  {
    if w.NoBlendtime? || w.NoModifier? {
      WordsDiffer(w.word);
      var x := ModifiersUpTo(t, Extras(None, None), w.mods, Tok(w.word, false, w.tail));
    }
  }

  /** Commands are refused for the first of them that goes wrong. */
  lemma {:induction false} CommandsRefused(t: Tables, skip: bool, l: Listed, lines: seq<CommandLine>, w: WrongCommand)
    requires GoodCommands(t, lines, PrintWrongCommand(w)) && IsWrongCommand(t, w)
    requires |l.commands| + |KnownLines(t, lines)| <= MAX_COMMANDS
    ensures Commands(t, skip, l, PrintCommands(lines, PrintWrongCommand(w))) == Err(CommandComplaint(w))
    decreases |lines|
  {
    if lines == [] {
      WrongCommandRefused(t, skip, l, w);
    } else {
      var line, rest := lines[0], PrintCommands(lines[1..], PrintWrongCommand(w));
      var x := Extras(Number(t, line.mods, "duration", None), Number(t, line.mods, "blendtime", None));
      OneCommand(t, skip, l, line, rest);
      var with := WithCommand(t, skip, l, PartOf(t, line.part).value, line.anim, x);
      CommandsRefused(t, skip, with.value, lines[1..], w);
    }
  }

  // ---------- items ----------

  /** A line of conditions that is followed by no block, and one with a word that is
      nothing, before any condition. */
  lemma ItemRefused(t: Tables, aliases: Aliases, clauses: seq<Clause>, tail: Tokens)
    requires GoodClauses(t, aliases, None, clauses) && EndsLine(tail)
    ensures !Speaks(clauses) ==> ItemAt(t, aliases, PrintClauses(clauses, tail)) == Err(NoConditions)
    ensures Speaks(clauses) && !(tail.Tok? && tail.text == "{") ==> ItemAt(t, aliases, PrintClauses(clauses, tail)) == Err(ExpectedBrace)
  {
    ConditionsRead(t, aliases, clauses, tail);
  }

  /** A word that is no condition, no value and no joining word. */
  predicate IsNothing(t: Tables, word: string) {
    && IsOwn(t, word) && word != ""
    && IndexCi(word, t.conditions).None? && !IsAnd(word) && !IsNegation(word)
  }

  /** Where no condition is open, such a word is refused in one syntax, and in the other
      makes the item one to skip. */
  lemma NothingSaid(t: Tables, aliases: Aliases, clauses: seq<Clause>, word: Text, tail: Tokens)
    requires GoodClauses(t, aliases, None, clauses) && (forall i :: 0 <= i < |clauses| ==> !clauses[i].Named?) && IsNothing(t, word)
    ensures !t.t5 ==> ItemAt(t, aliases, PrintClauses(clauses, Tok(word, false, tail))) == Err(UnknownCondition)
    ensures var r := ItemAt(t, aliases, PrintClauses(clauses, Tok(word, false, tail))); t.t5 && r.Ok? ==> r.value.0.item.skip
  {
    var ts := Tok(word, false, tail);
    var g := ClausesGathered(t, aliases, NOTHING_GATHERED, clauses, ts);
    NothingOpens(t, None, clauses);
    if t.t5 {
      var g' := GatherToken(t, aliases, g, word).value;
      TokenRead(t, aliases, g, word, tail);
      SkipStays(t, aliases, g', tail);
    }
  }

  lemma {:induction false} NothingOpens(t: Tables, before: Option<nat>, clauses: seq<Clause>)
    requires before.None? && forall i :: 0 <= i < |clauses| ==> !clauses[i].Named?
    ensures OpenAtEnd(t, before, clauses).None?
    decreases |clauses|
  {
    if clauses != [] {
      NothingOpens(t, StillOpen(t, before, clauses[0]), clauses[1..]);
    }
  }

  /** Once skipped, an item stays so. */
  lemma {:induction false} SkipStays(t: Tables, aliases: Aliases, g: Gathered, ts: Tokens)
    requires g.skip
    ensures var r := Conditions(t, aliases, g, ts); r.Ok? ==> r.value.0.skip
    decreases Size(ts)
  {
    var token := OnLine(ts);
    if token != "" && token != "{" {
      if IsPose(t, token) {
        var rest := AfterOnLine(ts);
        SkipStays(t, aliases, GatherPose(g, token, OnLine(rest)), AfterOnLine(rest));
      } else if GatherToken(t, aliases, g, token).Ok? {
        SkipStays(t, aliases, GatherToken(t, aliases, g, token).value, AfterOnLine(ts));
      }
    }
  }

  // ---------- lists, states and definitions ----------

  /** The item after the last that a list may hold. */
  lemma ListIsFull(t: Tables, c: Cursor, events: bool, item: ListItem, tail: Tokens)
    requires Filling(c, events) && |Filled(c, events)| == MAX_ITEMS && GoodListItem(t, c.aliases, item)
    ensures ScriptFrom(t, c, PrintListItem(item, tail)) == Err(TooManyItems)
  {
    PrintedItemReads(t, c.aliases, item, tail);
    var ts := PrintListItem(item, tail);
    assert Turn(t, c, ts) == Err(TooManyItems);
  }

  /** Between states: what does not begin one, and one without a name. */
  lemma StateRefused(t: Tables, c: Cursor, word: Text, broken: bool, tail: Tokens)
    requires AtRest(c, ANIMATIONS) && Opens(word)
    ensures !Is(word, "state") ==> ScriptFrom(t, c, Tok(word, broken, tail)) == Err(ExpectedState)
    ensures Is(word, "state") && OnLine(tail) == "" ==> ScriptFrom(t, c, Tok(word, broken, tail)) == Err(ExpectedStateType)
  {}

  /** A closing brace too many, and an opening one too many. */
  lemma BracesRefused(t: Tables, c: Cursor, broken: bool, tail: Tokens)
    requires c.mode == ANIMATIONS || c.mode == EVENTS
    ensures c.indent == 0 ==> ScriptFrom(t, c, Tok("}", broken, tail)) == Err(UnexpectedClose)
    ensures c.indent >= 3 ==> ScriptFrom(t, c, Tok("{", broken, tail)) == Err(UnexpectedOpen)
  {
    NotAMode();
  }

  /** A definition without its equals sign, or of no known condition: that one is
      passed over in one syntax and refused in the other. */
  lemma DefinitionRefused(t: Tables, c: Cursor, word: Text, broken: bool, tail: Tokens)
    requires AtRest(c, DEFINES) && Opens(word) && Is(word, "set")
    ensures var known := IndexCi(OnLine(tail), t.conditions).Some?;
            && (!known && !t.t5 ==> ScriptFrom(t, c, Tok(word, broken, tail)) == Err(UnknownDefine))
            && (!known && t.t5 ==> ScriptFrom(t, c, Tok(word, broken, tail)) == ScriptFrom(t, c, AfterLine(AfterOnLine(tail))))
            && (known && OnLine(AfterOnLine(AfterOnLine(tail))) != "=" ==> ScriptFrom(t, c, Tok(word, broken, tail)) == Err(ExpectedEquals))
  {
    if IndexCi(OnLine(tail), t.conditions).None? && t.t5 {
      Step(t, c, Tok(word, broken, tail), c, AfterLine(AfterOnLine(tail)));
    }
  }
}
