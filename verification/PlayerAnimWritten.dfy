/** Items as they are written: what the lines of an item of
    crates/asset_anim/src/playeranim_parse.rs say, and that the parser reads just that. */
module PlayerAnimWritten {
  import opened Wrappers
  import opened AsciiNames
  import opened AtrSyntax
  import opened PlayerAnimModel
  import opened PlayerAnimDefine

  // ---------- modifiers ----------

  /** A modifier of a command, with its value; without one only where the line ends. */
  datatype Mod = Valued(word: Text, value: string) | Bare(word: Text)

  predicate Is(word: string, name: string) {
    EqualsIgnoreCase(word, name)
  }

  predicate TakesValue(t: Tables, word: string) {
    Is(word, "duration") || Is(word, "blendtime") || Is(word, "sound") || IsNumberModifier(t, word)
  }

  predicate IsModifier(t: Tables, word: string) {
    TakesValue(t, word) || IsBareModifier(t, word)
  }

  predicate GoodMod(t: Tables, m: Mod) {
    match m
    case Bare(word) => IsBareModifier(t, word) && !TakesValue(t, word)
    case Valued(word, value) =>
      && TakesValue(t, word)
      && (Is(word, "blendtime") ==> t.parseInt(value).Some?)
      && (IsNumberModifier(t, word) ==> t.isFinite(value))
  }

  predicate Valueless(m: Mod) {
    m.Valued? && m.value == ""
  }

  predicate GoodMods(t: Tables, mods: seq<Mod>, tail: Tokens) {
    && (forall i :: 0 <= i < |mods| ==> GoodMod(t, mods[i]))
    && (forall i :: 0 <= i < |mods| && Valueless(mods[i]) ==> i == |mods| - 1 && LineStart(tail))
  }

  function PrintMods(mods: seq<Mod>, tail: Tokens): Tokens {
    if mods == [] then tail
    else
      var rest := PrintMods(mods[1..], tail);
      Tok(mods[0].word, false, if mods[0].Bare? || mods[0].value == "" then rest else Tok(mods[0].value, false, rest))
  }

  /** The line is over, or goes on with something that is no modifier. */
  predicate Stops(t: Tables, tail: Tokens) {
    OnLine(tail) == "" || !IsModifier(t, OnLine(tail))
  }

  /** The value of the last modifier of that name. */
  function LastValue(mods: seq<Mod>, name: string): Option<string> {
    if mods == [] then None
    else
      var last := mods[|mods| - 1];
      if last.Valued? && Is(last.word, name) then Some(last.value) else LastValue(mods[..|mods| - 1], name)
  }

  /** The number it gives, if it is there and is one. */
  function Number(t: Tables, mods: seq<Mod>, name: string, otherwise: Option<int>): Option<int> {
    match LastValue(mods, name)
    case None => otherwise
    case Some(value) => t.parseInt(value)
  }

  lemma {:induction false} LastOfTail(mods: seq<Mod>, name: string)
    requires mods != []
    ensures LastValue(mods, name)
         == match LastValue(mods[1..], name)
            case Some(value) => Some(value)
            case None => if mods[0].Valued? && Is(mods[0].word, name) then Some(mods[0].value) else None
    decreases |mods|
  {
    var init := mods[..|mods| - 1];
    if |mods| == 1 {
      assert init == [] && mods[1..] == [];
    } else {
      LastOfTail(init, name);
      assert mods[1..][..|mods| - 2] == init[1..];
    }
  }

  lemma WordsDiffer(word: string)
    ensures !(Is(word, "duration") && (Is(word, "blendtime") || Is(word, "sound") || Is(word, "blendouttime") || Is(word, "animrate")))
    ensures !(Is(word, "blendtime") && (Is(word, "sound") || Is(word, "blendouttime") || Is(word, "animrate")))
    ensures !(Is(word, "sound") && (Is(word, "blendouttime") || Is(word, "animrate")))
  {
    assert LowerChar("animrate"[0]) != LowerChar("duration"[0]);
  }

  lemma NumberOfTail(t: Tables, mods: seq<Mod>, name: string, otherwise: Option<int>)
    requires mods != []
    ensures Number(t, mods, name, otherwise)
            == Number(t, mods[1..], name, if mods[0].Valued? && Is(mods[0].word, name) then t.parseInt(mods[0].value) else otherwise)
  {
    LastOfTail(mods, name);
  }

  /** The modifiers of a command are read to the first word that is none, and the last
      duration and the last blend time count. */
  lemma {:induction false} ModifiersRead(t: Tables, x: Extras, mods: seq<Mod>, tail: Tokens)
    requires GoodMods(t, mods, tail) && Stops(t, tail)
    ensures Modifiers(t, x, PrintMods(mods, tail))
            == Ok((Extras(Number(t, mods, "duration", x.duration), Number(t, mods, "blendtime", x.blend)), tail))
    decreases |mods|
  {
    if mods != [] {
      var m, rest := mods[0], PrintMods(mods[1..], tail);
      WordsDiffer(m.word);
      NumberOfTail(t, mods, "duration", x.duration);
      NumberOfTail(t, mods, "blendtime", x.blend);
      var x' := if m.Valued? && Is(m.word, "duration") then x.(duration := t.parseInt(m.value))
                else if m.Valued? && Is(m.word, "blendtime") then x.(blend := t.parseInt(m.value)) else x;
      assert Modifiers(t, x, PrintMods(mods, tail)) == Modifiers(t, x', rest) by {
        assert GoodMod(t, m);
        if Valueless(m) {
          assert mods[1..] == [] && rest == tail;
        }
      }
      ModifiersRead(t, x', mods[1..], tail);
    }
  }

  /** And whatever is read is written so. */
  lemma {:induction false} ModifiersWritten(t: Tables, x: Extras, ts: Tokens) returns (mods: seq<Mod>)
    requires Modifiers(t, x, ts).Ok?
    ensures var tail := Modifiers(t, x, ts).value.1;
            GoodMods(t, mods, tail) && Stops(t, tail) && ts == PrintMods(mods, tail)
    decreases Size(ts)
  {
    var word := OnLine(ts);
    var rest := AfterOnLine(ts);
    if word == "" || !IsModifier(t, word) {
      mods := [];
    } else {
      WordsDiffer(word);
      var m, x', next;
      if TakesValue(t, word) {
        m, next := Valued(word, OnLine(rest)), AfterOnLine(rest);
        x' := if Is(word, "duration") then x.(duration := t.parseInt(m.value))
              else if Is(word, "blendtime") then x.(blend := t.parseInt(m.value)) else x;
      } else {
        m, next, x' := Bare(word), rest, x;
      }
      assert Modifiers(t, x, ts) == Modifiers(t, x', next);
      var later := ModifiersWritten(t, x', next);
      mods := [m] + later;
      assert mods[1..] == later;
      if Valueless(m) {
        assert later == [];
      }
    }
  }

  // ---------- commands ----------

  /** A body part, an animation and what modifies it. */
  datatype CommandLine = CommandLine(part: Text, newline: bool, anim: Text, mods: seq<Mod>)

  function PartOf(t: Tables, text: string): Option<nat> {
    var part := IndexCi(text, t.bodyParts);
    if part == Some(0) then None else part
  }

  function PrintCommand(line: CommandLine, tail: Tokens): Tokens {
    Tok(line.part, line.newline, Tok(line.anim, false, PrintMods(line.mods, tail)))
  }

  function PrintCommands(lines: seq<CommandLine>, tail: Tokens): Tokens {
    if lines == [] then tail else PrintCommand(lines[0], PrintCommands(lines[1..], tail))
  }

  predicate GoodCommands(t: Tables, lines: seq<CommandLine>, tail: Tokens) {
    lines != [] ==>
      var rest := PrintCommands(lines[1..], tail);
      && lines[0].part != "}" && PartOf(t, lines[0].part).Some?
      && GoodMods(t, lines[0].mods, rest) && Stops(t, rest)
      && GoodCommands(t, lines[1..], tail)
  }

  /** A list of commands ends at a brace, or before a word that is no body part. */
  predicate EndsCommands(t: Tables, end: Tokens) {
    end.Tok? && (end.text == "}" || PartOf(t, end.text).None?)
  }

  function AfterCommands(end: Tokens): Tokens
    requires end.Tok?
  {
    if end.text == "}" then end.tail else Reread(end)
  }

  predicate Known(t: Tables, line: CommandLine) {
    TreeIndex(t.tree, Lower(line.anim), 0).Some?
  }

  /** The four things a command stores: the body part and the animation it names, and
      the last duration and the last blend time of its line. */
  predicate Stores(t: Tables, line: CommandLine, x: Command) {
    && PartOf(t, line.part) == Some(x.bodyPart)
    && TreeIndex(t.tree, Lower(line.anim), 0) == Some(x.animIndex)
    && x.duration == Number(t, line.mods, "duration", None)
    && x.blend == Number(t, line.mods, "blendtime", None)
  }

  function KnownLines(t: Tables, lines: seq<CommandLine>): seq<CommandLine> {
    if lines == [] then [] else (if Known(t, lines[0]) then [lines[0]] else []) + KnownLines(t, lines[1..])
  }

  /** One command for each line whose animation the tree knows, in order. */
  predicate StoresAll(t: Tables, lines: seq<CommandLine>, commands: seq<Command>) {
    var known := KnownLines(t, lines);
    |commands| == |known| && forall i :: 0 <= i < |known| ==> Stores(t, known[i], commands[i])
  }

  /** How many animations the tree does not know; items that are skipped do not count. */
  function Unknowns(t: Tables, skip: bool, lines: seq<CommandLine>): int {
    if skip then 0 else |lines| - |KnownLines(t, lines)|
  }

  lemma OneCommand(t: Tables, skip: bool, l: Listed, line: CommandLine, rest: Tokens)
    requires line.part != "}" && PartOf(t, line.part).Some? && GoodMods(t, line.mods, rest) && Stops(t, rest)
    ensures var x := Extras(Number(t, line.mods, "duration", None), Number(t, line.mods, "blendtime", None));
            var with := WithCommand(t, skip, l, PartOf(t, line.part).value, line.anim, x);
            Commands(t, skip, l, PrintCommand(line, rest))
            == if with.Ok? then Commands(t, skip, with.value, rest) else Err(with.error)
  {
    ModifiersRead(t, Extras(None, None), line.mods, rest);
  }

  /** The commands read from the lines of an item, together with those read before. */
  ghost predicate ListedBy(t: Tables, skip: bool, lines: seq<CommandLine>, l: Listed, l': Listed) {
    && l.commands <= l'.commands
    && StoresAll(t, lines, l'.commands[|l.commands|..])
    && l'.unresolved == l.unresolved + Unknowns(t, skip, lines)
  }

  lemma ListedStep(t: Tables, skip: bool, lines: seq<CommandLine>, l: Listed, l1: Listed, l': Listed)
    requires lines != [] && ListedBy(t, skip, lines[1..], l1, l')
    requires var line := lines[0];
             if Known(t, line) then
               |l1.commands| == |l.commands| + 1 && l1.commands[..|l.commands|] == l.commands && Stores(t, line, l1.commands[|l.commands|])
               && l1.unresolved == l.unresolved
             else l1.commands == l.commands && l1.unresolved == l.unresolved + (if skip then 0 else 1)
    ensures ListedBy(t, skip, lines, l, l')
  {
    var n := |l.commands|;
    var known, later := KnownLines(t, lines), KnownLines(t, lines[1..]);
    var commands, after := l'.commands[n..], l'.commands[|l1.commands|..];
    assert l1.commands == l'.commands[..|l1.commands|];
    if Known(t, lines[0]) {
      assert known == [lines[0]] + later;
      assert commands == [l1.commands[n]] + after;
    } else {
      assert known == later;
    }
  }

  /** Written commands are read, each into the four things it stores; more than twelve
      are refused. */
  lemma {:induction false} CommandsRead(t: Tables, skip: bool, l: Listed, lines: seq<CommandLine>, end: Tokens)
    requires GoodCommands(t, lines, end) && EndsCommands(t, end) && |l.commands| <= MAX_COMMANDS
    ensures var r := Commands(t, skip, l, PrintCommands(lines, end));
            if |l.commands| + |KnownLines(t, lines)| <= MAX_COMMANDS then
              r.Ok? && r.value.1 == AfterCommands(end) && ListedBy(t, skip, lines, l, r.value.0)
            else r == Err(TooManyAnimations)
    decreases |lines|
  {
    if lines != [] {
      var line, rest := lines[0], PrintCommands(lines[1..], end);
      var x := Extras(Number(t, line.mods, "duration", None), Number(t, line.mods, "blendtime", None));
      OneCommand(t, skip, l, line, rest);
      var with := WithCommand(t, skip, l, PartOf(t, line.part).value, line.anim, x);
      if with.Ok? {
        CommandsRead(t, skip, with.value, lines[1..], end);
        var r := Commands(t, skip, with.value, rest);
        if r.Ok? {
          ListedStep(t, skip, lines, l, with.value, r.value.0);
        }
      }
    }
  }

  /** And whatever commands are read are written so. */
  lemma {:induction false} CommandsWritten(t: Tables, skip: bool, l: Listed, ts: Tokens)
    returns (lines: seq<CommandLine>, end: Tokens)
    requires Commands(t, skip, l, ts).Ok?
    ensures GoodCommands(t, lines, end) && EndsCommands(t, end) && ts == PrintCommands(lines, end)
    decreases Size(ts)
  {
    if ts.text == "}" || PartOf(t, ts.text).None? {
      lines, end := [], ts;
    } else {
      var anim := OnLine(ts.tail);
      var after := AfterOnLine(ts.tail);
      var mods := ModifiersWritten(t, Extras(None, None), after);
      var (x, rest) := Modifiers(t, Extras(None, None), after).value;
      var later;
      later, end := CommandsWritten(t, skip, WithCommand(t, skip, l, PartOf(t, ts.text).value, anim, x).value, rest);
      lines := [CommandLine(ts.text, ts.newline, anim, mods)] + later;
      assert lines[1..] == later;
    }
  }

  // ---------- conditions ----------

  /** What a line of conditions is made of: a pose with its value, or a condition with
      the words that name its values. */
  datatype Clause = Comma | Default(word: Text) | Posed(word: Text, value: Text) | Named(word: Text, values: seq<Text>)

  function PrintWords(words: seq<Text>, tail: Tokens): Tokens {
    if words == [] then tail else Tok(words[0], false, PrintWords(words[1..], tail))
  }

  function WordsOf(clause: Clause): seq<Text> {
    match clause
    case Comma => [","]
    case Default(word) => [word]
    case Posed(word, value) => [word, value]
    case Named(word, values) => [word] + values
  }

  function PrintClauses(clauses: seq<Clause>, tail: Tokens): Tokens {
    if clauses == [] then tail else PrintWords(WordsOf(clauses[0]), PrintClauses(clauses[1..], tail))
  }

  function RawOf(clauses: seq<Clause>): seq<string> {
    if clauses == [] then [] else WordsOf(clauses[0]) + RawOf(clauses[1..])
  }

  predicate IsAnd(word: string) {
    Is(word, "and")
  }

  /** A word that the line does not read as anything else. */
  predicate IsOwn(t: Tables, word: string) {
    word != "," && word != "{" && !Is(word, "default") && !IsPose(t, word)
  }

  /** A word that names a value of the condition, joins two, or takes away. */
  predicate GoodValue(t: Tables, aliases: Aliases, index: nat, word: string) {
    && IsOwn(t, word)
    && if IsAnd(word) || IsNegation(word) then
         ResolveValue(t, aliases, index, word).None? && IndexCi(word, t.conditions).None? && (IsNegation(word) ==> t.isBitflags(index))
       else
         ResolveValue(t, aliases, index, word).Some? && (t.isBitflags(index) || ResolveValue(t, aliases, index, word).value.Bit?)
  }

  predicate GoodClause(t: Tables, aliases: Aliases, before: Option<nat>, clause: Clause) {
    match clause
    case Comma => true
    case Default(word) => Is(word, "default") && word != "{"
    case Posed(word, value) => IsPose(t, word) && !Is(word, "default") && word != "{"
    case Named(word, values) =>
      && IsOwn(t, word) && IndexCi(word, t.conditions).Some?
      && (before.Some? ==> ResolveValue(t, aliases, before.value, word).None?)
      && forall i :: 0 <= i < |values| ==> GoodValue(t, aliases, IndexCi(word, t.conditions).value, values[i])
  }

  /** The condition whose values are being named after a clause. */
  function StillOpen(t: Tables, before: Option<nat>, clause: Clause): Option<nat> {
    match clause
    case Comma => None
    case Default(_) => before
    case Posed(_, _) => None
    case Named(word, _) => IndexCi(word, t.conditions)
  }

  predicate GoodClauses(t: Tables, aliases: Aliases, before: Option<nat>, clauses: seq<Clause>)
    decreases |clauses|
  {
    clauses != [] ==>
      GoodClause(t, aliases, before, clauses[0]) && GoodClauses(t, aliases, StillOpen(t, before, clauses[0]), clauses[1..])
  }

  /** The value named last, of those that are no joining words. */
  function LastNamed(t: Tables, aliases: Aliases, index: nat, values: seq<Text>, otherwise: int): int {
    if values == [] then otherwise
    else
      var last := ResolveValue(t, aliases, index, values[|values| - 1]);
      if last.Some? && last.value.Bit? then last.value.bit else LastNamed(t, aliases, index, values[..|values| - 1], otherwise)
  }

  /** What a condition says: of a set of flags, the bits that an alias of the same words
      would have; of a single value, the one named last, and without one, zero, or one
      for a condition that has no values. */
  function Said(t: Tables, aliases: Aliases, index: nat, values: seq<Text>): Condition {
    if t.isBitflags(index) then Condition(index, true, Masked(t, aliases, index, Mask({}, false), values).bits, 0)
    else Condition(index, false, {}, LastNamed(t, aliases, index, values, if t.values(index) == [] then 1 else 0))
  }

  /** The conditions of a clause. A pose that is none names no condition. */
  function SaidBy(t: Tables, aliases: Aliases, clause: Clause): seq<Condition> {
    match clause
    case Comma => []
    case Default(_) => []
    case Posed(word, value) => PoseSays(word, value)
    case Named(word, values) =>
      var index := IndexCi(word, t.conditions);
      if index.Some? then [Said(t, aliases, index.value, values)] else []
  }

  /** Moves that are crouched, prone, or neither; backwards or not; or to a side. Along
      the line of sight, nothing is moved to a side. */
  function PoseSays(word: string, value: string): seq<Condition> {
    var stance, direction := Is(word, "stance"), Is(word, "direction");
    if stance && Is(value, "crouch") then [Moves(CROUCH_MOVES)]
    else if stance && Is(value, "prone") then [Moves(PRONE_MOVES)]
    else if stance && Is(value, "stand") then [Moves(ALL - CROUCH_MOVES - PRONE_MOVES)]
    else if !stance && direction && Is(value, "backward") then [Moves(BACK_MOVES), Strafes(0)]
    else if !stance && direction && Is(value, "forward") then [Moves(ALL - BACK_MOVES), Strafes(0)]
    else if !stance && direction && Is(value, "left") then [Strafes(1)]
    else if !stance && direction && Is(value, "right") then [Strafes(2)]
    else []
  }

  function Moves(moves: Mask64): Condition {
    Condition(MOVETYPE, true, moves, 0)
  }

  function Strafes(side: int): Condition {
    Condition(STRAFING, false, {}, side)
  }

  function AllSaid(t: Tables, aliases: Aliases, clauses: seq<Clause>): seq<Condition> {
    if clauses == [] then [] else SaidBy(t, aliases, clauses[0]) + AllSaid(t, aliases, clauses[1..])
  }

  /** The item is skipped: a condition cannot be evaluated, or a pose is none. */
  predicate Skipped(t: Tables, clauses: seq<Clause>) {
    exists i :: 0 <= i < |clauses| && SkipsFor(t, clauses[i])
  }

  predicate SkipsFor(t: Tables, clause: Clause) {
    match clause
    case Named(word, _) => IndexCi(word, t.conditions).Some? && !t.isEvaluable(IndexCi(word, t.conditions).value)
    case Posed(word, value) => PoseSays(word, value) == []
    case _ => false
  }

  /** Anything at all but commas. */
  predicate Speaks(clauses: seq<Clause>) {
    exists i :: 0 <= i < |clauses| && !clauses[i].Comma?
  }

  function Gathering(g: Gathered): seq<Condition> {
    ClosedOff(g).conditions
  }

  function OpenIn(g: Gathered): Option<nat> {
    if g.current.Some? then Some(g.current.value.index) else None
  }

  // the values of one condition

  /** The condition being gathered is what its words say so far. */
  predicate SaysSoFar(t: Tables, aliases: Aliases, g: Gathered, index: nat, values: seq<Text>) {
    && g.current == Some(Said(t, aliases, index, values))
    && (t.isBitflags(index) ==> g.subtract == Masked(t, aliases, index, Mask({}, false), values).subtract)
  }

  lemma MaskedSnoc(t: Tables, aliases: Aliases, index: nat, values: seq<Text>, word: Text)
    ensures Masked(t, aliases, index, Mask({}, false), values + [word])
         == WithAlias(t, aliases, index, Masked(t, aliases, index, Mask({}, false), values), word)
  {
    MaskedSplits(t, aliases, index, Mask({}, false), values, [word]);
    assert [word][1..] == [];
  }

  /** Only what the words of one condition can change has changed. */
  predicate SaidMore(g: Gathered, g': Gathered, words: seq<string>) {
    g' == g.(raw := g.raw + words, current := g'.current, subtract := g'.subtract)
  }

  lemma ValueGathered(t: Tables, aliases: Aliases, g: Gathered, index: nat, values: seq<Text>, word: Text, tail: Tokens)
    returns (g': Gathered)
    requires SaysSoFar(t, aliases, g, index, values) && GoodValue(t, aliases, index, word)
    ensures SaysSoFar(t, aliases, g', index, values + [word]) && SaidMore(g, g', [word])
    ensures Conditions(t, aliases, g, Tok(word, false, tail)) == Conditions(t, aliases, g', tail)
  {
    var all := values + [word];
    assert all[..|all| - 1] == values && all[|all| - 1] == word;
    MaskedSnoc(t, aliases, index, values, word);
    g' := GatherToken(t, aliases, g, word).value;
    TokenRead(t, aliases, g, word, tail);
  }

  lemma TokenRead(t: Tables, aliases: Aliases, g: Gathered, word: Text, tail: Tokens)
    requires word != "{" && !IsPose(t, word) && GatherToken(t, aliases, g, word).Ok?
    ensures Conditions(t, aliases, g, Tok(word, false, tail)) == Conditions(t, aliases, GatherToken(t, aliases, g, word).value, tail)
  {}

  lemma OneMoved<T>(a: seq<T>, b: seq<T>)
    requires b != []
    ensures a + b == (a + [b[0]]) + b[1..]
  {}

  lemma {:induction false} ValuesGathered(t: Tables, aliases: Aliases, g: Gathered, index: nat, said: seq<Text>,
          values: seq<Text>, tail: Tokens)
    returns (g': Gathered)
    requires SaysSoFar(t, aliases, g, index, said)
    requires forall i :: 0 <= i < |values| ==> GoodValue(t, aliases, index, values[i])
    ensures SaysSoFar(t, aliases, g', index, said + values) && SaidMore(g, g', values)
    ensures Conditions(t, aliases, g, PrintWords(values, tail)) == Conditions(t, aliases, g', tail)
    decreases |values|
  {
    if values == [] {
      g' := g;
      assert said + values == said && g.raw + values == g.raw;
    } else {
      var g1 := ValueGathered(t, aliases, g, index, said, values[0], PrintWords(values[1..], tail));
      g' := ValuesGathered(t, aliases, g1, index, said + [values[0]], values[1..], tail);
      OneMoved(said, values);
      OneMoved(g.raw, values);
    }
  }

  // the clauses of a line

  /** What is gathered by one clause. */
  predicate GatheredBy(t: Tables, aliases: Aliases, g: Gathered, clause: Clause, g': Gathered) {
    && Gathering(g') == Gathering(g) + SaidBy(t, aliases, clause)
    && g'.raw == g.raw + WordsOf(clause)
    && g'.skip == (g.skip || SkipsFor(t, clause))
    && g'.saw == (g.saw || !clause.Comma?)
    && OpenIn(g') == StillOpen(t, OpenIn(g), clause)
  }

  lemma PosedGathered(t: Tables, aliases: Aliases, g: Gathered, word: Text, value: Text)
    requires IsPose(t, word)
    ensures GatheredBy(t, aliases, g, Posed(word, value), GatherPose(g, word, value))
  {
    var before := Gathering(g);
    assert before + [] == before;
    assert ALL - CROUCH_MOVES - PRONE_MOVES == ALL - (CROUCH_MOVES + PRONE_MOVES);
    PoseRead(word, value);
    var pose := PoseCondition(word, value);
    if pose.Some? {
      assert before + [pose.value] + [Strafes(0)] == before + [pose.value, Strafes(0)];
      assert before + [pose.value] + [] == before + [pose.value];
    }
  }

  lemma PoseRead(word: string, value: string)
    ensures PoseCondition(word, value).None? <==> PoseSays(word, value) == []
    ensures PoseCondition(word, value).Some? ==>
              PoseSays(word, value)
              == [PoseCondition(word, value).value]
                 + if Is(word, "direction") && (Is(value, "forward") || Is(value, "backward")) then [Strafes(0)] else []
  {
    assert ALL - CROUCH_MOVES - PRONE_MOVES == ALL - (CROUCH_MOVES + PRONE_MOVES);
    assert Is(word, "stance") ==> !Is(word, "direction");
    assert Is(value, "left") || Is(value, "right") ==> !Is(value, "forward") && !Is(value, "backward");
  }

  lemma NameGathered(t: Tables, aliases: Aliases, g: Gathered, index: nat, word: Text)
    requires IsOwn(t, word) && IndexCi(word, t.conditions) == Some(index)
    requires OpenIn(g).Some? ==> ResolveValue(t, aliases, OpenIn(g).value, word).None?
    ensures var r := GatherToken(t, aliases, g, word);
            && r.Ok?
            && SaysSoFar(t, aliases, r.value, index, [])
            && r.value.conditions == Gathering(g) && r.value.raw == g.raw + [word] && r.value.saw
            && r.value.skip == (g.skip || !t.isEvaluable(index))
  {}

  lemma NamedGathered(t: Tables, aliases: Aliases, g: Gathered, clause: Clause, tail: Tokens) returns (g': Gathered)
    requires clause.Named? && GoodClause(t, aliases, OpenIn(g), clause)
    ensures GatheredBy(t, aliases, g, clause, g')
    ensures Conditions(t, aliases, g, PrintWords(WordsOf(clause), tail)) == Conditions(t, aliases, g', tail)
  {
    var Named(word, values) := clause;
    var index := IndexCi(word, t.conditions).value;
    var g1 := GatherToken(t, aliases, g, word).value;
    assert WordsOf(clause)[1..] == values;
    TokenRead(t, aliases, g, word, PrintWords(values, tail));
    NameGathered(t, aliases, g, index, word);
    g' := ValuesGathered(t, aliases, g1, index, [], values, tail);
    assert [] + values == values;
    OneMoved(g.raw, WordsOf(clause));
  }

  lemma ClauseGathered(t: Tables, aliases: Aliases, g: Gathered, clause: Clause, tail: Tokens) returns (g': Gathered)
    requires GoodClause(t, aliases, OpenIn(g), clause)
    ensures GatheredBy(t, aliases, g, clause, g')
    ensures Conditions(t, aliases, g, PrintWords(WordsOf(clause), tail)) == Conditions(t, aliases, g', tail)
  {
    var words := WordsOf(clause);
    match clause
    case Comma =>
      g' := GatherToken(t, aliases, g, ",").value;
      TokenRead(t, aliases, g, ",", tail);
      assert Gathering(g) + [] == Gathering(g);
    case Default(word) =>
      g' := GatherToken(t, aliases, g, word).value;
      TokenRead(t, aliases, g, word, tail);
      assert Gathering(g) + [] == Gathering(g);
    case Posed(word, value) =>
      g' := GatherPose(g, word, value);
      PosedGathered(t, aliases, g, word, value);
      assert words[1..] == [value] && [value][1..] == [];
      assert PrintWords(words[1..], tail) == Tok(value, false, tail);
    case Named(_, _) =>
      g' := NamedGathered(t, aliases, g, clause, tail);
  }

  /** What a whole line gathers. */
  predicate GatheredAll(t: Tables, aliases: Aliases, g: Gathered, clauses: seq<Clause>, g': Gathered) {
    && Gathering(g') == Gathering(g) + AllSaid(t, aliases, clauses)
    && g'.raw == g.raw + RawOf(clauses)
    && g'.skip == (g.skip || Skipped(t, clauses))
    && g'.saw == (g.saw || Speaks(clauses))
  }

  lemma SkippedFirst(t: Tables, clauses: seq<Clause>)
    requires clauses != []
    ensures Skipped(t, clauses) <==> SkipsFor(t, clauses[0]) || Skipped(t, clauses[1..])
    ensures Speaks(clauses) <==> !clauses[0].Comma? || Speaks(clauses[1..])
  {
    forall i | 1 <= i < |clauses|
      ensures clauses[i] == clauses[1..][i - 1]
    {
    }
    if Skipped(t, clauses[1..]) {
      var i :| 0 <= i < |clauses[1..]| && SkipsFor(t, clauses[1..][i]);
      assert SkipsFor(t, clauses[i + 1]);
    }
    if Speaks(clauses[1..]) {
      var i :| 0 <= i < |clauses[1..]| && !clauses[1..][i].Comma?;
      assert !clauses[i + 1].Comma?;
    }
  }

  lemma Regrouped<T>(a: seq<T>, b: seq<T>, c: seq<T>)
    ensures a + (b + c) == (a + b) + c
  {}

  lemma GatheredNext(t: Tables, aliases: Aliases, g: Gathered, clauses: seq<Clause>, g1: Gathered, g': Gathered)
    requires clauses != [] && GatheredBy(t, aliases, g, clauses[0], g1) && GatheredAll(t, aliases, g1, clauses[1..], g')
    ensures GatheredAll(t, aliases, g, clauses, g')
  {
    SkippedFirst(t, clauses);
    var rest := clauses[1..];
    Regrouped(Gathering(g), SaidBy(t, aliases, clauses[0]), AllSaid(t, aliases, rest));
    Regrouped(g.raw, WordsOf(clauses[0]), RawOf(rest));
    assert AllSaid(t, aliases, clauses) == SaidBy(t, aliases, clauses[0]) + AllSaid(t, aliases, rest);
    assert RawOf(clauses) == WordsOf(clauses[0]) + RawOf(rest);
  }

  /** The condition that is open at the end of the line. */
  function OpenAtEnd(t: Tables, before: Option<nat>, clauses: seq<Clause>): Option<nat>
    decreases |clauses|
  {
    if clauses == [] then before else OpenAtEnd(t, StillOpen(t, before, clauses[0]), clauses[1..])
  }

  lemma {:induction false} ClausesGathered(t: Tables, aliases: Aliases, g: Gathered, clauses: seq<Clause>, tail: Tokens)
    returns (g': Gathered)
    requires GoodClauses(t, aliases, OpenIn(g), clauses)
    ensures GatheredAll(t, aliases, g, clauses, g') && OpenIn(g') == OpenAtEnd(t, OpenIn(g), clauses)
    ensures Conditions(t, aliases, g, PrintClauses(clauses, tail)) == Conditions(t, aliases, g', tail)
    decreases |clauses|
  {
    if clauses == [] {
      g' := g;
      assert Gathering(g) + [] == Gathering(g) && g.raw + [] == g.raw;
    } else {
      var g1 := ClauseGathered(t, aliases, g, clauses[0], PrintClauses(clauses[1..], tail));
      g' := ClausesGathered(t, aliases, g1, clauses[1..], tail);
      GatheredNext(t, aliases, g, clauses, g1, g');
    }
  }

  /** The line of conditions is over. */
  predicate EndsLine(tail: Tokens) {
    OnLine(tail) in {"", "{"}
  }

  /** A line of conditions says what its clauses say, each in turn, and nothing else;
      one that says nothing is refused. */
  lemma ConditionsRead(t: Tables, aliases: Aliases, clauses: seq<Clause>, tail: Tokens)
    requires GoodClauses(t, aliases, None, clauses) && EndsLine(tail)
    ensures var r := Conditions(t, aliases, NOTHING_GATHERED, PrintClauses(clauses, tail));
            if Speaks(clauses) then
              && r.Ok? && r.value.1 == tail
              && r.value.0.conditions == AllSaid(t, aliases, clauses)
              && r.value.0.raw == RawOf(clauses)
              && (r.value.0.skip <==> Skipped(t, clauses))
            else r == Err(NoConditions)
  {
    var g := ClausesGathered(t, aliases, NOTHING_GATHERED, clauses, tail);
    assert [] + AllSaid(t, aliases, clauses) == AllSaid(t, aliases, clauses) && [] + RawOf(clauses) == RawOf(clauses);
  }

  // ---------- items ----------

  datatype ItemText = ItemText(clauses: seq<Clause>, braced: bool, lines: seq<CommandLine>)

  function PrintItem(text: ItemText, end: Tokens): Tokens {
    PrintClauses(text.clauses, Tok("{", text.braced, PrintCommands(text.lines, end)))
  }

  predicate GoodItem(t: Tables, aliases: Aliases, text: ItemText, end: Tokens) {
    && GoodClauses(t, aliases, None, text.clauses) && Speaks(text.clauses)
    && GoodCommands(t, text.lines, end) && EndsCommands(t, end)
    && |KnownLines(t, text.lines)| <= MAX_COMMANDS
  }

  /** An item stores what it says: conditions, their words, the commands, and whether
      it is skipped. */
  predicate Tells(t: Tables, aliases: Aliases, text: ItemText, read: Read) {
    && read.item.conditions == AllSaid(t, aliases, text.clauses)
    && read.item.raw == RawOf(text.clauses)
    && (read.item.skip <==> Skipped(t, text.clauses))
    && StoresAll(t, text.lines, read.item.commands)
    && read.unresolved == Unknowns(t, read.item.skip, text.lines)
  }

  /** A written item is read as what it says. */
  lemma ItemIsRead(t: Tables, aliases: Aliases, text: ItemText, end: Tokens)
    requires GoodItem(t, aliases, text, end)
    ensures var r := ItemAt(t, aliases, PrintItem(text, end));
            r.Ok? && r.value.1 == AfterCommands(end) && Tells(t, aliases, text, r.value.0)
  {
    var braced := Tok("{", text.braced, PrintCommands(text.lines, end));
    ConditionsRead(t, aliases, text.clauses, braced);
    var (g, rest) := Conditions(t, aliases, NOTHING_GATHERED, PrintClauses(text.clauses, braced)).value;
    CommandsRead(t, g.skip, Listed([], 0), text.lines, end);
    var listed := Commands(t, g.skip, Listed([], 0), PrintCommands(text.lines, end)).value.0;
    assert listed.commands[0..] == listed.commands;
  }

  /** The block of an item, as it is written, and what it stores. */
  ghost predicate BlockWritten(t: Tables, aliases: Aliases, ts: Tokens, read: Read, after: Tokens) {
    exists g: Gathered, rest: Tokens, lines: seq<CommandLine>, end: Tokens ::
      && Conditions(t, aliases, NOTHING_GATHERED, ts) == Ok((g, rest))
      && BlockIs(t, rest, lines, end)
      && read.item == Item(g.skip, g.conditions, g.raw, read.item.commands)
      && StoresAll(t, lines, read.item.commands) && read.unresolved == Unknowns(t, g.skip, lines)
      && after == AfterCommands(end)
  }

  predicate BlockIs(t: Tables, rest: Tokens, lines: seq<CommandLine>, end: Tokens) {
    && rest.Tok? && rest.text == "{" && rest.tail == PrintCommands(lines, end)
    && GoodCommands(t, lines, end) && EndsCommands(t, end)
  }

  /** Every item that is read has a block written so, and stores of each of its lines
      just the four things it stores. */
  lemma ItemIsWritten(t: Tables, aliases: Aliases, ts: Tokens)
    requires ItemAt(t, aliases, ts).Ok?
    ensures BlockWritten(t, aliases, ts, ItemAt(t, aliases, ts).value.0, ItemAt(t, aliases, ts).value.1)
  {
    var (g, rest) := Conditions(t, aliases, NOTHING_GATHERED, ts).value;
    var lines, end := CommandsWritten(t, g.skip, Listed([], 0), rest.tail);
    CommandsRead(t, g.skip, Listed([], 0), lines, end);
    var listed := Commands(t, g.skip, Listed([], 0), rest.tail).value.0;
    assert listed.commands[0..] == listed.commands;
    assert BlockIs(t, rest, lines, end);
  }
}
