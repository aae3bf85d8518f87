/** What an alias definition means: the bits that parse_define in
    crates/asset_anim/src/playeranim_parse.rs gathers from a line. */
module PlayerAnimDefine {
  import opened Wrappers
  import opened AsciiNames
  import opened AtrSyntax
  import opened PlayerAnimModel

  predicate IsNegation(token: string) {
    !EqualsIgnoreCase(token, "and") && (EqualsIgnoreCase(token, "not") || EqualsIgnoreCase(token, "minus"))
  }

  predicate EndsDefine(token: string) {
    token == "" || EqualsIgnoreCase(token, "set") || IndexCi(token, PARSE_MODES).Some?
  }

  /** The tokens of the line that define the alias. */
  function LineTokens(ts: Tokens): seq<string>
    decreases Size(ts)
  {
    if EndsDefine(OnLine(ts)) then [] else [OnLine(ts)] + LineTokens(AfterOnLine(ts))
  }

  /** The bits one token names; none for words, negations and unknown names. */
  function NamedBits(t: Tables, aliases: Aliases, index: nat, token: string): Mask64 {
    if EqualsIgnoreCase(token, "and") || IsNegation(token) then {}
    else
      match ResolveValue(t, aliases, index, token)
      case None => {}
      case Some(value) => ValueBits(value)
  }

  function Union(t: Tables, aliases: Aliases, index: nat, tokens: seq<string>): Mask64 {
    if tokens == [] then {} else NamedBits(t, aliases, index, tokens[0]) + Union(t, aliases, index, tokens[1..])
  }

  predicate Plain(tokens: seq<string>) {
    forall i | 0 <= i < |tokens| :: !IsNegation(tokens[i])
  }

  function Masked(t: Tables, aliases: Aliases, index: nat, m: Mask, tokens: seq<string>): Mask
    decreases |tokens|
  {
    if tokens == [] then m else Masked(t, aliases, index, WithAlias(t, aliases, index, m, tokens[0]), tokens[1..])
  }

  /** The loop over the line is the fold over its tokens. */
  lemma {:induction false} DefineIsFold(t: Tables, aliases: Aliases, index: nat, m: Mask, ts: Tokens)
    ensures DefineBits(t, aliases, index, m, ts).0 == Masked(t, aliases, index, m, LineTokens(ts)).bits
    decreases Size(ts)
  {
    var token := OnLine(ts);
    if !EndsDefine(token) {
      var tokens := LineTokens(ts);
      assert tokens[0] == token && tokens[1..] == LineTokens(AfterOnLine(ts));
      DefineIsFold(t, aliases, index, WithAlias(t, aliases, index, m, token), AfterOnLine(ts));
    }
  }

  lemma {:induction false} MaskedSplits(t: Tables, aliases: Aliases, index: nat, m: Mask, a: seq<string>,
          b: seq<string>)
    ensures Masked(t, aliases, index, m, a + b) == Masked(t, aliases, index, Masked(t, aliases, index, m, a), b)
    decreases |a|
  {
    if a == [] {
      assert a + b == b;
    } else {
      assert (a + b)[0] == a[0] && (a + b)[1..] == a[1..] + b;
      MaskedSplits(t, aliases, index, WithAlias(t, aliases, index, m, a[0]), a[1..], b);
    }
  }

  lemma CombinedNothing(x: Mask64, subtract: bool)
    ensures Combined(x, {}, subtract) == x
  {}

  lemma CombinedTwice(x: Mask64, a: Mask64, b: Mask64, subtract: bool)
    ensures Combined(Combined(x, a, subtract), b, subtract) == Combined(x, a + b, subtract)
  {}

  /** One token that is no negation adds its bits, or takes them away. */
  lemma PlainToken(t: Tables, aliases: Aliases, index: nat, m: Mask, token: string)
    requires !IsNegation(token)
    ensures WithAlias(t, aliases, index, m, token) == Mask(Combined(m.bits, NamedBits(t, aliases, index, token), m.subtract), m.subtract)
  {
    CombinedNothing(m.bits, m.subtract);
  }

  /** Tokens without a negation add up, or are taken away together. */
  lemma {:induction false} PlainTokens(t: Tables, aliases: Aliases, index: nat, m: Mask, tokens: seq<string>)
    requires Plain(tokens)
    ensures Masked(t, aliases, index, m, tokens) == Mask(Combined(m.bits, Union(t, aliases, index, tokens), m.subtract), m.subtract)
    decreases |tokens|
  {
    if tokens == [] {
      CombinedNothing(m.bits, m.subtract);
    } else {
      PlainToken(t, aliases, index, m, tokens[0]);
      PlainTokens(t, aliases, index, WithAlias(t, aliases, index, m, tokens[0]), tokens[1..]);
      CombinedTwice(m.bits, NamedBits(t, aliases, index, tokens[0]), Union(t, aliases, index, tokens[1..]), m.subtract);
    }
  }

  /** What a negation finds: everything, if nothing has been named. */
  function OrAll(bits: Mask64): Mask64 {
    if bits == {} then ALL else bits
  }

  /** After a negation, the tokens up to the next one are taken away. */
  lemma NegatedTokens(t: Tables, aliases: Aliases, index: nat, m: Mask, negation: string, tokens: seq<string>)
    requires IsNegation(negation) && Plain(tokens)
    ensures Masked(t, aliases, index, m, [negation] + tokens)
         == Mask(OrAll(m.bits) - Union(t, aliases, index, tokens), true)
  {
    var all := [negation] + tokens;
    assert all[0] == negation && all[1..] == tokens;
    PlainTokens(t, aliases, index, Mask(OrAll(m.bits), true), tokens);
  }

  lemma FromNothing(bits: Mask64)
    ensures Combined({}, bits, false) == bits
  {}

  /** Without a negation an alias holds what its line names. */
  lemma DefinesUnion(t: Tables, aliases: Aliases, index: nat, ts: Tokens)
    requires Plain(LineTokens(ts))
    ensures DefineBits(t, aliases, index, Mask({}, false), ts).0 == Union(t, aliases, index, LineTokens(ts))
  {
    DefineIsFold(t, aliases, index, Mask({}, false), ts);
    PlainTokens(t, aliases, index, Mask({}, false), LineTokens(ts));
    FromNothing(Union(t, aliases, index, LineTokens(ts)));
  }

  /** With one, it holds what is named before, or everything, less what is named after. */
  lemma DefinesDifference(t: Tables, aliases: Aliases, index: nat, ts: Tokens, before: seq<string>,
          negation: string, after: seq<string>)
    requires LineTokens(ts) == before + ([negation] + after) && Plain(before) && IsNegation(negation) && Plain(after)
    ensures DefineBits(t, aliases, index, Mask({}, false), ts).0
         == OrAll(Union(t, aliases, index, before)) - Union(t, aliases, index, after)
  {
    DefineIsFold(t, aliases, index, Mask({}, false), ts);
    MaskedSplits(t, aliases, index, Mask({}, false), before, [negation] + after);
    PlainTokens(t, aliases, index, Mask({}, false), before);
    FromNothing(Union(t, aliases, index, before));
    NegatedTokens(t, aliases, index, Masked(t, aliases, index, Mask({}, false), before), negation, after);
  }

  /** The tokens after the last negation that found nothing left and so started from
      everything again. */
  function SinceRestart(t: Tables, aliases: Aliases, index: nat, bits: Mask64, tokens: seq<string>): Option<seq<string>>
    decreases |tokens|
  {
    if tokens == [] then None
    else if IsNegation(tokens[0]) && bits == {} then
      var later := SinceRestart(t, aliases, index, ALL, tokens[1..]);
      if later.Some? then later else Some(tokens[1..])
    else SinceRestart(t, aliases, index, bits - NamedBits(t, aliases, index, tokens[0]), tokens[1..])
  }

  lemma SubtractingToken(t: Tables, aliases: Aliases, index: nat, bits: Mask64, token: string)
    ensures WithAlias(t, aliases, index, Mask(bits, true), token)
         == Mask((if IsNegation(token) then OrAll(bits) else bits) - NamedBits(t, aliases, index, token), true)
  {
    if !IsNegation(token) {
      PlainToken(t, aliases, index, Mask(bits, true), token);
    }
  }

  /** Once a negation has been read, what is named is taken away, from what there was
      or from everything. */
  lemma {:induction false} Subtracting(t: Tables, aliases: Aliases, index: nat, bits: Mask64, tokens: seq<string>)
    ensures Masked(t, aliases, index, Mask(bits, true), tokens).bits
            == match SinceRestart(t, aliases, index, bits, tokens)
               case None => bits - Union(t, aliases, index, tokens)
               case Some(since) => ALL - Union(t, aliases, index, since)
    ensures SinceRestart(t, aliases, index, bits, tokens).Some? ==> bits <= Union(t, aliases, index, tokens)
    decreases |tokens|
  {
    if tokens != [] {
      var named := NamedBits(t, aliases, index, tokens[0]);
      SubtractingToken(t, aliases, index, bits, tokens[0]);
      if IsNegation(tokens[0]) && bits == {} {
        assert ALL - named == ALL;
        Subtracting(t, aliases, index, ALL, tokens[1..]);
      } else {
        assert OrAll(bits) - named == bits - named || !IsNegation(tokens[0]);
        Subtracting(t, aliases, index, bits - named, tokens[1..]);
        assert bits - named - Union(t, aliases, index, tokens[1..]) == bits - Union(t, aliases, index, tokens);
      }
    }
  }

  lemma EverythingLess(named: Mask64)
    ensures ALL - named == {} <==> named == ALL
  {
    if ALL - named == {} {
      forall i | i in ALL
        ensures i in named
      {
        assert i !in ALL - named;
      }
    }
  }

  /** With any number of negations, the alias is what is named before the first, or
      everything, less all that is named later, exactly if no later negation finds
      nothing left, or what is named after the last that did is everything. */
  lemma {:induction false} LaterNegations(t: Tables, aliases: Aliases, index: nat, ts: Tokens, before: seq<string>,
          negation: string, after: seq<string>)
    requires LineTokens(ts) == before + ([negation] + after) && Plain(before) && IsNegation(negation)
    ensures var start := OrAll(Union(t, aliases, index, before));
            var since := SinceRestart(t, aliases, index, start, after);
            DefineBits(t, aliases, index, Mask({}, false), ts).0 == start - Union(t, aliases, index, after)
            <==> since.None? || Union(t, aliases, index, since.value) == ALL
  {
    var start := OrAll(Union(t, aliases, index, before));
    DefineIsFold(t, aliases, index, Mask({}, false), ts);
    MaskedSplits(t, aliases, index, Mask({}, false), before, [negation] + after);
    PlainTokens(t, aliases, index, Mask({}, false), before);
    FromNothing(Union(t, aliases, index, before));
    var all := [negation] + after;
    assert all[0] == negation && all[1..] == after;
    assert Masked(t, aliases, index, Mask(Union(t, aliases, index, before), false), all)
        == Masked(t, aliases, index, Mask(start, true), after);
    Subtracting(t, aliases, index, start, after);
    var since := SinceRestart(t, aliases, index, start, after);
    if since.Some? {
      assert start - Union(t, aliases, index, after) == {};
      EverythingLess(Union(t, aliases, index, since.value));
    }
  }

  const EXAMPLE: seq<string> := ["all", "not", "legs"]

  lemma {:induction false} ExampleWords()
    ensures IsNegation("not") && !IsNegation("all") && !IsNegation("legs")
    ensures !EqualsIgnoreCase("all", "and") && !EqualsIgnoreCase("legs", "and")
    ensures !EqualsIgnoreCase("legs", "all") && !EqualsIgnoreCase("legs", "head")
  {
    assert LowerChar("not"[0]) == 'n' && LowerChar("all"[1]) == 'l' && LowerChar("legs"[0]) == 'l';
  }

  lemma {:induction false} ExampleNames(t: Tables, index: nat)
    requires t.isBitflags(index) && t.values(index) == ["head", "legs"]
    ensures NamedBits(t, map[], index, "all") == ALL
    ensures NamedBits(t, map[], index, "not") == {}
    ensures NamedBits(t, map[], index, "legs") == {1}
  {
    ExampleWords();
    var values := t.values(index);
    assert values[1..] == ["legs"];
    assert IndexCi("legs", values[1..]) == Some(0);
    assert IndexCi("legs", values) == Some(1);
  }

  /** "not all not legs" should leave nothing, but leaves everything except the legs. */
  lemma {:induction false} NotAllNotLegs(t: Tables, index: nat, ts: Tokens)
    requires t.isBitflags(index) && t.values(index) == ["head", "legs"]
    requires LineTokens(ts) == [] + (["not"] + EXAMPLE)
    ensures OrAll(Union(t, map[], index, [])) - Union(t, map[], index, EXAMPLE) == {}
    ensures DefineBits(t, map[], index, Mask({}, false), ts).0 == ALL - {1}
  {
    ExampleWords();
    ExampleNames(t, index);
    DefineIsFold(t, map[], index, Mask({}, false), ts);
    var tokens := LineTokens(ts);
    assert tokens[0] == "not" && tokens[1..] == EXAMPLE;
    assert WithAlias(t, map[], index, Mask({}, false), "not") == Mask(ALL, true);
    assert EXAMPLE[1..] == ["not", "legs"] && EXAMPLE[1..][1..] == ["legs"] && ["legs"][1..] == [];
    SubtractingToken(t, map[], index, ALL, "all");
    assert ALL - ALL == {};
    SubtractingToken(t, map[], index, {}, "not");
    assert ALL - {} == ALL;
    SubtractingToken(t, map[], index, ALL, "legs");
    assert Union(t, map[], index, EXAMPLE) == ALL + Union(t, map[], index, ["not", "legs"]);
  }

  // ---------- weapon types ----------

  function TextsOf(ts: Tokens): seq<string> {
    if ts.Tok? then [ts.text] + TextsOf(ts.tail) else []
  }

  /** The last entry of a list, before the 64th, that is the name. */
  predicate LastType(types: seq<string>, name: string, p: nat) {
    && p < |types| && p < 64 && Lower(types[p]) == Lower(name)
    && forall q :: p < q < |types| && q < 64 ==> Lower(types[q]) != Lower(name)
  }

  lemma SameFolding(a: string, b: string)
    requires Lower(a) == Lower(b)
    ensures EqualsIgnoreCase(a, b)
  {
    forall i | 0 <= i < |a|
      ensures LowerChar(a[i]) == LowerChar(b[i])
    {
      assert Lower(a)[i] == Lower(b)[i];
    }
  }

  lemma {:induction false} SameNames(a: string, b: string, table: seq<string>)
    requires EqualsIgnoreCase(a, b)
    ensures IndexCi(a, table) == IndexCi(b, table)
    decreases |table|
  {
    if table != [] {
      SameNames(a, b, table[1..]);
    }
  }

  /** Types that are not the name leave its alias alone. */
  lemma {:induction false} OtherTypes(t: Tables, aliases: Aliases, n: nat, ts: Tokens, name: string)
    requires forall q :: 0 <= q < |TextsOf(ts)| && n + q < 64 ==> Lower(TextsOf(ts)[q]) != Lower(name)
    ensures forall index :: Alias(TypeAliases(t, aliases, n, ts), index, name) == Alias(aliases, index, name)
    decreases Size(ts)
  {
    if n < 64 && ts.Tok? {
      assert TextsOf(ts)[0] == ts.text && TextsOf(ts)[1..] == TextsOf(ts.tail);
      forall q | 0 <= q < |TextsOf(ts.tail)| && n + 1 + q < 64
        ensures Lower(TextsOf(ts.tail)[q]) != Lower(name)
      {
        assert TextsOf(ts.tail)[q] == TextsOf(ts)[q + 1];
      }
      var known := IndexCi(ts.text, t.values(PLAYERANIMTYPE)).Some?;
      OtherTypes(t, if known then WithType(aliases, ts.text, n) else aliases, n + 1, ts.tail, name);
    }
  }

  lemma {:induction false} TypeNumbered(t: Tables, aliases: Aliases, n: nat, ts: Tokens, name: string, p: nat)
    requires p < |TextsOf(ts)| && n + p < 64 && Lower(TextsOf(ts)[p]) == Lower(name)
    requires forall q :: p < q < |TextsOf(ts)| && n + q < 64 ==> Lower(TextsOf(ts)[q]) != Lower(name)
    requires IndexCi(name, t.values(PLAYERANIMTYPE)).Some?
    ensures forall index :: index in {PLAYERANIMTYPE, PLAYERANIMTYPE_PRIMARY} ==>
              Alias(TypeAliases(t, aliases, n, ts), index, name) == Some(Bits({n + p}))
    decreases Size(ts)
  {
    var texts, later := TextsOf(ts), TextsOf(ts.tail);
    assert texts[0] == ts.text && texts[1..] == later;
    forall q | 0 <= q < |later| && p <= q && n + 1 + q < 64
      ensures Lower(later[q]) != Lower(name)
    {
      assert later[q] == texts[q + 1];
    }
    var known := IndexCi(ts.text, t.values(PLAYERANIMTYPE)).Some?;
    var next := if known then WithType(aliases, ts.text, n) else aliases;
    if p == 0 {
      SameFolding(ts.text, name);
      SameNames(ts.text, name, t.values(PLAYERANIMTYPE));
      OtherTypes(t, next, n + 1, ts.tail, name);
    } else {
      assert later[p - 1] == texts[p];
      TypeNumbered(t, next, n + 1, ts.tail, name, p - 1);
    }
  }

  /** Where the list of weapon types names a known type, the two conditions on it mean
      the type's position in the list, and no longer the one in the table. */
  lemma TypesByPosition(t: Tables, ts: Tokens, name: string, p: nat, index: nat)
    requires LastType(TextsOf(ts), name, p) && IndexCi(name, t.values(PLAYERANIMTYPE)).Some?
    requires index in {PLAYERANIMTYPE, PLAYERANIMTYPE_PRIMARY} && !EqualsIgnoreCase(name, "all")
    ensures ResolveValue(t, TypeAliases(t, map[], 0, ts), index, name) == Some(Bits({p}))
  {
    TypeNumbered(t, map[], 0, ts, name, p);
  }

  /** In any other condition, an alias never hides a value's own name. */
  lemma NamesComeFirst(t: Tables, aliases: Aliases, index: nat, name: string)
    requires index !in {PLAYERANIMTYPE, PLAYERANIMTYPE_PRIMARY} && IndexCi(name, t.values(index)).Some?
    ensures ResolveValue(t, aliases, index, name) == ResolveValue(t, map[], index, name)
    ensures !EqualsIgnoreCase(name, "all") ==> ResolveValue(t, aliases, index, name) == Some(Bit(IndexCi(name, t.values(index)).value))
  {}
}
