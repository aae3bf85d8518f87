/** Whole scripts as they are written, and that crates/asset_anim/src/playeranim_parse.rs
    reads of them what they say. */
module PlayerAnimScripts {
  import opened Wrappers
  import opened AsciiNames
  import opened AtrSyntax
  import opened PlayerAnimModel
  import opened PlayerAnimDefine
  import opened PlayerAnimWritten

  // ---------- what is written ----------

  /** An item of a list: whether a line break comes before it, and before its last brace. */
  datatype ListItem = ListItem(broken: bool, text: ItemText, closed: bool)

  /** A movement or an event, with the items for it. */
  datatype ListText = ListText(broken: bool, name: Text, brace: bool, items: seq<ListItem>, closed: bool)

  datatype StateText = StateText(broken: bool, word: Text, name: Text, brace: bool, lists: seq<ListText>, closed: bool)

  datatype SetText = SetText(broken: bool, word: Text, condition: Text, alias: Text, words: seq<Text>)

  datatype Section =
    | Defines(broken: bool, word: Text, sets: seq<SetText>)
    | Animations(broken: bool, word: Text, states: seq<StateText>)
    | Events(broken: bool, word: Text, lists: seq<ListText>)

  function Broken(ts: Tokens, newline: bool): Tokens {
    if ts.Tok? then ts.(newline := newline) else ts
  }

  function PrintListItem(item: ListItem, tail: Tokens): Tokens {
    Broken(PrintItem(item.text, Tok("}", item.closed, tail)), item.broken)
  }

  function PrintListItems(items: seq<ListItem>, tail: Tokens): Tokens {
    if items == [] then tail else PrintListItem(items[0], PrintListItems(items[1..], tail))
  }

  function PrintList(l: ListText, tail: Tokens): Tokens {
    Tok(l.name, l.broken, Tok("{", l.brace, PrintListItems(l.items, Tok("}", l.closed, tail))))
  }

  function PrintLists(lists: seq<ListText>, tail: Tokens): Tokens {
    if lists == [] then tail else PrintList(lists[0], PrintLists(lists[1..], tail))
  }

  function PrintState(s: StateText, tail: Tokens): Tokens {
    Tok(s.word, s.broken, Tok(s.name, false, Tok("{", s.brace, PrintLists(s.lists, Tok("}", s.closed, tail)))))
  }

  function PrintStates(states: seq<StateText>, tail: Tokens): Tokens {
    if states == [] then tail else PrintState(states[0], PrintStates(states[1..], tail))
  }

  function PrintSet(s: SetText, tail: Tokens): Tokens {
    Tok(s.word, s.broken, Tok(s.condition, false, Tok(s.alias, false, Tok("=", false, PrintWords(s.words, tail)))))
  }

  function PrintSets(sets: seq<SetText>, tail: Tokens): Tokens {
    if sets == [] then tail else PrintSet(sets[0], PrintSets(sets[1..], tail))
  }

  function PrintSection(s: Section, tail: Tokens): Tokens {
    Tok(s.word, s.broken,
        match s
        case Defines(_, _, sets) => PrintSets(sets, tail)
        case Animations(_, _, states) => PrintStates(states, tail)
        case Events(_, _, lists) => PrintLists(lists, tail))
  }

  function PrintScript(sections: seq<Section>): Tokens {
    if sections == [] then Eof else PrintSection(sections[0], PrintScript(sections[1..]))
  }

  // ---------- when it is well written ----------

  /** A word with which a turn may begin: no mode, no brace. */
  predicate Opens(word: string) {
    IndexCi(word, PARSE_MODES).None? && word != "{" && word != "}"
  }

  predicate GoodListItem(t: Tables, aliases: Aliases, item: ListItem) {
    && GoodItem(t, aliases, item.text, Tok("}", item.closed, Eof))
    && Opens(WordsOf(item.text.clauses[0])[0])
  }

  predicate GoodList(t: Tables, aliases: Aliases, names: seq<string>, l: ListText) {
    && Opens(l.name) && IndexCi(l.name, names).Some?
    && |l.items| <= MAX_ITEMS && forall i :: 0 <= i < |l.items| ==> GoodListItem(t, aliases, l.items[i])
  }

  predicate GoodLists(t: Tables, aliases: Aliases, names: seq<string>, lists: seq<ListText>) {
    forall i :: 0 <= i < |lists| ==> GoodList(t, aliases, names, lists[i])
  }

  predicate GoodState(t: Tables, aliases: Aliases, s: StateText) {
    Opens(s.word) && Is(s.word, "state") && GoodLists(t, aliases, t.moves, s.lists)
  }

  predicate GoodSet(t: Tables, s: SetText) {
    && Opens(s.word) && Is(s.word, "set") && IndexCi(s.condition, t.conditions).Some?
    && forall i :: 0 <= i < |s.words| ==> !EndsDefine(s.words[i])
  }

  predicate GoodSection(t: Tables, aliases: Aliases, s: Section) {
    match s
    case Defines(_, word, sets) => IndexCi(word, PARSE_MODES) == Some(DEFINES) && forall i :: 0 <= i < |sets| ==> GoodSet(t, sets[i])
    case Animations(_, word, states) => IndexCi(word, PARSE_MODES) == Some(ANIMATIONS) && forall i :: 0 <= i < |states| ==> GoodState(t, aliases, states[i])
    case Events(_, word, lists) => IndexCi(word, PARSE_MODES) == Some(EVENTS) && GoodLists(t, aliases, t.events, lists)
  }

  predicate GoodScript(t: Tables, aliases: Aliases, sections: seq<Section>)
    decreases |sections|
  {
    sections != [] ==>
      GoodSection(t, aliases, sections[0]) && GoodScript(t, AliasesAfter(t, aliases, sections[0]), sections[1..])
  }

  // ---------- what it says ----------


  /** The item is what the text says. */
  ghost predicate IsItem(t: Tables, aliases: Aliases, text: ItemText, item: Item) {
    Tells(t, aliases, text, Read(item, Missing(t, text)))
  }

  /** The animations an item names that the tree does not know. */
  ghost function Missing(t: Tables, text: ItemText): nat {
    KnownIsFewer(t, text.lines);
    Unknowns(t, Skipped(t, text.clauses), text.lines)
  }

  lemma {:induction false} KnownIsFewer(t: Tables, lines: seq<CommandLine>)
    ensures |KnownLines(t, lines)| <= |lines|
    decreases |lines|
  {
    if lines != [] {
      KnownIsFewer(t, lines[1..]);
    }
  }

  ghost predicate AreItems(t: Tables, aliases: Aliases, texts: seq<ListItem>, items: seq<Item>) {
    |items| == |texts| && forall i :: 0 <= i < |texts| ==> IsItem(t, aliases, texts[i].text, items[i])
  }

  ghost function MissingIn(t: Tables, texts: seq<ListItem>): nat {
    if texts == [] then 0 else Missing(t, texts[0].text) + MissingIn(t, texts[1..])
  }

  ghost function MissingInLists(t: Tables, lists: seq<ListText>): nat {
    if lists == [] then 0 else MissingIn(t, lists[0].items) + MissingInLists(t, lists[1..])
  }

  ghost function MissingInStates(t: Tables, states: seq<StateText>): nat {
    if states == [] then 0 else MissingInLists(t, states[0].lists) + MissingInStates(t, states[1..])
  }

  ghost function MissingInSection(t: Tables, s: Section): nat {
    match s
    case Defines(_, _, _) => 0
    case Animations(_, _, states) => MissingInStates(t, states)
    case Events(_, _, lists) => MissingInLists(t, lists)
  }

  ghost function MissingInAll(t: Tables, sections: seq<Section>): nat {
    if sections == [] then 0 else MissingInSection(t, sections[0]) + MissingInAll(t, sections[1..])
  }

  /** One slot for each list of a state, under that state and the list's movement. */
  ghost predicate AreSlots(t: Tables, aliases: Aliases, state: nat, lists: seq<ListText>, slots: seq<Slot>) {
    && |slots| == |lists|
    && forall i :: 0 <= i < |lists| ==>
         slots[i].state == state && Some(slots[i].movetype) == IndexCi(lists[i].name, t.moves)
         && AreItems(t, aliases, lists[i].items, slots[i].items)
  }

  ghost predicate AreEvents(t: Tables, aliases: Aliases, lists: seq<ListText>, events: seq<Event>) {
    && |events| == |lists|
    && forall i :: 0 <= i < |lists| ==>
         Some(events[i].event) == IndexCi(lists[i].name, t.events) && AreItems(t, aliases, lists[i].items, events[i].items)
  }

  /** A state that is not known counts as the first one. */
  function StateIndex(t: Tables, name: string): nat {
    var index := IndexCi(name, t.states);
    if index.Some? then index.value else 0
  }

  ghost predicate AreStates(t: Tables, aliases: Aliases, states: seq<StateText>, slots: seq<Slot>) {
    if states == [] then slots == []
    else
      var n := |states[0].lists|;
      && n <= |slots|
      && AreSlots(t, aliases, StateIndex(t, states[0].name), states[0].lists, slots[..n])
      && AreStates(t, aliases, states[1..], slots[n..])
  }

  function SetAlias(t: Tables, aliases: Aliases, s: SetText): Aliases {
    var index := IndexCi(s.condition, t.conditions);
    if index.None? then aliases
    else aliases[(index.value, Lower(s.alias)) := Masked(t, aliases, index.value, Mask({}, false), s.words).bits]
  }

  function SetAliases(t: Tables, aliases: Aliases, sets: seq<SetText>): Aliases
    decreases |sets|
  {
    if sets == [] then aliases else SetAliases(t, SetAlias(t, aliases, sets[0]), sets[1..])
  }

  function AliasesAfter(t: Tables, aliases: Aliases, s: Section): Aliases {
    if s.Defines? then SetAliases(t, aliases, s.sets) else aliases
  }

  /** What sections add to the slots and the events. */
  ghost predicate Says(t: Tables, aliases: Aliases, s: Section, slots: seq<Slot>, events: seq<Event>) {
    match s
    case Defines(_, _, _) => slots == [] && events == []
    case Animations(_, _, states) => AreStates(t, aliases, states, slots) && events == []
    case Events(_, _, lists) => slots == [] && AreEvents(t, aliases, lists, events)
  }

  ghost predicate SaysAll(t: Tables, aliases: Aliases, sections: seq<Section>, slots: seq<Slot>, events: seq<Event>)
    decreases |sections|
  {
    if sections == [] then slots == [] && events == []
    else
      exists n: nat, m: nat :: n <= |slots| && m <= |events|
        && Says(t, aliases, sections[0], slots[..n], events[..m])
        && SaysAll(t, AliasesAfter(t, aliases, sections[0]), sections[1..], slots[n..], events[m..])
  }

  // ---------- items and lists ----------

  lemma NotAMode()
    ensures IndexCi("{", PARSE_MODES).None? && IndexCi("}", PARSE_MODES).None?
  {}

  /** A list of items is being filled. */
  predicate Filling(c: Cursor, events: bool) {
    if events then c.mode == EVENTS && c.indent == 1 && c.eventItems.Some? && c.items.None?
    else c.mode == ANIMATIONS && c.indent == 2 && c.items.Some? && c.eventItems.None?
  }

  function Filled(c: Cursor, events: bool): seq<Item>
    requires Filling(c, events)
  {
    if events then c.eventItems.value else c.items.value
  }

  /** Nothing has been stored, and the cursor stands in the same place. */
  predicate SamePlace(c: Cursor, c': Cursor) {
    && c'.parsed.slots == c.parsed.slots && c'.parsed.events == c.parsed.events
    && c'.mode == c.mode && c'.indent == c.indent && c'.aliases == c.aliases
    && c'.state == c.state && c'.movetype == c.movetype && c'.event == c.event
  }

  lemma PrintedItemReads(t: Tables, aliases: Aliases, item: ListItem, tail: Tokens)
    requires GoodListItem(t, aliases, item)
    ensures var ts := PrintListItem(item, tail);
            && ts.Tok? && Opens(ts.text)
            && var r := ItemAt(t, aliases, Reread(ts));
               r.Ok? && r.value.1 == tail && IsItem(t, aliases, item.text, r.value.0.item) && r.value.0.unresolved == Missing(t, item.text)
  {
    var end := Tok("}", item.closed, tail);
    EndDoesNotMatter(t, item.text.lines, Tok("}", item.closed, Eof), end);
    ItemIsRead(t, aliases, item.text, end);
    var first := WordsOf(item.text.clauses[0]);
    assert Reread(PrintListItem(item, tail)) == PrintItem(item.text, end);
  }

  /** A closing brace after the commands is as good as any other. */
  lemma {:induction false} EndDoesNotMatter(t: Tables, lines: seq<CommandLine>, end: Tokens, end': Tokens)
    requires GoodCommands(t, lines, end) && end.Tok? && end'.Tok? && end.text == end'.text && end.newline == end'.newline
    ensures GoodCommands(t, lines, end')
    decreases |lines|
  {
    if lines != [] {
      EndDoesNotMatter(t, lines[1..], end, end');
    }
  }

  lemma ItemTurn(t: Tables, c: Cursor, events: bool, item: ListItem, tail: Tokens) returns (c': Cursor)
    requires Filling(c, events) && |Filled(c, events)| < MAX_ITEMS && GoodListItem(t, c.aliases, item)
    ensures SamePlace(c, c') && Filling(c', events)
    ensures |Filled(c', events)| == |Filled(c, events)| + 1
    ensures Filled(c', events)[..|Filled(c, events)|] == Filled(c, events)
    ensures IsItem(t, c.aliases, item.text, Filled(c', events)[|Filled(c, events)|])
    ensures c'.parsed.unresolvedAnims == c.parsed.unresolvedAnims + Missing(t, item.text)
    ensures ScriptFrom(t, c, PrintListItem(item, tail)) == ScriptFrom(t, c', tail)
  {
    PrintedItemReads(t, c.aliases, item, tail);
    var ts := PrintListItem(item, tail);
    var read := ItemAt(t, c.aliases, Reread(ts)).value.0;
    c' := if events then PushEventItem(c, read).value else PushItem(c, read).value;
    assert Turn(t, c, ts) == Ok((c', tail));
  }

  /** The items of a list are read one after the other. */
  lemma {:induction false} ItemTurns(t: Tables, c: Cursor, events: bool, items: seq<ListItem>, tail: Tokens)
    returns (c': Cursor)
    requires Filling(c, events) && |Filled(c, events)| + |items| <= MAX_ITEMS
    requires forall i :: 0 <= i < |items| ==> GoodListItem(t, c.aliases, items[i])
    ensures SamePlace(c, c') && Filling(c', events)
    ensures Filled(c, events) <= Filled(c', events)
    ensures AreItems(t, c.aliases, items, Filled(c', events)[|Filled(c, events)|..])
    ensures c'.parsed.unresolvedAnims == c.parsed.unresolvedAnims + MissingIn(t, items)
    ensures ScriptFrom(t, c, PrintListItems(items, tail)) == ScriptFrom(t, c', tail)
    decreases |items|
  {
    if items == [] {
      c' := c;
    } else {
      var c1 := ItemTurn(t, c, events, items[0], PrintListItems(items[1..], tail));
      c' := ItemTurns(t, c1, events, items[1..], tail);
      AreItemsFirst(t, c.aliases, items, Filled(c, events), Filled(c1, events), Filled(c', events));
    }
  }

  lemma AreItemsFirst(t: Tables, aliases: Aliases, items: seq<ListItem>, was: seq<Item>, one: seq<Item>, all: seq<Item>)
    requires items != [] && |one| == |was| + 1 && one[..|was|] == was && one <= all
    requires IsItem(t, aliases, items[0].text, one[|was|]) && AreItems(t, aliases, items[1..], all[|one|..])
    ensures was <= all && AreItems(t, aliases, items, all[|was|..])
  {
    var rest := all[|was|..];
    assert rest[0] == one[|was|] && rest[1..] == all[|one|..];
    forall i | 0 <= i < |items|
      ensures IsItem(t, aliases, items[i].text, rest[i])
    {
      if i > 0 {
        assert items[i] == items[1..][i - 1] && rest[i] == rest[1..][i - 1];
      }
    }
  }

  // ---------- lists ----------

  /** Between lists: of a state, or of the events. */
  predicate BetweenLists(c: Cursor, events: bool) {
    && c.items.None? && c.eventItems.None?
    && if events then c.mode == EVENTS && c.indent == 0 else c.mode == ANIMATIONS && c.indent == 1
  }

  ghost predicate Kept(c: Cursor, c': Cursor) {
    c'.mode == c.mode && c'.indent == c.indent && c'.aliases == c.aliases && c'.state == c.state
  }

  lemma Step(t: Tables, c: Cursor, ts: Tokens, c': Cursor, rest: Tokens)
    requires ts.Tok? && Turn(t, c, ts) == Ok((c', rest))
    ensures ScriptFrom(t, c, ts) == ScriptFrom(t, c', rest)
  {}

  /** The name and the brace of a list. */
  lemma ListBegins(t: Tables, c: Cursor, events: bool, l: ListText, tail: Tokens) returns (c': Cursor)
    requires BetweenLists(c, events) && GoodList(t, c.aliases, if events then t.events else t.moves, l)
    ensures Filling(c', events) && Filled(c', events) == []
    ensures c'.parsed == c.parsed && c'.mode == c.mode && c'.indent == c.indent + 1 && c'.aliases == c.aliases && c'.state == c.state
    ensures if events then Some(c'.event) == IndexCi(l.name, t.events) else Some(c'.movetype) == IndexCi(l.name, t.moves)
    ensures ScriptFrom(t, c, PrintList(l, tail)) == ScriptFrom(t, c', PrintListItems(l.items, Tok("}", l.closed, tail)))
  {
    var ts := PrintList(l, tail);
    var c1 := if events then c.(event := IndexCi(l.name, t.events).value, eventItems := Some([]))
              else c.(movetype := IndexCi(l.name, t.moves).value, items := Some([]));
    Step(t, c, ts, c1, ts.tail);
    c' := c1.(indent := c.indent + 1);
    BraceOpens(t, c1, l.brace, ts.tail.tail);
  }

  lemma BraceOpens(t: Tables, c: Cursor, broken: bool, tail: Tokens)
    requires (c.mode == ANIMATIONS || c.mode == EVENTS) && c.indent < 3
    ensures ScriptFrom(t, c, Tok("{", broken, tail)) == ScriptFrom(t, c.(indent := c.indent + 1), tail)
  {
    NotAMode();
    Step(t, c, Tok("{", broken, tail), c.(indent := c.indent + 1), tail);
  }

  /** The brace that closes it stores it. */
  lemma ListEnds(t: Tables, c: Cursor, events: bool, closed: bool, tail: Tokens) returns (c': Cursor)
    requires Filling(c, events)
    ensures BetweenLists(c', events) && c'.mode == c.mode && c'.indent + 1 == c.indent && c'.aliases == c.aliases && c'.state == c.state
    ensures c'.parsed.unresolvedAnims == c.parsed.unresolvedAnims
    ensures c'.parsed.slots == c.parsed.slots + if events then [] else [Slot(c.state, c.movetype, Filled(c, events))]
    ensures c'.parsed.events == c.parsed.events + if events then [Event(c.event, Filled(c, events))] else []
    ensures ScriptFrom(t, c, Tok("}", closed, tail)) == ScriptFrom(t, c', tail)
  {
    NotAMode();
    c' := CloseBrace(c).value;
    Step(t, c, Tok("}", closed, tail), c', tail);
  }

  lemma ListBody(t: Tables, c: Cursor, events: bool, texts: seq<ListItem>, closed: bool, tail: Tokens)
    returns (c': Cursor, items: seq<Item>)
    requires Filling(c, events) && Filled(c, events) == [] && |texts| <= MAX_ITEMS
    requires forall i :: 0 <= i < |texts| ==> GoodListItem(t, c.aliases, texts[i])
    ensures BetweenLists(c', events) && c'.mode == c.mode && c'.indent + 1 == c.indent && c'.aliases == c.aliases && c'.state == c.state
    ensures AreItems(t, c.aliases, texts, items)
    ensures c'.parsed.unresolvedAnims == c.parsed.unresolvedAnims + MissingIn(t, texts)
    ensures c'.parsed.slots == c.parsed.slots + if events then [] else [Slot(c.state, c.movetype, items)]
    ensures c'.parsed.events == c.parsed.events + if events then [Event(c.event, items)] else []
    ensures ScriptFrom(t, c, PrintListItems(texts, Tok("}", closed, tail))) == ScriptFrom(t, c', tail)
  {
    var c1 := ItemTurns(t, c, events, texts, Tok("}", closed, tail));
    c' := ListEnds(t, c1, events, closed, tail);
    items := Filled(c1, events);
    assert items[0..] == items;
  }

  /** What lists have added: one slot each under the state, or one event each. */
  ghost predicate Stored(t: Tables, aliases: Aliases, state: nat, p: Script, p': Script, events: bool,
          lists: seq<ListText>) {
    && p'.unresolvedAnims == p.unresolvedAnims + MissingInLists(t, lists)
    && p.slots <= p'.slots && p.events <= p'.events
    && (if events then p'.slots == p.slots && AreEvents(t, aliases, lists, p'.events[|p.events|..])
        else p'.events == p.events && AreSlots(t, aliases, state, lists, p'.slots[|p.slots|..]))
  }

  lemma OneStored(t: Tables, aliases: Aliases, p: Script, p': Script, events: bool, l: ListText, slot: Slot,
          event: Event)
    requires p'.unresolvedAnims == p.unresolvedAnims + MissingIn(t, l.items)
    requires p'.slots == p.slots + (if events then [] else [slot]) && p'.events == p.events + if events then [event] else []
    requires if events then Some(event.event) == IndexCi(l.name, t.events) && AreItems(t, aliases, l.items, event.items)
             else Some(slot.movetype) == IndexCi(l.name, t.moves) && AreItems(t, aliases, l.items, slot.items)
    ensures Stored(t, aliases, slot.state, p, p', events, [l])
  {
    assert [l][1..] == [] && MissingInLists(t, [l]) == MissingIn(t, l.items) + MissingInLists(t, [l][1..]);
    if events {
      assert p'.events[|p.events|..] == [event];
    } else {
      assert p'.slots[|p.slots|..] == [slot];
    }
  }

  /** A list is stored as one slot, or one event, with the items it says. */
  lemma ListRead(t: Tables, c: Cursor, events: bool, l: ListText, tail: Tokens) returns (c': Cursor)
    requires BetweenLists(c, events) && GoodList(t, c.aliases, if events then t.events else t.moves, l)
    ensures BetweenLists(c', events) && Kept(c, c')
    ensures Stored(t, c.aliases, c.state, c.parsed, c'.parsed, events, [l])
    ensures ScriptFrom(t, c, PrintList(l, tail)) == ScriptFrom(t, c', tail)
  {
    var c1 := ListBegins(t, c, events, l, tail);
    var items;
    c', items := ListBody(t, c1, events, l.items, l.closed, tail);
    OneStored(t, c.aliases, c.parsed, c'.parsed, events, l, Slot(c.state, c1.movetype, items), Event(c1.event, items));
  }

  lemma SlotsFirst(t: Tables, aliases: Aliases, state: nat, lists: seq<ListText>, first: seq<Slot>, rest: seq<Slot>)
    requires lists != [] && AreSlots(t, aliases, state, [lists[0]], first) && AreSlots(t, aliases, state, lists[1..], rest)
    ensures AreSlots(t, aliases, state, lists, first + rest)
  {
    assert forall i :: 1 <= i < |lists| ==> lists[i] == lists[1..][i - 1] && (first + rest)[i] == rest[i - 1];
  }

  lemma EventsFirst(t: Tables, aliases: Aliases, lists: seq<ListText>, first: seq<Event>, rest: seq<Event>)
    requires lists != [] && AreEvents(t, aliases, [lists[0]], first) && AreEvents(t, aliases, lists[1..], rest)
    ensures AreEvents(t, aliases, lists, first + rest)
  {
    assert forall i :: 1 <= i < |lists| ==> lists[i] == lists[1..][i - 1] && (first + rest)[i] == rest[i - 1];
  }

  lemma TailsJoin<T>(a: seq<T>, b: seq<T>, c: seq<T>)
    requires a <= b <= c
    ensures a <= c && c[|a|..] == b[|a|..] + c[|b|..]
  {}

  lemma StoredFirst(t: Tables, aliases: Aliases, state: nat, p: Script, p1: Script, p': Script, events: bool,
          lists: seq<ListText>)
    requires lists != [] && Stored(t, aliases, state, p, p1, events, [lists[0]]) && Stored(t, aliases, state, p1, p', events, lists[1..])
    ensures Stored(t, aliases, state, p, p', events, lists)
  {
    assert [lists[0]][1..] == [] && MissingInLists(t, [lists[0]]) == MissingIn(t, lists[0].items) + MissingInLists(t, [lists[0]][1..]);
    TailsJoin(p.slots, p1.slots, p'.slots);
    TailsJoin(p.events, p1.events, p'.events);
    if events {
      EventsFirst(t, aliases, lists, p1.events[|p.events|..], p'.events[|p1.events|..]);
    } else {
      SlotsFirst(t, aliases, state, lists, p1.slots[|p.slots|..], p'.slots[|p1.slots|..]);
    }
  }

  lemma {:induction false} ListsRead(t: Tables, c: Cursor, events: bool, lists: seq<ListText>, tail: Tokens)
    returns (c': Cursor)
    requires BetweenLists(c, events) && GoodLists(t, c.aliases, if events then t.events else t.moves, lists)
    ensures BetweenLists(c', events) && Kept(c, c')
    ensures Stored(t, c.aliases, c.state, c.parsed, c'.parsed, events, lists)
    ensures ScriptFrom(t, c, PrintLists(lists, tail)) == ScriptFrom(t, c', tail)
    decreases |lists|
  {
    if lists == [] {
      c' := c;
    } else {
      var c1 := ListRead(t, c, events, lists[0], PrintLists(lists[1..], tail));
      c' := ListsRead(t, c1, events, lists[1..], tail);
      StoredFirst(t, c.aliases, c.state, c.parsed, c1.parsed, c'.parsed, events, lists);
    }
  }

  // ---------- states ----------

  /** Between sections or their parts: nothing is open. */
  predicate AtRest(c: Cursor, mode: nat) {
    c.items.None? && c.eventItems.None? && c.mode == mode && c.indent == 0
  }

  ghost predicate StatesStored(t: Tables, aliases: Aliases, p: Script, p': Script, states: seq<StateText>) {
    && p'.unresolvedAnims == p.unresolvedAnims + MissingInStates(t, states)
    && p.slots <= p'.slots && p'.events == p.events
    && AreStates(t, aliases, states, p'.slots[|p.slots|..])
  }

  lemma StateRead(t: Tables, c: Cursor, s: StateText, tail: Tokens) returns (c': Cursor)
    requires AtRest(c, ANIMATIONS) && GoodState(t, c.aliases, s)
    ensures AtRest(c', ANIMATIONS) && c'.aliases == c.aliases
    ensures Stored(t, c.aliases, StateIndex(t, s.name), c.parsed, c'.parsed, false, s.lists)
    ensures ScriptFrom(t, c, PrintState(s, tail)) == ScriptFrom(t, c', tail)
  {
    var end := Tok("}", s.closed, tail);
    StateBegins(t, c, s, PrintLists(s.lists, end));
    var c2 := ListsRead(t, c.(state := StateIndex(t, s.name), indent := 1), false, s.lists, end);
    c' := c2.(indent := 0);
    StateEnds(t, c2, s.closed, tail);
  }

  lemma StateBegins(t: Tables, c: Cursor, s: StateText, lists: Tokens)
    requires AtRest(c, ANIMATIONS) && Opens(s.word) && Is(s.word, "state")
    ensures ScriptFrom(t, c, Tok(s.word, s.broken, Tok(s.name, false, Tok("{", s.brace, lists))))
            == ScriptFrom(t, c.(state := StateIndex(t, s.name), indent := 1), lists)
  {
    var braced := Tok("{", s.brace, lists);
    var c1 := c.(state := StateIndex(t, s.name));
    Step(t, c, Tok(s.word, s.broken, Tok(s.name, false, braced)), c1, braced);
    BraceOpens(t, c1, s.brace, lists);
  }

  lemma StateEnds(t: Tables, c: Cursor, closed: bool, tail: Tokens)
    requires BetweenLists(c, false)
    ensures ScriptFrom(t, c, Tok("}", closed, tail)) == ScriptFrom(t, c.(indent := 0), tail)
  {
    NotAMode();
    Step(t, c, Tok("}", closed, tail), c.(indent := 0), tail);
  }

  lemma StatesFirst(t: Tables, aliases: Aliases, p: Script, p1: Script, p': Script, states: seq<StateText>)
    requires states != [] && Stored(t, aliases, StateIndex(t, states[0].name), p, p1, false, states[0].lists)
    requires StatesStored(t, aliases, p1, p', states[1..])
    ensures StatesStored(t, aliases, p, p', states)
  {
    var slots, n := p'.slots[|p.slots|..], |states[0].lists|;
    assert slots[..n] == p1.slots[|p.slots|..];
    assert slots[n..] == p'.slots[|p1.slots|..];
  }

  lemma {:induction false} StatesRead(t: Tables, c: Cursor, states: seq<StateText>, tail: Tokens) returns (c': Cursor)
    requires AtRest(c, ANIMATIONS) && forall i :: 0 <= i < |states| ==> GoodState(t, c.aliases, states[i])
    ensures AtRest(c', ANIMATIONS) && c'.aliases == c.aliases
    ensures StatesStored(t, c.aliases, c.parsed, c'.parsed, states)
    ensures ScriptFrom(t, c, PrintStates(states, tail)) == ScriptFrom(t, c', tail)
    decreases |states|
  {
    if states == [] {
      c' := c;
    } else {
      var c1 := StateRead(t, c, states[0], PrintStates(states[1..], tail));
      c' := StatesRead(t, c1, states[1..], tail);
      StatesFirst(t, c.aliases, c.parsed, c1.parsed, c'.parsed, states);
    }
  }

  // ---------- definitions ----------

  lemma {:induction false} DefineRead(t: Tables, aliases: Aliases, index: nat, m: Mask, words: seq<Text>, tail: Tokens)
    requires (forall i :: 0 <= i < |words| ==> !EndsDefine(words[i])) && EndsDefine(OnLine(tail))
    ensures DefineBits(t, aliases, index, m, PrintWords(words, tail)) == (Masked(t, aliases, index, m, words).bits, tail)
    decreases |words|
  {
    if words != [] {
      DefineRead(t, aliases, index, WithAlias(t, aliases, index, m, words[0]), words[1..], tail);
    }
  }

  lemma SetRead(t: Tables, c: Cursor, s: SetText, tail: Tokens)
    requires AtRest(c, DEFINES) && GoodSet(t, s) && EndsDefine(OnLine(tail))
    ensures ScriptFrom(t, c, PrintSet(s, tail)) == ScriptFrom(t, c.(aliases := SetAlias(t, c.aliases, s)), tail)
  {
    var ts := PrintSet(s, tail);
    var index := IndexCi(s.condition, t.conditions).value;
    DefineRead(t, c.aliases, index, Mask({}, false), s.words, tail);
    Step(t, c, ts, c.(aliases := SetAlias(t, c.aliases, s)), tail);
  }

  lemma {:induction false} SetsRead(t: Tables, c: Cursor, sets: seq<SetText>, tail: Tokens)
    requires AtRest(c, DEFINES) && (forall i :: 0 <= i < |sets| ==> GoodSet(t, sets[i])) && EndsDefine(OnLine(tail))
    ensures ScriptFrom(t, c, PrintSets(sets, tail)) == ScriptFrom(t, c.(aliases := SetAliases(t, c.aliases, sets)), tail)
    decreases |sets|
  {
    if sets != [] {
      SetRead(t, c, sets[0], PrintSets(sets[1..], tail));
      SetsRead(t, c.(aliases := SetAlias(t, c.aliases, sets[0])), sets[1..], tail);
    }
  }

  // ---------- the script ----------

  ghost predicate SectionStored(t: Tables, aliases: Aliases, p: Script, p': Script, s: Section) {
    && p'.unresolvedAnims == p.unresolvedAnims + MissingInSection(t, s)
    && p.slots <= p'.slots && p.events <= p'.events
    && Says(t, aliases, s, p'.slots[|p.slots|..], p'.events[|p.events|..])
  }

  lemma SectionRead(t: Tables, c: Cursor, s: Section, tail: Tokens) returns (c': Cursor)
    requires AtRest(c, c.mode) && GoodSection(t, c.aliases, s) && EndsDefine(OnLine(tail))
    ensures AtRest(c', c'.mode) && c'.aliases == AliasesAfter(t, c.aliases, s)
    ensures SectionStored(t, c.aliases, c.parsed, c'.parsed, s)
    ensures ScriptFrom(t, c, PrintSection(s, tail)) == ScriptFrom(t, c', tail)
  {
    var ts := PrintSection(s, tail);
    var c1 := c.(mode := IndexCi(s.word, PARSE_MODES).value);
    Step(t, c, ts, c1, ts.tail);
    match s
    case Defines(_, _, sets) =>
      SetsRead(t, c1, sets, tail);
      c' := c1.(aliases := SetAliases(t, c.aliases, sets));
    case Animations(_, _, states) =>
      c' := StatesRead(t, c1, states, tail);
    case Events(_, _, lists) =>
      c' := ListsRead(t, c1, true, lists, tail);
  }

  ghost predicate AllStored(t: Tables, aliases: Aliases, p: Script, p': Script, sections: seq<Section>) {
    && p'.unresolvedAnims == p.unresolvedAnims + MissingInAll(t, sections)
    && p.slots <= p'.slots && p.events <= p'.events
    && SaysAll(t, aliases, sections, p'.slots[|p.slots|..], p'.events[|p.events|..])
  }

  lemma AllFirst(t: Tables, aliases: Aliases, p: Script, p1: Script, p': Script, sections: seq<Section>)
    requires sections != [] && SectionStored(t, aliases, p, p1, sections[0])
    requires AllStored(t, AliasesAfter(t, aliases, sections[0]), p1, p', sections[1..])
    ensures AllStored(t, aliases, p, p', sections)
  {
    var slots, events := p'.slots[|p.slots|..], p'.events[|p.events|..];
    var n, m := |p1.slots| - |p.slots|, |p1.events| - |p.events|;
    assert slots[..n] == p1.slots[|p.slots|..] && slots[n..] == p'.slots[|p1.slots|..];
    assert events[..m] == p1.events[|p.events|..] && events[m..] == p'.events[|p1.events|..];
  }

  lemma ScriptStartsAMode(t: Tables, aliases: Aliases, sections: seq<Section>)
    requires GoodScript(t, aliases, sections)
    ensures EndsDefine(OnLine(PrintScript(sections)))
  {}

  lemma {:induction false} SectionsRead(t: Tables, c: Cursor, sections: seq<Section>)
    requires AtRest(c, c.mode) && GoodScript(t, c.aliases, sections)
    ensures var r := ScriptFrom(t, c, PrintScript(sections)); r.Ok? && AllStored(t, c.aliases, c.parsed, r.value, sections)
    decreases |sections|
  {
    if sections != [] {
      ScriptStartsAMode(t, AliasesAfter(t, c.aliases, sections[0]), sections[1..]);
      var c1 := SectionRead(t, c, sections[0], PrintScript(sections[1..]));
      SectionsRead(t, c1, sections[1..]);
      AllFirst(t, c.aliases, c.parsed, c1.parsed, ScriptFrom(t, c1, PrintScript(sections[1..])).value, sections);
    }
  }

  /** A script that is well written parses, to the slots and the events it says and
      nothing else, and counts the animations that the tree does not know. */
  lemma WrittenScriptReads(t: Tables, aliases: Aliases, sections: seq<Section>)
    requires GoodScript(t, aliases, sections)
    ensures var r := ScriptFrom(t, Start(aliases), PrintScript(sections));
            && r.Ok?
            && SaysAll(t, aliases, sections, r.value.slots, r.value.events)
            && r.value.unresolvedAnims == MissingInAll(t, sections)
  {
    SectionsRead(t, Start(aliases), sections);
    var p := ScriptFrom(t, Start(aliases), PrintScript(sections)).value;
    assert p.slots[0..] == p.slots && p.events[0..] == p.events;
  }
}
