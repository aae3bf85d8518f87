/** What a parsed script promises: every accepted item is stored once, in order,
    under the state and movement it was read for, and the counters agree. */
module PlayerAnimTheorem {
  import opened Wrappers
  import opened AsciiNames
  import opened AtrSyntax
  import opened PlayerAnimModel
  import opened PlayerAnimWritten

  /** An item with the state and movement, or the event, it belongs to. */
  datatype Tagged = Tagged(first: nat, second: nat, item: Item)

  function Tag(first: nat, second: nat, items: seq<Item>): seq<Tagged> {
    seq(|items|, i requires 0 <= i < |items| => Tagged(first, second, items[i]))
  }

  function SlotItems(slots: seq<Slot>): seq<Tagged> {
    if slots == [] then []
    else
      var last := slots[|slots| - 1];
      SlotItems(slots[..|slots| - 1]) + Tag(last.state, last.movetype, last.items)
  }

  function EventItems(events: seq<Event>): seq<Tagged> {
    if events == [] then []
    else
      var last := events[|events| - 1];
      EventItems(events[..|events| - 1]) + Tag(last.event, 0, last.items)
  }

  // ---------- which items are accepted ----------

  /** The item the next turn of the main loop adds to the animations (or the events):
      one read where items are expected, while a list is being filled. */
  function AcceptedNow(t: Tables, c: Cursor, ts: Tokens, events: bool): seq<Tagged>
    requires ts.Tok?
  {
    if IndexCi(ts.text, PARSE_MODES).Some? || ts.text in {"{", "}"} || ItemAt(t, c.aliases, Reread(ts)).Err? then []
    else
      var item := ItemAt(t, c.aliases, Reread(ts)).value.0.item;
      if events then if c.mode == EVENTS && c.indent == 1 && c.eventItems.Some? then [Tagged(c.event, 0, item)] else []
      else if c.mode == ANIMATIONS && c.indent == 2 && c.items.Some? then [Tagged(c.state, c.movetype, item)] else []
  }

  function Accepted(t: Tables, c: Cursor, ts: Tokens, events: bool): seq<Tagged>
    decreases Size(ts)
  {
    if !ts.Tok? || Turn(t, c, ts).Err? then []
    else
      var (c', rest) := Turn(t, c, ts).value;
      AcceptedNow(t, c, ts, events) + Accepted(t, c', rest, events)
  }

  // ---------- what is stored ----------

  /** All that is stored so far, the list being filled included. */
  function Held(c: Cursor, events: bool): seq<Tagged> {
    if events then EventItems(FlushEvent(c).parsed.events) else SlotItems(FlushSlot(c).parsed.slots)
  }

  /** A list with items in it is closed before its state, movement or event changes. */
  predicate Settled(c: Cursor) {
    && (c.items.Some? ==> c.mode == ANIMATIONS && (c.items.value != [] ==> c.indent >= 2))
    && (c.eventItems.Some? ==> c.mode == EVENTS && (c.eventItems.value != [] ==> c.indent >= 1))
  }

  lemma SlotAdded(slots: seq<Slot>, slot: Slot)
    ensures SlotItems(slots + [slot]) == SlotItems(slots) + Tag(slot.state, slot.movetype, slot.items)
  {
    assert (slots + [slot])[..|slots|] == slots;
  }

  lemma EventAdded(events: seq<Event>, event: Event)
    ensures EventItems(events + [event]) == EventItems(events) + Tag(event.event, 0, event.items)
  {
    assert (events + [event])[..|events|] == events;
  }

  function OpenItems(c: Cursor, events: bool): seq<Tagged> {
    if events then if c.eventItems.Some? then Tag(c.event, 0, c.eventItems.value) else []
    else if c.items.Some? then Tag(c.state, c.movetype, c.items.value) else []
  }

  function ClosedItems(p: Script, events: bool): seq<Tagged> {
    if events then EventItems(p.events) else SlotItems(p.slots)
  }

  /** The stored items, spelled out. */
  lemma HeldIs(c: Cursor)
    ensures forall events :: Held(c, events) == ClosedItems(c.parsed, events) + OpenItems(c, events)
  {
    if c.items.Some? {
      SlotAdded(c.parsed.slots, Slot(c.state, c.movetype, c.items.value));
    }
    if c.eventItems.Some? {
      EventAdded(c.parsed.events, Event(c.event, c.eventItems.value));
    }
  }

  lemma FlushHolds(c: Cursor)
    ensures Held(FlushSlot(c), false) == Held(c, false) && Held(FlushEvent(c), true) == Held(c, true)
    ensures Held(FlushSlot(c), true) == Held(c, true) && Held(FlushEvent(c), false) == Held(c, false)
  {
    HeldIs(c);
    HeldIs(FlushSlot(c));
    HeldIs(FlushEvent(c));
  }

  lemma TagAdded(first: nat, second: nat, items: seq<Item>, item: Item)
    ensures Tag(first, second, items + [item]) == Tag(first, second, items) + [Tagged(first, second, item)]
  {}

  lemma Associates<T>(a: seq<T>, b: seq<T>, c: seq<T>)
    ensures a + (b + c) == (a + b) + c
  {}

  lemma OneMore(c: Cursor, c': Cursor, events: bool, more: seq<Tagged>)
    requires ClosedItems(c'.parsed, events) == ClosedItems(c.parsed, events)
    requires OpenItems(c', events) == OpenItems(c, events) + more
    ensures Held(c', events) == Held(c, events) + more
  {
    HeldIs(c);
    HeldIs(c');
    Associates(ClosedItems(c.parsed, events), OpenItems(c, events), more);
  }

  lemma PushHolds(c: Cursor, read: Read)
    requires PushItem(c, read).Ok?
    ensures var c' := PushItem(c, read).value;
            && Held(c', false) == Held(c, false) + (if c.items.Some? then [Tagged(c.state, c.movetype, read.item)] else [])
            && Held(c', true) == Held(c, true) + []
  {
    if c.items.Some? {
      TagAdded(c.state, c.movetype, c.items.value, read.item);
    }
    OneMore(c, PushItem(c, read).value, false, if c.items.Some? then [Tagged(c.state, c.movetype, read.item)] else []);
    OneMore(c, PushItem(c, read).value, true, []);
  }

  lemma PushEventHolds(c: Cursor, read: Read)
    requires PushEventItem(c, read).Ok?
    ensures var c' := PushEventItem(c, read).value;
            && Held(c', true) == Held(c, true) + (if c.eventItems.Some? then [Tagged(c.event, 0, read.item)] else [])
            && Held(c', false) == Held(c, false) + []
  {
    if c.eventItems.Some? {
      TagAdded(c.event, 0, c.eventItems.value, read.item);
    }
    OneMore(c, PushEventItem(c, read).value, true, if c.eventItems.Some? then [Tagged(c.event, 0, read.item)] else []);
    OneMore(c, PushEventItem(c, read).value, false, []);
  }

  lemma CloseBraceHolds(c: Cursor)
    requires Settled(c) && CloseBrace(c).Ok?
    ensures var c' := CloseBrace(c).value; Settled(c') && Held(c', false) == Held(c, false) && Held(c', true) == Held(c, true)
  {
    var c1 := c.(indent := c.indent - 1);
    HeldIs(c);
    HeldIs(c1);
    FlushHolds(c1);
  }

  lemma EventTurnHolds(t: Tables, c: Cursor, ts: Tokens)
    requires ts.Tok? && Settled(c) && c.mode == EVENTS && EventTurn(t, c, ts).Ok?
    requires IndexCi(ts.text, PARSE_MODES).None? && ts.text !in {"{", "}"}
    ensures var c' := EventTurn(t, c, ts).value.0;
            && Settled(c')
            && Held(c', true) == Held(c, true) + AcceptedNow(t, c, ts, true)
            && Held(c', false) == Held(c, false) + AcceptedNow(t, c, ts, false)
  {
    var c' := EventTurn(t, c, ts).value.0;
    if c.indent == 0 {
      FlushHolds(c);
      HeldIs(FlushEvent(c));
      HeldIs(c');
    } else {
      PushEventHolds(c, ItemAt(t, c.aliases, Reread(ts)).value.0);
    }
  }

  /** An empty list may change what it belongs to. */
  lemma EmptyRetagged(c: Cursor, c': Cursor)
    requires c'.parsed == c.parsed && c'.items == c.items && c'.event == c.event && c'.eventItems == c.eventItems
    requires c.items.Some? ==> c.items.value == []
    ensures Held(c', false) == Held(c, false) && Held(c', true) == Held(c, true)
  {
    HeldIs(c);
    HeldIs(c');
  }

  lemma ListOpened(c: Cursor, movetype: nat)
    ensures var c' := FlushSlot(c).(movetype := movetype, items := Some([])); Held(c', false) == Held(c, false) && Held(c', true) == Held(c, true)
  {
    FlushHolds(c);
    HeldIs(FlushSlot(c));
    HeldIs(FlushSlot(c).(movetype := movetype, items := Some([])));
  }

  lemma AnimNameHolds(t: Tables, c: Cursor, ts: Tokens)
    requires ts.Tok? && Settled(c) && c.mode == ANIMATIONS && c.indent < 2 && AnimTurn(t, c, ts).Ok?
    ensures var c' := AnimTurn(t, c, ts).value.0;
            Settled(c') && Held(c', true) == Held(c, true) && Held(c', false) == Held(c, false)
  {
    if c.indent == 0 {
      EmptyRetagged(c, AnimTurn(t, c, ts).value.0);
    } else {
      FlushHolds(c);
      var movetype := IndexCi(ts.text, t.moves);
      if movetype.Some? {
        ListOpened(c, movetype.value);
      }
    }
  }

  lemma AnimTurnHolds(t: Tables, c: Cursor, ts: Tokens)
    requires ts.Tok? && Settled(c) && c.mode == ANIMATIONS && AnimTurn(t, c, ts).Ok?
    requires IndexCi(ts.text, PARSE_MODES).None? && ts.text !in {"{", "}"}
    ensures var c' := AnimTurn(t, c, ts).value.0;
            && Settled(c')
            && Held(c', true) == Held(c, true) + AcceptedNow(t, c, ts, true)
            && Held(c', false) == Held(c, false) + AcceptedNow(t, c, ts, false)
  {
    if c.indent < 2 {
      AnimNameHolds(t, c, ts);
    } else {
      PushHolds(c, ItemAt(t, c.aliases, Reread(ts)).value.0);
    }
  }

  /** One turn stores exactly what it accepts, and moves nothing stored before. */
  lemma TurnHolds(t: Tables, c: Cursor, ts: Tokens)
    requires ts.Tok? && Settled(c) && Turn(t, c, ts).Ok?
    ensures var c' := Turn(t, c, ts).value.0;
            && Settled(c')
            && Held(c', true) == Held(c, true) + AcceptedNow(t, c, ts, true)
            && Held(c', false) == Held(c, false) + AcceptedNow(t, c, ts, false)
  {
    var mode := IndexCi(ts.text, PARSE_MODES);
    if mode.Some? {
      FlushHolds(c);
      FlushHolds(FlushSlot(c));
      HeldIs(FlushEvent(FlushSlot(c)));
      HeldIs(ChangeMode(c, mode.value));
    } else if c.mode == DEFINES && EqualsIgnoreCase(ts.text, "set") {
      HeldIs(c);
      HeldIs(Turn(t, c, ts).value.0);
    } else if c.mode == EVENTS || c.mode == ANIMATIONS {
      if ts.text == "{" {
        HeldIs(c);
        HeldIs(OpenBrace(c).value);
      } else if ts.text == "}" {
        CloseBraceHolds(c);
      } else if c.mode == EVENTS {
        EventTurnHolds(t, c, ts);
      } else {
        AnimTurnHolds(t, c, ts);
      }
    }
  }

  // ---------- counters and limits ----------

  function Skips(items: seq<Tagged>): nat {
    if items == [] then 0 else Skips(items[..|items| - 1]) + if items[|items| - 1].item.skip then 1 else 0
  }

  function CommandTotal(items: seq<Tagged>): nat {
    if items == [] then 0 else CommandTotal(items[..|items| - 1]) + |items[|items| - 1].item.commands|
  }

  predicate Counts(p: Script, anims: seq<Tagged>, events: seq<Tagged>) {
    && p.itemCount == |anims|
    && p.eventItemCount == |events|
    && p.skippedItems == Skips(anims) + Skips(events)
    && p.commandCount == CommandTotal(anims) + CommandTotal(events)
  }

  lemma MoreTotals(items: seq<Tagged>, more: seq<Tagged>)
    requires |more| <= 1
    ensures Skips(items + more) == Skips(items) + Skips(more) && CommandTotal(items + more) == CommandTotal(items) + CommandTotal(more)
    ensures |more| == 1 ==> Skips(more) == (if more[0].item.skip then 1 else 0) && CommandTotal(more) == |more[0].item.commands|
  {
    if more == [] {
      assert items + more == items;
    } else {
      assert (items + more)[..|items|] == items && more[..0] == [];
    }
  }

  /** The counters have moved by what was accepted, one item at most. */
  predicate NotedBy(p: Script, p': Script, anims: seq<Tagged>, events: seq<Tagged>) {
    && |anims| + |events| <= 1
    && p'.itemCount == p.itemCount + |anims| && p'.eventItemCount == p.eventItemCount + |events|
    && p'.skippedItems == p.skippedItems + (if anims != [] && anims[0].item.skip then 1 else 0) + (if events != [] && events[0].item.skip then 1 else 0)
    && p'.commandCount == p.commandCount + (if anims != [] then |anims[0].item.commands| else 0) + (if events != [] then |events[0].item.commands| else 0)
  }

  lemma EventTurnNotes(t: Tables, c: Cursor, ts: Tokens)
    requires ts.Tok? && c.mode == EVENTS && EventTurn(t, c, ts).Ok?
    requires IndexCi(ts.text, PARSE_MODES).None? && ts.text !in {"{", "}"}
    ensures NotedBy(c.parsed, EventTurn(t, c, ts).value.0.parsed, AcceptedNow(t, c, ts, false), AcceptedNow(t, c, ts, true))
  {}

  lemma AnimTurnNotes(t: Tables, c: Cursor, ts: Tokens)
    requires ts.Tok? && c.mode == ANIMATIONS && AnimTurn(t, c, ts).Ok?
    requires IndexCi(ts.text, PARSE_MODES).None? && ts.text !in {"{", "}"}
    ensures NotedBy(c.parsed, AnimTurn(t, c, ts).value.0.parsed, AcceptedNow(t, c, ts, false), AcceptedNow(t, c, ts, true))
  {}

  lemma TurnNotes(t: Tables, c: Cursor, ts: Tokens)
    requires ts.Tok? && Turn(t, c, ts).Ok?
    ensures NotedBy(c.parsed, Turn(t, c, ts).value.0.parsed, AcceptedNow(t, c, ts, false), AcceptedNow(t, c, ts, true))
  {
    if IndexCi(ts.text, PARSE_MODES).Some? || ts.text in {"{", "}"} {
    } else if c.mode == EVENTS {
      EventTurnNotes(t, c, ts);
    } else if c.mode == ANIMATIONS {
      AnimTurnNotes(t, c, ts);
    }
  }

  lemma TurnCounts(t: Tables, c: Cursor, ts: Tokens)
    requires ts.Tok? && Settled(c) && Turn(t, c, ts).Ok? && Counts(c.parsed, Held(c, false), Held(c, true))
    ensures var c' := Turn(t, c, ts).value.0;
            Counts(c'.parsed, Held(c, false) + AcceptedNow(t, c, ts, false), Held(c, true) + AcceptedNow(t, c, ts, true))
  {
    TurnNotes(t, c, ts);
    MoreTotals(Held(c, false), AcceptedNow(t, c, ts, false));
    MoreTotals(Held(c, true), AcceptedNow(t, c, ts, true));
  }

  predicate CommandFits(t: Tables, x: Command) {
    0 < x.bodyPart < |t.bodyParts| && x.animIndex < |t.tree| && x.animIndex < 0x10000
  }

  predicate ItemFits(t: Tables, item: Item) {
    |item.commands| <= MAX_COMMANDS && forall i | 0 <= i < |item.commands| :: CommandFits(t, item.commands[i])
  }

  predicate ItemsFit(t: Tables, items: seq<Item>) {
    |items| <= MAX_ITEMS && forall i | 0 <= i < |items| :: ItemFits(t, items[i])
  }

  predicate ScriptFits(t: Tables, p: Script) {
    && (forall i | 0 <= i < |p.slots| :: ItemsFit(t, p.slots[i].items))
    && (forall i | 0 <= i < |p.events| :: ItemsFit(t, p.events[i].items))
  }

  predicate CursorFits(t: Tables, c: Cursor) {
    && ScriptFits(t, c.parsed)
    && (c.items.Some? ==> ItemsFit(t, c.items.value))
    && (c.eventItems.Some? ==> ItemsFit(t, c.eventItems.value))
  }

  lemma {:induction false} CommandsFit(t: Tables, skip: bool, l: Listed, ts: Tokens)
    requires |l.commands| <= MAX_COMMANDS && forall i | 0 <= i < |l.commands| :: CommandFits(t, l.commands[i])
    ensures var r := Commands(t, skip, l, ts);
            r.Ok? ==> |r.value.0.commands| <= MAX_COMMANDS && forall i | 0 <= i < |r.value.0.commands| :: CommandFits(t, r.value.0.commands[i])
    decreases Size(ts)
  {
    if ts.Tok? && ts.text != "}" {
      var bodyPart := IndexCi(ts.text, t.bodyParts);
      if bodyPart.Some? && bodyPart.value != 0 && OnLine(ts.tail) != "" {
        var m := Modifiers(t, Extras(None, None), AfterOnLine(ts.tail));
        if m.Ok? {
          var l' := WithCommand(t, skip, l, bodyPart.value, OnLine(ts.tail), m.value.0);
          if l'.Ok? {
            CommandsFit(t, skip, l'.value, m.value.1);
          }
        }
      }
    }
  }

  lemma ReadFits(t: Tables, aliases: Aliases, ts: Tokens)
    ensures var r := ItemAt(t, aliases, ts); r.Ok? ==> ItemFits(t, r.value.0.item)
  {
    var g := Conditions(t, aliases, NOTHING_GATHERED, ts);
    if g.Ok? && g.value.1.Tok? {
      CommandsFit(t, g.value.0.skip, Listed([], 0), g.value.1.tail);
    }
  }

  lemma FlushFits(t: Tables, c: Cursor)
    requires CursorFits(t, c)
    ensures CursorFits(t, FlushSlot(c)) && CursorFits(t, FlushEvent(c))
  {}

  lemma PushFits(t: Tables, c: Cursor, read: Read)
    requires CursorFits(t, c) && ItemFits(t, read.item)
    ensures PushItem(c, read).Ok? ==> CursorFits(t, PushItem(c, read).value)
    ensures PushEventItem(c, read).Ok? ==> CursorFits(t, PushEventItem(c, read).value)
  {}

  lemma EventTurnFits(t: Tables, c: Cursor, ts: Tokens)
    requires ts.Tok? && CursorFits(t, c) && EventTurn(t, c, ts).Ok?
    ensures CursorFits(t, EventTurn(t, c, ts).value.0)
  {
    if c.indent == 0 {
      FlushFits(t, c);
    } else {
      ReadFits(t, c.aliases, Reread(ts));
      PushFits(t, c, ItemAt(t, c.aliases, Reread(ts)).value.0);
    }
  }

  lemma AnimTurnFits(t: Tables, c: Cursor, ts: Tokens)
    requires ts.Tok? && CursorFits(t, c) && AnimTurn(t, c, ts).Ok?
    ensures CursorFits(t, AnimTurn(t, c, ts).value.0)
  {
    if c.indent == 1 {
      FlushFits(t, c);
    } else if c.indent == 2 {
      ReadFits(t, c.aliases, Reread(ts));
      PushFits(t, c, ItemAt(t, c.aliases, Reread(ts)).value.0);
    }
  }

  lemma TurnFits(t: Tables, c: Cursor, ts: Tokens)
    requires ts.Tok? && CursorFits(t, c) && Turn(t, c, ts).Ok?
    ensures CursorFits(t, Turn(t, c, ts).value.0)
  {
    if IndexCi(ts.text, PARSE_MODES).Some? {
      FlushFits(t, c);
      FlushFits(t, FlushSlot(c));
    } else if c.mode == ANIMATIONS || c.mode == EVENTS {
      if ts.text == "}" {
        FlushFits(t, c.(indent := c.indent - 1));
      } else if ts.text != "{" && c.mode == EVENTS {
        EventTurnFits(t, c, ts);
      } else if ts.text != "{" {
        AnimTurnFits(t, c, ts);
      }
    }
  }

  // ---------- the whole script ----------

  /** What a turn keeps of the cursor. */
  predicate Sound(t: Tables, c: Cursor) {
    Settled(c) && Counts(c.parsed, Held(c, false), Held(c, true)) && CursorFits(t, c)
  }

  lemma TurnSound(t: Tables, c: Cursor, ts: Tokens)
    requires ts.Tok? && Sound(t, c) && Turn(t, c, ts).Ok?
    ensures Sound(t, Turn(t, c, ts).value.0)
  {
    TurnHolds(t, c, ts);
    TurnCounts(t, c, ts);
    TurnFits(t, c, ts);
  }

  predicate Promised(t: Tables, p: Script, anims: seq<Tagged>, events: seq<Tagged>) {
    && SlotItems(p.slots) == anims
    && EventItems(p.events) == events
    && Counts(p, anims, events)
    && ScriptFits(t, p)
  }

  lemma EndSound(t: Tables, c: Cursor)
    requires Sound(t, c)
    ensures Promised(t, FlushEvent(FlushSlot(c)).parsed, Held(c, false), Held(c, true))
  {
    FlushHolds(c);
    FlushHolds(FlushSlot(c));
    FlushFits(t, c);
    FlushFits(t, FlushSlot(c));
  }

  lemma {:induction false} ScriptKeeps(t: Tables, c: Cursor, ts: Tokens)
    requires Sound(t, c)
    ensures var r := ScriptFrom(t, c, ts);
            r.Ok? ==> Promised(t, r.value, Held(c, false) + Accepted(t, c, ts, false), Held(c, true) + Accepted(t, c, ts, true))
    decreases Size(ts)
  {
    if !ts.Tok? {
      EndSound(t, c);
      assert Held(c, false) + [] == Held(c, false) && Held(c, true) + [] == Held(c, true);
    } else if Turn(t, c, ts).Ok? {
      var (c', rest) := Turn(t, c, ts).value;
      TurnSound(t, c, ts);
      TurnHolds(t, c, ts);
      ScriptKeeps(t, c', rest);
      AcceptedStep(t, c, ts, false);
      AcceptedStep(t, c, ts, true);
    }
  }

  lemma AcceptedStep(t: Tables, c: Cursor, ts: Tokens, events: bool)
    requires ts.Tok? && Turn(t, c, ts).Ok?
    ensures var (c', rest) := Turn(t, c, ts).value;
            Held(c, events) + Accepted(t, c, ts, events) == (Held(c, events) + AcceptedNow(t, c, ts, events)) + Accepted(t, c', rest, events)
  {
    var (c', rest) := Turn(t, c, ts).value;
    Associates(Held(c, events), AcceptedNow(t, c, ts, events), Accepted(t, c', rest, events));
  }

  /** The item accepted in this turn, if there is one, is written there, line by line,
      and what the turn leaves comes after it. */
  ghost predicate TurnAsWritten(t: Tables, c: Cursor, ts: Tokens, events: bool)
    requires ts.Tok? && Turn(t, c, ts).Ok?
  {
    AcceptedNow(t, c, ts, events) != [] ==>
      exists read: Read :: read.item == AcceptedNow(t, c, ts, events)[0].item
                     && BlockWritten(t, c.aliases, Reread(ts), read, Turn(t, c, ts).value.1)
  }

  ghost predicate AsWritten(t: Tables, c: Cursor, ts: Tokens)
    decreases Size(ts)
  {
    ts.Tok? && Turn(t, c, ts).Ok? ==>
      && TurnAsWritten(t, c, ts, false) && TurnAsWritten(t, c, ts, true)
      && AsWritten(t, Turn(t, c, ts).value.0, Turn(t, c, ts).value.1)
  }

  lemma TurnIsWritten(t: Tables, c: Cursor, ts: Tokens, events: bool)
    requires ts.Tok? && Turn(t, c, ts).Ok?
    ensures TurnAsWritten(t, c, ts, events)
  {
    if AcceptedNow(t, c, ts, events) != [] {
      ItemIsWritten(t, c.aliases, Reread(ts));
    }
  }

  lemma {:induction false} AllAsWritten(t: Tables, c: Cursor, ts: Tokens)
    ensures AsWritten(t, c, ts)
    decreases Size(ts)
  {
    if ts.Tok? && Turn(t, c, ts).Ok? {
      TurnIsWritten(t, c, ts, false);
      TurnIsWritten(t, c, ts, true);
      AllAsWritten(t, Turn(t, c, ts).value.0, Turn(t, c, ts).value.1);
    }
  }

  /** A script that parses holds the accepted items, each once and in order, each
      under the state and movement, or the event, in force when it was read; the
      counters are the sums over what is stored; every limit holds; and the commands of
      each item are those of the lines it is written in. */
  lemma ParsedScript(t: Tables, aliases: Aliases, ts: Tokens)
    ensures var r := ScriptFrom(t, Start(aliases), ts);
            r.Ok? ==> Promised(t, r.value, Accepted(t, Start(aliases), ts, false), Accepted(t, Start(aliases), ts, true))
    ensures AsWritten(t, Start(aliases), ts)
  {
    AllAsWritten(t, Start(aliases), ts);
    ScriptKeeps(t, Start(aliases), ts);
    var c := Start(aliases);
    assert Held(c, false) == [] && Held(c, true) == [];
    assert Held(c, false) + Accepted(t, c, ts, false) == Accepted(t, c, ts, false);
    assert Held(c, true) + Accepted(t, c, ts, true) == Accepted(t, c, ts, true);
  }
}
