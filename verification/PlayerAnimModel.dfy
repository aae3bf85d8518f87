/** The player animation script on tokens: crates/asset_anim/src/playeranim_parse.rs.
    The name tables and the number formats are parameters. */
module PlayerAnimModel {
  import opened Wrappers
  import opened AsciiNames
  import opened AtrSyntax

  /** tree lists the names of the compiled animation tree, lower case, by index. */
  datatype Tables = Tables(
    t5: bool,
    bodyParts: seq<string>,
    states: seq<string>,
    moves: seq<string>,
    events: seq<string>,
    conditions: seq<string>,
    values: nat -> seq<string>,
    isBitflags: nat -> bool,
    isEvaluable: nat -> bool,
    tree: seq<string>,
    parseInt: string -> Option<int>,
    isFinite: string -> bool)

  datatype ScriptError =
    | UnexpectedOpen | UnexpectedClose | UnexpectedToken | TooManyItems
    | ExpectedState | ExpectedStateType | ExpectedBrace | UnterminatedCommands
    | ExpectedAnimation | ExpectedBlendtime | ExpectedModifier | TooManyAnimations
    | UnknownDefine | ExpectedEquals | UnknownCondition | NoConditions

  datatype Command = Command(bodyPart: nat, animIndex: nat, duration: Option<int>, blend: Option<int>)

  /** A 64-bit mask, as the set of the positions of its bits. */
  type Mask64 = s: set<nat> | s <= ALL

  const ALL := set i: nat | 0 <= i < 64 :: i

  datatype Condition = Condition(index: nat, bitflags: bool, bits: Mask64, value: int)

  datatype Item = Item(skip: bool, conditions: seq<Condition>, raw: seq<string>, commands: seq<Command>)

  type Aliases = map<(nat, string), Mask64>

  const MAX_ITEMS: nat := 128
  const MAX_COMMANDS: nat := 12

  const PARSE_MODES: seq<string> := ["defines", "animations", "canned_animations", "statechanges", "events"]
  const DEFINES: nat := 0
  const ANIMATIONS: nat := 1
  const EVENTS: nat := 4

  const PLAYERANIMTYPE: nat := 0
  const MOVETYPE: nat := 3
  const STRAFING: nat := 7
  const PLAYERANIMTYPE_PRIMARY: nat := 15

  /** The first entry that is the name, letter case aside. */
  function IndexCi(name: string, table: seq<string>): (r: Option<nat>)
    ensures r.Some? ==> r.value < |table| && EqualsIgnoreCase(name, table[r.value])
    ensures r.Some? ==> forall j | 0 <= j < r.value :: !EqualsIgnoreCase(name, table[j])
    ensures r.None? ==> forall j | 0 <= j < |table| :: !EqualsIgnoreCase(name, table[j])
  {
    if table == [] then None
    else if EqualsIgnoreCase(name, table[0]) then Some(0)
    else
      var r := IndexCi(name, table[1..]);
      if r.Some? then Some(r.value + 1) else None
  }

  predicate FirstAt(tree: seq<string>, name: string, from: nat, at: nat) {
    from <= at < |tree| && tree[at] == name && forall j :: from <= j < at ==> tree[j] != name
  }

  /** The first node of that name; its position is cut to 16 bits. */
  function TreeIndex(tree: seq<string>, name: string, from: nat): (r: Option<nat>)
    requires from <= |tree|
    ensures r.Some? ==> r.value < |tree| && exists at: nat :: FirstAt(tree, name, from, at) && r.value == at % 0x10000
    ensures r.None? <==> name !in tree[from..]
    decreases |tree| - from
  {
    if from == |tree| then None
    else if tree[from] == name then
      assert FirstAt(tree, name, from, from);
      Some(from % 0x10000)
    else
      var found := TreeIndex(tree, name, from + 1);
      assert found.Some? ==> exists at: nat :: FirstAt(tree, name, from, at) && found.value == at % 0x10000 by {
        if found.Some? {
          var at: nat :| FirstAt(tree, name, from + 1, at) && found.value == at % 0x10000;
          assert FirstAt(tree, name, from, at);
        }
      }
      found
  }

  // ---------- condition values ----------

  datatype Value = Bit(bit: nat) | Bits(bits: Mask64)

  function ValueBits(v: Value): Mask64 {
    match v
    case Bit(bit) => if bit < 64 then {bit} else {}
    case Bits(bits) => bits
  }

  /** Bits added to a mask, or taken away from it. */
  function Combined(mask: Mask64, bits: Mask64, subtract: bool): Mask64 {
    if subtract then mask - bits else mask + bits
  }

  function Alias(aliases: Aliases, index: nat, token: string): Option<Value> {
    if (index, Lower(token)) in aliases then Some(Bits(aliases[(index, Lower(token))])) else None
  }

  /** The two weapon type conditions ask the aliases before the names, the others after. */
  function ResolveValue(t: Tables, aliases: Aliases, index: nat, token: string): Option<Value> {
    if t.isBitflags(index) && EqualsIgnoreCase(token, "all") then Some(Bits(ALL))
    else
      var alias := Alias(aliases, index, token);
      var name := IndexCi(token, t.values(index));
      if index in {PLAYERANIMTYPE, PLAYERANIMTYPE_PRIMARY} && alias.Some? then alias
      else if name.Some? then Some(Bit(name.value))
      else alias
  }

  // ---------- conditions ----------

  datatype Gathered = Gathered(skip: bool, saw: bool, conditions: seq<Condition>, raw: seq<string>, current: Option<Condition>, subtract: bool)

  const NOTHING_GATHERED := Gathered(false, false, [], [], None, false)

  function ClosedOff(g: Gathered): Gathered {
    g.(conditions := if g.current.Some? then g.conditions + [g.current.value] else g.conditions, current := None)
  }

  function NewCondition(t: Tables, index: nat): Condition {
    Condition(index, t.isBitflags(index), {}, if !t.isBitflags(index) && t.values(index) == [] then 1 else 0)
  }

  function WithValue(c: Condition, value: Value, subtract: bool): Condition {
    if c.bitflags then
      c.(bits := Combined(c.bits, ValueBits(value), subtract))
    else if value.Bit? then c.(value := value.bit)
    else c.(bits := value.bits, bitflags := true)
  }

  /** One token of a condition line that is neither a brace nor a pose. */
  function GatherToken(t: Tables, aliases: Aliases, g: Gathered, token: string): Result<Gathered, ScriptError> {
    var said := g.(raw := g.raw + [token]);
    if token == "," then Ok(ClosedOff(said).(subtract := false))
    else if EqualsIgnoreCase(token, "default") then Ok(said.(saw := true))
    else if g.current.Some? && ResolveValue(t, aliases, g.current.value.index, token).Some? then
      var value := ResolveValue(t, aliases, g.current.value.index, token).value;
      Ok(said.(current := Some(WithValue(g.current.value, value, g.subtract))))
    else
      var index := IndexCi(token, t.conditions);
      if index.Some? then
        Ok(ClosedOff(said).(saw := true, skip := g.skip || !t.isEvaluable(index.value),
                         current := Some(NewCondition(t, index.value)), subtract := false))
      else if EqualsIgnoreCase(token, "and") then Ok(said)
      else if EqualsIgnoreCase(token, "not") || EqualsIgnoreCase(token, "minus") then
        if g.current.Some? && g.current.value.bitflags then
          var c := g.current.value;
          Ok(said.(subtract := true, current := Some(c.(bits := if c.bits == {} then ALL else c.bits))))
        else Ok(said.(skip := true))
      else if g.current.Some? then Ok(said.(skip := true))
      else if t.t5 then Ok(said.(skip := true, saw := true))
      else Err(UnknownCondition)
  }

  predicate IsPose(t: Tables, token: string) {
    t.t5 && (EqualsIgnoreCase(token, "stance") || EqualsIgnoreCase(token, "direction"))
  }

  const CROUCH_MOVES: Mask64 := {2, 6, 7, 12, 13, 16, 17}
  const PRONE_MOVES: Mask64 := {3, 8, 9}
  const BACK_MOVES: Mask64 := {5, 7, 9, 11, 13}

  function PoseCondition(name: string, value: string): Option<Condition> {
    if EqualsIgnoreCase(name, "stance") then
      if EqualsIgnoreCase(value, "crouch") then Some(Condition(MOVETYPE, true, CROUCH_MOVES, 0))
      else if EqualsIgnoreCase(value, "prone") then Some(Condition(MOVETYPE, true, PRONE_MOVES, 0))
      else if EqualsIgnoreCase(value, "stand") then Some(Condition(MOVETYPE, true, ALL - (CROUCH_MOVES + PRONE_MOVES), 0))
      else None
    else if EqualsIgnoreCase(name, "direction") then
      if EqualsIgnoreCase(value, "backward") then Some(Condition(MOVETYPE, true, BACK_MOVES, 0))
      else if EqualsIgnoreCase(value, "forward") then Some(Condition(MOVETYPE, true, ALL - BACK_MOVES, 0))
      else if EqualsIgnoreCase(value, "left") then Some(Condition(STRAFING, false, {}, 1))
      else if EqualsIgnoreCase(value, "right") then Some(Condition(STRAFING, false, {}, 2))
      else None
    else None
  }

  /** A pose and its value, both read from the line. */
  function GatherPose(g: Gathered, token: string, value: string): Gathered {
    var closed := ClosedOff(g).(raw := g.raw + [token, value], saw := true);
    var pose := PoseCondition(token, value);
    if pose.None? then closed.(skip := true)
    else
      var along := EqualsIgnoreCase(token, "direction") && (EqualsIgnoreCase(value, "forward") || EqualsIgnoreCase(value, "backward"));
      closed.(conditions := closed.conditions + [pose.value] + if along then [Condition(STRAFING, false, {}, 0)] else [])
  }

  function Conditions(t: Tables, aliases: Aliases, g: Gathered, ts: Tokens): (r: Result<(Gathered, Tokens), ScriptError>)
    ensures r.Ok? ==> Size(r.value.1) <= Size(ts)
    decreases Size(ts)
  {
    var token := OnLine(ts);
    if token == "" || token == "{" then
      if g.saw then Ok((ClosedOff(g), ts)) else Err(NoConditions)
    else if IsPose(t, token) then
      var rest := AfterOnLine(ts);
      Conditions(t, aliases, GatherPose(g, token, OnLine(rest)), AfterOnLine(rest))
    else
      match GatherToken(t, aliases, g, token)
      case Err(e) => Err(e)
      case Ok(g') => Conditions(t, aliases, g', AfterOnLine(ts))
  }

  // ---------- commands ----------

  datatype Extras = Extras(duration: Option<int>, blend: Option<int>)

  predicate IsNumberModifier(t: Tables, token: string) {
    t.t5 && (EqualsIgnoreCase(token, "blendouttime") || EqualsIgnoreCase(token, "animrate"))
  }

  predicate IsBareModifier(t: Tables, token: string) {
    || EqualsIgnoreCase(token, "turretanim")
    || (t.t5 && (EqualsIgnoreCase(token, "grenadeanim") || EqualsIgnoreCase(token, "weapontimescale")
                 || EqualsIgnoreCase(token, "allowmovementinterrupt")))
  }

  function Modifiers(t: Tables, x: Extras, ts: Tokens): (r: Result<(Extras, Tokens), ScriptError>)
    ensures r.Ok? ==> Size(r.value.1) <= Size(ts)
    decreases Size(ts)
  {
    var token := OnLine(ts);
    var rest := AfterOnLine(ts);
    if token == "" then Ok((x, ts))
    else if EqualsIgnoreCase(token, "duration") then
      Modifiers(t, x.(duration := t.parseInt(OnLine(rest))), AfterOnLine(rest))
    else if EqualsIgnoreCase(token, "blendtime") then
      if t.parseInt(OnLine(rest)).None? then Err(ExpectedBlendtime)
      else Modifiers(t, x.(blend := t.parseInt(OnLine(rest))), AfterOnLine(rest))
    else if EqualsIgnoreCase(token, "sound") then Modifiers(t, x, AfterOnLine(rest))
    else if IsNumberModifier(t, token) then
      if t.isFinite(OnLine(rest)) then Modifiers(t, x, AfterOnLine(rest)) else Err(ExpectedModifier)
    else if IsBareModifier(t, token) then Modifiers(t, x, rest)
    else Ok((x, ts))
  }

  /** A token put back: it no longer has a line break before it. */
  function Reread(ts: Tokens): (r: Tokens)
    ensures Size(r) == Size(ts)
  {
    if ts.Tok? then ts.(newline := false) else ts
  }

  datatype Listed = Listed(commands: seq<Command>, unresolved: nat)

  /** A command joins the list if the tree knows its animation. */
  function WithCommand(t: Tables, skip: bool, l: Listed, bodyPart: nat, anim: string, x: Extras): Result<Listed, ScriptError> {
    match TreeIndex(t.tree, Lower(anim), 0)
    case Some(i) =>
      if |l.commands| >= MAX_COMMANDS then Err(TooManyAnimations)
      else Ok(l.(commands := l.commands + [Command(bodyPart, i, x.duration, x.blend)]))
    case None => Ok(if skip then l else l.(unresolved := l.unresolved + 1))
  }

  function Commands(t: Tables, skip: bool, l: Listed, ts: Tokens): (r: Result<(Listed, Tokens), ScriptError>)
    ensures r.Ok? ==> Size(r.value.1) <= Size(ts)
    decreases Size(ts)
  {
    if !ts.Tok? then Err(UnterminatedCommands)
    else if ts.text == "}" then Ok((l, ts.tail))
    else
      var bodyPart := IndexCi(ts.text, t.bodyParts);
      if bodyPart.None? || bodyPart.value == 0 then Ok((l, Reread(ts)))
      else
        var anim := OnLine(ts.tail);
        if anim == "" then Err(ExpectedAnimation)
        else
          match Modifiers(t, Extras(None, None), AfterOnLine(ts.tail))
          case Err(e) => Err(e)
          case Ok((x, rest)) =>
            match WithCommand(t, skip, l, bodyPart.value, anim, x)
            case Err(e) => Err(e)
            case Ok(l') => Commands(t, skip, l', rest)
  }

  datatype Read = Read(item: Item, unresolved: nat)

  function ItemAt(t: Tables, aliases: Aliases, ts: Tokens): (r: Result<(Read, Tokens), ScriptError>)
    ensures r.Ok? ==> Size(r.value.1) < Size(ts)
  {
    match Conditions(t, aliases, NOTHING_GATHERED, ts)
    case Err(e) => Err(e)
    case Ok((g, rest)) =>
      if !rest.Tok? || rest.text != "{" then Err(ExpectedBrace)
      else
        match Commands(t, g.skip, Listed([], 0), rest.tail)
        case Err(e) => Err(e)
        case Ok((l, after)) => Ok((Read(Item(g.skip, g.conditions, g.raw, l.commands), l.unresolved), after))
  }

  // ---------- defines ----------

  function AfterLine(ts: Tokens): (r: Tokens)
    ensures Size(r) <= Size(ts)
    decreases Size(ts)
  {
    if OnLine(ts) == "" then ts else AfterLine(AfterOnLine(ts))
  }

  datatype Mask = Mask(bits: Mask64, subtract: bool)

  function WithAlias(t: Tables, aliases: Aliases, index: nat, m: Mask, token: string): Mask {
    if EqualsIgnoreCase(token, "and") then m
    else if EqualsIgnoreCase(token, "not") || EqualsIgnoreCase(token, "minus") then
      Mask(if m.bits == {} then ALL else m.bits, true)
    else
      match ResolveValue(t, aliases, index, token)
      case None => m
      case Some(value) => m.(bits := Combined(m.bits, ValueBits(value), m.subtract))
  }

  function DefineBits(t: Tables, aliases: Aliases, index: nat, m: Mask, ts: Tokens): (r: (Mask64, Tokens))
    ensures Size(r.1) <= Size(ts)
    decreases Size(ts)
  {
    var token := OnLine(ts);
    if token == "" || EqualsIgnoreCase(token, "set") || IndexCi(token, PARSE_MODES).Some? then (m.bits, ts)
    else DefineBits(t, aliases, index, WithAlias(t, aliases, index, m, token), AfterOnLine(ts))
  }

  function DefineAt(t: Tables, aliases: Aliases, ts: Tokens): (r: Result<(Aliases, Tokens), ScriptError>)
    ensures r.Ok? ==> Size(r.value.1) <= Size(ts)
  {
    var index := IndexCi(OnLine(ts), t.conditions);
    var ts1 := AfterOnLine(ts);
    var ts2 := AfterOnLine(ts1);
    if index.None? then if t.t5 then Ok((aliases, AfterLine(ts1))) else Err(UnknownDefine)
    else if OnLine(ts2) != "=" then Err(ExpectedEquals)
    else
      var (bits, rest) := DefineBits(t, aliases, index.value, Mask({}, false), AfterOnLine(ts2));
      Ok((aliases[(index.value, Lower(OnLine(ts1))) := bits], rest))
  }

  // ---------- the script ----------

  datatype Slot = Slot(state: nat, movetype: nat, items: seq<Item>)

  datatype Event = Event(event: nat, items: seq<Item>)

  datatype Script = Script(
    slots: seq<Slot>,
    events: seq<Event>,
    itemCount: nat,
    skippedItems: nat,
    commandCount: nat,
    unresolvedAnims: nat,
    eventItemCount: nat)

  const EMPTY_SCRIPT := Script([], [], 0, 0, 0, 0, 0)

  /** Where the parser is: the lists being filled are not part of the script yet. */
  datatype Cursor = Cursor(
    parsed: Script,
    mode: nat,
    indent: nat,
    state: nat,
    movetype: nat,
    event: nat,
    items: Option<seq<Item>>,
    eventItems: Option<seq<Item>>,
    aliases: Aliases)

  function Start(aliases: Aliases): Cursor {
    Cursor(EMPTY_SCRIPT, DEFINES, 0, 0, 0, 0, None, None, aliases)
  }

  function FlushSlot(c: Cursor): Cursor {
    if c.items.None? then c
    else c.(parsed := c.parsed.(slots := c.parsed.slots + [Slot(c.state, c.movetype, c.items.value)]), items := None)
  }

  function FlushEvent(c: Cursor): Cursor {
    if c.eventItems.None? then c
    else c.(parsed := c.parsed.(events := c.parsed.events + [Event(c.event, c.eventItems.value)]), eventItems := None)
  }

  function Noted(p: Script, item: Item): Script {
    p.(skippedItems := p.skippedItems + (if item.skip then 1 else 0), commandCount := p.commandCount + |item.commands|)
  }

  /** An item outside any list is parsed, and dropped. */
  function PushItem(c: Cursor, read: Read): Result<Cursor, ScriptError> {
    var parsed := c.parsed.(unresolvedAnims := c.parsed.unresolvedAnims + read.unresolved);
    if c.items.None? then Ok(c.(parsed := parsed))
    else if |c.items.value| >= MAX_ITEMS then Err(TooManyItems)
    else Ok(c.(parsed := Noted(parsed, read.item).(itemCount := parsed.itemCount + 1), items := Some(c.items.value + [read.item])))
  }

  function PushEventItem(c: Cursor, read: Read): Result<Cursor, ScriptError> {
    var parsed := c.parsed.(unresolvedAnims := c.parsed.unresolvedAnims + read.unresolved);
    if c.eventItems.None? then Ok(c.(parsed := parsed))
    else if |c.eventItems.value| >= MAX_ITEMS then Err(TooManyItems)
    else Ok(c.(parsed := Noted(parsed, read.item).(eventItemCount := parsed.eventItemCount + 1), eventItems := Some(c.eventItems.value + [read.item])))
  }

  /** Past a block of an unknown name, or past the brace that closes the block
      around it. */
  function SkipBlock(depth: int, ts: Tokens): (r: Tokens)
    ensures Size(r) <= Size(ts)
    decreases Size(ts)
  {
    if !ts.Tok? then ts
    else if ts.text == "{" then SkipBlock(depth + 1, ts.tail)
    else if ts.text == "}" then if depth <= 1 then ts.tail else SkipBlock(depth - 1, ts.tail)
    else SkipBlock(depth, ts.tail)
  }

  function OpenBrace(c: Cursor): Result<Cursor, ScriptError> {
    if c.indent >= 3 then Err(UnexpectedOpen) else Ok(c.(indent := c.indent + 1))
  }

  function CloseBrace(c: Cursor): Result<Cursor, ScriptError> {
    if c.indent == 0 then Err(UnexpectedClose)
    else
      var c1 := c.(indent := c.indent - 1);
      var c2 := if c1.mode == ANIMATIONS && c1.indent == 1 then FlushSlot(c1) else c1;
      Ok(if c2.mode == EVENTS && c2.indent == 0 then FlushEvent(c2) else c2)
  }

  function ChangeMode(c: Cursor, mode: nat): Cursor {
    FlushEvent(FlushSlot(c)).(mode := mode, indent := 0)
  }

  function EventTurn(t: Tables, c: Cursor, ts: Tokens): (r: Result<(Cursor, Tokens), ScriptError>)
    requires ts.Tok?
    ensures r.Ok? ==> Size(r.value.1) < Size(ts)
  {
    if c.indent == 0 then
      var flushed := FlushEvent(c);
      match IndexCi(ts.text, t.events)
      case None => Ok((flushed, SkipBlock(0, ts.tail)))
      case Some(event) => Ok((flushed.(event := event, eventItems := Some([])), ts.tail))
    else if c.indent == 1 then
      match ItemAt(t, c.aliases, Reread(ts))
      case Err(e) => Err(e)
      case Ok((read, rest)) => (match PushEventItem(c, read) case Err(e) => Err(e) case Ok(c') => Ok((c', rest)))
    else Err(UnexpectedToken)
  }

  function AnimTurn(t: Tables, c: Cursor, ts: Tokens): (r: Result<(Cursor, Tokens), ScriptError>)
    requires ts.Tok?
    ensures r.Ok? ==> Size(r.value.1) < Size(ts)
  {
    if c.indent == 0 then
      if !EqualsIgnoreCase(ts.text, "state") then Err(ExpectedState)
      else if OnLine(ts.tail) == "" then Err(ExpectedStateType)
      else
        var state := IndexCi(OnLine(ts.tail), t.states);
        Ok((c.(state := if state.Some? then state.value else 0), AfterOnLine(ts.tail)))
    else if c.indent == 1 then
      var flushed := FlushSlot(c);
      match IndexCi(ts.text, t.moves)
      case None => Ok((flushed, SkipBlock(0, ts.tail)))
      case Some(movetype) => Ok((flushed.(movetype := movetype, items := Some([])), ts.tail))
    else if c.indent == 2 then
      match ItemAt(t, c.aliases, Reread(ts))
      case Err(e) => Err(e)
      case Ok((read, rest)) => (match PushItem(c, read) case Err(e) => Err(e) case Ok(c') => Ok((c', rest)))
    else Err(UnexpectedToken)
  }

  /** One turn of the main loop. */
  function Turn(t: Tables, c: Cursor, ts: Tokens): (r: Result<(Cursor, Tokens), ScriptError>)
    requires ts.Tok?
    ensures r.Ok? ==> Size(r.value.1) < Size(ts)
  {
    var mode := IndexCi(ts.text, PARSE_MODES);
    if mode.Some? then Ok((ChangeMode(c, mode.value), ts.tail))
    else if c.mode == DEFINES && EqualsIgnoreCase(ts.text, "set") then
      match DefineAt(t, c.aliases, ts.tail)
      case Err(e) => Err(e)
      case Ok((aliases, rest)) => Ok((c.(aliases := aliases), rest))
    else if c.mode != ANIMATIONS && c.mode != EVENTS then Ok((c, ts.tail))
    else if ts.text == "{" then (match OpenBrace(c) case Err(e) => Err(e) case Ok(c') => Ok((c', ts.tail)))
    else if ts.text == "}" then (match CloseBrace(c) case Err(e) => Err(e) case Ok(c') => Ok((c', ts.tail)))
    else if c.mode == EVENTS then EventTurn(t, c, ts)
    else AnimTurn(t, c, ts)
  }

  /** The script from a cursor on. An empty quoted token ends it like the end of the text. */
  function ScriptFrom(t: Tables, c: Cursor, ts: Tokens): Result<Script, ScriptError>
    decreases Size(ts)
  {
    if !ts.Tok? then Ok(FlushEvent(FlushSlot(c)).parsed)
    else
      match Turn(t, c, ts)
      case Err(e) => Err(e)
      case Ok((c', rest)) => ScriptFrom(t, c', rest)
  }

  /** The weapon types of a separate list number themselves by position; the known
      ones become aliases of both weapon type conditions. */
  function TypeAliases(t: Tables, aliases: Aliases, index: nat, ts: Tokens): Aliases
    decreases Size(ts)
  {
    if index >= 64 || !ts.Tok? then aliases
    else
      var known := IndexCi(ts.text, t.values(PLAYERANIMTYPE)).Some?;
      TypeAliases(t, if known then WithType(aliases, ts.text, index) else aliases, index + 1, ts.tail)
  }

  function WithType(aliases: Aliases, name: string, index: nat): Aliases {
    aliases[(PLAYERANIMTYPE, Lower(name)) := ValueBits(Bit(index))][(PLAYERANIMTYPE_PRIMARY, Lower(name)) := ValueBits(Bit(index))]
  }
}
