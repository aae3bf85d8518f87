/** Sound aliases and the loaded sounds they play: the links between them in
    crates/asset_audio/src/sound_catalog.rs. */
module SoundCatalog {
  import opened Wrappers
  import opened AsciiNames
  import opened AssetEdges
  import opened KeyedTables

  datatype LoadedSound = LoadedSound(namespace: Namespace, name: string, zone: Zone)

  datatype Origin =
    | NoOrigin
    | AuthoredName
    | NotLoaded
    | NullAliasExact
    | NullAliasSuffix
    | MissingConvention
    | AmbiguousConvention(matches: nat)

  const STREAMED: nat := 2
  const PRIMED: nat := 3

  /** One row of an alias; streamed is a directory and a name. */
  datatype Alias = Alias(
    fileName: Option<string>,
    streamed: Option<(string, string)>,
    fileType: Option<nat>,
    loadedName: Option<string>,
    loaded: Edge,
    origin: Origin)

  datatype Sound = Sound(namespace: Namespace, name: string, aliases: seq<Alias>)

  // ---------- names ----------

  /** What follows the last slash, of either kind. */
  function FileOf(name: string): string {
    if name == "" then ""
    else
      var last := name[|name| - 1];
      if last == '/' || last == '\\' then "" else FileOf(name[..|name| - 1]) + [last]
  }

  predicate IsSlash(c: char) {
    c == '/' || c == '\\'
  }

  /** The file name is the longest end of the name without a slash. */
  lemma {:induction false} FileOfExact(name: string)
    ensures |FileOf(name)| <= |name| && FileOf(name) == name[|name| - |FileOf(name)|..]
    ensures forall k :: 0 <= k < |FileOf(name)| ==> !IsSlash(FileOf(name)[k])
    ensures FileOf(name) == name || IsSlash(name[|name| - |FileOf(name)| - 1])
    decreases |name|
  {
    if name != "" && !IsSlash(name[|name| - 1]) {
      FileOfExact(name[..|name| - 1]);
    }
  }

  predicate IsNullName(name: Option<string>) {
    name.Some? && EqualsIgnoreCase(BareName(FileOf(name.value)), "null.wav")
  }

  predicate IsNullFile(a: Alias) {
    || IsNullName(a.fileName)
    || (a.streamed.Some? && a.streamed.value.0 == "" && IsNullName(Some(a.streamed.value.1)))
    || IsNullName(a.loadedName)
  }

  predicate EndsWith(s: string, suffix: string) {
    |suffix| <= |s| && s[|s| - |suffix|..] == suffix
  }

  function WavOf(alias: string): string {
    "/" + alias + ".wav"
  }

  // ---------- the index of loaded sounds ----------

  function LoadedKey(l: LoadedSound): Key {
    Key(l.namespace, l.name)
  }

  function LoadedKeys(loaded: seq<LoadedSound>): seq<Key> {
    seq(|loaded|, i requires 0 <= i < |loaded| => LoadedKey(loaded[i]))
  }

  /** The index leads from each name to the last loaded sound of that name. */
  ghost predicate LoadedIndexed(byLoaded: map<Key, nat>, loaded: seq<LoadedSound>) {
    LastIndexed(byLoaded, LoadedKeys(loaded))
  }

  ghost predicate LastOfKey(loaded: seq<LoadedSound>, key: Key, i: nat) {
    && i < |loaded| && LoadedKey(loaded[i]) == key
    && forall j | i < j < |loaded| :: LoadedKey(loaded[j]) != key
  }

  lemma IndexedIsLast(byLoaded: map<Key, nat>, loaded: seq<LoadedSound>, key: Key)
    requires LoadedIndexed(byLoaded, loaded)
    ensures key in byLoaded ==> LastOfKey(loaded, key, byLoaded[key])
    ensures key in byLoaded <==> exists i | 0 <= i < |loaded| :: LoadedKey(loaded[i]) == key
  {
    var keys := LoadedKeys(loaded);
    forall j | 0 <= j < |loaded|
      ensures LoadedKey(loaded[j]) in byLoaded && j <= byLoaded[LoadedKey(loaded[j])]
    {
      assert keys[j] == LoadedKey(loaded[j]);
    }
    if key in byLoaded {
      assert keys[byLoaded[key]] == LoadedKey(loaded[byLoaded[key]]);
    }
  }

  function LoadedIndexIn(byLoaded: map<Key, nat>, ns: Namespace, name: string): Option<nat> {
    var key := Key(ns, BareName(name));
    if key in byLoaded then Some(byLoaded[key]) else None
  }

  // ---------- what an alias row must end up with ----------

  datatype Convention = Exact(index: nat) | Suffix(index: nat) | Missing | Ambiguous(matches: nat)

  ghost function SuffixMatches(byLoaded: map<Key, nat>, ns: Namespace, alias: string): set<Key> {
    set key | key in byLoaded && key.namespace == ns && EndsWith(key.name, WavOf(alias))
  }

  /** The loaded sound an alias without a file of its own stands for. */
  ghost function Conventional(byLoaded: map<Key, nat>, ns: Namespace, alias: string): Convention {
    var matches := SuffixMatches(byLoaded, ns, alias);
    if LoadedIndexIn(byLoaded, ns, alias).Some? then Exact(LoadedIndexIn(byLoaded, ns, alias).value)
    else if |matches| == 0 then Missing
    else if |matches| == 1 then
      var key :| key in matches;
      Suffix(byLoaded[key])
    else Ambiguous(|matches|)
  }

  function Hinted(byLoaded: map<Key, nat>, ns: Namespace, a: Alias): Option<nat> {
    if a.loadedName.Some? && a.loadedName.value != "" then LoadedIndexIn(byLoaded, ns, a.loadedName.value) else None
  }

  function ZoneOfLoaded(loaded: seq<LoadedSound>, i: nat): Zone {
    if i < |loaded| then loaded[i].zone else ""
  }

  function ByConvention(loaded: seq<LoadedSound>, a: Alias, c: Convention): Alias {
    match c
    case Exact(i) => a.(loaded := Bound(i, ZoneOfLoaded(loaded, i)), origin := NullAliasExact)
    case Suffix(i) => a.(loaded := Bound(i, ZoneOfLoaded(loaded, i)), origin := NullAliasSuffix)
    case Missing => a.(loaded := Absent, origin := MissingConvention)
    case Ambiguous(n) => a.(loaded := Absent, origin := AmbiguousConvention(n))
  }

  predicate HasHint(a: Alias) {
    a.loadedName.Some? && a.loadedName.value != ""
  }

  /** A row with a file of its own, by its authored name. */
  function ByName(loaded: seq<LoadedSound>, byLoaded: map<Key, nat>, ns: Namespace, a: Alias): Alias {
    if a.loaded == Unresolved(TempFieldNotAliasable) then a.(origin := NoOrigin)
    else
      var named := a.(origin := if HasHint(a) then AuthoredName else NoOrigin);
      var found := Hinted(byLoaded, ns, a);
      if found.Some? then named.(loaded := Bound(found.value, ZoneOfLoaded(loaded, found.value)))
      else if a.fileType == Some(STREAMED) || a.fileType == Some(PRIMED) then named.(loaded := Absent, origin := NotLoaded)
      else if a.loaded.Bound? then named.(loaded := Unresolved(CatalogMiss))
      else named
  }

  ghost function Rebound(loaded: seq<LoadedSound>, byLoaded: map<Key, nat>, ns: Namespace, name: string,
          a: Alias): Alias {
    if IsNullFile(a) then ByConvention(loaded, a, Conventional(byLoaded, ns, name)) else ByName(loaded, byLoaded, ns, a)
  }

  ghost function SoundRebound(loaded: seq<LoadedSound>, byLoaded: map<Key, nat>, s: Sound): Sound {
    s.(aliases := seq(|s.aliases|, j requires 0 <= j < |s.aliases| => Rebound(loaded, byLoaded, s.namespace, s.name, s.aliases[j])))
  }

  ghost function AllRebound(loaded: seq<LoadedSound>, byLoaded: map<Key, nat>, sounds: seq<Sound>): seq<Sound> {
    seq(|sounds|, i requires 0 <= i < |sounds| => SoundRebound(loaded, byLoaded, sounds[i]))
  }

  // ---------- said of the loaded sounds alone ----------

  ghost predicate Named(loaded: seq<LoadedSound>, ns: Namespace, name: string) {
    exists i | 0 <= i < |loaded| :: LoadedKey(loaded[i]) == Key(ns, name)
  }

  /** A loaded sound of that name lies in some directory under the name of the alias. */
  ghost predicate Fits(loaded: seq<LoadedSound>, ns: Namespace, alias: string, name: string) {
    Named(loaded, ns, name) && exists directory: string :: name == directory + ("/" + alias + ".wav")
  }

  lemma EndsExactly(name: string, suffix: string)
    ensures EndsWith(name, suffix) <==> exists directory: string :: name == directory + suffix
  {
    if EndsWith(name, suffix) {
      assert name == name[..|name| - |suffix|] + suffix;
    }
  }

  ghost function FittingNames(loaded: seq<LoadedSound>, ns: Namespace, alias: string): set<string> {
    set i | 0 <= i < |loaded| && Fits(loaded, ns, alias, loaded[i].name) :: loaded[i].name
  }

  /** The edge plays the last loaded sound of that name, and knows its zone. */
  ghost predicate BoundTo(loaded: seq<LoadedSound>, ns: Namespace, name: string, edge: Edge) {
    edge.Bound? && LastOfKey(loaded, Key(ns, name), edge.index) && edge.zone == loaded[edge.index].zone
  }

  /** A row without a file of its own plays the loaded sound of its alias's name, or
      else the only one whose path ends in it; or it says why there is none. */
  ghost predicate NullRowRight(loaded: seq<LoadedSound>, ns: Namespace, alias: string, a: Alias) {
    match a.origin
    case NullAliasExact => BoundTo(loaded, ns, BareName(alias), a.loaded)
    case NullAliasSuffix =>
      && !Named(loaded, ns, BareName(alias))
      && exists name :: FittingNames(loaded, ns, alias) == {name} && BoundTo(loaded, ns, name, a.loaded)
    case MissingConvention =>
      a.loaded.Absent? && !Named(loaded, ns, BareName(alias)) && FittingNames(loaded, ns, alias) == {}
    case AmbiguousConvention(n) =>
      a.loaded.Absent? && !Named(loaded, ns, BareName(alias)) && |FittingNames(loaded, ns, alias)| == n >= 2
    case _ => false
  }

  predicate PlaysFromDisk(a: Alias) {
    a.fileType == Some(STREAMED) || a.fileType == Some(PRIMED)
  }

  /** A row with a file plays the loaded sound of its authored name. Without one, a
      field that cannot be followed stays as it is, a row played from disk has nothing
      to bind, and whatever else was bound is a miss now. */
  ghost predicate NamedRowRight(loaded: seq<LoadedSound>, ns: Namespace, before: Alias, after: Alias) {
    if before.loaded == Unresolved(TempFieldNotAliasable) then
      after.loaded == before.loaded && after.origin == NoOrigin
    else if HasHint(before) && Named(loaded, ns, BareName(before.loadedName.value)) then
      BoundTo(loaded, ns, BareName(before.loadedName.value), after.loaded) && after.origin == AuthoredName
    else if PlaysFromDisk(before) then
      after.loaded == Absent && after.origin == NotLoaded
    else
      && after.loaded == (if before.loaded.Bound? then Unresolved(CatalogMiss) else before.loaded)
      && after.origin == (if HasHint(before) then AuthoredName else NoOrigin)
  }

  /** What resolving makes of a row; only its edge and its origin change. */
  ghost predicate RowRight(loaded: seq<LoadedSound>, ns: Namespace, alias: string, before: Alias, after: Alias) {
    && after == before.(loaded := after.loaded, origin := after.origin)
    && if IsNullFile(before) then NullRowRight(loaded, ns, alias, after) else NamedRowRight(loaded, ns, before, after)
  }

  ghost predicate SoundRight(loaded: seq<LoadedSound>, before: Sound, after: Sound) {
    && after.namespace == before.namespace && after.name == before.name && |after.aliases| == |before.aliases|
    && forall j | 0 <= j < |after.aliases| :: RowRight(loaded, after.namespace, after.name, before.aliases[j], after.aliases[j])
  }

  ghost predicate AllRight(loaded: seq<LoadedSound>, before: seq<Sound>, after: seq<Sound>) {
    |after| == |before| && forall i | 0 <= i < |after| :: SoundRight(loaded, before[i], after[i])
  }

  lemma IndexedNames(byLoaded: map<Key, nat>, loaded: seq<LoadedSound>, ns: Namespace, name: string)
    requires LoadedIndexed(byLoaded, loaded)
    ensures Key(ns, name) in byLoaded <==> Named(loaded, ns, name)
    ensures Key(ns, name) in byLoaded ==> LastOfKey(loaded, Key(ns, name), byLoaded[Key(ns, name)])
  {
    IndexedIsLast(byLoaded, loaded, Key(ns, name));
  }

  lemma {:induction false} SameSize(ns: Namespace, names: set<string>, keys: set<Key>)
    requires keys == set name | name in names :: Key(ns, name)
    ensures |keys| == |names|
    decreases names
  {
    if names != {} {
      var name :| name in names;
      SameSize(ns, names - {name}, keys - {Key(ns, name)});
    }
  }

  /** The index finds the fitting names, each once. */
  lemma MatchesFit(byLoaded: map<Key, nat>, loaded: seq<LoadedSound>, ns: Namespace, alias: string)
    requires LoadedIndexed(byLoaded, loaded)
    ensures SuffixMatches(byLoaded, ns, alias) == set name | name in FittingNames(loaded, ns, alias) :: Key(ns, name)
    ensures |SuffixMatches(byLoaded, ns, alias)| == |FittingNames(loaded, ns, alias)|
  {
    var matches, names := SuffixMatches(byLoaded, ns, alias), FittingNames(loaded, ns, alias);
    forall key: Key
      ensures key in matches <==> key.namespace == ns && key.name in names
    {
      IndexedNames(byLoaded, loaded, key.namespace, key.name);
      EndsExactly(key.name, WavOf(alias));
      if key in matches {
        var i :| 0 <= i < |loaded| && LoadedKey(loaded[i]) == key;
        assert loaded[i].name in names;
      }
    }
    SameSize(ns, names, matches);
  }

  lemma OnlyMember<T>(s: set<T>, x: T, y: T)
    requires |s| == 1 && x in s && y in s
    ensures x == y
  {
    assert |s - {x}| == 0;
    assert y in s - {x} || y == x;
  }

  lemma ConventionRight(byLoaded: map<Key, nat>, loaded: seq<LoadedSound>, ns: Namespace, alias: string, a: Alias)
    requires LoadedIndexed(byLoaded, loaded) && IsNullFile(a)
    ensures RowRight(loaded, ns, alias, a, ByConvention(loaded, a, Conventional(byLoaded, ns, alias)))
  {
    var matches, names := SuffixMatches(byLoaded, ns, alias), FittingNames(loaded, ns, alias);
    IndexedNames(byLoaded, loaded, ns, BareName(alias));
    MatchesFit(byLoaded, loaded, ns, alias);
    match Conventional(byLoaded, ns, alias)
    case Exact(_) =>
    case Suffix(i) =>
      var key :| key in matches && byLoaded[key] == i;
      IndexedIsLast(byLoaded, loaded, key);
      forall name | name in names
        ensures name == key.name
      {
        OnlyMember(matches, key, Key(ns, name));
      }
      assert names == {key.name} && BoundTo(loaded, ns, key.name, Bound(i, ZoneOfLoaded(loaded, i)));
    case Missing =>
    case Ambiguous(_) =>
  }

  lemma ByNameKeepsNames(byLoaded: map<Key, nat>, loaded: seq<LoadedSound>, ns: Namespace, a: Alias)
    ensures var after := ByName(loaded, byLoaded, ns, a);
            IsNullFile(after) == IsNullFile(a) && after.loadedName == a.loadedName
    ensures var after := ByName(loaded, byLoaded, ns, a);
            after.loaded.Bound? <==> a.loaded != Unresolved(TempFieldNotAliasable) && Hinted(byLoaded, ns, a).Some?
  {}

  lemma NameRight(byLoaded: map<Key, nat>, loaded: seq<LoadedSound>, ns: Namespace, alias: string, a: Alias)
    requires LoadedIndexed(byLoaded, loaded) && !IsNullFile(a)
    ensures RowRight(loaded, ns, alias, a, ByName(loaded, byLoaded, ns, a))
  {
    ByNameKeepsNames(byLoaded, loaded, ns, a);
    if HasHint(a) {
      IndexedNames(byLoaded, loaded, ns, BareName(a.loadedName.value));
    }
  }

  lemma ReboundRight(byLoaded: map<Key, nat>, loaded: seq<LoadedSound>, ns: Namespace, alias: string, a: Alias)
    requires LoadedIndexed(byLoaded, loaded)
    ensures RowRight(loaded, ns, alias, a, Rebound(loaded, byLoaded, ns, alias, a))
  {
    if IsNullFile(a) {
      ConventionRight(byLoaded, loaded, ns, alias, a);
    } else {
      NameRight(byLoaded, loaded, ns, alias, a);
    }
  }

  lemma AllReboundRight(byLoaded: map<Key, nat>, loaded: seq<LoadedSound>, sounds: seq<Sound>)
    requires LoadedIndexed(byLoaded, loaded)
    ensures AllRight(loaded, sounds, AllRebound(loaded, byLoaded, sounds))
  {
    var after := AllRebound(loaded, byLoaded, sounds);
    forall i | 0 <= i < |after|
      ensures SoundRight(loaded, sounds[i], after[i])
    {
      forall j | 0 <= j < |after[i].aliases|
        ensures RowRight(loaded, after[i].namespace, after[i].name, sounds[i].aliases[j], after[i].aliases[j])
      {
        ReboundRight(byLoaded, loaded, sounds[i].namespace, sounds[i].name, sounds[i].aliases[j]);
      }
    }
  }

  lemma ByConventionTwice(loaded: seq<LoadedSound>, a: Alias, c: Convention)
    ensures ByConvention(loaded, ByConvention(loaded, a, c), c) == ByConvention(loaded, a, c)
    ensures IsNullFile(ByConvention(loaded, a, c)) == IsNullFile(a)
  {}

  lemma ByNameTwice(byLoaded: map<Key, nat>, loaded: seq<LoadedSound>, ns: Namespace, a: Alias)
    ensures ByName(loaded, byLoaded, ns, ByName(loaded, byLoaded, ns, a)) == ByName(loaded, byLoaded, ns, a)
    ensures IsNullFile(ByName(loaded, byLoaded, ns, a)) == IsNullFile(a)
  {}

  /** Resolving twice is resolving once. */
  lemma ReboundTwice(byLoaded: map<Key, nat>, loaded: seq<LoadedSound>, ns: Namespace, name: string, a: Alias)
    ensures Rebound(loaded, byLoaded, ns, name, Rebound(loaded, byLoaded, ns, name, a)) == Rebound(loaded, byLoaded, ns, name, a)
  {
    ByConventionTwice(loaded, a, Conventional(byLoaded, ns, name));
    ByNameTwice(byLoaded, loaded, ns, a);
  }

  lemma AllReboundTwice(byLoaded: map<Key, nat>, loaded: seq<LoadedSound>, sounds: seq<Sound>)
    ensures var once := AllRebound(loaded, byLoaded, sounds); AllRebound(loaded, byLoaded, once) == once
  {
    var once := AllRebound(loaded, byLoaded, sounds);
    forall i | 0 <= i < |sounds|
      ensures SoundRebound(loaded, byLoaded, once[i]) == once[i]
    {
      forall j | 0 <= j < |sounds[i].aliases|
        ensures Rebound(loaded, byLoaded, once[i].namespace, once[i].name, once[i].aliases[j]) == once[i].aliases[j]
      {
        ReboundTwice(byLoaded, loaded, sounds[i].namespace, sounds[i].name, sounds[i].aliases[j]);
      }
    }
  }

  // ---------- the index of aliases ----------

  function ExactKey(s: Sound): Key {
    Key(s.namespace, s.name)
  }

  function FoldedKey(s: Sound): Key {
    Key(s.namespace, Lower(s.name))
  }

  function ExactKeys(sounds: seq<Sound>): seq<Key> {
    seq(|sounds|, i requires 0 <= i < |sounds| => ExactKey(sounds[i]))
  }

  function FoldedKeys(sounds: seq<Sound>): seq<Key> {
    seq(|sounds|, i requires 0 <= i < |sounds| => FoldedKey(sounds[i]))
  }

  /** Both indexes lead to the last sound of a name, as written and case folded. */
  ghost predicate AliasIndexed(byAlias: map<Key, nat>, byAliasCi: map<Key, nat>, sounds: seq<Sound>) {
    LastIndexed(byAlias, ExactKeys(sounds)) && LastIndexed(byAliasCi, FoldedKeys(sounds))
  }

  lemma RegisteredIndexed(byAlias: map<Key, nat>, byAliasCi: map<Key, nat>, sounds: seq<Sound>, s: Sound)
    requires AliasIndexed(byAlias, byAliasCi, sounds)
    ensures AliasIndexed(byAlias[ExactKey(s) := |sounds|], byAliasCi[FoldedKey(s) := |sounds|], sounds + [s])
  {
    Appended(byAlias, ExactKeys(sounds), ExactKey(s));
    Appended(byAliasCi, FoldedKeys(sounds), FoldedKey(s));
    assert ExactKeys(sounds + [s]) == ExactKeys(sounds) + [ExactKey(s)];
    assert FoldedKeys(sounds + [s]) == FoldedKeys(sounds) + [FoldedKey(s)];
  }

  lemma LoadedRegistered(byLoaded: map<Key, nat>, loaded: seq<LoadedSound>, l: LoadedSound)
    requires LoadedIndexed(byLoaded, loaded)
    ensures LoadedIndexed(byLoaded[LoadedKey(l) := |loaded|], loaded + [l])
  {
    Appended(byLoaded, LoadedKeys(loaded), LoadedKey(l));
    assert LoadedKeys(loaded + [l]) == LoadedKeys(loaded) + [LoadedKey(l)];
  }

  /** Where a name leads: the exact one first, then the folded one. */
  function AliasIndexIn(byAlias: map<Key, nat>, byAliasCi: map<Key, nat>, ns: Namespace, alias: string): Option<nat> {
    if Key(ns, alias) in byAlias then Some(byAlias[Key(ns, alias)])
    else if Key(ns, Lower(alias)) in byAliasCi then Some(byAliasCi[Key(ns, Lower(alias))])
    else None
  }

  /** It is found exactly when some sound of the namespace has it, case aside; with
      its own spelling if some sound has that. */
  lemma AliasFound(byAlias: map<Key, nat>, byAliasCi: map<Key, nat>, sounds: seq<Sound>, ns: Namespace, alias: string)
    requires AliasIndexed(byAlias, byAliasCi, sounds)
    ensures var r := AliasIndexIn(byAlias, byAliasCi, ns, alias);
            && (r.Some? <==> Key(ns, Lower(alias)) in byAliasCi)
            && (r.Some? ==> r.value < |sounds| && FoldedKey(sounds[r.value]) == Key(ns, Lower(alias)))
            && (r.Some? && ExactKey(sounds[r.value]) != Key(ns, alias) ==> forall i | 0 <= i < |sounds| :: ExactKey(sounds[i]) != Key(ns, alias))
            && (r.None? ==> forall i | 0 <= i < |sounds| :: FoldedKey(sounds[i]) != Key(ns, Lower(alias)))
  {
    var exact, folded := ExactKeys(sounds), FoldedKeys(sounds);
    if Key(ns, alias) in byAlias {
      var i := byAlias[Key(ns, alias)];
      assert exact[i] == ExactKey(sounds[i]) && folded[i] == FoldedKey(sounds[i]);
    }
    forall i | 0 <= i < |sounds|
      ensures ExactKey(sounds[i]) in byAlias && FoldedKey(sounds[i]) in byAliasCi
    {
      assert exact[i] == ExactKey(sounds[i]) && folded[i] == FoldedKey(sounds[i]);
    }
    if Key(ns, Lower(alias)) in byAliasCi {
      var i := byAliasCi[Key(ns, Lower(alias))];
      assert folded[i] == FoldedKey(sounds[i]);
    }
  }

  /** Sounds that can be registered, in order. */
  function NamedSounds(sounds: seq<Sound>): seq<Sound> {
    if sounds == [] then []
    else NamedSounds(sounds[..|sounds| - 1]) + if sounds[|sounds| - 1].name == "" then [] else [sounds[|sounds| - 1]]
  }

  function NamedLoaded(loaded: seq<LoadedSound>): seq<LoadedSound> {
    if loaded == [] then []
    else NamedLoaded(loaded[..|loaded| - 1]) + if loaded[|loaded| - 1].name == "" then [] else [loaded[|loaded| - 1]]
  }

  /** Sounds are missing unless some sound has their name, case aside. */
  ghost function CompletedSounds(sounds: seq<Sound>, more: seq<Sound>): seq<Sound> {
    CompletedBy(sounds, more, FoldedKey, FoldedKey, (s: Sound) => s.name != "")
  }

  /** The key a loaded sound is looked up under, which drops a leading comma. */
  function BareKey(l: LoadedSound): Key {
    Key(l.namespace, BareName(l.name))
  }

  ghost function CompletedLoaded(loaded: seq<LoadedSound>, more: seq<LoadedSound>): seq<LoadedSound> {
    CompletedBy(loaded, more, LoadedKey, BareKey, (l: LoadedSound) => l.name != "")
  }

  lemma CompletedSoundsStep(byAlias: map<Key, nat>, byAliasCi: map<Key, nat>, before: seq<Sound>, now: seq<Sound>,
          more: seq<Sound>, i: nat)
    requires AliasIndexed(byAlias, byAliasCi, now) && i < |more| && now == CompletedSounds(before, more[..i])
    ensures CompletedSounds(before, more[..i + 1])
            == now + if more[i].name != "" && AliasIndexIn(byAlias, byAliasCi, more[i].namespace, more[i].name).None? then [more[i]] else []
  {
    CompletedByStep(before, more, i, FoldedKey, FoldedKey, (s: Sound) => s.name != "");
    AliasFound(byAlias, byAliasCi, now, more[i].namespace, more[i].name);
  }

  lemma CompletedLoadedStep(byLoaded: map<Key, nat>, before: seq<LoadedSound>, now: seq<LoadedSound>,
          more: seq<LoadedSound>, i: nat)
    requires LoadedIndexed(byLoaded, now) && i < |more| && now == CompletedLoaded(before, more[..i])
    ensures CompletedLoaded(before, more[..i + 1])
            == now + if more[i].name != "" && LoadedIndexIn(byLoaded, more[i].namespace, more[i].name).None? then [more[i]] else []
  {
    CompletedByStep(before, more, i, LoadedKey, BareKey, (l: LoadedSound) => l.name != "");
    IndexedIsLast(byLoaded, now, BareKey(more[i]));
  }

  /** Of the sounds, exactly those are added whose name no sound before them has, case
      aside; afterwards every named one is found. */
  lemma CompletedSoundsExact(sounds: seq<Sound>, more: seq<Sound>)
    ensures var after := CompletedSounds(sounds, more);
            && OnlyMissing(sounds, after, more, FoldedKey, FoldedKey, (s: Sound) => s.name != "")
            && forall k :: 0 <= k < |more| && more[k].name != "" ==> HasKey(after, FoldedKey, FoldedKey(more[k]))
  {
    var counts := (s: Sound) => s.name != "";
    CompletedByExact(sounds, more, FoldedKey, FoldedKey, counts);
    var after := CompletedSounds(sounds, more);
    forall k | 0 <= k < |more| && more[k].name != ""
      ensures HasKey(after, FoldedKey, FoldedKey(more[k]))
    {
      assert counts(more[k]);
      if more[k] in after {
        var i :| 0 <= i < |after| && after[i] == more[k];
      }
    }
  }

  /** And of the loaded sounds, those whose name, a leading comma dropped, none before
      them has; afterwards every named one is there, or one with that name is. */
  lemma CompletedLoadedExact(loaded: seq<LoadedSound>, more: seq<LoadedSound>)
    ensures var after := CompletedLoaded(loaded, more);
            && OnlyMissing(loaded, after, more, LoadedKey, BareKey, (l: LoadedSound) => l.name != "")
            && NoneMissing(after, more, LoadedKey, BareKey, (l: LoadedSound) => l.name != "")
  {
    CompletedByExact(loaded, more, LoadedKey, BareKey, (l: LoadedSound) => l.name != "");
  }

  /** The rows before position i are rebound, the others as they were. */
  ghost predicate Rebinding(loaded: seq<LoadedSound>, byLoaded: map<Key, nat>, before: seq<Sound>,
          now: seq<Sound>, i: nat) {
    && i <= |now| == |before|
    && (forall k | 0 <= k < i :: now[k] == SoundRebound(loaded, byLoaded, before[k]))
    && (forall k | i <= k < |now| :: now[k] == before[k])
  }

  class SoundLibrary {
    var sounds: seq<Sound>
    var loaded: seq<LoadedSound>
    var byAlias: map<Key, nat>
    var byAliasCi: map<Key, nat>
    var byLoaded: map<Key, nat>

    ghost predicate AliasesValid()
      reads this`sounds, this`byAlias, this`byAliasCi
    {
      AliasIndexed(byAlias, byAliasCi, sounds)
    }

    ghost predicate LoadedValid()
      reads this`loaded, this`byLoaded
    {
      LoadedIndexed(byLoaded, loaded)
    }

    ghost predicate Valid()
      reads this
    {
      AliasesValid() && LoadedValid()
    }

    constructor ()
      ensures Valid() && sounds == [] && loaded == []
    {
      sounds, loaded, byAlias, byAliasCi, byLoaded := [], [], map[], map[], map[];
    }

    method RegisterSound(s: Sound)
      requires AliasesValid()
      modifies this`sounds, this`byAlias, this`byAliasCi
      ensures AliasesValid() && byAliasCi == if s.name == "" then old(byAliasCi) else old(byAliasCi)[FoldedKey(s) := |old(sounds)|]
      ensures sounds == old(sounds) + if s.name == "" then [] else [s]
    {
      if s.name == "" {
        return;
      }
      RegisteredIndexed(byAlias, byAliasCi, sounds, s);
      byAlias := byAlias[ExactKey(s) := |sounds|];
      byAliasCi := byAliasCi[FoldedKey(s) := |sounds|];
      sounds := sounds + [s];
    }

    method RegisterLoaded(l: LoadedSound)
      requires LoadedValid()
      modifies this`loaded, this`byLoaded
      ensures LoadedValid() && loaded == old(loaded) + if l.name == "" then [] else [l]
    {
      if l.name == "" {
        return;
      }
      LoadedRegistered(byLoaded, loaded, l);
      byLoaded := byLoaded[LoadedKey(l) := |loaded|];
      loaded := loaded + [l];
    }

    method RegisterSounds(more: seq<Sound>)
      requires AliasesValid()
      modifies this`sounds, this`byAlias, this`byAliasCi
      ensures AliasesValid() && sounds == old(sounds) + NamedSounds(more)
    {
      for i := 0 to |more|
        invariant AliasesValid() && sounds == old(sounds) + NamedSounds(more[..i])
      {
        NamedStep(more, i);
        RegisterSound(more[i]);
      }
      assert more[..|more|] == more;
    }

    method RegisterAllLoaded(more: seq<LoadedSound>)
      requires LoadedValid()
      modifies this`loaded, this`byLoaded
      ensures LoadedValid() && loaded == old(loaded) + NamedLoaded(more)
    {
      for i := 0 to |more|
        invariant LoadedValid() && loaded == old(loaded) + NamedLoaded(more[..i])
      {
        NamedLoadedStep(more, i);
        RegisterLoaded(more[i]);
      }
      assert more[..|more|] == more;
    }

    /** Everything of the other library comes after what is there. The edges of its
        rows still count positions in its own list. */
    method AbsorbUnresolved(other: SoundLibrary)
      requires Valid() && other != this
      modifies this
      ensures Valid()
      ensures sounds == old(sounds) + NamedSounds(other.sounds)
      ensures loaded == old(loaded) + NamedLoaded(other.loaded)
    {
      RegisterSounds(other.sounds);
      RegisterAllLoaded(other.loaded);
    }

    method RegisterMissingSounds(more: seq<Sound>)
      requires AliasesValid()
      modifies this`sounds, this`byAlias, this`byAliasCi
      ensures AliasesValid() && sounds == CompletedSounds(old(sounds), more)
    {
      for i := 0 to |more|
        invariant AliasesValid() && sounds == CompletedSounds(old(sounds), more[..i])
      {
        CompletedSoundsStep(byAlias, byAliasCi, old(sounds), sounds, more, i);
        if AliasIndexIn(byAlias, byAliasCi, more[i].namespace, more[i].name).None? {
          RegisterSound(more[i]);
        }
      }
      assert more[..|more|] == more;
    }

    method RegisterMissingLoaded(more: seq<LoadedSound>)
      requires LoadedValid()
      modifies this`loaded, this`byLoaded
      ensures LoadedValid() && loaded == CompletedLoaded(old(loaded), more)
    {
      for i := 0 to |more|
        invariant LoadedValid() && loaded == CompletedLoaded(old(loaded), more[..i])
      {
        CompletedLoadedStep(byLoaded, old(loaded), loaded, more, i);
        if LoadedIndexIn(byLoaded, more[i].namespace, more[i].name).None? {
          RegisterLoaded(more[i]);
        }
      }
      assert more[..|more|] == more;
    }

    /** Only what is missing by name comes after what is there, and nothing named is
        missing afterwards. */
    method AbsorbMissing(other: SoundLibrary)
      requires Valid() && other != this
      modifies this
      ensures Valid()
      ensures sounds == CompletedSounds(old(sounds), other.sounds)
      ensures loaded == CompletedLoaded(old(loaded), other.loaded)
    {
      RegisterMissingSounds(other.sounds);
      RegisterMissingLoaded(other.loaded);
    }

    /** The loaded sound an alias without a file stands for; the names are tried in
        whatever order the index gives them. */
    method ConventionalLoadedIndex(ns: Namespace, alias: string) returns (c: Convention)
      ensures c == Conventional(byLoaded, ns, alias)
    {
      var exact := LoadedIndexIn(byLoaded, ns, alias);
      if exact.Some? {
        return Exact(exact.value);
      }
      ghost var all := SuffixMatches(byLoaded, ns, alias);
      var left := byLoaded.Keys;
      var found: Option<nat> := None;
      var matches := 0;
      while left != {}
        invariant Searching(byLoaded, all, left, matches, found)
        decreases |left|
      {
        var key :| key in left;
        SearchingStep(byLoaded, ns, alias, left, matches, found, key);
        left := left - {key};
        if key.namespace == ns && EndsWith(key.name, WavOf(alias)) {
          found := Some(byLoaded[key]);
          matches := matches + 1;
        }
      }
      assert all - left == all;
      if matches == 0 {
        return Missing;
      }
      if matches == 1 {
        OneMatch(byLoaded, ns, alias, found.value);
        return Suffix(found.value);
      }
      c := Ambiguous(matches);
    }

    method ResolveRow(s: Sound, a: Alias) returns (r: Alias)
      ensures r == Rebound(loaded, byLoaded, s.namespace, s.name, a)
      ensures LoadedValid() ==> RowRight(loaded, s.namespace, s.name, a, r)
    {
      if LoadedValid() {
        ReboundRight(byLoaded, loaded, s.namespace, s.name, a);
      }
      if IsNullFile(a) {
        var c := ConventionalLoadedIndex(s.namespace, s.name);
        return ByConvention(loaded, a, c);
      }
      r := ByName(loaded, byLoaded, s.namespace, a);
    }

    method ResolveSound(s: Sound) returns (r: Sound)
      ensures r == SoundRebound(loaded, byLoaded, s)
    {
      var rows := s.aliases;
      for j := 0 to |rows|
        invariant |rows| == |s.aliases|
        invariant forall k | 0 <= k < |rows| :: rows[k] == if k < j then Rebound(loaded, byLoaded, s.namespace, s.name, s.aliases[k]) else s.aliases[k]
      {
        var row := ResolveRow(s, rows[j]);
        rows := rows[j := row];
      }
      r := s.(aliases := rows);
    }

    method ResolveSounds()
      modifies this`sounds
      ensures sounds == AllRebound(loaded, byLoaded, old(sounds))
    {
      for i := 0 to |sounds|
        invariant Rebinding(loaded, byLoaded, old(sounds), sounds, i)
      {
        var s := ResolveSound(sounds[i]);
        sounds := sounds[i := s];
      }
    }

    /** Every row bound afresh: none keeps a position it had before. */
    method ResolveLoadedEdges()
      requires Valid()
      modifies this`sounds
      ensures Valid()
      ensures sounds == AllRebound(loaded, byLoaded, old(sounds))
      ensures AllRight(loaded, old(sounds), sounds)
      ensures AllRebound(loaded, byLoaded, sounds) == sounds
    {
      AllReboundRight(byLoaded, loaded, sounds);
      AllReboundTwice(byLoaded, loaded, sounds);
      SameNamesIndexed(byAlias, byAliasCi, sounds, AllRebound(loaded, byLoaded, sounds));
      ResolveSounds();
    }
  }

  /** The search over the index: how many names of those looked at match, and one of them. */
  ghost predicate Searching(byLoaded: map<Key, nat>, all: set<Key>, left: set<Key>, matches: nat, found: Option<nat>) {
    && left <= byLoaded.Keys
    && matches == |all - left|
    && (matches > 0 ==> found.Some? && exists key :: key in all - left && key in byLoaded && byLoaded[key] == found.value)
  }

  lemma SearchingStep(byLoaded: map<Key, nat>, ns: Namespace, alias: string, left: set<Key>, matches: nat,
          found: Option<nat>, key: Key)
    requires Searching(byLoaded, SuffixMatches(byLoaded, ns, alias), left, matches, found) && key in left
    ensures var all := SuffixMatches(byLoaded, ns, alias);
            if key.namespace == ns && EndsWith(key.name, WavOf(alias)) then Searching(byLoaded, all, left - {key}, matches + 1, Some(byLoaded[key]))
            else Searching(byLoaded, all, left - {key}, matches, found)
  {
    var all := SuffixMatches(byLoaded, ns, alias);
    if key in all {
      assert all - (left - {key}) == (all - left) + {key};
    } else {
      assert all - (left - {key}) == all - left;
    }
  }

  lemma NamedStep(sounds: seq<Sound>, i: nat)
    requires i < |sounds|
    ensures NamedSounds(sounds[..i + 1]) == NamedSounds(sounds[..i]) + if sounds[i].name == "" then [] else [sounds[i]]
  {
    assert sounds[..i + 1][..i] == sounds[..i];
  }

  lemma NamedLoadedStep(loaded: seq<LoadedSound>, i: nat)
    requires i < |loaded|
    ensures NamedLoaded(loaded[..i + 1]) == NamedLoaded(loaded[..i]) + if loaded[i].name == "" then [] else [loaded[i]]
  {
    assert loaded[..i + 1][..i] == loaded[..i];
  }

  lemma OneMatch(byLoaded: map<Key, nat>, ns: Namespace, alias: string, i: nat)
    requires LoadedIndexIn(byLoaded, ns, alias).None? && |SuffixMatches(byLoaded, ns, alias)| == 1
    requires exists key :: key in SuffixMatches(byLoaded, ns, alias) && byLoaded[key] == i
    ensures Conventional(byLoaded, ns, alias) == Suffix(i)
  {
    var all := SuffixMatches(byLoaded, ns, alias);
    var key :| key in all && byLoaded[key] == i;
    forall other | other in all
      ensures other == key
    {
      OnlyMember(all, key, other);
    }
  }

  lemma SameNamesIndexed(byAlias: map<Key, nat>, byAliasCi: map<Key, nat>, before: seq<Sound>, after: seq<Sound>)
    requires AliasIndexed(byAlias, byAliasCi, before) && |after| == |before|
    requires forall i | 0 <= i < |before| :: after[i].namespace == before[i].namespace && after[i].name == before[i].name
    ensures AliasIndexed(byAlias, byAliasCi, after)
  {
    assert ExactKeys(after) == ExactKeys(before) && FoldedKeys(after) == FoldedKeys(before);
  }
}
