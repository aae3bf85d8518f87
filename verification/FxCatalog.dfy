/** The effect definitions of a build, their index by name, and the cached marks:
    crates/asset_game/src/fx_catalog.rs. */
module FxCatalog {
  import opened Wrappers
  import opened AsciiNames
  import opened AssetEdges
  import opened FxMarks
  import opened KeyedTables

  /** Definitions are indexed by namespace and folded name. */
  function KeyOf(effect: Effect): Key {
    Key(effect.namespace, Lower(effect.name))
  }

  datatype Entry = Entry(effect: Effect, zone: Zone)

  function KeysOf(defs: seq<Effect>): seq<Key> {
    seq(|defs|, i requires 0 <= i < |defs| => KeyOf(defs[i]))
  }

  function EntriesOf(defs: seq<Effect>, zones: seq<Zone>): seq<Entry>
    requires |zones| == |defs|
  {
    seq(|defs|, i requires 0 <= i < |defs| => Entry(defs[i], zones[i]))
  }

  /** What the catalogue holds: definitions, their zones, and where each key is. */
  datatype Holdings = Holdings(byKey: map<Key, nat>, defs: seq<Effect>, zones: seq<Zone>)

  /** The index names each definition once, under its own key. */
  ghost predicate Sound(h: Holdings) {
    && |h.zones| == |h.defs|
    && (forall key | key in h.byKey :: h.byKey[key] < |h.defs| && KeyOf(h.defs[h.byKey[key]]) == key)
    && (forall i | 0 <= i < |h.defs| :: KeyOf(h.defs[i]) in h.byKey && h.byKey[KeyOf(h.defs[i])] == i)
  }

  type Catalogue = h: Holdings | Sound(h) witness Holdings(map[], [], [])

  /** The catalogue as a table from keys to definitions. */
  ghost function Tabled(c: Catalogue): Table<Key, Entry> {
    Parts(c.byKey, KeysOf(c.defs), EntriesOf(c.defs, c.zones))
  }

  /** Written over the definition of the same key, or at the end. */
  function Placed(c: Catalogue, def: Effect, zone: Zone): Catalogue {
    var key := KeyOf(def);
    if key in c.byKey then c.(defs := c.defs[c.byKey[key] := def], zones := c.zones[c.byKey[key] := zone])
    else Holdings(c.byKey[key := |c.defs|], c.defs + [def], c.zones + [zone])
  }

  lemma PlacedTabled(c: Catalogue, def: Effect, zone: Zone)
    ensures Tabled(Placed(c, def, zone)) == Inserted(Tabled(c), KeyOf(def), Entry(def, zone))
  {
    var key := KeyOf(def);
    if key in c.byKey {
      assert KeysOf(c.defs[c.byKey[key] := def]) == KeysOf(c.defs);
      assert EntriesOf(c.defs[c.byKey[key] := def], c.zones[c.byKey[key] := zone]) == EntriesOf(c.defs, c.zones)[c.byKey[key] := Entry(def, zone)];
    } else {
      assert KeysOf(c.defs + [def]) == KeysOf(c.defs) + [key];
      assert EntriesOf(c.defs + [def], c.zones + [zone]) == EntriesOf(c.defs, c.zones) + [Entry(def, zone)];
    }
  }

  /** No definition has moved, though its contents may be new. */
  ghost predicate Extends(before: seq<Effect>, after: seq<Effect>) {
    KeysOf(before) <= KeysOf(after)
  }

  lemma PrefixOfEntries(a: seq<Effect>, za: seq<Zone>, b: seq<Effect>, zb: seq<Zone>)
    requires |a| == |za| && |b| == |zb| && EntriesOf(a, za) <= EntriesOf(b, zb)
    ensures a <= b && za <= zb
  {
    forall i | 0 <= i < |a|
      ensures a[i] == b[i] && za[i] == zb[i]
    {
      assert EntriesOf(a, za)[i] == EntriesOf(b, zb)[i];
    }
  }

  // ---------- nested edges ----------

  type Playable = map<Key, (nat, Zone)>

  function LookupPlayable(playable: Playable, ns: Namespace, name: string): Option<(nat, Zone)> {
    var key := Key(ns, Lower(name));
    var bare := Key(ns, Lower(BareName(name)));
    if key in playable then Some(playable[key])
    else if bare in playable then Some(playable[bare])
    else None
  }

  function RemappedChild(child: Child, ns: Namespace, playable: Playable): Child {
    if child.hint.None? || child.hint.value == "" then child.(edge := Absent)
    else
      var found := LookupPlayable(playable, ns, child.hint.value);
      child.(edge := if found.Some? then Bound(found.value.0, found.value.1) else Unresolved(CatalogMiss))
  }

  function RemappedVisual(visual: Visual, ns: Namespace, playable: Playable): Visual {
    if visual.Runner? then Runner(RemappedChild(visual.child, ns, playable)) else visual
  }

  function RemappedElem(elem: Elem, ns: Namespace, playable: Playable): Elem {
    Elem(elem.elemType,
         RemappedChild(elem.onImpact, ns, playable),
         RemappedChild(elem.onDeath, ns, playable),
         RemappedChild(elem.emitted, ns, playable),
         seq(|elem.visuals|, k requires 0 <= k < |elem.visuals| => RemappedVisual(elem.visuals[k], ns, playable)))
  }

  function Remapped(effect: Effect, playable: Playable): Effect {
    effect.(elems := seq(|effect.elems|, k requires 0 <= k < |effect.elems| => RemappedElem(effect.elems[k], effect.namespace, playable)))
  }

  function AllRemapped(defs: seq<Effect>, playable: Playable): seq<Effect> {
    seq(|defs|, i requires 0 <= i < |defs| => Remapped(defs[i], playable))
  }

  function PlayableOf(c: Catalogue): Playable {
    map key | key in c.byKey && c.defs[c.byKey[key]].elems != [] :: (c.byKey[key], c.zones[c.byKey[key]])
  }

  ghost predicate IsPlayable(defs: seq<Effect>, key: Key, i: nat) {
    i < |defs| && defs[i].elems != [] && KeyOf(defs[i]) == key
  }

  /** What the edge of a child of namespace ns must be, said of the definitions:
      absent without a name; bound to the effect of that name which has elements;
      else to the one of the bare name; else unresolved. */
  ghost predicate Links(defs: seq<Effect>, zones: seq<Zone>, ns: Namespace, child: Child) {
    if child.hint.None? || child.hint.value == "" then child.edge == Absent
    else
      var key := Key(ns, Lower(child.hint.value));
      var bare := Key(ns, Lower(BareName(child.hint.value)));
      match child.edge
      case Absent => false
      case Bound(i, zone) =>
        && i < |zones| && zone == zones[i]
        && (IsPlayable(defs, key, i) || (IsPlayable(defs, bare, i) && forall j: nat :: !IsPlayable(defs, key, j)))
      case Unresolved(reason) =>
        reason == CatalogMiss && forall j: nat :: !IsPlayable(defs, key, j) && !IsPlayable(defs, bare, j)
  }

  ghost predicate VisualLinks(defs: seq<Effect>, zones: seq<Zone>, ns: Namespace, visual: Visual) {
    visual.Runner? ==> Links(defs, zones, ns, visual.child)
  }

  ghost predicate ElemLinks(defs: seq<Effect>, zones: seq<Zone>, ns: Namespace, elem: Elem) {
    && Links(defs, zones, ns, elem.onImpact)
    && Links(defs, zones, ns, elem.onDeath)
    && Links(defs, zones, ns, elem.emitted)
    && forall k | 0 <= k < |elem.visuals| :: VisualLinks(defs, zones, ns, elem.visuals[k])
  }

  ghost predicate EffectLinks(defs: seq<Effect>, zones: seq<Zone>, effect: Effect) {
    forall k | 0 <= k < |effect.elems| :: ElemLinks(defs, zones, effect.namespace, effect.elems[k])
  }

  ghost predicate Linked(defs: seq<Effect>, zones: seq<Zone>) {
    forall i | 0 <= i < |defs| :: EffectLinks(defs, zones, defs[i])
  }

  /** But for the edges of their children, the effects are the same. */
  predicate SameButEdges(before: Effect, after: Effect) {
    && after.namespace == before.namespace && after.name == before.name && |after.elems| == |before.elems|
    && forall k | 0 <= k < |after.elems| :: SameElem(before.elems[k], after.elems[k])
  }

  predicate SameElem(before: Elem, after: Elem) {
    && after.elemType == before.elemType
    && after.onImpact.hint == before.onImpact.hint && after.onDeath.hint == before.onDeath.hint && after.emitted.hint == before.emitted.hint
    && |after.visuals| == |before.visuals|
    && forall v | 0 <= v < |after.visuals| :: SameVisual(before.visuals[v], after.visuals[v])
  }

  predicate SameVisual(before: Visual, after: Visual) {
    after.Runner? == before.Runner? && (after.Runner? ==> after.child.hint == before.child.hint)
  }

  ghost predicate OnlyEdgesChange(before: seq<Effect>, after: seq<Effect>) {
    |after| == |before| && forall i | 0 <= i < |after| :: SameButEdges(before[i], after[i])
  }

  lemma ResolvedOnlyEdges(c: Catalogue)
    ensures OnlyEdgesChange(c.defs, AllResolved(c).defs)
  {
    var after := AllResolved(c).defs;
    forall i | 0 <= i < |after|
      ensures SameButEdges(c.defs[i], after[i])
    {
      forall k | 0 <= k < |after[i].elems|
        ensures SameElem(c.defs[i].elems[k], after[i].elems[k])
      {
        assert after[i].elems[k] == RemappedElem(c.defs[i].elems[k], c.defs[i].namespace, PlayableOf(c));
      }
    }
  }

  function AllResolved(c: Catalogue): Catalogue {
    c.(defs := AllRemapped(c.defs, PlayableOf(c)))
  }

  lemma ResolvedKeepsIndex(c: Catalogue)
    ensures Extends(c.defs, AllResolved(c).defs)
    ensures SamePlayable(c.defs, AllResolved(c).defs)
  {
    var after := AllResolved(c).defs;
    forall i | 0 <= i < |c.defs|
      ensures KeyOf(after[i]) == KeyOf(c.defs[i]) && (after[i].elems == [] <==> c.defs[i].elems == [])
    {
      assert |after[i].elems| == |c.defs[i].elems|;
    }
  }

  ghost predicate SamePlayable(defs: seq<Effect>, after: seq<Effect>) {
    forall key, i :: IsPlayable(after, key, i) <==> IsPlayable(defs, key, i)
  }

  lemma PlayableExact(c: Catalogue, key: Key)
    ensures var playable := PlayableOf(c);
            if key in playable then IsPlayable(c.defs, key, playable[key].0) && playable[key].1 == c.zones[playable[key].0]
            else forall j: nat :: !IsPlayable(c.defs, key, j)
  {}

  /** An edge looked up in a catalogue is right there, and wherever the same
      effects are playable. */
  lemma RemappedLinks(c: Catalogue, after: seq<Effect>, ns: Namespace, child: Child)
    requires SamePlayable(c.defs, after)
    ensures Links(after, c.zones, ns, RemappedChild(child, ns, PlayableOf(c)))
  {
    if child.hint.Some? && child.hint.value != "" {
      PlayableExact(c, Key(ns, Lower(child.hint.value)));
      PlayableExact(c, Key(ns, Lower(BareName(child.hint.value))));
    }
  }

  lemma RemappedElemLinks(c: Catalogue, after: seq<Effect>, ns: Namespace, elem: Elem)
    requires SamePlayable(c.defs, after)
    ensures ElemLinks(after, c.zones, ns, RemappedElem(elem, ns, PlayableOf(c)))
  {
    RemappedLinks(c, after, ns, elem.onImpact);
    RemappedLinks(c, after, ns, elem.onDeath);
    RemappedLinks(c, after, ns, elem.emitted);
    forall k | 0 <= k < |elem.visuals|
      ensures VisualLinks(after, c.zones, ns, RemappedVisual(elem.visuals[k], ns, PlayableOf(c)))
    {
      if elem.visuals[k].Runner? {
        RemappedLinks(c, after, ns, elem.visuals[k].child);
      }
    }
  }

  lemma ResolvedLinked(c: Catalogue)
    ensures Linked(AllResolved(c).defs, c.zones)
  {
    var after := AllResolved(c).defs;
    ResolvedKeepsIndex(c);
    forall i | 0 <= i < |after|
      ensures EffectLinks(after, c.zones, after[i])
    {
      forall k | 0 <= k < |after[i].elems|
        ensures ElemLinks(after, c.zones, after[i].namespace, after[i].elems[k])
      {
        RemappedElemLinks(c, after, c.defs[i].namespace, c.defs[i].elems[k]);
      }
    }
  }

  // ---------- resolving again ----------

  /** The name decides the edge: two right edges with one hint are equal. */
  lemma LinksUnique(c: Catalogue, ns: Namespace, a: Child, b: Child)
    requires a.hint == b.hint && Links(c.defs, c.zones, ns, a) && Links(c.defs, c.zones, ns, b)
    ensures a == b
  {}

  lemma LinkedChildIsFixed(c: Catalogue, ns: Namespace, child: Child)
    requires Links(c.defs, c.zones, ns, child)
    ensures RemappedChild(child, ns, PlayableOf(c)) == child
  {
    RemappedLinks(c, c.defs, ns, child);
    LinksUnique(c, ns, child, RemappedChild(child, ns, PlayableOf(c)));
  }

  lemma LinkedElemIsFixed(c: Catalogue, ns: Namespace, elem: Elem)
    requires ElemLinks(c.defs, c.zones, ns, elem)
    ensures RemappedElem(elem, ns, PlayableOf(c)) == elem
  {
    LinkedChildIsFixed(c, ns, elem.onImpact);
    LinkedChildIsFixed(c, ns, elem.onDeath);
    LinkedChildIsFixed(c, ns, elem.emitted);
    forall k | 0 <= k < |elem.visuals|
      ensures RemappedVisual(elem.visuals[k], ns, PlayableOf(c)) == elem.visuals[k]
    {
      assert VisualLinks(c.defs, c.zones, ns, elem.visuals[k]);
      if elem.visuals[k].Runner? {
        LinkedChildIsFixed(c, ns, elem.visuals[k].child);
      }
    }
  }

  /** A catalogue whose edges are right already does not change. */
  lemma LinkedIsFixed(c: Catalogue)
    requires Linked(c.defs, c.zones)
    ensures AllResolved(c) == c
  {
    forall i | 0 <= i < |c.defs|
      ensures Remapped(c.defs[i], PlayableOf(c)) == c.defs[i]
    {
      assert EffectLinks(c.defs, c.zones, c.defs[i]);
      forall k | 0 <= k < |c.defs[i].elems|
        ensures RemappedElem(c.defs[i].elems[k], c.defs[i].namespace, PlayableOf(c)) == c.defs[i].elems[k]
      {
        LinkedElemIsFixed(c, c.defs[i].namespace, c.defs[i].elems[k]);
      }
    }
  }

  lemma ResolveTwice(c: Catalogue)
    ensures AllResolved(AllResolved(c)) == AllResolved(c)
  {
    ResolvedKeepsIndex(c);
    ResolvedLinked(c);
    LinkedIsFixed(AllResolved(c));
  }

  /** The definitions before position i are resolved, the others still as they were. */
  ghost predicate Remapping(before: seq<Effect>, now: seq<Effect>, playable: Playable, i: nat) {
    && i <= |now| == |before|
    && (forall j | 0 <= j < i :: now[j] == Remapped(before[j], playable))
    && now[i..] == before[i..]
  }

  lemma RemappingStep(before: seq<Effect>, now: seq<Effect>, playable: Playable, i: nat)
    requires Remapping(before, now, playable, i) && i < |now|
    ensures Remapping(before, now[i := Remapped(now[i], playable)], playable, i + 1)
  {
    assert now[i] == now[i..][0] == before[i];
    assert now[i..][1..] == now[i + 1..] && before[i..][1..] == before[i + 1..];
  }

  lemma RemappingEnds(before: seq<Effect>, now: seq<Effect>, playable: Playable)
    requires Remapping(before, now, playable, |now|)
    ensures now == AllRemapped(before, playable)
  {}

  // ---------- lookup ----------

  /** The definition of that name, letter case aside: the exact lookup may be
      tried first because every key of the index is folded. */
  function IndexIn(c: Catalogue, ns: Namespace, name: string): (r: Option<nat>)
    ensures r == if Key(ns, Lower(name)) in c.byKey then Some(c.byKey[Key(ns, Lower(name))]) else None
  {
    LowerFixes(name);
    if Key(ns, name) in c.byKey then
      LowerHasNoUpper(c.defs[c.byKey[Key(ns, name)]].name);
      Some(c.byKey[Key(ns, name)])
    else if HasUpper(name) && Key(ns, Lower(name)) in c.byKey then Some(c.byKey[Key(ns, Lower(name))])
    else None
  }

  lemma IndexInExact(c: Catalogue, ns: Namespace, name: string)
    ensures var r := IndexIn(c, ns, name);
            if r.Some? then r.value < |c.defs| && c.defs[r.value].namespace == ns && Lower(c.defs[r.value].name) == Lower(name)
            else forall i | 0 <= i < |c.defs| :: c.defs[i].namespace == ns ==> Lower(c.defs[i].name) != Lower(name)
  {
    assert forall i | 0 <= i < |c.defs| :: KeyOf(c.defs[i]) in c.byKey;
  }

  // ---------- the catalogue ----------

  /** A reference to an effect: one of the catalogue's own slots, or any other. */
  datatype EffectRef = Own(index: nat) | Foreign(effect: Effect)

  class FxDefinitions {
    var markCapabilities: Option<seq<bool>>
    var byKey: map<Key, nat>
    var defs: seq<Effect>
    var zones: seq<Zone>
    var captureZone: Zone
    var captureGaps: nat

    function State(): Holdings
      reads this
    {
      Holdings(byKey, defs, zones)
    }

    /** The index is exact, and a cached answer is the one a fresh run would give. */
    ghost predicate Valid()
      reads this
    {
      && Sound(State())
      && (markCapabilities.Some? ==> markCapabilities.value == MarkFlags(defs))
    }

    ghost function Contents(): Table<Key, Entry>
      reads this
      requires Valid()
    {
      Tabled(State())
    }

    constructor ()
      ensures Valid() && State() == Holdings(map[], [], []) && captureGaps == 0 && captureZone == ""
    {
      markCapabilities, byKey, defs, zones, captureZone, captureGaps := None, map[], [], [], "", 0;
    }

    /** Writes one definition: over the one of its key, or at the end. */
    method InsertOwned(def: Effect)
      requires Valid()
      modifies this
      ensures Valid() && markCapabilities.None?
      ensures State() == Placed(old(State()), def, captureZone)
      ensures Contents() == Inserted(old(Contents()), KeyOf(def), Entry(def, captureZone))
      ensures captureZone == old(captureZone) && captureGaps == old(captureGaps)
    {
      PlacedTabled(State(), def, captureZone);
      markCapabilities := None;
      var key := KeyOf(def);
      if key in byKey {
        var index := byKey[key];
        zones := zones[index := captureZone];
        defs := defs[index := def];
      } else {
        byKey := byKey[key := |defs|];
        zones := zones + [captureZone];
        defs := defs + [def];
      }
    }

    /** Writes a definition captured in another zone. */
    method InsertCaptured(def: Effect, zone: Zone)
      requires Valid()
      modifies this
      ensures Valid()
      ensures Contents() == Inserted(old(Contents()), KeyOf(def), Entry(def, zone))
      ensures captureZone == old(captureZone) && captureGaps == old(captureGaps)
    {
      var saved := captureZone;
      captureZone := zone;
      InsertOwned(def);
      captureZone := saved;
    }

    method InsertEach(other: FxDefinitions)
      requires Valid() && other.Valid() && other != this
      modifies this
      ensures Valid() && Contents() == Absorbed(old(Contents()), other.Contents(), |other.defs|)
      ensures captureZone == old(captureZone) && captureGaps == old(captureGaps)
    {
      ghost var mine, theirs := Contents(), other.Contents();
      for i := 0 to |other.defs|
        invariant Valid() && Contents() == Absorbed(mine, theirs, i)
        invariant captureZone == old(captureZone) && captureGaps == old(captureGaps)
      {
        InsertCaptured(other.defs[i], other.zones[i]);
      }
    }

    /** Every definition of the other catalogue, in place of any there was. */
    method Absorb(other: FxDefinitions)
      requires Valid() && other.Valid() && other != this
      modifies this
      ensures Valid()
      ensures Overlaid(old(Contents()), other.Contents(), Contents())
      ensures Extends(old(defs), defs)
      ensures captureZone == old(captureZone) && captureGaps == old(captureGaps) + other.captureGaps
    {
      captureGaps := captureGaps + other.captureGaps;
      WholeOverlays(Contents(), other.Contents());
      PlacesStay(Contents(), other.Contents(), |other.defs|);
      InsertEach(other);
    }

    method InsertIfMissing(def: Effect, zone: Zone)
      requires Valid()
      modifies this
      ensures Valid() && Contents() == Added(old(Contents()), KeyOf(def), Entry(def, zone))
      ensures captureZone == old(captureZone) && captureGaps == old(captureGaps)
    {
      if IndexIn(State(), def.namespace, def.name).Some? {
        return;
      }
      InsertCaptured(def, zone);
    }

    method InsertEachMissing(other: FxDefinitions)
      requires Valid() && other.Valid() && other != this
      modifies this
      ensures Valid() && Contents() == Completed(old(Contents()), other.Contents(), |other.defs|)
      ensures captureZone == old(captureZone) && captureGaps == old(captureGaps)
    {
      ghost var mine, theirs := Contents(), other.Contents();
      for i := 0 to |other.defs|
        invariant Valid() && Contents() == Completed(mine, theirs, i)
        invariant captureZone == old(captureZone) && captureGaps == old(captureGaps)
      {
        InsertIfMissing(other.defs[i], other.zones[i]);
      }
    }

    /** Only the definitions that were missing. */
    method AbsorbMissing(other: FxDefinitions)
      requires Valid() && other.Valid() && other != this
      modifies this
      ensures Valid()
      ensures Overlaid(other.Contents(), old(Contents()), Contents())
      ensures old(defs) <= defs && old(zones) <= zones
      ensures captureZone == old(captureZone) && captureGaps == old(captureGaps) + other.captureGaps
    {
      captureGaps := captureGaps + other.captureGaps;
      WholeOverlays(Contents(), other.Contents());
      PlacesStay(Contents(), other.Contents(), |other.defs|);
      InsertEachMissing(other);
      PrefixOfEntries(old(defs), old(zones), defs, zones);
    }

    method RemapAll(playable: Playable)
      modifies this`defs
      ensures defs == AllRemapped(old(defs), playable)
    {
      for i := 0 to |defs|
        invariant Remapping(old(defs), defs, playable, i)
      {
        RemappingStep(old(defs), defs, playable, i);
        defs := defs[i := Remapped(defs[i], playable)];
      }
      RemappingEnds(old(defs), defs, playable);
    }

    /** Binds every nested child again from its name. */
    method ResolveNestedEdges()
      requires Valid()
      modifies this
      ensures Valid() && markCapabilities.None?
      ensures State() == AllResolved(old(State()))
      ensures Linked(defs, zones) && Extends(old(defs), defs) && OnlyEdgesChange(old(defs), defs) && zones == old(zones)
      ensures captureZone == old(captureZone) && captureGaps == old(captureGaps)
    {
      ResolvedKeepsIndex(State());
      ResolvedLinked(State());
      ResolvedOnlyEdges(State());
      markCapabilities := None;
      RemapAll(PlayableOf(State()));
    }

    /** The slot an effect sits in, by identity. */
    function IndexOf(effect: EffectRef): (r: Option<nat>)
      reads this
      requires Valid() && (effect.Own? ==> effect.index < |defs|)
      ensures r == if effect.Own? then Some(effect.index) else None
    {
      var def := if effect.Own? then defs[effect.index] else effect.effect;
      var found := IndexIn(State(), def.namespace, def.name);
      assert effect.Own? ==> KeyOf(def) in byKey;
      if found.Some? && effect == Own(found.value) then found else None
    }

    /** Whether an effect of the catalogue can leave marks, computed at most once
        between two changes. Any other effect is presumed to. */
    method CanEmitMarks(effect: EffectRef) returns (emits: bool)
      requires Valid() && (effect.Own? ==> effect.index < |defs|)
      modifies this`markCapabilities
      ensures Valid() && markCapabilities.Some?
      ensures effect.Own? ==> (emits <==> EmitsMarks(defs, effect.index))
      ensures effect.Foreign? ==> emits
    {
      if markCapabilities.None? {
        var flags := ComputeMarkFlags(defs);
        markCapabilities := Some(flags);
      }
      var found := IndexOf(effect);
      emits := found.Some? ==> markCapabilities.value[found.value];
    }

    /** Ends the build with the marks worked out. */
    method Publish()
      requires Valid()
      modifies this`markCapabilities
      ensures Valid()
      ensures defs != [] ==> markCapabilities == Some(MarkFlags(defs))
    {
      if defs != [] {
        var _ := CanEmitMarks(Own(0));
      }
    }
  }
}
