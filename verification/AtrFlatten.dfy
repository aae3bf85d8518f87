/** Packing a pruned tree into the flat node table: the second half of
    crates/asset_anim/src/atr_compile.rs. */
module AtrFlatten {
  import opened Wrappers
  import opened AtrSyntax

  const U16: nat := 65536

  type Word = n: nat | n < U16

  /** What a cast to u16 keeps. */
  function Wrapped(n: nat): Word {
    n % U16
  }

  datatype CompiledNode = CompiledNode(name: string, parent: Option<Word>, flags: bv16, childCount: Word, firstChild: Word)

  const BLANK := CompiledNode("", None, 0, 0, 0)

  // ---------- sizes ----------

  /** Nodes of a tree, itself included. */
  function Count(a: Anim): nat
    decreases a
  {
    1 + CountAll(a.children)
  }

  function CountAll(forest: seq<Anim>): nat
    decreases forest
  {
    if forest == [] then 0 else Count(forest[0]) + CountAll(forest[1..])
  }

  lemma {:induction false} CountAllConcat(a: seq<Anim>, b: seq<Anim>)
    ensures CountAll(a + b) == CountAll(a) + CountAll(b)
    decreases |a|
  {
    if a == [] {
      assert a + b == b;
    } else {
      CountAllConcat(a[1..], b);
      assert (a + b)[1..] == a[1..] + b;
    }
  }

  lemma CountAllSnoc(a: seq<Anim>, x: Anim)
    ensures CountAll(a + [x]) == CountAll(a) + Count(x)
  {
    CountAllConcat(a, [x]);
    assert CountAll([x]) == Count(x) + CountAll([x][1..]);
  }

  /** The size the table needs: nothing for no nodes, else the nodes and the root. */
  function TableSize(forest: seq<Anim>): nat {
    if forest == [] then 0 else 1 + CountAll(forest)
  }

  method AnimTreeSize(forest: seq<Anim>) returns (size: nat)
    ensures size == TableSize(forest)
    decreases forest
  {
    size := 0;
    for i := 0 to |forest|
      invariant size == CountAll(forest[..i])
    {
      var child := forest[i];
      CountAllSnoc(forest[..i], child);
      assert forest[..i + 1] == forest[..i] + [child];
      if child.children == [] {
        size := size + 1;
      } else {
        var below := AnimTreeSize(child.children);
        size := size + below;
      }
    }
    assert forest[..|forest|] == forest;
    if size != 0 {
      size := size + 1;
    }
  }

  // ---------- order ----------

  /** Additive branches are placed after all their siblings. */
  predicate IsLate(a: Anim) {
    a.children != [] && Has(a.flags, ADDITIVE)
  }

  function Chosen(forest: seq<Anim>, late: bool): (r: seq<Anim>)
    ensures |r| <= |forest|
  {
    if forest == [] then []
    else (if IsLate(forest[0]) == late then [forest[0]] else []) + Chosen(forest[1..], late)
  }

  lemma {:induction false} ChosenConcat(a: seq<Anim>, b: seq<Anim>, late: bool)
    ensures Chosen(a + b, late) == Chosen(a, late) + Chosen(b, late)
    decreases |a|
  {
    var whole := a + b;
    if a == [] {
      assert whole == b;
    } else {
      assert whole[0] == a[0] && whole[1..] == a[1..] + b;
      ChosenConcat(a[1..], b, late);
      var head := if IsLate(a[0]) == late then [a[0]] else [];
      assert Chosen(a, late) == head + Chosen(a[1..], late);
      assert Chosen(whole, late) == head + (Chosen(a[1..], late) + Chosen(b, late));
    }
  }

  lemma {:induction false} ChosenSnoc(forest: seq<Anim>, x: Anim, late: bool)
    ensures Chosen(forest + [x], late) == Chosen(forest, late) + (if IsLate(x) == late then [x] else [])
  {
    ChosenConcat(forest, [x], late);
  }

  function Ordered(forest: seq<Anim>): seq<Anim> {
    Chosen(forest, false) + Chosen(forest, true)
  }

  /** The tree as it can be read back: siblings stably partitioned at every level,
      leaves without flags. */
  function Reordered(a: Anim): Anim
    decreases a
  {
    if a.children == [] then Anim(a.name, 0, []) else Anim(a.name, a.flags, Ordered(ReorderedAll(a.children)))
  }

  function ReorderedAll(forest: seq<Anim>): (r: seq<Anim>)
    ensures |r| == |forest|
    decreases forest
  {
    if forest == [] then [] else [Reordered(forest[0])] + ReorderedAll(forest[1..])
  }

  lemma {:induction false} PartitionSizes(forest: seq<Anim>)
    ensures |Ordered(forest)| == |forest|
    ensures CountAll(Ordered(forest)) == CountAll(forest)
    decreases |forest|
  {
    if forest != [] {
      PartitionSizes(forest[1..]);
      CountAllConcat(Chosen(forest, false), Chosen(forest, true));
      CountAllConcat(Chosen(forest[1..], false), Chosen(forest[1..], true));
      var x := forest[0];
      CountAllConcat([x], Chosen(forest[1..], IsLate(x)));
      assert CountAll([x]) == Count(x) + CountAll([x][1..]);
      assert [] + Chosen(forest[1..], !IsLate(x)) == Chosen(forest[1..], !IsLate(x));
    }
  }

  lemma {:induction false} ReorderedKeeps(a: Anim)
    ensures Count(Reordered(a)) == Count(a) && IsLate(Reordered(a)) == IsLate(a)
    ensures Reordered(a).children == [] <==> a.children == []
    decreases a, 0
  {
    if a.children != [] {
      ReorderedAllKeeps(a.children);
      PartitionSizes(ReorderedAll(a.children));
    }
  }

  lemma {:induction false} ReorderedAllKeeps(forest: seq<Anim>)
    ensures CountAll(ReorderedAll(forest)) == CountAll(forest)
    decreases forest, 1
  {
    if forest != [] {
      ReorderedKeeps(forest[0]);
      ReorderedAllKeeps(forest[1..]);
      var r := ReorderedAll(forest);
      assert r[0] == Reordered(forest[0]) && r[1..] == ReorderedAll(forest[1..]);
    }
  }

  /** Reordering below and choosing among siblings do not disturb each other. */
  lemma {:induction false} ChosenReordered(forest: seq<Anim>, late: bool)
    ensures Chosen(ReorderedAll(forest), late) == ReorderedAll(Chosen(forest, late))
    decreases |forest|
  {
    if forest != [] {
      var x := forest[0];
      ReorderedKeeps(x);
      ChosenReordered(forest[1..], late);
      var r := ReorderedAll(forest);
      assert r[0] == Reordered(x) && r[1..] == ReorderedAll(forest[1..]);
      var c := Chosen(forest, late);
      if IsLate(x) == late {
        assert c[0] == x && c[1..] == Chosen(forest[1..], late);
      } else {
        assert c == Chosen(forest[1..], late);
      }
    }
  }

  lemma {:induction false} ReorderedAllConcat(a: seq<Anim>, b: seq<Anim>)
    ensures ReorderedAll(a + b) == ReorderedAll(a) + ReorderedAll(b)
    decreases |a|
  {
    if a == [] {
      assert a + b == b;
    } else {
      var whole := a + b;
      assert whole[0] == a[0] && whole[1..] == a[1..] + b;
      ReorderedAllConcat(a[1..], b);
    }
  }

  lemma {:induction false} OrderedReordered(forest: seq<Anim>)
    ensures Ordered(ReorderedAll(forest)) == ReorderedAll(Ordered(forest))
  {
    ChosenReordered(forest, false);
    ChosenReordered(forest, true);
    ReorderedAllConcat(Chosen(forest, false), Chosen(forest, true));
  }

  // ---------- the layout ----------

  /** Slot i holds a, and the nodes below a fill the slots from lo on: first its
      children side by side, then what is below each of them in turn. Links and
      counts are what the casts to u16 leave of them. */
  ghost predicate Packed(ns: seq<CompiledNode>, i: nat, lo: nat, a: Anim)
    decreases a, 1
  {
    && i < |ns| && lo + CountAll(a.children) <= |ns|
    && ns[i].name == a.name && ns[i].flags == a.flags && ns[i].childCount == Wrapped(|a.children|)
    && ns[i].firstChild == (if a.children == [] then 0 else Wrapped(lo))
    && (a.children != [] ==> i < lo)
    && (forall k :: lo <= k < lo + |a.children| ==> k < |ns| && ns[k].parent == Some(Wrapped(i)))
    && PackedAll(ns, lo, lo + |a.children|, a.children)
  }

  ghost predicate PackedAll(ns: seq<CompiledNode>, slot: nat, lo: nat, forest: seq<Anim>)
    decreases forest, 0
  {
    forest != [] ==>
      && slot < lo
      && Packed(ns, slot, lo, forest[0])
      && PackedAll(ns, slot + 1, lo + CountAll(forest[0].children), forest[1..])
  }

  /** Everything below the forest's nodes. */
  function Below(forest: seq<Anim>): nat {
    if forest == [] then 0 else CountAll(forest[0].children) + Below(forest[1..])
  }

  lemma {:induction false} BelowCount(forest: seq<Anim>)
    ensures CountAll(forest) == |forest| + Below(forest)
    decreases |forest|
  {
    if forest != [] {
      BelowCount(forest[1..]);
    }
  }

  lemma {:induction false} BelowSnoc(forest: seq<Anim>, x: Anim)
    ensures Below(forest + [x]) == Below(forest) + CountAll(x.children)
    decreases |forest|
  {
    if forest == [] {
      assert forest + [x] == [x];
    } else {
      BelowSnoc(forest[1..], x);
      assert (forest + [x])[1..] == forest[1..] + [x];
    }
  }

  predicate SameFields(a: CompiledNode, b: CompiledNode) {
    a.(parent := None) == b.(parent := None)
  }

  /** A packed tree stays packed while its own slots do not change; of its top slot
      the parent link does not matter. */
  lemma {:induction false} PackedFrame(ns: seq<CompiledNode>, ns': seq<CompiledNode>, i: nat, lo: nat, a: Anim)
    requires Packed(ns, i, lo, a) && |ns'| == |ns|
    requires SameFields(ns'[i], ns[i]) && forall k :: lo <= k < lo + CountAll(a.children) ==> ns'[k] == ns[k]
    ensures Packed(ns', i, lo, a)
    decreases a, 1
  {
    BelowCount(a.children);
    PackedAllFrame(ns, ns', lo, lo + |a.children|, a.children);
  }

  lemma {:induction false} PackedAllFrame(ns: seq<CompiledNode>, ns': seq<CompiledNode>, slot: nat, lo: nat,
          forest: seq<Anim>)
    requires PackedAll(ns, slot, lo, forest) && |ns'| == |ns| && slot + |forest| <= |ns| && lo + Below(forest) <= |ns|
    requires forall k :: slot <= k < slot + |forest| ==> SameFields(ns'[k], ns[k])
    requires forall k :: lo <= k < lo + Below(forest) ==> ns'[k] == ns[k]
    ensures PackedAll(ns', slot, lo, forest)
    decreases forest, 0
  {
    if forest != [] {
      PackedFrame(ns, ns', slot, lo, forest[0]);
      PackedAllFrame(ns, ns', slot + 1, lo + CountAll(forest[0].children), forest[1..]);
    }
  }

  lemma {:induction false} PackedAllSnoc(ns: seq<CompiledNode>, slot: nat, lo: nat, forest: seq<Anim>, x: Anim)
    requires PackedAll(ns, slot, lo, forest) && slot + |forest| < lo + Below(forest)
    requires Packed(ns, slot + |forest|, lo + Below(forest), x)
    ensures PackedAll(ns, slot, lo, forest + [x])
    decreases |forest|
  {
    if forest == [] {
      assert forest + [x] == [x];
    } else {
      var rest := forest[1..];
      PackedAllSnoc(ns, slot + 1, lo + CountAll(forest[0].children), rest, x);
      assert (forest + [x])[1..] == rest + [x];
    }
  }

  // ---------- packing ----------

  /** How far the sibling loops have come: done are packed in their slots, the other
      child slots only carry their parent link. */
  ghost predicate Packing(ns: seq<CompiledNode>, parentIndex: nat, childIndex: nat, size: nat, done: seq<Anim>) {
    && parentIndex < childIndex && childIndex + size <= |ns| && |done| <= size
    && (forall k :: childIndex <= k < childIndex + size ==> ns[k].parent == Some(Wrapped(parentIndex)))
    && PackedAll(ns, childIndex, childIndex + size, ReorderedAll(done))
    && childIndex + size + Below(ReorderedAll(done)) <= |ns|
  }

  /** Only the given slots have changed. */
  ghost predicate SameOutside(ns: seq<CompiledNode>, ns': seq<CompiledNode>, slot: nat, lo: nat, hi: nat) {
    |ns'| == |ns| && forall k :: 0 <= k < |ns| && k != slot && !(lo <= k < hi) ==> ns'[k] == ns[k]
  }

  lemma {:induction false} ReorderedSnoc(done: seq<Anim>, x: Anim)
    ensures ReorderedAll(done + [x]) == ReorderedAll(done) + [Reordered(x)]
    ensures Below(ReorderedAll(done + [x])) == Below(ReorderedAll(done)) + CountAll(x.children)
  {
    ReorderedAllConcat(done, [x]);
    assert ReorderedAll([x]) == [Reordered(x)] + ReorderedAll([x][1..]);
    BelowSnoc(ReorderedAll(done), Reordered(x));
    ReorderedKeeps(x);
  }

  /** One more sibling has been packed into the next slot and the next free region. */
  lemma {:induction false} PackingNext(ns: seq<CompiledNode>, ns': seq<CompiledNode>, parentIndex: nat,
          childIndex: nat, size: nat, done: seq<Anim>, x: Anim)
    requires Packing(ns, parentIndex, childIndex, size, done) && |done| < size
    requires var nested := childIndex + size + Below(ReorderedAll(done));
             && nested + CountAll(x.children) <= |ns|
             && SameOutside(ns, ns', childIndex + |done|, nested, nested + CountAll(x.children))
             && ns'[childIndex + |done|].parent == ns[childIndex + |done|].parent
             && Packed(ns', childIndex + |done|, nested, Reordered(x))
    ensures Packing(ns', parentIndex, childIndex, size, done + [x])
    ensures Below(ReorderedAll(done + [x])) == Below(ReorderedAll(done)) + CountAll(x.children)
  {
    ReorderedSnoc(done, x);
    ReorderedKeeps(x);
    PackedAllFrame(ns, ns', childIndex, childIndex + size, ReorderedAll(done));
    PackedAllSnoc(ns', childIndex, childIndex + size, ReorderedAll(done), Reordered(x));
  }

  lemma PackedLeaf(ns: seq<CompiledNode>, slot: nat, lo: nat, x: Anim)
    requires slot < |ns| && lo <= |ns| && x.children == []
    requires ns[slot] == CompiledNode(x.name, ns[slot].parent, 0, 0, 0)
    ensures Packed(ns, slot, lo, Reordered(x))
  {}

  lemma {:induction false} PackingDone(ns: seq<CompiledNode>, parentIndex: nat, childIndex: nat,
          siblings: seq<Anim>, name: string, flags: bv16)
    requires siblings != [] && Packing(ns, parentIndex, childIndex, |siblings|, Ordered(siblings))
    requires parentIndex < |ns| && childIndex + CountAll(siblings) <= |ns|
    requires ns[parentIndex] == CompiledNode(name, ns[parentIndex].parent, flags, Wrapped(|siblings|), Wrapped(childIndex))
    ensures Packed(ns, parentIndex, childIndex, Reordered(Anim(name, flags, siblings)))
    ensures childIndex + |siblings| + Below(ReorderedAll(Ordered(siblings))) == childIndex + CountAll(siblings)
  {
    OrderedReordered(siblings);
    PartitionSizes(siblings);
    ReorderedAllKeeps(Ordered(siblings));
    BelowCount(ReorderedAll(Ordered(siblings)));
  }

  function Done(siblings: seq<Anim>, s: nat, late: bool): seq<Anim>
    requires s <= |siblings|
  {
    (if late then Chosen(siblings, false) else []) + Chosen(siblings[..s], late)
  }

  lemma {:induction false} DoneNext(siblings: seq<Anim>, s: nat, late: bool)
    requires s < |siblings|
    ensures Done(siblings, s + 1, late) == if IsLate(siblings[s]) == late then Done(siblings, s, late) + [siblings[s]] else Done(siblings, s, late)
  {
    ChosenSnoc(siblings[..s], siblings[s], late);
    assert siblings[..s + 1] == siblings[..s] + [siblings[s]];
  }

  lemma {:induction false} DoneIsPrefix(siblings: seq<Anim>, s: nat, late: bool) returns (rest: seq<Anim>)
    requires s <= |siblings|
    ensures Ordered(siblings) == Done(siblings, s, late) + rest
  {
    var tail := Chosen(siblings[s..], late);
    assert siblings == siblings[..s] + siblings[s..];
    ChosenConcat(siblings[..s], siblings[s..], late);
    if late {
      rest := tail;
      assert Done(siblings, s, late) + rest == Chosen(siblings, false) + (Chosen(siblings[..s], true) + tail);
    } else {
      rest := tail + Chosen(siblings, true);
      assert Done(siblings, s, late) + rest == (Chosen(siblings[..s], false) + tail) + Chosen(siblings, true);
    }
  }

  lemma {:induction false} PrefixFits(siblings: seq<Anim>, done: seq<Anim>, rest: seq<Anim>)
    requires Ordered(siblings) == done + rest
    ensures |done| <= |siblings| && |siblings| + Below(ReorderedAll(done)) <= CountAll(siblings)
  {
    PartitionSizes(siblings);
    ReorderedAllConcat(done, rest);
    ReorderedAllKeeps(Ordered(siblings));
    BelowCount(ReorderedAll(Ordered(siblings)));
    BelowConcat(ReorderedAll(done), ReorderedAll(rest));
  }

  /** The next sibling has a slot and room below. */
  lemma {:induction false} DoneFits(siblings: seq<Anim>, s: nat, late: bool)
    requires s < |siblings| && IsLate(siblings[s]) == late
    ensures var done := Done(siblings, s, late);
            && |done| < |siblings|
            && |siblings| + Below(ReorderedAll(done)) + CountAll(siblings[s].children) <= CountAll(siblings)
  {
    DoneNext(siblings, s, late);
    var rest := DoneIsPrefix(siblings, s + 1, late);
    PrefixFits(siblings, Done(siblings, s + 1, late), rest);
    ReorderedSnoc(Done(siblings, s, late), siblings[s]);
  }

  lemma {:induction false} BelowConcat(a: seq<Anim>, b: seq<Anim>)
    ensures Below(a + b) == Below(a) + Below(b)
    decreases |a|
  {
    if a == [] {
      assert a + b == b;
    } else {
      BelowConcat(a[1..], b);
      assert (a + b)[1..] == a[1..] + b;
    }
  }

  /** The table while siblings are placed: done are in place, nothing else but the
      parent's own slot and the child links has changed. */
  ghost predicate Table(ns0: seq<CompiledNode>, ns: seq<CompiledNode>, header: CompiledNode, parentIndex: nat,
          childIndex: nat, siblings: seq<Anim>, done: seq<Anim>) {
    && parentIndex < childIndex && childIndex + CountAll(siblings) <= |ns|
    && |siblings| + Below(ReorderedAll(done)) <= CountAll(siblings)
    && |done| <= |siblings| <= CountAll(siblings)
    && SameOutside(ns0, ns, parentIndex, childIndex, childIndex + |siblings| + Below(ReorderedAll(done)))
    && ns[parentIndex] == header
    && Packing(ns, parentIndex, childIndex, |siblings|, done)
  }

  /** One pass after s siblings: the next slot and the next free region are known. */
  ghost predicate Passing(ns0: seq<CompiledNode>, ns: seq<CompiledNode>, header: CompiledNode, parentIndex: nat,
          childIndex: nat, siblings: seq<Anim>, s: nat, late: bool, slot: nat, nested: nat) {
    && s <= |siblings|
    && Table(ns0, ns, header, parentIndex, childIndex, siblings, Done(siblings, s, late))
    && slot == childIndex + |Done(siblings, s, late)|
    && nested == childIndex + |siblings| + Below(ReorderedAll(Done(siblings, s, late)))
  }

  lemma {:induction false} PassingFits(ns0: seq<CompiledNode>, ns: seq<CompiledNode>, header: CompiledNode,
          parentIndex: nat, childIndex: nat, siblings: seq<Anim>, s: nat, late: bool, slot: nat, nested: nat)
    requires Passing(ns0, ns, header, parentIndex, childIndex, siblings, s, late, slot, nested)
    requires s < |siblings| && IsLate(siblings[s]) == late
    ensures slot < nested && nested + CountAll(siblings[s].children) <= |ns|
  {
    DoneFits(siblings, s, late);
  }

  /** Placing one more sibling keeps the table. */
  lemma {:induction false} TableNext(ns0: seq<CompiledNode>, ns: seq<CompiledNode>, ns': seq<CompiledNode>,
          header: CompiledNode, parentIndex: nat, childIndex: nat, siblings: seq<Anim>, done: seq<Anim>,
          sibling: Anim, slot: nat, nested: nat)
    requires Table(ns0, ns, header, parentIndex, childIndex, siblings, done)
    requires slot == childIndex + |done| && nested == childIndex + |siblings| + Below(ReorderedAll(done))
    requires slot < childIndex + |siblings| && nested + CountAll(sibling.children) <= childIndex + CountAll(siblings)
    requires SameOutside(ns, ns', slot, nested, nested + CountAll(sibling.children)) && ns'[slot].parent == ns[slot].parent
    requires Packed(ns', slot, nested, Reordered(sibling))
    ensures Table(ns0, ns', header, parentIndex, childIndex, siblings, done + [sibling])
    ensures nested + CountAll(sibling.children) == childIndex + |siblings| + Below(ReorderedAll(done + [sibling]))
  {
    ReorderedSnoc(done, sibling);
    PackingNext(ns, ns', parentIndex, childIndex, |siblings|, done, sibling);
  }

  lemma {:induction false} PassingNext(ns0: seq<CompiledNode>, ns: seq<CompiledNode>, ns': seq<CompiledNode>,
          header: CompiledNode, parentIndex: nat, childIndex: nat, siblings: seq<Anim>, s: nat, late: bool,
          slot: nat, nested: nat)
    requires Passing(ns0, ns, header, parentIndex, childIndex, siblings, s, late, slot, nested)
    requires s < |siblings| && IsLate(siblings[s]) == late
    requires |ns'| == |ns| && slot < nested && nested + CountAll(siblings[s].children) <= |ns|
    requires SameOutside(ns, ns', slot, nested, nested + CountAll(siblings[s].children)) && ns'[slot].parent == ns[slot].parent
    requires Packed(ns', slot, nested, Reordered(siblings[s]))
    ensures Passing(ns0, ns', header, parentIndex, childIndex, siblings, s + 1, late, slot + 1, nested + CountAll(siblings[s].children))
  {
    DoneFits(siblings, s, late);
    TableNext(ns0, ns, ns', header, parentIndex, childIndex, siblings, Done(siblings, s, late), siblings[s], slot, nested);
    DoneNext(siblings, s, late);
  }

  lemma {:induction false} PassingSkip(ns0: seq<CompiledNode>, ns: seq<CompiledNode>, header: CompiledNode,
          parentIndex: nat, childIndex: nat, siblings: seq<Anim>, s: nat, late: bool, slot: nat, nested: nat)
    requires Passing(ns0, ns, header, parentIndex, childIndex, siblings, s, late, slot, nested)
    requires s < |siblings| && IsLate(siblings[s]) != late
    ensures Passing(ns0, ns, header, parentIndex, childIndex, siblings, s + 1, late, slot, nested)
  {
    DoneNext(siblings, s, late);
  }

  /** The first pass starts with nothing placed, the second where the first ended. */
  lemma {:induction false} PassingStart(ns0: seq<CompiledNode>, ns: seq<CompiledNode>, header: CompiledNode,
          parentIndex: nat, childIndex: nat, siblings: seq<Anim>)
    requires parentIndex < childIndex && childIndex + CountAll(siblings) <= |ns|
    requires SameOutside(ns0, ns, parentIndex, childIndex, childIndex + |siblings|) && ns[parentIndex] == header
    requires |siblings| <= CountAll(siblings)
    requires forall k :: childIndex <= k < childIndex + |siblings| ==> ns[k].parent == Some(Wrapped(parentIndex))
    ensures Passing(ns0, ns, header, parentIndex, childIndex, siblings, 0, false, childIndex, childIndex + |siblings|)
  {
    assert Done(siblings, 0, false) == [];
  }

  /** After both passes everything below the parent is packed. */
  lemma {:induction false} PassingDone(ns0: seq<CompiledNode>, ns: seq<CompiledNode>, header: CompiledNode,
          parentIndex: nat, childIndex: nat, siblings: seq<Anim>, slot: nat, nested: nat)
    requires siblings != [] && Passing(ns0, ns, header, parentIndex, childIndex, siblings, |siblings|, true, slot, nested)
    requires header.childCount == Wrapped(|siblings|) && header.firstChild == Wrapped(childIndex)
    ensures nested == childIndex + CountAll(siblings)
    ensures SameOutside(ns0, ns, parentIndex, childIndex, nested) && ns[parentIndex] == header
    ensures Packed(ns, parentIndex, childIndex, Reordered(Anim(header.name, header.flags, siblings)))
  {
    PassingTurn(siblings);
    OrderedCount(siblings);
    PackingDone(ns, parentIndex, childIndex, siblings, header.name, header.flags);
  }

  lemma {:induction false} PassingTurn(siblings: seq<Anim>)
    ensures Done(siblings, |siblings|, false) == Done(siblings, 0, true)
    ensures Done(siblings, |siblings|, true) == Ordered(siblings)
  {
    assert siblings[..|siblings|] == siblings;
  }

  /** One sibling into its slot: a leaf into the slot alone, a branch with all that
      is below it into the next free region. */
  method PlaceSibling(nodes: array<CompiledNode>, sibling: Anim, slot: nat, nested: nat) returns (nested': nat)
    requires slot < nested && nested + CountAll(sibling.children) <= nodes.Length
    modifies nodes
    ensures nested' == nested + CountAll(sibling.children)
    ensures SameOutside(old(nodes[..]), nodes[..], slot, nested, nested')
    ensures nodes[slot].parent == old(nodes[slot].parent)
    ensures Packed(nodes[..], slot, nested, Reordered(sibling))
    decreases sibling, 2
  {
    if sibling.children == [] {
      nodes[slot] := nodes[slot].(name := sibling.name, flags := 0, childCount := 0, firstChild := 0);
      nested' := nested;
      PackedLeaf(nodes[..], slot, nested, sibling);
    } else {
      nested' := CreateAnimationTree(nodes, sibling.children, nested, sibling.name, slot, sibling.flags);
      assert Anim(sibling.name, sibling.flags, sibling.children) == sibling;
    }
  }

  /** One pass over the siblings, placing those of one kind. */
  method PlacePass(nodes: array<CompiledNode>, siblings: seq<Anim>, late: bool, slot: nat, nested: nat,
          ghost ns0: seq<CompiledNode>, ghost header: CompiledNode, ghost parentIndex: nat,
          ghost childIndex: nat)
    returns (slot': nat, nested': nat)
    requires Passing(ns0, nodes[..], header, parentIndex, childIndex, siblings, 0, late, slot, nested)
    modifies nodes
    ensures Passing(ns0, nodes[..], header, parentIndex, childIndex, siblings, |siblings|, late, slot', nested')
    decreases siblings, 0
  {
    slot', nested' := slot, nested;
    for s := 0 to |siblings|
      invariant Passing(ns0, nodes[..], header, parentIndex, childIndex, siblings, s, late, slot', nested')
    {
      var sibling := siblings[s];
      ghost var before := nodes[..];
      var additive := Has(sibling.flags, ADDITIVE);
      if (if sibling.children == [] then !late else additive == late) {
        PassingFits(ns0, before, header, parentIndex, childIndex, siblings, s, late, slot', nested');
        ghost var at, lo := slot', nested';
        nested' := PlaceSibling(nodes, sibling, slot', nested');
        PassingNext(ns0, before, nodes[..], header, parentIndex, childIndex, siblings, s, late, at, lo);
        slot' := slot' + 1;
      } else {
        PassingSkip(ns0, before, header, parentIndex, childIndex, siblings, s, late, slot', nested');
      }
    }
  }

  method LinkChildren(nodes: array<CompiledNode>, parentIndex: nat, childIndex: nat, size: nat)
    requires parentIndex < childIndex && childIndex + size <= nodes.Length
    modifies nodes
    ensures SameOutside(old(nodes[..]), nodes[..], parentIndex, childIndex, childIndex + size)
    ensures nodes[parentIndex] == old(nodes[parentIndex])
    ensures forall k :: childIndex <= k < childIndex + size ==> nodes[k].parent == Some(Wrapped(parentIndex))
  {
    for i := 0 to size
      invariant forall k :: 0 <= k < nodes.Length && !(childIndex <= k < childIndex + i) ==> nodes[k] == old(nodes[k])
      invariant forall k :: childIndex <= k < childIndex + i ==> nodes[k].parent == Some(Wrapped(parentIndex))
    {
      nodes[childIndex + i] := nodes[childIndex + i].(parent := Some(Wrapped(parentIndex)));
    }
  }

  /** Fills the parent's slot and everything below it: leaves and plain branches
      first, additive branches last. */
  method CreateAnimationTree(nodes: array<CompiledNode>, siblings: seq<Anim>, childIndex: nat,
          parentName: string, parentIndex: nat, flags: bv16)
    returns (nested: nat)
    requires siblings != [] && parentIndex < childIndex && childIndex + CountAll(siblings) <= nodes.Length
    modifies nodes
    ensures nested == childIndex + CountAll(siblings)
    ensures SameOutside(old(nodes[..]), nodes[..], parentIndex, childIndex, nested)
    ensures nodes[parentIndex] == CompiledNode(parentName, old(nodes[parentIndex].parent), flags, Wrapped(|siblings|), Wrapped(childIndex))
    ensures Packed(nodes[..], parentIndex, childIndex, Reordered(Anim(parentName, flags, siblings)))
    decreases siblings, 1
  {
    ghost var ns0 := nodes[..];
    var size := |siblings|;
    BelowCount(siblings);
    nodes[parentIndex] := CompiledNode(parentName, nodes[parentIndex].parent, flags, Wrapped(size), Wrapped(childIndex));
    ghost var header := nodes[parentIndex];
    LinkChildren(nodes, parentIndex, childIndex, size);
    var slot := childIndex;
    nested := size + childIndex;
    PassingStart(ns0, nodes[..], header, parentIndex, childIndex, siblings);
    slot, nested := PlacePass(nodes, siblings, false, slot, nested, ns0, header, parentIndex, childIndex);
    PassingTurn(siblings);
    slot, nested := PlacePass(nodes, siblings, true, slot, nested, ns0, header, parentIndex, childIndex);
    PassingDone(ns0, nodes[..], header, parentIndex, childIndex, siblings, slot, nested);
  }

  lemma {:induction false} OrderedCount(siblings: seq<Anim>)
    ensures |siblings| + Below(ReorderedAll(Ordered(siblings))) == CountAll(siblings)
  {
    PartitionSizes(siblings);
    ReorderedAllKeeps(Ordered(siblings));
    BelowCount(ReorderedAll(Ordered(siblings)));
  }

  // ---------- reading the table back ----------

  /** The tree below slot i, following first child and child count. */
  function Unpack(ns: seq<CompiledNode>, i: nat): Anim
    requires i < |ns|
    decreases |ns| - i, 0
  {
    var n := ns[i];
    Anim(n.name, n.flags,
         if i < n.firstChild && n.firstChild + n.childCount <= |ns|
         then UnpackRange(ns, n.firstChild, n.firstChild + n.childCount)
         else [])
  }

  function UnpackRange(ns: seq<CompiledNode>, from: nat, to: nat): seq<Anim>
    requires from <= to <= |ns|
    decreases |ns| - from, 1
  {
    if from == to then [] else [Unpack(ns, from)] + UnpackRange(ns, from + 1, to)
  }

  /** No sibling list and no first child of the tree outgrows sixteen bits when what
      is below it is laid out from lo on. */
  predicate Fits(lo: nat, a: Anim)
    decreases a, 1
  {
    a.children != [] ==> |a.children| < U16 && lo < U16 && FitsAll(lo + |a.children|, a.children)
  }

  predicate FitsAll(lo: nat, forest: seq<Anim>)
    decreases forest, 0
  {
    forest != [] ==> Fits(lo, forest[0]) && FitsAll(lo + CountAll(forest[0].children), forest[1..])
  }

  lemma {:induction false} UnpackPacked(ns: seq<CompiledNode>, i: nat, lo: nat, a: Anim)
    requires Packed(ns, i, lo, a) && Fits(lo, a)
    ensures Unpack(ns, i) == a
    decreases a, 1
  {
    if a.children != [] {
      BelowCount(a.children);
      UnpackPackedAll(ns, lo, lo + |a.children|, a.children);
    }
  }

  lemma {:induction false} UnpackPackedAll(ns: seq<CompiledNode>, slot: nat, lo: nat, forest: seq<Anim>)
    requires PackedAll(ns, slot, lo, forest) && FitsAll(lo, forest) && slot + |forest| <= |ns|
    ensures UnpackRange(ns, slot, slot + |forest|) == forest
    decreases forest, 0
  {
    if forest != [] {
      UnpackPacked(ns, slot, lo, forest[0]);
      UnpackPackedAll(ns, slot + 1, lo + CountAll(forest[0].children), forest[1..]);
    }
  }

  ghost predicate ChildOf(ns: seq<CompiledNode>, p: nat, c: nat)
    requires p < |ns|
  {
    ns[p].firstChild <= c < ns[p].firstChild + ns[p].childCount
  }

  /** A node's child range lies behind it and all of it links back. */
  ghost predicate LinksAgree(ns: seq<CompiledNode>, p: nat)
    requires p < |ns|
  {
    forall c: nat :: ChildOf(ns, p, c) ==> p < c < |ns| && ns[c].parent == Some(p)
  }

  /** A slot is in the child range its parent link names. */
  ghost predicate Linked(ns: seq<CompiledNode>, c: nat)
    requires c < |ns|
  {
    ns[c].parent.Some? && ns[c].parent.value < c && ChildOf(ns, ns[c].parent.value, c)
  }

  lemma {:induction false} LinksBelow(ns: seq<CompiledNode>, i: nat, lo: nat, a: Anim)
    requires Packed(ns, i, lo, a) && Fits(lo, a)
    ensures LinksAgree(ns, i)
    ensures forall p: nat :: lo <= p < lo + CountAll(a.children) ==> LinksAgree(ns, p)
    ensures forall c: nat :: lo <= c < lo + CountAll(a.children) ==> Linked(ns, c)
    decreases a, 1
  {
    BelowCount(a.children);
    if a.children != [] {
      LinksBelowAll(ns, lo, lo + |a.children|, a.children);
    }
  }

  lemma {:induction false} LinksBelowAll(ns: seq<CompiledNode>, slot: nat, lo: nat, forest: seq<Anim>)
    requires PackedAll(ns, slot, lo, forest) && FitsAll(lo, forest)
    requires slot + |forest| <= lo && lo + Below(forest) <= |ns|
    ensures forall p: nat :: slot <= p < slot + |forest| || lo <= p < lo + Below(forest) ==> LinksAgree(ns, p)
    ensures forall c: nat :: lo <= c < lo + Below(forest) ==> Linked(ns, c)
    decreases forest, 0
  {
    if forest != [] {
      LinksBelow(ns, slot, lo, forest[0]);
      LinksBelowAll(ns, slot + 1, lo + CountAll(forest[0].children), forest[1..]);
    }
  }

  /** Every slot but the root's is linked, and every child range links back. */
  ghost predicate Consistent(ns: seq<CompiledNode>) {
    && (forall p: nat :: p < |ns| ==> LinksAgree(ns, p))
    && (forall c: nat :: 0 < c < |ns| ==> Linked(ns, c))
  }

  /** Slot i is not the child of a slot whose range reaches lo. */
  ghost predicate ParentEndsBefore(ns: seq<CompiledNode>, i: nat, lo: nat)
    requires i < |ns|
  {
    && ns[i].parent.Some? && ns[i].parent.value < |ns|
    && var p := ns[ns[i].parent.value];
       p.firstChild + p.childCount <= lo
  }

  /** A list of siblings that outgrows sixteen bits, or begins beyond them, cannot
      all be children of the slot they name as their parent. */
  lemma {:induction false} ConsistentChildrenFit(ns: seq<CompiledNode>, i: nat, lo: nat, a: Anim)
    requires Consistent(ns) && Packed(ns, i, lo, a) && a.children != []
    requires i == 0 || ParentEndsBefore(ns, i, lo)
    ensures |a.children| < U16 && lo < U16
  {
    BelowCount(a.children);
    var last := lo + |a.children| - 1;
    assert Linked(ns, lo) && Linked(ns, last);
    var w := Wrapped(i);
    assert ChildOf(ns, w, lo) && ChildOf(ns, w, last);
    assert LinksAgree(ns, w);
    if i >= U16 {
      assert ChildOf(ns, w, i);
    }
  }

  lemma {:induction false} ConsistentFits(ns: seq<CompiledNode>, i: nat, lo: nat, a: Anim)
    requires Consistent(ns) && Packed(ns, i, lo, a)
    requires i == 0 || ParentEndsBefore(ns, i, lo)
    ensures Fits(lo, a)
    decreases a, 1
  {
    if a.children != [] {
      ConsistentChildrenFit(ns, i, lo, a);
      BelowCount(a.children);
      ConsistentFitsAll(ns, lo, lo + |a.children|, a.children, i);
    }
  }

  lemma {:induction false} ConsistentFitsAll(ns: seq<CompiledNode>, slot: nat, lo: nat, forest: seq<Anim>, p: nat)
    requires Consistent(ns) && PackedAll(ns, slot, lo, forest)
    requires p < |ns| && ns[p].firstChild + ns[p].childCount <= lo
    requires slot + |forest| <= |ns| && forall k :: slot <= k < slot + |forest| ==> ns[k].parent == Some(p)
    ensures FitsAll(lo, forest)
    decreases forest, 0
  {
    if forest != [] {
      ConsistentFits(ns, slot, lo, forest[0]);
      ConsistentFitsAll(ns, slot + 1, lo + CountAll(forest[0].children), forest[1..], p);
    }
  }

  // ---------- the whole table ----------

  datatype FlattenError = EmptyTree | PackedSizeDiffers(packed: nat, size: nat)

  /** Packs the pruned top-level nodes under a root. */
  method FlattenTree(children: seq<Anim>) returns (r: Result<seq<CompiledNode>, FlattenError>)
    ensures r == Err(EmptyTree) <==> children == []
    ensures r.Err? ==> children == []
    ensures children != [] ==> |r.value| == TableSize(children)
    ensures children != [] ==> r.value[0] == CompiledNode("root", None, 0, Wrapped(|children|), 1)
    ensures children != [] ==> Packed(r.value, 0, 1, Reordered(Anim("root", 0, children)))
  {
    var size := AnimTreeSize(children);
    if size == 0 {
      return Err(EmptyTree);
    }
    var nodes := new CompiledNode[size](_ => BLANK);
    var next := CreateAnimationTree(nodes, children, 1, "root", 0, 0);
    if next != size {
      return Err(PackedSizeDiffers(next, size));
    }
    r := Ok(nodes[..]);
  }

  /** In the packed table every slot but the root's is the child of exactly one node,
      its parent, exactly when no list of siblings and no first child of the tree
      outgrows sixteen bits. */
  lemma {:induction false} ConsistentIffFits(ns: seq<CompiledNode>, children: seq<Anim>)
    requires children != [] && |ns| == TableSize(children) && Packed(ns, 0, 1, Reordered(Anim("root", 0, children)))
    ensures Consistent(ns) <==> Fits(1, Reordered(Anim("root", 0, children)))
  {
    var root := Reordered(Anim("root", 0, children));
    if Consistent(ns) {
      ConsistentFits(ns, 0, 1, root);
    } else if Fits(1, root) {
      ReorderedKeeps(Anim("root", 0, children));
      LinksBelow(ns, 0, 1, root);
    }
  }

  /** The packed table of a tree that fits is read back as the tree, siblings stably
      partitioned. */
  lemma {:induction false} FlattenRoundTrip(ns: seq<CompiledNode>, children: seq<Anim>)
    requires children != [] && Packed(ns, 0, 1, Reordered(Anim("root", 0, children)))
    requires Fits(1, Reordered(Anim("root", 0, children)))
    ensures Unpack(ns, 0) == Reordered(Anim("root", 0, children))
  {
    UnpackPacked(ns, 0, 1, Reordered(Anim("root", 0, children)));
  }

  /** As many children as wrap to zero are not found again. */
  lemma WrappedChildrenAreLost(ns: seq<CompiledNode>, children: seq<Anim>)
    requires |children| == U16 && Packed(ns, 0, 1, Reordered(Anim("root", 0, children)))
    ensures Unpack(ns, 0) == Anim("root", 0, []) && Unpack(ns, 0) != Reordered(Anim("root", 0, children))
  {
    ReorderedKeeps(Anim("root", 0, children));
    ReorderedAllKeeps(children);
    PartitionSizes(ReorderedAll(children));
  }

  /** A table of at most 65536 slots always fits. */
  lemma {:induction false} SmallTablesFit(lo: nat, a: Anim)
    requires lo > 0 && lo + CountAll(a.children) <= U16
    ensures Fits(lo, a)
    decreases a, 1
  {
    if a.children != [] {
      BelowCount(a.children);
      SmallTablesFitAll(lo + |a.children|, a.children);
    }
  }

  lemma {:induction false} SmallTablesFitAll(lo: nat, forest: seq<Anim>)
    requires lo > 0 && lo + Below(forest) <= U16
    ensures FitsAll(lo, forest)
    decreases forest, 0
  {
    if forest != [] {
      SmallTablesFit(lo, forest[0]);
      SmallTablesFitAll(lo + CountAll(forest[0].children), forest[1..]);
    }
  }

  /** But larger ones may fit as well: only where lists begin and how long they are
      matters, not where the last one ends. */
  lemma {:induction false} LargerTableFits(branch: Anim, leaf: Anim)
    requires |branch.children| == U16 - 2 && Below(branch.children) == 0 && leaf.children == []
    ensures TableSize([branch, leaf]) == U16 + 1
    ensures Fits(1, Anim("root", 0, [branch, leaf]))
  {
    BelowCount(branch.children);
    BelowCount([branch, leaf]);
    assert Below([leaf]) == Below([leaf][1..]);
    assert [branch, leaf][1..] == [leaf];
    LeavesFit(3 + |branch.children|, branch.children);
    assert [leaf][1..] == [] && Fits(3 + CountAll(branch.children), leaf);
    assert FitsAll(3 + CountAll(branch.children), [leaf]);
  }

  lemma {:induction false} LeavesFit(lo: nat, forest: seq<Anim>)
    requires Below(forest) == 0
    ensures FitsAll(lo, forest)
    decreases |forest|
  {
    if forest != [] {
      assert CountAll(forest[0].children) == 0;
      LeavesFit(lo, forest[1..]);
    }
  }
}
