/** Volume groups inherit from their parents: crates/asset_audio/src/mixer_group.rs.
    Multiplication and finiteness stay abstract, so every result is exact whatever
    the rounding of the product. */
module MixerGroups {
  import opened Wrappers

  /** What the compiler needs from the number type of an attenuation. */
  datatype Gains<!F> = Gains(one: F, product: (F, F) -> F, isFinite: F -> bool, isNegative: F -> bool)

  datatype MixerGroup<F> = MixerGroup(parent: int, attenuation: F)

  datatype MixerGroupError =
    | Cycle(group: nat)
    | InvalidParent(group: nat, parent: int)
    | InvalidAttenuation(group: nat)
    | NonFiniteGain(group: nat)

  type Gain<F> = Result<F, MixerGroupError>

  predicate ValidAttenuation<F>(ops: Gains<F>, groups: seq<MixerGroup<F>>, g: nat)
    requires g < |groups|
  {
    ops.isFinite(groups[g].attenuation) && !ops.isNegative(groups[g].attenuation)
  }

  /** The parent a walk goes on to, if it goes on. */
  function Up<F>(ops: Gains<F>, groups: seq<MixerGroup<F>>, g: nat): (up: Option<nat>)
    requires g < |groups|
    ensures up.Some? ==> up.value < |groups|
  {
    if ValidAttenuation(ops, groups, g) && 0 <= groups[g].parent < |groups| then Some(groups[g].parent) else None
  }

  /** What a group that ends the walk hands to itself: the neutral gain at a root. */
  function Top<F>(ops: Gains<F>, groups: seq<MixerGroup<F>>, g: nat): Gain<F>
    requires g < |groups| && Up(ops, groups, g).None?
  {
    if !ValidAttenuation(ops, groups, g) then Err(InvalidAttenuation(g))
    else if groups[g].parent < 0 then Ok(ops.one)
    else Err(InvalidParent(g, groups[g].parent))
  }

  /** A group's own attenuation applied to what its parent has. */
  function Attenuated<F>(ops: Gains<F>, groups: seq<MixerGroup<F>>, g: nat, above: Gain<F>): Gain<F>
    requires g < |groups|
  {
    match above
    case Err(_) => above
    case Ok(gain) =>
      var own := ops.product(groups[g].attenuation, gain);
      if ops.isFinite(own) then Ok(own) else Err(NonFiniteGain(g))
  }

  /** The group k levels above g. */
  function Ancestor<F>(ops: Gains<F>, groups: seq<MixerGroup<F>>, g: nat, k: nat): (a: Option<nat>)
    requires g < |groups|
    ensures a.Some? ==> a.value < |groups|
    decreases k
  {
    if k == 0 then Some(g)
    else
      var up := Up(ops, groups, g);
      if up.None? then None else Ancestor(ops, groups, up.value, k - 1)
  }

  /** The walk from g comes to an end after at most k levels. */
  ghost predicate EndsWithin<F(!new)>(ops: Gains<F>, groups: seq<MixerGroup<F>>, g: nat, k: nat)
    requires g < |groups|
  {
    Ancestor(ops, groups, g, k).None?
  }

  ghost predicate Ends<F(!new)>(ops: Gains<F>, groups: seq<MixerGroup<F>>, g: nat)
    requires g < |groups|
  {
    exists k: nat :: EndsWithin(ops, groups, g, k)
  }

  /** c is an ancestor of g, or g itself. */
  ghost predicate Above<F(!new)>(ops: Gains<F>, groups: seq<MixerGroup<F>>, g: nat, c: nat)
    requires g < |groups|
  {
    exists k: nat :: Ancestor(ops, groups, g, k) == Some(c)
  }

  /** c is its own proper ancestor. */
  ghost predicate OnCycle<F(!new)>(ops: Gains<F>, groups: seq<MixerGroup<F>>, c: nat)
    requires c < |groups|
  {
    exists k: nat :: k > 0 && Ancestor(ops, groups, c, k) == Some(c)
  }

  /** c is the smallest group of the cycle the walk from g runs into. */
  ghost predicate NamesCycle<F(!new)>(ops: Gains<F>, groups: seq<MixerGroup<F>>, g: nat, c: nat)
    requires g < |groups|
  {
    && c < |groups| && Above(ops, groups, g, c) && OnCycle(ops, groups, c)
    && forall d: nat :: d < |groups| && Above(ops, groups, g, d) && OnCycle(ops, groups, d) ==> c <= d
  }

  /** The gain of a group whose walk ends within k levels: the attenuations
      multiplied from the root downwards, or the first thing that goes wrong. */
  ghost function GainWithin<F(!new)>(ops: Gains<F>, groups: seq<MixerGroup<F>>, g: nat, k: nat): Gain<F>
    requires g < |groups| && EndsWithin(ops, groups, g, k)
    decreases k
  {
    var up := Up(ops, groups, g);
    Attenuated(ops, groups, g, if up.None? then Top(ops, groups, g) else GainWithin(ops, groups, up.value, k - 1))
  }

  /** What each group must come out as, said without any visiting order. */
  ghost predicate IsGain<F(!new)>(ops: Gains<F>, groups: seq<MixerGroup<F>>, g: nat, gain: Gain<F>)
    requires g < |groups|
  {
    if Ends(ops, groups, g) then
      forall k: nat :: EndsWithin(ops, groups, g, k) ==> gain == GainWithin(ops, groups, g, k)
    else
      gain.Err? && gain.error.Cycle? && NamesCycle(ops, groups, g, gain.error.group)
  }

  lemma {:induction false} EndsStep<F(!new)>(ops: Gains<F>, groups: seq<MixerGroup<F>>, g: nat)
    requires g < |groups| && Up(ops, groups, g).Some?
    ensures Ends(ops, groups, g) <==> Ends(ops, groups, Up(ops, groups, g).value)
  {
    var p := Up(ops, groups, g).value;
    if Ends(ops, groups, g) {
      var k: nat :| EndsWithin(ops, groups, g, k);
      assert EndsWithin(ops, groups, p, k - 1);
    }
    if Ends(ops, groups, p) {
      var k: nat :| EndsWithin(ops, groups, p, k);
      assert EndsWithin(ops, groups, g, k + 1);
    }
  }

  /** Every group above p is above its child g, and g is above p if it is on a cycle. */
  lemma {:induction false} AboveStep<F(!new)>(ops: Gains<F>, groups: seq<MixerGroup<F>>, g: nat, d: nat)
    requires g < |groups| && d < |groups| && Up(ops, groups, g).Some?
    ensures Above(ops, groups, Up(ops, groups, g).value, d) ==> Above(ops, groups, g, d)
    ensures Above(ops, groups, g, d) && OnCycle(ops, groups, d) ==> Above(ops, groups, Up(ops, groups, g).value, d)
  {
    var p := Up(ops, groups, g).value;
    if Above(ops, groups, p, d) {
      var k: nat :| Ancestor(ops, groups, p, k) == Some(d);
      assert Ancestor(ops, groups, g, k + 1) == Some(d);
    }
    if Above(ops, groups, g, d) && OnCycle(ops, groups, d) {
      var k: nat :| Ancestor(ops, groups, g, k) == Some(d);
      if k == 0 {
        var m: nat :| m > 0 && Ancestor(ops, groups, d, m) == Some(d);
        assert Ancestor(ops, groups, p, m - 1) == Some(d);
      } else {
        assert Ancestor(ops, groups, p, k - 1) == Some(d);
      }
    }
  }

  /** What a parent has determines what its child has. */
  lemma {:induction false} GainStep<F(!new)>(ops: Gains<F>, groups: seq<MixerGroup<F>>, g: nat, above: Gain<F>)
    requires g < |groups| && Up(ops, groups, g).Some? && IsGain(ops, groups, Up(ops, groups, g).value, above)
    ensures IsGain(ops, groups, g, Attenuated(ops, groups, g, above))
  {
    var p := Up(ops, groups, g).value;
    EndsStep(ops, groups, g);
    if Ends(ops, groups, g) {
      forall k: nat | EndsWithin(ops, groups, g, k)
        ensures Attenuated(ops, groups, g, above) == GainWithin(ops, groups, g, k)
      {
        assert EndsWithin(ops, groups, p, k - 1);
      }
    } else {
      forall d: nat | d < |groups|
        ensures Above(ops, groups, p, d) ==> Above(ops, groups, g, d)
        ensures Above(ops, groups, g, d) && OnCycle(ops, groups, d) ==> Above(ops, groups, p, d)
      {
        AboveStep(ops, groups, g, d);
      }
    }
  }

  lemma {:induction false} GainAtTop<F(!new)>(ops: Gains<F>, groups: seq<MixerGroup<F>>, g: nat)
    requires g < |groups| && Up(ops, groups, g).None?
    ensures IsGain(ops, groups, g, Attenuated(ops, groups, g, Top(ops, groups, g)))
  {
    assert EndsWithin(ops, groups, g, 1);
  }

  /** There is at most one gain a group may come out with. */
  lemma GainUnique<F(!new)>(ops: Gains<F>, groups: seq<MixerGroup<F>>, g: nat, a: Gain<F>, b: Gain<F>)
    requires g < |groups| && IsGain(ops, groups, g, a) && IsGain(ops, groups, g, b)
    ensures a == b
  {
    if Ends(ops, groups, g) {
      var k: nat :| EndsWithin(ops, groups, g, k);
    }
  }

  // ---------- chains ----------

  ghost predicate InGroups<F(!new)>(groups: seq<MixerGroup<F>>, chain: seq<nat>) {
    forall i :: 0 <= i < |chain| ==> chain[i] < |groups|
  }

  /** From a group up its parents to the one at which the walk ends. */
  ghost predicate IsChain<F(!new)>(ops: Gains<F>, groups: seq<MixerGroup<F>>, chain: seq<nat>) {
    && chain != [] && InGroups(groups, chain)
    && (forall i :: 0 <= i < |chain| - 1 ==> Up(ops, groups, chain[i]) == Some(chain[i + 1]))
    && Up(ops, groups, chain[|chain| - 1]) == None
  }

  /** The attenuations of a chain, each times the product of those above it, and the
      neutral gain above the root. */
  ghost function Product<F(!new)>(ops: Gains<F>, groups: seq<MixerGroup<F>>, chain: seq<nat>): F
    requires InGroups(groups, chain)
  {
    if chain == [] then ops.one else ops.product(groups[chain[0]].attenuation, Product(ops, groups, chain[1..]))
  }

  /** The product of the chain from its i-th group on is finite. */
  ghost predicate FiniteFrom<F(!new)>(ops: Gains<F>, groups: seq<MixerGroup<F>>, chain: seq<nat>, i: nat)
    requires InGroups(groups, chain) && i <= |chain|
  {
    ops.isFinite(Product(ops, groups, chain[i..]))
  }

  /** Of the groups whose product is not finite, the i-th is the nearest to the root. */
  ghost predicate FailsFirst<F(!new)>(ops: Gains<F>, groups: seq<MixerGroup<F>>, chain: seq<nat>, i: nat)
    requires InGroups(groups, chain)
  {
    i < |chain| && !FiniteFrom(ops, groups, chain, i) && forall j :: i < j < |chain| ==> FiniteFrom(ops, groups, chain, j)
  }

  /** The gain at the beginning of a chain: the error of the group that ends it, or
      the product, or the group nearest to the root whose product is not finite. */
  ghost predicate ChainGain<F(!new)>(ops: Gains<F>, groups: seq<MixerGroup<F>>, chain: seq<nat>, gain: Gain<F>)
    requires InGroups(groups, chain) && chain != []
  {
    var root := chain[|chain| - 1];
    if !ops.isFinite(groups[root].attenuation) || ops.isNegative(groups[root].attenuation) then
      gain == Err(InvalidAttenuation(root))
    else if groups[root].parent >= |groups| then
      gain == Err(InvalidParent(root, groups[root].parent))
    else if gain.Ok? then
      gain.value == Product(ops, groups, chain) && forall i :: 0 <= i < |chain| ==> FiniteFrom(ops, groups, chain, i)
    else
      exists i: nat :: FailsFirst(ops, groups, chain, i) && gain == Err(NonFiniteGain(chain[i]))
  }

  lemma {:induction false} ChainEnds<F(!new)>(ops: Gains<F>, groups: seq<MixerGroup<F>>, chain: seq<nat>)
    requires IsChain(ops, groups, chain)
    ensures EndsWithin(ops, groups, chain[0], |chain|)
    decreases |chain|
  {
    if |chain| > 1 {
      ChainEnds(ops, groups, chain[1..]);
    }
  }

  lemma FailsInTail<F(!new)>(ops: Gains<F>, groups: seq<MixerGroup<F>>, chain: seq<nat>, i: nat)
    requires InGroups(groups, chain) && |chain| > 1 && i < |chain| - 1
    ensures FiniteFrom(ops, groups, chain[1..], i) == FiniteFrom(ops, groups, chain, i + 1)
    ensures FailsFirst(ops, groups, chain[1..], i) == FailsFirst(ops, groups, chain, i + 1)
  {
    var rest := chain[1..];
    forall j: nat | j < |rest|
      ensures FiniteFrom(ops, groups, rest, j) == FiniteFrom(ops, groups, chain, j + 1)
    {
      assert rest[j..] == chain[j + 1..];
    }
    if FailsFirst(ops, groups, rest, i) {
      forall j: nat | i + 1 < j < |chain|
        ensures FiniteFrom(ops, groups, chain, j)
      {
        assert FiniteFrom(ops, groups, rest, j - 1);
      }
    }
  }

  /** A chain's first group applies its own attenuation to what is handed down. */
  lemma {:induction false} ChainGainStep<F(!new)>(ops: Gains<F>, groups: seq<MixerGroup<F>>, chain: seq<nat>, above: Gain<F>)
    requires InGroups(groups, chain) && |chain| > 1 && ChainGain(ops, groups, chain[1..], above)
    ensures ChainGain(ops, groups, chain, Attenuated(ops, groups, chain[0], above))
  {
    var rest := chain[1..];
    assert chain[0..] == chain && rest[0..] == rest && rest[|rest| - 1] == chain[|chain| - 1];
    forall i: nat | i < |rest|
      ensures FiniteFrom(ops, groups, rest, i) == FiniteFrom(ops, groups, chain, i + 1)
      ensures FailsFirst(ops, groups, rest, i) == FailsFirst(ops, groups, chain, i + 1)
    {
      FailsInTail(ops, groups, chain, i);
    }
    var gain := Attenuated(ops, groups, chain[0], above);
    if above.Err? && above.error.NonFiniteGain? {
      if i: nat :| i < |rest| && FailsFirst(ops, groups, rest, i) && above == Err(NonFiniteGain(rest[i])) {
        assert FailsFirst(ops, groups, chain, i + 1) && rest[i] == chain[i + 1];
      }
    } else if above.Ok? {
      forall j: nat | 0 < j < |chain|
        ensures FiniteFrom(ops, groups, chain, j)
      {
        assert FiniteFrom(ops, groups, rest, j - 1);
      }
      if gain.Err? {
        assert FailsFirst(ops, groups, chain, 0);
      }
    }
  }

  lemma {:induction false} ChainGainTop<F(!new)>(ops: Gains<F>, groups: seq<MixerGroup<F>>, root: nat)
    requires root < |groups| && Up(ops, groups, root).None?
    ensures ChainGain(ops, groups, [root], Attenuated(ops, groups, root, Top(ops, groups, root)))
  {
    var chain := [root];
    assert chain[0..] == chain && chain[1..] == [];
    assert Product(ops, groups, chain) == ops.product(groups[root].attenuation, ops.one);
    if !FiniteFrom(ops, groups, chain, 0) {
      assert FailsFirst(ops, groups, chain, 0);
    }
  }

  lemma {:induction false} GainOfChain<F(!new)>(ops: Gains<F>, groups: seq<MixerGroup<F>>, chain: seq<nat>, k: nat)
    requires IsChain(ops, groups, chain) && EndsWithin(ops, groups, chain[0], k)
    ensures ChainGain(ops, groups, chain, GainWithin(ops, groups, chain[0], k))
    decreases |chain|
  {
    if |chain| == 1 {
      ChainGainTop(ops, groups, chain[0]);
      assert chain == [chain[0]];
    } else {
      GainOfChain(ops, groups, chain[1..], k - 1);
      ChainGainStep(ops, groups, chain, GainWithin(ops, groups, chain[1], k - 1));
    }
  }

  /** The right gain of a group whose parents come to an end, in closed form. */
  lemma {:induction false} GainIsChainGain<F(!new)>(ops: Gains<F>, groups: seq<MixerGroup<F>>, chain: seq<nat>, gain: Gain<F>)
    requires IsChain(ops, groups, chain) && IsGain(ops, groups, chain[0], gain)
    ensures ChainGain(ops, groups, chain, gain)
  {
    ChainEnds(ops, groups, chain);
    GainOfChain(ops, groups, chain, |chain|);
  }

  lemma {:induction false} EndsInChain<F(!new)>(ops: Gains<F>, groups: seq<MixerGroup<F>>, g: nat, k: nat) returns (chain: seq<nat>)
    requires g < |groups| && EndsWithin(ops, groups, g, k)
    ensures IsChain(ops, groups, chain) && chain[0] == g
    decreases k
  {
    var up := Up(ops, groups, g);
    if up.None? {
      chain := [g];
    } else {
      var rest := EndsInChain(ops, groups, up.value, k - 1);
      chain := [g] + rest;
    }
  }

  /** A group has a chain, or its parents lead into a cycle, which it is named. */
  ghost predicate ChainOrCycle<F(!new)>(ops: Gains<F>, groups: seq<MixerGroup<F>>, g: nat, gain: Gain<F>)
    requires g < |groups|
  {
    || (exists chain :: IsChain(ops, groups, chain) && chain[0] == g && ChainGain(ops, groups, chain, gain))
    || (exists c: nat :: NamesCycle(ops, groups, g, c) && gain == Err(Cycle(c)))
  }

  lemma {:induction false} RightIsChainOrCycle<F(!new)>(ops: Gains<F>, groups: seq<MixerGroup<F>>, g: nat, gain: Gain<F>)
    requires g < |groups| && IsGain(ops, groups, g, gain)
    ensures ChainOrCycle(ops, groups, g, gain)
  {
    if Ends(ops, groups, g) {
      var k: nat :| EndsWithin(ops, groups, g, k);
      var chain := EndsInChain(ops, groups, g, k);
      GainIsChainGain(ops, groups, chain, gain);
    } else {
      assert NamesCycle(ops, groups, g, gain.error.group);
    }
  }

  // ---------- cycles ----------

  /** Each group of ring has the next one as its parent, the last one the first. */
  ghost predicate Ring<F(!new)>(ops: Gains<F>, groups: seq<MixerGroup<F>>, ring: seq<nat>) {
    && ring != []
    && (forall i :: 0 <= i < |ring| ==> ring[i] < |groups|)
    && (forall i :: 0 <= i < |ring| ==> Up(ops, groups, ring[i]) == Some(ring[After(ring, i)]))
  }

  function After(ring: seq<nat>, i: nat): (j: nat)
    requires i < |ring|
    ensures j < |ring|
  {
    if i + 1 == |ring| then 0 else i + 1
  }

  function Around(ring: seq<nat>, i: nat, k: nat): (j: nat)
    requires i < |ring|
    ensures j < |ring|
    decreases k
  {
    if k == 0 then i else Around(ring, After(ring, i), k - 1)
  }

  lemma {:induction false} AncestorOnRing<F(!new)>(ops: Gains<F>, groups: seq<MixerGroup<F>>, ring: seq<nat>, i: nat, k: nat)
    requires Ring(ops, groups, ring) && i < |ring|
    ensures Ancestor(ops, groups, ring[i], k) == Some(ring[Around(ring, i, k)])
    decreases k
  {
    if k > 0 {
      AncestorOnRing(ops, groups, ring, After(ring, i), k - 1);
    }
  }

  lemma {:induction false} AroundForward(ring: seq<nat>, i: nat, k: nat)
    requires i < |ring|
    ensures i + k < |ring| ==> Around(ring, i, k) == i + k
    ensures i + k == |ring| && k > 0 ==> Around(ring, i, k) == 0
    decreases k
  {
    if k > 0 && i + 1 < |ring| {
      AroundForward(ring, i + 1, k - 1);
    }
  }

  lemma {:induction false} AroundAdds(ring: seq<nat>, i: nat, k: nat, l: nat)
    requires i < |ring|
    ensures Around(ring, i, k + l) == Around(ring, Around(ring, i, k), l)
    decreases k
  {
    if k > 0 {
      AroundAdds(ring, After(ring, i), k - 1, l);
    }
  }

  lemma {:induction false} AroundReaches(ring: seq<nat>, i: nat, j: nat)
    requires i < |ring| && j < |ring|
    ensures Around(ring, i, |ring| - i + j) == j
  {
    AroundForward(ring, i, |ring| - i);
    AroundForward(ring, 0, j);
    AroundAdds(ring, i, |ring| - i, j);
  }

  lemma {:induction false} RingAbove<F(!new)>(ops: Gains<F>, groups: seq<MixerGroup<F>>, ring: seq<nat>, i: nat, j: nat)
    requires Ring(ops, groups, ring) && i < |ring| && j < |ring|
    ensures Above(ops, groups, ring[i], ring[j]) && OnCycle(ops, groups, ring[j])
  {
    AncestorOnRing(ops, groups, ring, i, |ring| - i + j);
    AroundReaches(ring, i, j);
    AncestorOnRing(ops, groups, ring, j, |ring| - j + j);
    AroundReaches(ring, j, j);
  }

  lemma {:induction false} RingNeverEnds<F(!new)>(ops: Gains<F>, groups: seq<MixerGroup<F>>, ring: seq<nat>, i: nat)
    requires Ring(ops, groups, ring) && i < |ring|
    ensures !Ends(ops, groups, ring[i])
    ensures forall d: nat :: Above(ops, groups, ring[i], d) ==> d in ring
  {
    forall k: nat
      ensures Ancestor(ops, groups, ring[i], k).Some? && Ancestor(ops, groups, ring[i], k).value in ring
    {
      AncestorOnRing(ops, groups, ring, i, k);
    }
  }

  /** A ring names its smallest member to every group on it. */
  lemma {:induction false} RingNamed<F(!new)>(ops: Gains<F>, groups: seq<MixerGroup<F>>, ring: seq<nat>, i: nat, c: nat)
    requires Ring(ops, groups, ring) && i < |ring|
    requires c in ring && forall d :: d in ring ==> c <= d
    ensures IsGain(ops, groups, ring[i], Err(Cycle(c)))
  {
    var j :| 0 <= j < |ring| && ring[j] == c;
    RingAbove(ops, groups, ring, i, j);
    RingNeverEnds(ops, groups, ring, i);
  }

  method Smallest(s: seq<nat>) returns (least: nat)
    requires s != []
    ensures least in s && forall d :: d in s ==> least <= d
  {
    least := s[0];
    for i := 1 to |s|
      invariant least in s && forall j :: 0 <= j < i ==> least <= s[j]
    {
      if s[i] < least {
        least := s[i];
      }
    }
  }

  // ---------- the compiler ----------

  /** The walk up the parents so far, from its first group to the current one. */
  ghost predicate Walking<F(!new)>(ops: Gains<F>, groups: seq<MixerGroup<F>>, path: seq<nat>, current: nat) {
    && current < |groups|
    && (forall j :: 0 <= j < |path| ==> path[j] < |groups|)
    && (forall j :: 0 <= j < |path| - 1 ==> Up(ops, groups, path[j]) == Some(path[j + 1]))
    && (path != [] ==> Up(ops, groups, path[|path| - 1]) == Some(current))
  }

  /** active says of each group whether and where it is on the path. */
  ghost predicate Located(path: seq<nat>, active: seq<Option<nat>>) {
    && (forall j :: 0 <= j < |path| ==> path[j] < |active| && active[path[j]] == Some(j))
    && (forall g :: 0 <= g < |active| && active[g].Some? ==> active[g].value < |path| && path[active[g].value] == g)
  }

  ghost predicate Correct<F(!new)>(ops: Gains<F>, groups: seq<MixerGroup<F>>, gains: seq<Option<Gain<F>>>) {
    && |gains| == |groups|
    && forall g :: 0 <= g < |groups| && gains[g].Some? ==> IsGain(ops, groups, g, gains[g].value)
  }

  /** entered lists, each once, the groups that have been put on a path. */
  ghost predicate EnteredOnce<F(!new)>(gains: seq<Option<Gain<F>>>, active: seq<Option<nat>>, entered: seq<nat>) {
    && |active| == |gains|
    && (forall i, j :: 0 <= i < j < |entered| ==> entered[i] != entered[j])
    && (forall g: nat :: g in entered <==> g < |gains| && (gains[g].Some? || active[g].Some?))
  }

  lemma {:induction false} RingOfPath<F(!new)>(ops: Gains<F>, groups: seq<MixerGroup<F>>, path: seq<nat>, current: nat, position: nat)
    requires Walking(ops, groups, path, current) && position < |path| && path[position] == current
    ensures Ring(ops, groups, path[position..])
  {
    var ring := path[position..];
    forall i | 0 <= i < |ring|
      ensures Up(ops, groups, ring[i]) == Some(ring[After(ring, i)])
    {
      assert ring[i] == path[position + i] && After(ring, i) < |ring|;
      if i + 1 < |ring| {
        assert Up(ops, groups, path[position + i]) == Some(path[position + i + 1]);
        assert ring[i + 1] == path[position + i + 1];
      } else {
        assert ring[0] == path[position];
      }
    }
  }

  /** The walk is over: its last group knows what its parent hands down. */
  ghost predicate Resolved<F(!new)>(ops: Gains<F>, groups: seq<MixerGroup<F>>, path: seq<nat>, result: Gain<F>) {
    path != [] ==>
      && Walking(ops, groups, path[..|path| - 1], path[|path| - 1])
      && IsGain(ops, groups, path[|path| - 1], Attenuated(ops, groups, path[|path| - 1], result))
  }

  lemma {:induction false} ResolvedBelow<F(!new)>(ops: Gains<F>, groups: seq<MixerGroup<F>>, path: seq<nat>, above: Gain<F>)
    requires path != [] ==> Walking(ops, groups, path[..|path| - 1], path[|path| - 1])
    requires path != [] ==> Up(ops, groups, path[|path| - 1]).Some? && IsGain(ops, groups, Up(ops, groups, path[|path| - 1]).value, above)
    ensures Resolved(ops, groups, path, above)
  {
    if path != [] {
      GainStep(ops, groups, path[|path| - 1], above);
    }
  }

  /** One step back down the path. */
  lemma {:induction false} ResolvedStep<F(!new)>(ops: Gains<F>, groups: seq<MixerGroup<F>>, path: seq<nat>, result: Gain<F>)
    requires path != [] && Resolved(ops, groups, path, result)
    ensures IsGain(ops, groups, path[|path| - 1], Attenuated(ops, groups, path[|path| - 1], result))
    ensures Resolved(ops, groups, path[..|path| - 1], Attenuated(ops, groups, path[|path| - 1], result))
  {
    var rest := path[..|path| - 1];
    if rest != [] {
      assert Up(ops, groups, rest[|rest| - 1]) == Some(path[|path| - 1]);
      assert Walking(ops, groups, rest[..|rest| - 1], rest[|rest| - 1]) by {
        forall j | 0 <= j < |rest| - 1
          ensures Up(ops, groups, rest[j]) == Some(rest[j + 1])
        {}
      }
    }
    ResolvedBelow(ops, groups, rest, Attenuated(ops, groups, path[|path| - 1], result));
  }

  /** Every group on the path is located, entered, and still unknown. */
  ghost predicate Kept<F(!new)>(known: seq<Option<Gain<F>>>, path: seq<nat>, active: seq<Option<nat>>, entered: seq<nat>) {
    && EnteredOnce(known, active, entered)
    && Located(path, active)
    && (forall j :: 0 <= j < |path| ==> known[path[j]].None?)
  }

  ghost function Free(active: seq<Option<nat>>): set<nat> {
    set g: nat | g < |active| && active[g].None?
  }

  lemma {:induction false} KeptPush<F(!new)>(known: seq<Option<Gain<F>>>, path: seq<nat>, active: seq<Option<nat>>, entered: seq<nat>, g: nat)
    requires Kept(known, path, active, entered) && g < |known| && known[g].None? && active[g].None?
    ensures Kept(known, path + [g], active[g := Some(|path|)], entered + [g])
    ensures Free(active[g := Some(|path|)]) < Free(active)
  {
    assert g in Free(active);
    assert g !in entered;
    var entered' := entered + [g];
    assert forall h: nat :: h in entered' <==> h in entered || h == g;
  }

  lemma {:induction false} KeptPop<F(!new)>(known: seq<Option<Gain<F>>>, path: seq<nat>, active: seq<Option<nat>>, entered: seq<nat>, gain: Gain<F>)
    requires Kept(known, path, active, entered) && path != []
    ensures var g := path[|path| - 1];
            && g < |known| && known[g].None?
            && Kept(known[g := Some(gain)], path[..|path| - 1], active[g := None], entered)
  {}

  lemma {:induction false} WalkingPush<F(!new)>(ops: Gains<F>, groups: seq<MixerGroup<F>>, path: seq<nat>, current: nat)
    requires Walking(ops, groups, path, current)
    ensures Up(ops, groups, current).Some? ==> Walking(ops, groups, path + [current], Up(ops, groups, current).value)
    ensures Up(ops, groups, current).None? ==> Resolved(ops, groups, path + [current], Top(ops, groups, current))
  {
    var path' := path + [current];
    assert path'[..|path'| - 1] == path;
    if Up(ops, groups, current).None? {
      GainAtTop(ops, groups, current);
    }
  }

  /** A group met again closes a cycle, and the cycle is named by its smallest group. */
  lemma {:induction false} CycleResolved<F(!new)>(ops: Gains<F>, groups: seq<MixerGroup<F>>, path: seq<nat>, current: nat, position: nat, least: nat)
    requires Walking(ops, groups, path, current) && position < |path| && path[position] == current
    requires least in path[position..] && forall d :: d in path[position..] ==> least <= d
    ensures Resolved(ops, groups, path, Err(Cycle(least)))
  {
    RingOfPath(ops, groups, path, current, position);
    RingNamed(ops, groups, path[position..], 0, least);
    WalkingLast(ops, groups, path, current);
    ResolvedBelow(ops, groups, path, Err(Cycle(least)));
  }

  lemma {:induction false} KnownResolved<F(!new)>(ops: Gains<F>, groups: seq<MixerGroup<F>>, path: seq<nat>, current: nat, gain: Gain<F>)
    requires Walking(ops, groups, path, current) && IsGain(ops, groups, current, gain)
    ensures Resolved(ops, groups, path, gain)
  {
    WalkingLast(ops, groups, path, current);
    ResolvedBelow(ops, groups, path, gain);
  }

  lemma WalkingLast<F(!new)>(ops: Gains<F>, groups: seq<MixerGroup<F>>, path: seq<nat>, current: nat)
    requires Walking(ops, groups, path, current)
    ensures path != [] ==> Walking(ops, groups, path[..|path| - 1], path[|path| - 1])
  {}

  /** The checks on one group that can end the walk there. */
  method EndHere<F(!new)>(ops: Gains<F>, groups: seq<MixerGroup<F>>, current: nat) returns (end: Option<Gain<F>>)
    requires current < |groups|
    ensures end.Some? <==> Up(ops, groups, current).None?
    ensures end.Some? ==> end.value == Top(ops, groups, current)
  {
    var node := groups[current];
    if !ops.isFinite(node.attenuation) || ops.isNegative(node.attenuation) {
      return Some(Err(InvalidAttenuation(current)));
    }
    if node.parent < 0 {
      return Some(Ok(ops.one));
    }
    if node.parent >= |groups| {
      return Some(Err(InvalidParent(current, node.parent)));
    }
    return None;
  }

  method CloseCycle<F(!new)>(ops: Gains<F>, groups: seq<MixerGroup<F>>, path: seq<nat>, current: nat, position: nat) returns (result: Gain<F>)
    requires Walking(ops, groups, path, current) && position < |path| && path[position] == current
    ensures Resolved(ops, groups, path, result)
  {
    var least := Smallest(path[position..]);
    CycleResolved(ops, groups, path, current, position, least);
    result := Err(Cycle(least));
  }

  /** The walk from first upwards, to a known gain, a cycle or an end. */
  method WalkUp<F(!new)>(ops: Gains<F>, groups: seq<MixerGroup<F>>, first: nat, known: seq<Option<Gain<F>>>, active0: seq<Option<nat>>, ghost entered0: seq<nat>)
    returns (path: seq<nat>, active: seq<Option<nat>>, result: Gain<F>, ghost entered: seq<nat>)
    requires first < |groups| && Correct(ops, groups, known) && known[first].None?
    requires Kept(known, [], active0, entered0)
    ensures Resolved(ops, groups, path, result)
    ensures Kept(known, path, active, entered)
    ensures first in path
  {
    active, entered := active0, entered0;
    path := [];
    var current: nat := first;
    while true
      invariant Kept(known, path, active, entered)
      invariant Walking(ops, groups, path, current)
      invariant if path == [] then current == first else path[0] == first
      decreases Free(active)
    {
      if known[current].Some? {
        result := known[current].value;
        KnownResolved(ops, groups, path, current, result);
        return;
      }
      if active[current].Some? {
        result := CloseCycle(ops, groups, path, current, active[current].value);
        return;
      }
      KeptPush(known, path, active, entered, current);
      WalkingPush(ops, groups, path, current);
      active := active[current := Some(|path|)];
      path := path + [current];
      entered := entered + [current];
      var end := EndHere(ops, groups, current);
      if end.Some? {
        result := end.value;
        return;
      }
      current := groups[current].parent;
    }
  }

  /** Nothing known is forgotten, and what has left the path is known. */
  ghost predicate Learned<F(!new)>(known0: seq<Option<Gain<F>>>, path0: seq<nat>, known: seq<Option<Gain<F>>>, path: seq<nat>) {
    && |known| == |known0|
    && forall g :: 0 <= g < |known| && (known0[g].Some? || g in path0) ==> known[g].Some? || g in path
  }

  lemma {:induction false} LearnedStep<F(!new)>(known0: seq<Option<Gain<F>>>, path0: seq<nat>, known: seq<Option<Gain<F>>>, path: seq<nat>, gain: Gain<F>)
    requires Learned(known0, path0, known, path) && path != [] && path[|path| - 1] < |known|
    ensures Learned(known0, path0, known[path[|path| - 1] := Some(gain)], path[..|path| - 1])
  {
    assert path == path[..|path| - 1] + [path[|path| - 1]];
  }

  /** The whole path learns its gains on the way back down. */
  method WalkBack<F(!new)>(ops: Gains<F>, groups: seq<MixerGroup<F>>, path0: seq<nat>, known0: seq<Option<Gain<F>>>, active0: seq<Option<nat>>, result0: Gain<F>, ghost entered: seq<nat>)
    returns (known: seq<Option<Gain<F>>>, active: seq<Option<nat>>)
    requires Correct(ops, groups, known0) && Kept(known0, path0, active0, entered) && Resolved(ops, groups, path0, result0)
    ensures Correct(ops, groups, known) && Kept(known, [], active, entered)
    ensures Learned(known0, path0, known, [])
  {
    var path, result := path0, result0;
    known, active := known0, active0;
    while path != []
      invariant Correct(ops, groups, known)
      invariant Kept(known, path, active, entered)
      invariant Resolved(ops, groups, path, result)
      invariant Learned(known0, path0, known, path)
      decreases |path|
    {
      var group := path[|path| - 1];
      ResolvedStep(ops, groups, path, result);
      result := Attenuated(ops, groups, group, result);
      KeptPop(known, path, active, entered, result);
      LearnedStep(known0, path0, known, path, result);
      path := path[..|path| - 1];
      active := active[group := None];
      known := known[group := Some(result)];
    }
  }

  /** Every group gets the one gain its chain of parents gives it, and is put on a
      path once over the whole run. */
  method CompileMixerGroups<F(!new)>(ops: Gains<F>, groups: seq<MixerGroup<F>>) returns (gains: seq<Gain<F>>, ghost entered: seq<nat>)
    ensures |gains| == |groups|
    ensures forall g :: 0 <= g < |groups| ==> IsGain(ops, groups, g, gains[g]) && ChainOrCycle(ops, groups, g, gains[g])
    ensures forall i, j :: 0 <= i < j < |entered| ==> entered[i] != entered[j]
    ensures forall g: nat :: g in entered <==> g < |groups|
  {
    var known: seq<Option<Gain<F>>> := seq(|groups|, _ => None);
    var active: seq<Option<nat>> := seq(|groups|, _ => None);
    entered := [];
    for first := 0 to |groups|
      invariant Correct(ops, groups, known)
      invariant Kept(known, [], active, entered)
      invariant forall g :: 0 <= g < first ==> known[g].Some?
    {
      if known[first].Some? {
        continue;
      }
      var path, result;
      path, active, result, entered := WalkUp(ops, groups, first, known, active, entered);
      known, active := WalkBack(ops, groups, path, known, active, result, entered);
    }
    gains := seq(|groups|, g requires 0 <= g < |groups| => known[g].value);
    forall g | 0 <= g < |groups|
      ensures IsGain(ops, groups, g, gains[g]) && ChainOrCycle(ops, groups, g, gains[g])
    {
      assert known[g].Some?;
      RightIsChainOrCycle(ops, groups, g, gains[g]);
    }
  }
}
