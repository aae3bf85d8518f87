/** Which effects can leave marks: the closure over child effects in
    crates/asset_game/src/fx_catalog.rs. */
module FxMarks {
  import opened Wrappers
  import opened AssetEdges

  /** A slot for a child effect, and the name it was authored with. */
  datatype Child = Child(edge: Edge, hint: Option<string>)

  datatype Visual = Runner(child: Child) | OtherVisual

  datatype Elem = Elem(elemType: nat, onImpact: Child, onDeath: Child, emitted: Child, visuals: seq<Visual>)

  datatype Effect = Effect(namespace: Namespace, name: string, elems: seq<Elem>)

  const DECAL: nat := 11

  function RunnerEdges(visuals: seq<Visual>): seq<Edge> {
    if visuals == [] then []
    else (if visuals[0].Runner? then [visuals[0].child.edge] else []) + RunnerEdges(visuals[1..])
  }

  function ElemEdges(elem: Elem): seq<Edge> {
    [elem.onImpact.edge, elem.onDeath.edge, elem.emitted.edge] + RunnerEdges(elem.visuals)
  }

  function EdgesOf(elems: seq<Elem>): seq<Edge> {
    if elems == [] then [] else ElemEdges(elems[0]) + EdgesOf(elems[1..])
  }

  predicate HasDecal(elems: seq<Elem>) {
    exists k | 0 <= k < |elems| :: elems[k].elemType == DECAL
  }

  /** What an element sets off: on impact, on its death, as it is emitted, or as one of
      its visuals. */
  predicate SetsOff(elem: Elem, edge: Edge) {
    || edge == elem.onImpact.edge || edge == elem.onDeath.edge || edge == elem.emitted.edge
    || exists v | 0 <= v < |elem.visuals| :: elem.visuals[v].Runner? && elem.visuals[v].child.edge == edge
  }

  ghost predicate HasEdge(elems: seq<Elem>, edge: Edge) {
    exists k | 0 <= k < |elems| :: SetsOff(elems[k], edge)
  }

  lemma {:induction false} RunnerEdgesExact(visuals: seq<Visual>, edge: Edge)
    ensures edge in RunnerEdges(visuals) <==> exists v | 0 <= v < |visuals| :: visuals[v].Runner? && visuals[v].child.edge == edge
    decreases |visuals|
  {
    if visuals != [] {
      RunnerEdgesExact(visuals[1..], edge);
      if edge in RunnerEdges(visuals[1..]) {
        var v :| 0 <= v < |visuals[1..]| && visuals[1..][v].Runner? && visuals[1..][v].child.edge == edge;
        assert visuals[v + 1] == visuals[1..][v];
      }
      if v :| 1 <= v < |visuals| && visuals[v].Runner? && visuals[v].child.edge == edge {
        assert visuals[v] == visuals[1..][v - 1];
      }
    }
  }

  /** The edges that are collected are those of the elements, and no others. */
  lemma {:induction false} EdgesExact(elems: seq<Elem>, edge: Edge)
    ensures edge in EdgesOf(elems) <==> HasEdge(elems, edge)
    decreases |elems|
  {
    if elems != [] {
      RunnerEdgesExact(elems[0].visuals, edge);
      EdgesExact(elems[1..], edge);
      if HasEdge(elems[1..], edge) {
        var k :| 0 <= k < |elems[1..]| && SetsOff(elems[1..][k], edge);
        assert elems[k + 1] == elems[1..][k];
      }
      if k :| 1 <= k < |elems| && SetsOff(elems[k], edge) {
        assert elems[k] == elems[1..][k - 1];
      }
    }
  }

  /** An effect that may leave a mark whatever its bound children do. */
  ghost predicate Seed(effect: Effect) {
    HasDecal(effect.elems) || exists edge :: HasEdge(effect.elems, edge) && edge.Unresolved?
  }

  ghost predicate BoundTo(effect: Effect, j: nat) {
    exists edge :: HasEdge(effect.elems, edge) && edge.Bound? && edge.index == j
  }

  /** Whether the flag of an effect is set to begin with. */
  predicate Starts(effect: Effect) {
    HasDecal(effect.elems) || exists k | 0 <= k < |EdgesOf(effect.elems)| :: EdgesOf(effect.elems)[k].Unresolved?
  }

  lemma StartsIsSeed(effect: Effect)
    ensures Starts(effect) <==> Seed(effect)
  {
    var edges := EdgesOf(effect.elems);
    forall edge
      ensures edge in edges <==> HasEdge(effect.elems, edge)
    {
      EdgesExact(effect.elems, edge);
    }
    forall k | 0 <= k < |edges|
      ensures HasEdge(effect.elems, edges[k])
    {
      assert edges[k] in edges;
    }
  }

  /** Each effect of the path has a child edge bound to the next. */
  ghost predicate IsPath(defs: seq<Effect>, path: seq<nat>) {
    && path != []
    && (|path| == 1 || (path[0] < |defs| && BoundTo(defs[path[0]], path[1]) && IsPath(defs, path[1..])))
  }

  /** Out of range, or able to mark by itself. */
  ghost predicate EndsInMark(defs: seq<Effect>, path: seq<nat>)
    requires path != []
  {
    var j := path[|path| - 1];
    j >= |defs| || Seed(defs[j])
  }

  ghost predicate MarkPath(defs: seq<Effect>, i: nat, path: seq<nat>) {
    IsPath(defs, path) && path[0] == i && EndsInMark(defs, path)
  }

  ghost predicate EmitsMarks(defs: seq<Effect>, i: nat) {
    exists path :: MarkPath(defs, i, path)
  }

  ghost function MarkFlags(defs: seq<Effect>): (flags: seq<bool>)
    ensures |flags| == |defs|
    ensures forall i :: 0 <= i < |defs| ==> (flags[i] <==> EmitsMarks(defs, i))
  {
    seq(|defs|, i requires 0 <= i => EmitsMarks(defs, i))
  }

  lemma ItselfMarks(defs: seq<Effect>, i: nat)
    requires i >= |defs| || Seed(defs[i])
    ensures EmitsMarks(defs, i)
  {
    assert MarkPath(defs, i, [i]);
  }

  lemma ThroughChild(defs: seq<Effect>, i: nat, j: nat)
    requires i < |defs| && BoundTo(defs[i], j) && EmitsMarks(defs, j)
    ensures EmitsMarks(defs, i)
  {
    var path :| MarkPath(defs, j, path);
    var longer := [i] + path;
    assert longer[1..] == path;
    assert MarkPath(defs, i, longer);
  }

  /** One look at an effect: some bound child is flagged already, or out of range. */
  predicate Fires(edges: seq<Edge>, flags: seq<bool>) {
    exists k | 0 <= k < |edges| :: FiresAt(edges[k], flags)
  }

  predicate FiresAt(edge: Edge, flags: seq<bool>) {
    edge.Bound? && (edge.index < |flags| ==> flags[edge.index])
  }

  lemma FiringChild(effect: Effect, flags: seq<bool>) returns (j: nat)
    requires Fires(EdgesOf(effect.elems), flags)
    ensures BoundTo(effect, j) && (j < |flags| ==> flags[j])
  {
    var edges := EdgesOf(effect.elems);
    var k :| 0 <= k < |edges| && FiresAt(edges[k], flags);
    j := edges[k].index;
    EdgesExact(effect.elems, edges[k]);
  }

  lemma BoundChildFires(effect: Effect, flags: seq<bool>, j: nat)
    requires BoundTo(effect, j) && (j < |flags| ==> flags[j])
    ensures Fires(EdgesOf(effect.elems), flags)
  {
    var edges := EdgesOf(effect.elems);
    var edge :| HasEdge(effect.elems, edge) && edge.Bound? && edge.index == j;
    EdgesExact(effect.elems, edge);
    var k :| 0 <= k < |edges| && edges[k] == edge;
    assert FiresAt(edges[k], flags);
  }

  /** What every moment of the loop keeps: all seeds are flagged, and nothing is
      flagged without a path that explains it. */
  ghost predicate Explained(defs: seq<Effect>, flags: seq<bool>) {
    && |flags| == |defs|
    && (forall i | 0 <= i < |defs| :: Seed(defs[i]) ==> flags[i])
    && (forall i | 0 <= i < |defs| :: flags[i] ==> EmitsMarks(defs, i))
  }

  ghost predicate Quiet(defs: seq<Effect>, flags: seq<bool>, i: nat)
    requires |flags| == |defs| && i < |defs|
  {
    Fires(EdgesOf(defs[i].elems), flags) ==> flags[i]
  }

  lemma FiringIsExplained(defs: seq<Effect>, flags: seq<bool>, i: nat)
    requires Explained(defs, flags) && i < |defs| && Fires(EdgesOf(defs[i].elems), flags)
    ensures Explained(defs, flags[i := true])
  {
    var j := FiringChild(defs[i], flags);
    if j >= |defs| {
      ItselfMarks(defs, j);
    }
    ThroughChild(defs, i, j);
  }

  /** Flags that hold of every seed and pass from child to parent hold all along
      a path that ends in a mark. */
  lemma {:induction false} PathIsFlagged(defs: seq<Effect>, flags: seq<bool>, i: nat, path: seq<nat>)
    requires |flags| == |defs| && i < |defs| && MarkPath(defs, i, path)
    requires forall j | 0 <= j < |defs| :: Seed(defs[j]) ==> flags[j]
    requires forall j | 0 <= j < |defs| :: Quiet(defs, flags, j)
    ensures flags[i]
    decreases |path|
  {
    if |path| > 1 {
      var j := path[1];
      if j < |defs| {
        PathIsFlagged(defs, flags, j, path[1..]);
      }
      BoundChildFires(defs[i], flags, j);
      assert Quiet(defs, flags, i);
    }
  }

  /** The marks are the least flags that hold of every seed and pass from child
      to parent. */
  lemma LeastFlags(defs: seq<Effect>, flags: seq<bool>)
    requires |flags| == |defs|
    requires forall i | 0 <= i < |defs| :: Seed(defs[i]) ==> flags[i]
    requires forall i | 0 <= i < |defs| :: Quiet(defs, flags, i)
    ensures forall i | 0 <= i < |defs| :: EmitsMarks(defs, i) ==> flags[i]
  {
    forall i | 0 <= i < |defs| && EmitsMarks(defs, i)
      ensures flags[i]
    {
      var path :| MarkPath(defs, i, path);
      PathIsFlagged(defs, flags, i, path);
    }
  }

  lemma QuietIsExact(defs: seq<Effect>, flags: seq<bool>)
    requires Explained(defs, flags)
    requires forall i | 0 <= i < |defs| :: Quiet(defs, flags, i)
    ensures flags == MarkFlags(defs)
  {
    LeastFlags(defs, flags);
  }

  function Unset(flags: seq<bool>): nat {
    if flags == [] then 0 else (if flags[0] then 0 else 1) + Unset(flags[1..])
  }

  lemma {:induction false} SettingOne(flags: seq<bool>, i: nat)
    requires i < |flags| && !flags[i]
    ensures Unset(flags[i := true]) == Unset(flags) - 1
  {
    if i > 0 {
      SettingOne(flags[1..], i - 1);
      assert flags[i := true][1..] == flags[1..][i - 1 := true];
    } else {
      assert flags[i := true][1..] == flags[1..];
    }
  }

  /** One pass over the effects, flags set in place as it goes. */
  method MarkPass(defs: seq<Effect>, flags: array<bool>) returns (changed: bool)
    requires Explained(defs, flags[..])
    modifies flags
    ensures Explained(defs, flags[..])
    ensures changed ==> Unset(flags[..]) < Unset(old(flags[..]))
    ensures !changed ==> flags[..] == old(flags[..])
    ensures !changed ==> forall i | 0 <= i < |defs| :: Quiet(defs, flags[..], i)
  {
    changed := false;
    for index := 0 to |defs|
      invariant Explained(defs, flags[..])
      invariant changed ==> Unset(flags[..]) < Unset(old(flags[..]))
      invariant !changed ==> flags[..] == old(flags[..])
      invariant !changed ==> forall i | 0 <= i < index :: Quiet(defs, flags[..], i)
    {
      if !flags[index] && Fires(EdgesOf(defs[index].elems), flags[..]) {
        FiringIsExplained(defs, flags[..], index);
        SettingOne(flags[..], index);
        ghost var before := flags[..];
        flags[index] := true;
        assert flags[..] == before[index := true];
        changed := true;
      }
    }
  }

  /** The mark loop: passes until one changes nothing. It ends with exactly the
      effects that have a path to a mark. */
  method ComputeMarkFlags(defs: seq<Effect>) returns (result: seq<bool>)
    ensures result == MarkFlags(defs)
  {
    var flags := new bool[|defs|](i requires 0 <= i < |defs| => Starts(defs[i]));
    forall i | 0 <= i < |defs|
      ensures Starts(defs[i]) <==> Seed(defs[i])
      ensures Seed(defs[i]) ==> EmitsMarks(defs, i)
    {
      StartsIsSeed(defs[i]);
      if Seed(defs[i]) {
        ItselfMarks(defs, i);
      }
    }
    var changed := true;
    while changed
      invariant Explained(defs, flags[..])
      invariant !changed ==> forall i | 0 <= i < |defs| :: Quiet(defs, flags[..], i)
      decreases Unset(flags[..]), changed
    {
      changed := MarkPass(defs, flags);
    }
    QuietIsExact(defs, flags[..]);
    result := flags[..];
  }
}
