/** The order of crossings, the sorted enumeration of a set of them, and the heap
    that merges the progressions. */
module CrossingMerge {
  import opened Wrappers
  import opened ClipCrossings

  /** Earlier first; at one instant by node, then marker. Two crossings of one
      marker never share an instant, so the cycle only makes the order total. */
  predicate Before(a: Event, b: Event) {
    || a.offset < b.offset
    || (a.offset == b.offset
        && (|| a.node < b.node
            || (a.node == b.node
                && (|| a.marker < b.marker
                    || (a.marker == b.marker && a.cycle < b.cycle)))))
  }

  predicate Increasing(s: seq<Event>) {
    forall i, j :: 0 <= i < j < |s| ==> Before(s[i], s[j])
  }

  ghost predicate IsLeast(m: Event, E: set<Event>) {
    m in E && forall e :: e in E && e != m ==> Before(m, e)
  }

  lemma {:induction false} LeastExists(E: set<Event>) returns (m: Event)
    requires E != {}
    ensures IsLeast(m, E)
  {
    var e :| e in E;
    assert forall x :: x in E ==> x == e || x in E - {e};
    if E - {e} == {} {
      m := e;
    } else {
      var rest := LeastExists(E - {e});
      m := if Before(e, rest) then e else rest;
    }
  }

  ghost function Least(E: set<Event>): (m: Event)
    requires E != {}
    ensures IsLeast(m, E)
  {
    LeastExistsSome(E);
    var m :| IsLeast(m, E);
    m
  }

  lemma LeastExistsSome(E: set<Event>)
    requires E != {}
    ensures exists m :: IsLeast(m, E)
  {
    var m := LeastExists(E);
  }

  /** The crossings of a set in order. */
  ghost function Sorted(E: set<Event>): (s: seq<Event>)
    ensures |s| == |E|
  {
    if E == {} then [] else [Least(E)] + Sorted(E - {Least(E)})
  }

  lemma {:induction false} SortedMembers(E: set<Event>)
    ensures forall e :: e in Sorted(E) <==> e in E
    decreases |E|
  {
    if E != {} {
      SortedMembers(E - {Least(E)});
    }
  }

  lemma {:induction false} SortedIncreasing(E: set<Event>)
    ensures Increasing(Sorted(E))
    decreases |E|
  {
    if E != {} {
      SortedIncreasing(E - {Least(E)});
      SortedMembers(E - {Least(E)});
      var rest := Sorted(E - {Least(E)});
      forall j | 0 <= j < |rest|
        ensures Before(Least(E), rest[j])
      {
        assert rest[j] in rest;
      }
    }
  }

  /** An increasing run of crossings with everything else after it is the start
      of the sorted enumeration: the enumeration is unique. */
  lemma {:induction false} SortedPrefixUnique(s: seq<Event>, E: set<Event>)
    requires Increasing(s)
    requires forall i :: 0 <= i < |s| ==> s[i] in E
    requires forall e, i :: e in E && e !in s && 0 <= i < |s| ==> Before(s[i], e)
    ensures |s| <= |E| && s == Sorted(E)[..|s|]
    decreases |s|
  {
    if s != [] {
      assert s[0] in E;
      var m := Least(E);
      assert s[0] == m by {
        assert m == s[0] || Before(s[0], m) by {
          if m in s {
            var i :| 0 <= i < |s| && s[i] == m;
            assert i == 0 || Before(s[0], s[i]);
          }
        }
      }
      var rest := s[1..];
      forall i | 0 <= i < |rest| ensures rest[i] in E - {m} {
        assert Before(s[0], s[i + 1]);
      }
      forall e, i | e in E - {m} && e !in rest && 0 <= i < |rest| ensures Before(rest[i], e) {
        assert e !in s by {
          assert forall j :: 0 <= j < |s| ==> j == 0 || s[j] == rest[j - 1];
        }
        assert Before(s[i + 1], e);
      }
      SortedPrefixUnique(rest, E - {m});
      assert s == [m] + rest;
      assert Sorted(E) == [m] + Sorted(E - {m});
    }
  }

  /** Whether a stands above b in the heap: the heap pops the earliest crossing. */
  predicate Above(a: Crossing, b: Crossing) {
    || a.offset < b.offset
    || (a.offset == b.offset && (a.node < b.node || (a.node == b.node && a.marker < b.marker)))
  }

  /** The standard library's binary heap, kept as an unordered list: what it
      promises is that Pop takes out an element nothing else stands above. */
  class CrossingHeap {
    var items: seq<Crossing>

    constructor ()
      ensures items == []
    {
      items := [];
    }

    method Push(c: Crossing)
      modifies this
      ensures items == old(items) + [c]
    {
      items := items + [c];
    }

    method Pop() returns (c: Option<Crossing>, ghost at: nat)
      modifies this
      ensures old(items) == [] ==> c == None && items == []
      ensures old(items) != [] ==>
                && at < |old(items)|
                && c == Some(old(items)[at])
                && items == Without(old(items), at)
                && (forall j :: 0 <= j < |old(items)| ==> !Above(old(items)[j], old(items)[at]))
    {
      if items == [] {
        return None, 0;
      }
      var best := 0;
      for i := 1 to |items|
        invariant 0 <= best < i
        invariant forall j :: 0 <= j < i ==> !Above(items[j], items[best])
      {
        if Above(items[i], items[best]) {
          best := i;
        }
      }
      c, at := Some(items[best]), best;
      items := Without(items, best);
    }
  }

  function Without<T>(s: seq<T>, at: nat): seq<T>
    requires at < |s|
  {
    s[..at] + s[at + 1..]
  }

  /** All crossings still stored in the heap. */
  ghost function Stored(items: seq<Crossing>): set<Event> {
    set i, k | 0 <= i < |items| && 0 <= k < items[i].remaining :: At(items[i], k)
  }

  function SumRemaining(items: seq<Crossing>): nat {
    if items == [] then 0 else items[0].remaining + SumRemaining(items[1..])
  }

  ghost predicate SoundRun(c: Crossing) {
    c.remaining > 0 && c.spacing > 0.0
  }

  /** One live progression per marker, each moving forward in time. */
  ghost predicate SoundRuns(items: seq<Crossing>) {
    && (forall i :: 0 <= i < |items| ==> SoundRun(items[i]))
    && (forall i, j :: 0 <= i < j < |items| ==> (items[i].node, items[i].marker) != (items[j].node, items[j].marker))
  }

  /** The merge so far: what was emitted, in order, before everything stored. */
  ghost predicate Merging(items: seq<Crossing>, emitted: seq<Event>, E: set<Event>) {
    && SoundRuns(items)
    && Increasing(emitted)
    && (forall e :: e in E <==> e in emitted || e in Stored(items))
    && (forall i, e :: 0 <= i < |emitted| && e in Stored(items) ==> Before(emitted[i], e))
  }

  function Next(c: Crossing): Crossing
    requires c.remaining > 1
  {
    c.(cycle := c.cycle + c.step, offset := c.offset + c.spacing, remaining := c.remaining - 1)
  }

  function PutBack(items: seq<Crossing>, c: Crossing): seq<Crossing>
    requires c.remaining > 0
  {
    if c.remaining > 1 then items + [Next(c)] else items
  }

  /** Takes out the earliest crossing and puts its progression back at the next cycle. */
  method PopAndAdvance(heap: CrossingHeap) returns (c: Option<Crossing>, ghost at: nat)
    requires forall i :: 0 <= i < |heap.items| ==> heap.items[i].remaining > 0
    modifies heap
    ensures old(heap.items) == [] ==> c == None && heap.items == []
    ensures old(heap.items) != [] ==>
              && at < |old(heap.items)|
              && c == Some(old(heap.items)[at])
              && heap.items == PutBack(Without(old(heap.items), at), old(heap.items)[at])
              && (forall j :: 0 <= j < |old(heap.items)| ==> !Above(old(heap.items)[j], old(heap.items)[at]))
  {
    c, at := heap.Pop();
    if c.Some? && c.value.remaining - 1 != 0 {
      heap.Push(c.value.(cycle := c.value.cycle + c.value.step, offset := c.value.offset + c.value.spacing, remaining := c.value.remaining - 1));
    }
  }

  lemma {:induction false} LaterOnRun(c: Crossing, k: nat)
    requires c.spacing > 0.0
    ensures At(c, k).offset >= c.offset
    ensures k > 0 ==> At(c, k).offset > c.offset
    ensures c.remaining > 1 ==> At(Next(c), k) == At(c, k + 1)
  {
    if k > 0 {
      assert k as real * c.spacing > 0.0;
    }
    if c.remaining > 1 {
      assert (k + 1) as real * c.spacing == k as real * c.spacing + c.spacing;
    }
  }

  /** Popping splits off the earliest stored crossing and keeps all others. */
  lemma {:induction false} PopTakesEarliest(items: seq<Crossing>, at: nat)
    requires SoundRuns(items) && at < |items|
    requires forall j :: 0 <= j < |items| ==> !Above(items[j], items[at])
    ensures var rest := PutBack(Without(items, at), items[at]);
            && SoundRuns(rest)
            && (forall e :: e in Stored(items) <==> e == At(items[at], 0) || e in Stored(rest))
            && (forall e :: e in Stored(rest) ==> Before(At(items[at], 0), e))
  {
    var c := items[at];
    var rest := PutBack(Without(items, at), c);
    forall e | e in Stored(rest)
      ensures e in Stored(items) && Before(At(c, 0), e)
    {
      var i, k :| 0 <= i < |rest| && 0 <= k < rest[i].remaining && e == At(rest[i], k);
      if i < |items| - 1 {
        var j := if i < at then i else i + 1;
        assert rest[i] == items[j];
        LaterOnRun(items[j], k);
        assert At(items[j], k) in Stored(items);
      } else {
        LaterOnRun(c, k);
        LaterOnRun(c, k + 1);
        assert At(items[at], k + 1) in Stored(items);
      }
    }
    forall e | e in Stored(items)
      ensures e == At(c, 0) || e in Stored(rest)
    {
      var j, k :| 0 <= j < |items| && 0 <= k < items[j].remaining && e == At(items[j], k);
      if j != at {
        var i := if j < at then j else j - 1;
        assert rest[i] == items[j];
        assert At(rest[i], k) in Stored(rest);
      } else if k > 0 {
        LaterOnRun(c, k - 1);
        assert rest[|items| - 1] == Next(c);
        assert At(rest[|items| - 1], k - 1) in Stored(rest);
      }
    }
    assert At(items[at], 0) in Stored(items);
  }

  lemma {:induction false} MergeStep(items: seq<Crossing>, emitted: seq<Event>, E: set<Event>, at: nat)
    requires Merging(items, emitted, E) && at < |items|
    requires forall j :: 0 <= j < |items| ==> !Above(items[j], items[at])
    ensures Merging(PutBack(Without(items, at), items[at]), emitted + [At(items[at], 0)], E)
    ensures At(items[at], 0) in E
  {
    PopTakesEarliest(items, at);
    assert At(items[at], 0) in Stored(items);
    var emitted' := emitted + [At(items[at], 0)];
    forall i, j | 0 <= i < j < |emitted'| ensures Before(emitted'[i], emitted'[j]) {
      if j < |emitted| {
        assert Before(emitted[i], emitted[j]);
      }
    }
  }

  lemma {:induction false} AtMostLength(s: seq<Event>, E: set<Event>)
    requires forall e :: e in E ==> e in s
    ensures |E| <= |s|
  {
    if s != [] {
      forall e | e in E - {s[0]} ensures e in s[1..] {
        assert forall j :: 0 <= j < |s| ==> j == 0 || s[j] == s[1..][j - 1];
      }
      AtMostLength(s[1..], E - {s[0]});
      assert E <= E - {s[0]} + {s[0]};
    } else {
      assert E == {};
    }
  }

  /** What was emitted is the start of the sorted enumeration of all crossings. */
  lemma {:induction false} MergedPrefix(items: seq<Crossing>, emitted: seq<Event>, E: set<Event>)
    requires Merging(items, emitted, E)
    ensures |emitted| <= |E| && emitted == Sorted(E)[..|emitted|]
    ensures items == [] ==> |emitted| == |E|
  {
    SortedPrefixUnique(emitted, E);
    if items == [] {
      AtMostLength(emitted, E);
    }
  }

  lemma {:induction false} RunAdvances(c: Crossing, j: nat, k: nat)
    requires c.spacing > 0.0 && j < k
    ensures At(c, j).offset < At(c, k).offset
  {
    assert (k - j) as real * c.spacing > 0.0;
    assert k as real == j as real + (k - j) as real;
    assert k as real * c.spacing == j as real * c.spacing + (k - j) as real * c.spacing;
  }

  lemma {:induction false} RunSize(c: Crossing, n: nat)
    requires c.spacing > 0.0
    ensures |set k | 0 <= k < n :: At(c, k)| == n
  {
    if n > 0 {
      RunSize(c, n - 1);
      var smaller := set k | 0 <= k < n - 1 :: At(c, k);
      assert (set k | 0 <= k < n :: At(c, k)) == smaller + {At(c, n - 1)};
      forall k | 0 <= k < n - 1 ensures At(c, k) != At(c, n - 1) {
        RunAdvances(c, k, n - 1);
      }
    }
  }

  /** The running total counts every stored crossing once. */
  lemma {:induction false} StoredSize(items: seq<Crossing>)
    requires SoundRuns(items)
    ensures |Stored(items)| == SumRemaining(items)
  {
    if items != [] {
      StoredSize(items[1..]);
      RunSize(items[0], items[0].remaining);
      var head := set k | 0 <= k < items[0].remaining :: At(items[0], k);
      var tail := Stored(items[1..]);
      assert Stored(items) == head + tail by {
        forall e | e in Stored(items) ensures e in head + tail {
          var i, k :| 0 <= i < |items| && 0 <= k < items[i].remaining && e == At(items[i], k);
          if i > 0 {
            assert items[1..][i - 1] == items[i];
          }
        }
        forall e | e in tail ensures e in Stored(items) {
          var i, k :| 0 <= i < |items[1..]| && 0 <= k < items[1..][i].remaining && e == At(items[1..][i], k);
          assert e == At(items[i + 1], k);
        }
      }
      assert head !! tail;
    }
  }

  lemma {:induction false} SumRemainingAppend(items: seq<Crossing>, more: seq<Crossing>)
    ensures SumRemaining(items + more) == SumRemaining(items) + SumRemaining(more)
  {
    if items == [] {
      assert items + more == more;
    } else {
      SumRemainingAppend(items[1..], more);
      assert (items + more)[1..] == items[1..] + more;
    }
  }

  lemma StoredAppend(items: seq<Crossing>, more: seq<Crossing>)
    ensures Stored(items + more) == Stored(items) + Stored(more)
  {
    forall e | e in Stored(items) + Stored(more) ensures e in Stored(items + more) {
      if e in Stored(items) {
        var i, k :| 0 <= i < |items| && 0 <= k < items[i].remaining && e == At(items[i], k);
        assert (items + more)[i] == items[i];
      } else {
        var i, k :| 0 <= i < |more| && 0 <= k < more[i].remaining && e == At(more[i], k);
        assert (items + more)[|items| + i] == more[i];
      }
    }
  }
}
