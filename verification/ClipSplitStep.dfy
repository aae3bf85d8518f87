/** The whole step against its two parts: same crossings, same order, same report. */
module ClipSplitStep {
  import opened ClipModel
  import opened ClipCrossings
  import opened CrossingMerge
  import opened ClipNotifications
  import opened ClipSplit

  /** Every node is inside its clip and stays switched on or off. */
  predicate Splittable(nodes: seq<NodeState>) {
    forall i :: 0 <= i < |nodes| ==> InRange(nodes[i]) && Steady(nodes[i])
  }

  function Delayed(e: Event, dt: real): Event {
    e.(offset := e.offset + dt)
  }

  ghost function DelayedAll(E: set<Event>, dt: real): set<Event> {
    set e | e in E :: Delayed(e, dt)
  }

  lemma BlendKeepsCrossing(s: NodeState, d1: real, d2: real, m: nat, n: int)
    ensures Crosses(Blended(s, d1), d2, m, n) <==> Crosses(s, d2, m, n)
    ensures Crosses(s, d2, m, n) && s.rate != 0.0 ==> Blended(s, d1).rate == s.rate && CrossOffset(Blended(s, d1), m, n) == CrossOffset(s, m, n)
  {
    BlendedKeeps(s, d1);
    var b := Blended(s, d1);
    if Playable(s) {
      assert Target(b, d2) == Target(s, d2) && Phase(b) == Phase(s);
    }
  }

  lemma BlendInRange(s: NodeState, dt: real)
    requires InRange(s)
    ensures InRange(Blended(s, dt))
  {
    BlendedKeeps(s, dt);
    InRangeFrom(s, Blended(s, dt));
  }

  lemma {:induction false} StaysSplittable(nodes: seq<NodeState>, dt: real)
    requires Splittable(nodes) && dt >= 0.0
    ensures AllSettled(nodes)
    ensures forall i :: 0 <= i < |nodes| ==> InRange(AdvancedAll(nodes, dt)[i])
    ensures AllSettled(AdvancedAll(nodes, dt))
  {
    forall i | 0 <= i < |nodes|
      ensures InRange(AdvancedAll(nodes, dt)[i])
    {
      var s := nodes[i];
      PlayedInRange(s, dt);
      BlendInRange(s, dt);
      BlendInRange(Played(s, dt), dt);
    }
  }

  /** One node's crossings: the whole step has those of the first part, and those
      of the second part d1 later. */
  lemma {:induction false} NodeCrossingsSplit(s: NodeState, d1: real, d2: real, m: nat, n: int)
    requires InRange(s) && s.weight > 0.0 && d1 >= 0.0 && d2 >= 0.0
    ensures Crosses(s, d1 + d2, m, n) <==> Crosses(s, d1, m, n) || Crosses(Advanced(s, d1), d2, m, n)
    ensures Crosses(s, d1, m, n) ==> s.rate != 0.0 && CrossOffset(s, m, n) <= d1
    ensures Crosses(Advanced(s, d1), d2, m, n) ==>
              && s.rate != 0.0 && Advanced(s, d1).rate == s.rate && Playable(s)
              && m < |s.clip.value.notifies| && CanFire(s.clip.value.notifies[m])
              && CrossOffset(s, m, n) == CrossOffset(Advanced(s, d1), m, n) + d1
              && (d1 > 0.0 ==> CrossOffset(Advanced(s, d1), m, n) > 0.0)
  {
    CrossesSplit(s, d1, d2, m, n);
    PlayedInRange(s, d1);
    PlayedKeeps(s, d1);
    BlendKeepsCrossing(Played(s, d1), d1, d2, m, n);
    if Crosses(s, d1, m, n) {
      CrossingHasRate(s, d1, m, n);
      OffsetInsideStep(s, d1, m, n);
    }
    if Crosses(Played(s, d1), d2, m, n) {
      CrossingHasRate(Played(s, d1), d2, m, n);
      OffsetShift(s, d1, d2, m, n);
      if d1 > 0.0 {
        SecondPartIsLater(s, d1, d2, m, n);
      }
    }
  }

  /** Without time nothing is crossed. */
  lemma {:induction false} NoTimeNoCrossings(nodes: seq<NodeState>)
    requires Splittable(nodes)
    ensures AllSettled(nodes) && Crossings(nodes, 0.0) == {}
  {
    CrossingsExact(nodes, 0.0);
    forall e
      ensures e !in Crossings(nodes, 0.0)
    {
      if e.node < |nodes| {
        var s := nodes[e.node];
        if Playable(s) {
          TargetBetween(s, 0.0);
          NoTravel(s.rate, Duration(s));
        }
      }
    }
  }

  lemma NoTravel(rate: real, duration: real)
    requires duration > 0.0
    ensures Travel(0.0, rate, duration) == 0.0
  {}

  lemma {:induction false} CrossingsSplit(nodes: seq<NodeState>, d1: real, d2: real)
    requires Splittable(nodes) && d1 >= 0.0 && d2 >= 0.0
    ensures AllSettled(nodes) && AllSettled(AdvancedAll(nodes, d1))
    ensures var E1 := Crossings(nodes, d1);
            var E2 := DelayedAll(Crossings(AdvancedAll(nodes, d1), d2), d1);
            && Crossings(nodes, d1 + d2) == E1 + E2
            && forall a, b :: a in E1 && b in E2 ==> Before(a, b)
  {
    StaysSplittable(nodes, d1);
    var after := AdvancedAll(nodes, d1);
    var E1, E2 := Crossings(nodes, d1), Crossings(after, d2);
    CrossingsExact(nodes, d1);
    CrossingsExact(after, d2);
    CrossingsExact(nodes, d1 + d2);
    forall e
      ensures e in Crossings(nodes, d1 + d2) <==> e in E1 || Delayed(e, -d1) in E2
      ensures e in E1 ==> e.offset <= d1
      ensures Delayed(e, -d1) in E2 && d1 > 0.0 ==> e.offset > d1
    {
      if e.node < |nodes| {
        SteadyStays(nodes[e.node], d1);
        if nodes[e.node].weight > 0.0 {
          NodeCrossingsSplit(nodes[e.node], d1, d2, e.marker, e.cycle);
        }
      }
    }
    forall e
      ensures e in DelayedAll(E2, d1) <==> Delayed(e, -d1) in E2
    {
      assert Delayed(Delayed(e, -d1), d1) == e;
    }
    if d1 == 0.0 {
      NoTimeNoCrossings(nodes);
    }
  }

  lemma IncreasingConcat(a: seq<Event>, b: seq<Event>)
    requires Increasing(a) && Increasing(b)
    requires forall x, y :: x in a && y in b ==> Before(x, y)
    ensures Increasing(a + b)
  {
    var s := a + b;
    forall i, j | 0 <= i < j < |s| ensures Before(s[i], s[j]) {
      if i < |a| <= j {
        assert s[i] in a && s[j] in b;
      }
    }
  }

  lemma {:induction false} SortedConcat(E1: set<Event>, E2: set<Event>)
    requires forall a, b :: a in E1 && b in E2 ==> Before(a, b)
    ensures E1 !! E2
    ensures Sorted(E1 + E2) == Sorted(E1) + Sorted(E2)
  {
    assert E1 !! E2 by {
      assert forall e :: e in E1 && e in E2 ==> Before(e, e);
    }
    SortedIncreasing(E1);
    SortedIncreasing(E2);
    SortedMembers(E1);
    SortedMembers(E2);
    IncreasingConcat(Sorted(E1), Sorted(E2));
    SortedPrefixUnique(Sorted(E1) + Sorted(E2), E1 + E2);
  }

  lemma {:induction false} DelayedSize(E: set<Event>, dt: real)
    ensures |DelayedAll(E, dt)| == |E|
  {
    if E != {} {
      var e :| e in E;
      DelayedSize(E - {e}, dt);
      assert forall x :: x in E - {e} ==> Delayed(x, dt) != Delayed(e, dt);
      assert DelayedAll(E, dt) == DelayedAll(E - {e}, dt) + {Delayed(e, dt)};
    }
  }

  ghost function DelayedSeq(s: seq<Event>, dt: real): seq<Event> {
    seq(|s|, i requires 0 <= i < |s| => Delayed(s[i], dt))
  }

  lemma DelayedIncreasing(s: seq<Event>, dt: real)
    requires Increasing(s)
    ensures Increasing(DelayedSeq(s, dt))
  {
    forall i, j | 0 <= i < j < |s| ensures Before(Delayed(s[i], dt), Delayed(s[j], dt)) {
      assert Before(s[i], s[j]);
    }
  }

  lemma DelayedMembers(s: seq<Event>, E: set<Event>, dt: real)
    requires forall e :: e in s <==> e in E
    ensures forall e :: e in DelayedSeq(s, dt) <==> e in DelayedAll(E, dt)
  {
    forall e | e in DelayedAll(E, dt) ensures e in DelayedSeq(s, dt) {
      var x :| x in E && e == Delayed(x, dt);
      assert x in s;
      var i :| 0 <= i < |s| && s[i] == x;
      assert DelayedSeq(s, dt)[i] == e;
    }
    forall e | e in DelayedSeq(s, dt) ensures e in DelayedAll(E, dt) {
      var i :| 0 <= i < |s| && DelayedSeq(s, dt)[i] == e;
      assert s[i] in s;
    }
  }

  lemma {:induction false} SortedDelayed(E: set<Event>, dt: real)
    ensures Sorted(DelayedAll(E, dt)) == DelayedSeq(Sorted(E), dt)
  {
    var s := DelayedSeq(Sorted(E), dt);
    SortedIncreasing(E);
    SortedMembers(E);
    DelayedIncreasing(Sorted(E), dt);
    DelayedMembers(Sorted(E), E, dt);
    DelayedSize(E, dt);
    SortedPrefixUnique(s, DelayedAll(E, dt));
  }

  /** What all crossings would read as, were there no capacity. */
  ghost function Uncapped(scheduler: nat, nodes: seq<NodeState>, dt: real): (notes: seq<ClipNotification>)
    requires AllSettled(nodes) && dt >= 0.0
    ensures |notes| == |Crossings(nodes, dt)|
  {
    RunsHoldCrossings(nodes, dt);
    SortedNamed(nodes, Crossings(nodes, dt));
    Described(scheduler, nodes, Sorted(Crossings(nodes, dt)))
  }

  /** A report is as much of the reading as the capacity allows. */
  predicate IsCapped(report: seq<ClipNotification>, reading: seq<ClipNotification>) {
    report == reading[..MinNat(|reading|, NOTIFY_CAPACITY)]
  }

  lemma NotifiedIsPrefix(scheduler: nat, nodes: seq<NodeState>, dt: real)
    requires AllSettled(nodes) && dt >= 0.0
    ensures IsCapped(Notified(scheduler, nodes, dt), Uncapped(scheduler, nodes, dt))
  {
    RunsHoldCrossings(nodes, dt);
    SortedNamed(nodes, Crossings(nodes, dt));
  }

  lemma AdvancedSame(s: NodeState, dt: real)
    ensures Advanced(s, dt).clip == s.clip && Advanced(s, dt).playback == s.playback
  {}

  lemma {:induction false} DescribedAfter(scheduler: nat, nodes: seq<NodeState>, d1: real, s: seq<Event>)
    requires AllNamed(AdvancedAll(nodes, d1), s)
    ensures AllNamed(nodes, DelayedSeq(s, d1))
    ensures Described(scheduler, nodes, DelayedSeq(s, d1)) == Described(scheduler, AdvancedAll(nodes, d1), s)
  {
    forall i | 0 <= i < |s|
      ensures Named(nodes, DelayedSeq(s, d1)[i])
      ensures NotificationOf(scheduler, nodes, DelayedSeq(s, d1)[i]) == NotificationOf(scheduler, AdvancedAll(nodes, d1), s[i])
    {
      assert Named(AdvancedAll(nodes, d1), s[i]);
      AdvancedSame(nodes[s[i].node], d1);
    }
  }

  lemma DescribedConcat(scheduler: nat, nodes: seq<NodeState>, a: seq<Event>, b: seq<Event>)
    requires AllNamed(nodes, a) && AllNamed(nodes, b)
    ensures AllNamed(nodes, a + b)
    ensures Described(scheduler, nodes, a + b) == Described(scheduler, nodes, a) + Described(scheduler, nodes, b)
  {}

  lemma {:induction false} SortedSplit(nodes: seq<NodeState>, d1: real, d2: real)
    requires Splittable(nodes) && d1 >= 0.0 && d2 >= 0.0
    ensures AllSettled(nodes) && AllSettled(AdvancedAll(nodes, d1))
    ensures Sorted(Crossings(nodes, d1 + d2)) == Sorted(Crossings(nodes, d1)) + DelayedSeq(Sorted(Crossings(AdvancedAll(nodes, d1), d2)), d1)
  {
    CrossingsSplit(nodes, d1, d2);
    var E2 := Crossings(AdvancedAll(nodes, d1), d2);
    SortedConcat(Crossings(nodes, d1), DelayedAll(E2, d1));
    SortedDelayed(E2, d1);
  }

  lemma UncappedNamed(scheduler: nat, nodes: seq<NodeState>, dt: real)
    requires AllSettled(nodes) && dt >= 0.0
    ensures AllNamed(nodes, Sorted(Crossings(nodes, dt)))
    ensures Uncapped(scheduler, nodes, dt) == Described(scheduler, nodes, Sorted(Crossings(nodes, dt)))
  {
    RunsHoldCrossings(nodes, dt);
    SortedNamed(nodes, Crossings(nodes, dt));
  }

  /** The uncapped readings of the parts, one after the other, are the whole reading. */
  lemma {:induction false} UncappedSplit(scheduler: nat, nodes: seq<NodeState>, d1: real, d2: real)
    requires Splittable(nodes) && d1 >= 0.0 && d2 >= 0.0
    ensures AllSettled(nodes) && AllSettled(AdvancedAll(nodes, d1))
    ensures Uncapped(scheduler, nodes, d1 + d2) == Uncapped(scheduler, nodes, d1) + Uncapped(scheduler, AdvancedAll(nodes, d1), d2)
  {
    SortedSplit(nodes, d1, d2);
    UncappedNamed(scheduler, nodes, d1 + d2);
    UncappedNamed(scheduler, nodes, d1);
    UncappedNamed(scheduler, AdvancedAll(nodes, d1), d2);
    var s2 := Sorted(Crossings(AdvancedAll(nodes, d1), d2));
    DescribedAfter(scheduler, nodes, d1, s2);
    DescribedConcat(scheduler, nodes, Sorted(Crossings(nodes, d1)), DelayedSeq(s2, d1));
  }

  /** The reports of the parts joined are the report of the whole exactly when the
      whole stays below the capacity or one of the parts is empty. */
  predicate ReportsJoin(part1: seq<ClipNotification>, part2: seq<ClipNotification>,
          whole: seq<ClipNotification>, n1: nat, n2: nat) {
    part1 + part2 == whole <==> n1 + n2 <= NOTIFY_CAPACITY || n1 == 0 || n2 == 0
  }

  /** A frame boundary loses, doubles and reorders nothing: the nodes end up the
      same, every crossing is counted once, and the two reports joined are the
      report of the whole step exactly when the whole step stays below the
      capacity, or one of the parts has nothing to report. */
  lemma {:induction false} SplitInvariance(scheduler: nat, nodes: seq<NodeState>, d1: real, d2: real)
    requires Splittable(nodes) && d1 >= 0.0 && d2 >= 0.0
    ensures AllSettled(nodes) && AllSettled(AdvancedAll(nodes, d1))
    ensures AdvancedAll(AdvancedAll(nodes, d1), d2) == AdvancedAll(nodes, d1 + d2)
    ensures |Crossings(nodes, d1 + d2)| == |Crossings(nodes, d1)| + |Crossings(AdvancedAll(nodes, d1), d2)|
    ensures ReportsJoin(Notified(scheduler, nodes, d1), Notified(scheduler, AdvancedAll(nodes, d1), d2), Notified(scheduler, nodes, d1 + d2),
                        |Crossings(nodes, d1)|, |Crossings(AdvancedAll(nodes, d1), d2)|)
  {
    StaysSplittable(nodes, d1);
    AllAdvancedSplit(nodes, d1, d2);
    CountSplit(nodes, d1, d2);
    NotifiedSplit(scheduler, nodes, d1, d2);
  }

  lemma {:induction false} AllAdvancedSplit(nodes: seq<NodeState>, d1: real, d2: real)
    requires Splittable(nodes) && d1 >= 0.0 && d2 >= 0.0
    ensures AdvancedAll(AdvancedAll(nodes, d1), d2) == AdvancedAll(nodes, d1 + d2)
  {
    forall i | 0 <= i < |nodes|
      ensures AdvancedAll(AdvancedAll(nodes, d1), d2)[i] == AdvancedAll(nodes, d1 + d2)[i]
    {
      AdvancedSplit(nodes[i], d1, d2);
    }
  }

  lemma {:induction false} CountSplit(nodes: seq<NodeState>, d1: real, d2: real)
    requires Splittable(nodes) && d1 >= 0.0 && d2 >= 0.0
    ensures AllSettled(nodes) && AllSettled(AdvancedAll(nodes, d1))
    ensures |Crossings(nodes, d1 + d2)| == |Crossings(nodes, d1)| + |Crossings(AdvancedAll(nodes, d1), d2)|
  {
    SortedSplit(nodes, d1, d2);
  }

  lemma {:induction false} NotifiedSplit(scheduler: nat, nodes: seq<NodeState>, d1: real, d2: real)
    requires Splittable(nodes) && d1 >= 0.0 && d2 >= 0.0
    requires AllSettled(nodes) && AllSettled(AdvancedAll(nodes, d1))
    ensures ReportsJoin(Notified(scheduler, nodes, d1), Notified(scheduler, AdvancedAll(nodes, d1), d2), Notified(scheduler, nodes, d1 + d2),
                        |Crossings(nodes, d1)|, |Crossings(AdvancedAll(nodes, d1), d2)|)
  {
    var after := AdvancedAll(nodes, d1);
    var a, b := Uncapped(scheduler, nodes, d1), Uncapped(scheduler, after, d2);
    assert IsCapped(Notified(scheduler, nodes, d1 + d2), a + b) by {
      UncappedSplit(scheduler, nodes, d1, d2);
      NotifiedIsPrefix(scheduler, nodes, d1 + d2);
    }
    NotifiedIsPrefix(scheduler, nodes, d1);
    NotifiedIsPrefix(scheduler, after, d2);
    CappedConcat(a, b, Notified(scheduler, nodes, d1), Notified(scheduler, after, d2), Notified(scheduler, nodes, d1 + d2));
  }

  lemma CappedConcat(a: seq<ClipNotification>, b: seq<ClipNotification>, part1: seq<ClipNotification>,
          part2: seq<ClipNotification>, whole: seq<ClipNotification>)
    requires IsCapped(part1, a) && IsCapped(part2, b) && IsCapped(whole, a + b)
    ensures ReportsJoin(part1, part2, whole, |a|, |b|)
  {
    if |a| + |b| <= NOTIFY_CAPACITY {
      assert a[..|a|] == a && b[..|b|] == b;
    } else if |a| == 0 {
      assert a + b == b;
    } else if |b| == 0 {
      assert a + b == a;
    }
  }
}
