/** All crossings of a scheduler step, as a set, and what the step reports of them. */
module ClipNotifications {
  import opened AsciiNames
  import opened ClipModel
  import opened ClipCrossings
  import opened CrossingMerge

  const NOTIFY_CAPACITY: nat := 4096

  datatype ClipNotification = ClipNotification(
    scheduler: nat,
    playback: nat,
    node: nat,
    cycle: int,
    marker: nat,
    name: string)

  predicate AllSettled(nodes: seq<NodeState>) {
    forall i :: 0 <= i < |nodes| ==> Settled(nodes[i])
  }

  lemma CrossingHasRate(s: NodeState, dt: real, m: nat, n: int)
    requires Settled(s) && Crosses(s, dt, m, n)
    ensures s.rate != 0.0
  {
    MovingMeansRate(s, dt);
  }

  /** e is the passing of a marker of some active node during a step of dt. */
  ghost predicate IsCrossing(nodes: seq<NodeState>, dt: real, e: Event)
    requires AllSettled(nodes)
  {
    && e.node < |nodes|
    && var s := nodes[e.node];
    && s.weight > 0.0
    && Crosses(s, dt, e.marker, e.cycle)
    && (CrossingHasRate(s, dt, e.marker, e.cycle);
        e.offset == CrossOffset(s, e.marker, e.cycle))
  }

  predicate Emits(s: NodeState, dt: real) {
    s.weight > 0.0 && Playable(s) && s.goalWeight > 0.0 && Target(s, dt) != Phase(s)
  }

  /** The progressions pushed for the first count markers of a node. */
  function RunsUpTo(s: NodeState, index: nat, dt: real, count: nat): seq<Crossing>
    requires Playable(s) && s.rate != 0.0 && count <= |s.clip.value.notifies|
  {
    if count == 0 then []
    else
      var run := MarkerRun(s, index, dt, count - 1);
      RunsUpTo(s, index, dt, count - 1) + (if run.Some? then [run.value] else [])
  }

  function NodeRuns(s: NodeState, index: nat, dt: real): seq<Crossing>
    requires Settled(s)
  {
    if !Emits(s, dt) then []
    else
      MovingMeansRate(s, dt);
      RunsUpTo(s, index, dt, |s.clip.value.notifies|)
  }

  function AllRuns(nodes: seq<NodeState>, dt: real, count: nat): seq<Crossing>
    requires AllSettled(nodes) && count <= |nodes|
  {
    if count == 0 then []
    else AllRuns(nodes, dt, count - 1) + NodeRuns(nodes[count - 1], count - 1, dt)
  }

  lemma SpacingPositive(s: NodeState)
    requires Playable(s) && s.rate != 0.0
    ensures Duration(s) / AbsReal(s.rate) > 0.0
  {}

  lemma {:induction false} RunsUpToSound(s: NodeState, index: nat, dt: real, count: nat)
    requires Playable(s) && s.rate != 0.0 && count <= |s.clip.value.notifies|
    ensures SoundRuns(RunsUpTo(s, index, dt, count))
    ensures forall i :: 0 <= i < |RunsUpTo(s, index, dt, count)| ==>
              var run := RunsUpTo(s, index, dt, count)[i];
              run.node == index && run.marker < count
  {
    if count > 0 {
      RunsUpToSound(s, index, dt, count - 1);
      SpacingPositive(s);
    }
  }

  lemma {:induction false} RunsUpToStored(s: NodeState, index: nat, dt: real, count: nat, e: Event)
    requires Playable(s) && s.rate != 0.0 && count <= |s.clip.value.notifies|
    ensures e in Stored(RunsUpTo(s, index, dt, count)) <==>
            e.marker < count && MarkerRun(s, index, dt, e.marker).Some? && e in Events(MarkerRun(s, index, dt, e.marker).value)
  {
    if count > 0 {
      RunsUpToStored(s, index, dt, count - 1, e);
      var run := MarkerRun(s, index, dt, count - 1);
      if run.Some? {
        StoredAppend(RunsUpTo(s, index, dt, count - 1), [run.value]);
        StoredSingle(run.value);
        assert e in Events(run.value) ==> e.marker == count - 1;
      } else {
        assert RunsUpTo(s, index, dt, count) == RunsUpTo(s, index, dt, count - 1);
      }
    }
  }

  lemma {:induction false} RunsUpToExact(s: NodeState, index: nat, dt: real, count: nat, e: Event)
    requires Playable(s) && s.rate != 0.0 && dt >= 0.0 && s.goalWeight > 0.0 && Target(s, dt) != Phase(s)
    requires count <= |s.clip.value.notifies|
    ensures e in Stored(RunsUpTo(s, index, dt, count)) <==>
            e.marker < count && Crosses(s, dt, e.marker, e.cycle) && e == Event(CrossOffset(s, e.marker, e.cycle), index, e.marker, e.cycle)
  {
    RunsUpToStored(s, index, dt, count, e);
    if e.marker < count {
      RunEventsExact(s, index, dt, e.marker, e);
    }
  }

  lemma StoredSingle(c: Crossing)
    ensures Stored([c]) == Events(c)
  {
    forall e | e in Events(c) ensures e in Stored([c]) {
      var k :| 0 <= k < c.remaining && e == At(c, k);
      assert At([c][0], k) in Stored([c]);
    }
  }

  lemma {:induction false} AllRunsSound(nodes: seq<NodeState>, dt: real, count: nat)
    requires AllSettled(nodes) && count <= |nodes|
    ensures SoundRuns(AllRuns(nodes, dt, count))
    ensures forall i :: 0 <= i < |AllRuns(nodes, dt, count)| ==> AllRuns(nodes, dt, count)[i].node < count
  {
    if count > 0 {
      AllRunsSound(nodes, dt, count - 1);
      var s := nodes[count - 1];
      if Emits(s, dt) {
        MovingMeansRate(s, dt);
        RunsUpToSound(s, count - 1, dt, |s.clip.value.notifies|);
      }
    }
  }

  lemma {:induction false} AllRunsExact(nodes: seq<NodeState>, dt: real, count: nat, e: Event)
    requires AllSettled(nodes) && dt >= 0.0 && count <= |nodes|
    ensures e in Stored(AllRuns(nodes, dt, count)) <==> e.node < count && IsCrossing(nodes, dt, e)
  {
    if count > 0 {
      AllRunsExact(nodes, dt, count - 1, e);
      var s := nodes[count - 1];
      StoredAppend(AllRuns(nodes, dt, count - 1), NodeRuns(s, count - 1, dt));
      if Emits(s, dt) {
        MovingMeansRate(s, dt);
        RunsUpToExact(s, count - 1, dt, |s.clip.value.notifies|, e);
      }
    }
  }

  /** The set of all crossings of one step, see CrossingsExact. */
  ghost function Crossings(nodes: seq<NodeState>, dt: real): set<Event>
    requires AllSettled(nodes) && dt >= 0.0
  {
    Stored(AllRuns(nodes, dt, |nodes|))
  }

  /** The closed form misses no crossing and invents none. */
  lemma {:induction false} CrossingsExact(nodes: seq<NodeState>, dt: real)
    requires AllSettled(nodes) && dt >= 0.0
    ensures forall e :: e in Crossings(nodes, dt) <==> IsCrossing(nodes, dt, e)
  {
    forall e ensures e in Crossings(nodes, dt) <==> IsCrossing(nodes, dt, e) {
      AllRunsExact(nodes, dt, |nodes|, e);
    }
  }

  function MinNat(a: nat, b: nat): nat {
    if a <= b then a else b
  }

  function NotificationOf(scheduler: nat, nodes: seq<NodeState>, e: Event): ClipNotification
    requires e.node < |nodes| && nodes[e.node].clip.Some? && e.marker < |nodes[e.node].clip.value.notifies|
  {
    var s := nodes[e.node];
    ClipNotification(scheduler, s.playback, e.node, e.cycle, e.marker, s.clip.value.notifies[e.marker].name)
  }

  predicate Named(nodes: seq<NodeState>, e: Event) {
    e.node < |nodes| && nodes[e.node].clip.Some? && e.marker < |nodes[e.node].clip.value.notifies|
  }

  /** The heaped progressions of a step hold its crossings, each once. */
  lemma {:induction false} RunsHoldCrossings(nodes: seq<NodeState>, dt: real)
    requires AllSettled(nodes) && dt >= 0.0
    ensures var runs := AllRuns(nodes, dt, |nodes|);
            && SoundRuns(runs)
            && Stored(runs) == Crossings(nodes, dt)
            && SumRemaining(runs) == |Crossings(nodes, dt)|
    ensures forall e :: e in Crossings(nodes, dt) ==> Named(nodes, e)
  {
    AllRunsSound(nodes, dt, |nodes|);
    StoredSize(AllRuns(nodes, dt, |nodes|));
    CrossingsExact(nodes, dt);
  }

  ghost predicate AllNamed(nodes: seq<NodeState>, s: seq<Event>) {
    forall i :: 0 <= i < |s| ==> Named(nodes, s[i])
  }

  ghost function Described(scheduler: nat, nodes: seq<NodeState>, s: seq<Event>): (notes: seq<ClipNotification>)
    requires AllNamed(nodes, s)
    ensures |notes| == |s|
  {
    seq(|s|, i requires 0 <= i < |s| => NotificationOf(scheduler, nodes, s[i]))
  }

  lemma DescribedNext(scheduler: nat, nodes: seq<NodeState>, s: seq<Event>, e: Event)
    requires AllNamed(nodes, s) && Named(nodes, e)
    ensures AllNamed(nodes, s + [e])
    ensures Described(scheduler, nodes, s + [e]) == Described(scheduler, nodes, s) + [NotificationOf(scheduler, nodes, e)]
  {}

  lemma SortedNamed(nodes: seq<NodeState>, E: set<Event>)
    requires forall e :: e in E ==> Named(nodes, e)
    ensures AllNamed(nodes, Sorted(E))
  {
    SortedMembers(E);
    forall i | 0 <= i < |E| ensures Named(nodes, Sorted(E)[i]) {
      assert Sorted(E)[i] in Sorted(E);
    }
  }

  /** The earliest crossings of a set, as many as the capacity allows. */
  ghost function Reported(scheduler: nat, nodes: seq<NodeState>, E: set<Event>): (notes: seq<ClipNotification>)
    requires forall e :: e in E ==> Named(nodes, e)
    ensures |notes| == MinNat(|E|, NOTIFY_CAPACITY)
  {
    SortedNamed(nodes, E);
    Described(scheduler, nodes, Sorted(E)[..MinNat(|E|, NOTIFY_CAPACITY)])
  }

  /** What a step of dt reports. */
  ghost function Notified(scheduler: nat, nodes: seq<NodeState>, dt: real): (notes: seq<ClipNotification>)
    requires AllSettled(nodes) && dt >= 0.0
  {
    RunsHoldCrossings(nodes, dt);
    Reported(scheduler, nodes, Crossings(nodes, dt))
  }

  /** What a notification tells of a crossing: who reports, which playback of which
      node, in which cycle, and the marker with its name, which is never "end". */
  predicate Tells(n: ClipNotification, scheduler: nat, nodes: seq<NodeState>, e: Event) {
    && Named(nodes, e)
    && n.scheduler == scheduler
    && n.node == e.node && n.playback == nodes[e.node].playback
    && n.cycle == e.cycle
    && n.marker == e.marker && n.name == nodes[e.node].clip.value.notifies[e.marker].name
    && n.name != "" && !EqualsIgnoreCase(n.name, "end")
  }

  /** The k-th notification of a step tells of the k-th crossing in order. */
  ghost predicate TellsInOrder(notes: seq<ClipNotification>, scheduler: nat, nodes: seq<NodeState>, dt: real)
    requires AllSettled(nodes) && dt >= 0.0
  {
    var sorted := Sorted(Crossings(nodes, dt));
    && |notes| == MinNat(|sorted|, NOTIFY_CAPACITY)
    && forall k :: 0 <= k < |notes| ==> Tells(notes[k], scheduler, nodes, sorted[k])
  }

  lemma {:induction false} NotifiedTells(scheduler: nat, nodes: seq<NodeState>, dt: real)
    requires AllSettled(nodes) && dt >= 0.0
    ensures TellsInOrder(Notified(scheduler, nodes, dt), scheduler, nodes, dt)
  {
    var E := Crossings(nodes, dt);
    RunsHoldCrossings(nodes, dt);
    SortedNamed(nodes, E);
    var sorted := Sorted(E);
    var told := sorted[..MinNat(|E|, NOTIFY_CAPACITY)];
    SortedMembers(E);
    CrossingsExact(nodes, dt);
    forall k | 0 <= k < |told|
      ensures Tells(Notified(scheduler, nodes, dt)[k], scheduler, nodes, sorted[k])
    {
      assert told[k] == sorted[k] && Named(nodes, sorted[k]);
      assert sorted[k] in E && IsCrossing(nodes, dt, sorted[k]);
    }
  }

  /** The merge loop: the notifications describe what was emitted so far. */
  ghost predicate Reporting(scheduler: nat, nodes: seq<NodeState>, E: set<Event>, items: seq<Crossing>,
          emitted: seq<Event>, notes: seq<ClipNotification>) {
    && Merging(items, emitted, E)
    && |emitted| <= NOTIFY_CAPACITY
    && AllNamed(nodes, emitted)
    && notes == Described(scheduler, nodes, emitted)
  }

  lemma ReportingStored(scheduler: nat, nodes: seq<NodeState>, E: set<Event>, items: seq<Crossing>,
          emitted: seq<Event>, notes: seq<ClipNotification>)
    requires Reporting(scheduler, nodes, E, items, emitted, notes)
    ensures forall i :: 0 <= i < |items| ==> items[i].remaining > 0
  {}

  lemma {:induction false} ReportingNext(scheduler: nat, nodes: seq<NodeState>, E: set<Event>,
          items: seq<Crossing>, emitted: seq<Event>, notes: seq<ClipNotification>, at: nat)
    requires Reporting(scheduler, nodes, E, items, emitted, notes)
    requires forall e :: e in E ==> Named(nodes, e)
    requires |notes| < NOTIFY_CAPACITY && at < |items| && items[at].remaining > 0
    requires forall j :: 0 <= j < |items| ==> !Above(items[j], items[at])
    ensures Named(nodes, At(items[at], 0))
    ensures Reporting(scheduler, nodes, E, PutBack(Without(items, at), items[at]), emitted + [At(items[at], 0)],
                      notes + [NotificationOf(scheduler, nodes, At(items[at], 0))])
  {
    MergeStep(items, emitted, E, at);
    DescribedNext(scheduler, nodes, emitted, At(items[at], 0));
  }

  lemma {:induction false} ReportingDone(scheduler: nat, nodes: seq<NodeState>, E: set<Event>,
          items: seq<Crossing>, emitted: seq<Event>, notes: seq<ClipNotification>)
    requires Reporting(scheduler, nodes, E, items, emitted, notes)
    requires forall e :: e in E ==> Named(nodes, e)
    requires items == [] || |notes| == NOTIFY_CAPACITY
    ensures notes == Reported(scheduler, nodes, E)
  {
    MergedPrefix(items, emitted, E);
  }
}
