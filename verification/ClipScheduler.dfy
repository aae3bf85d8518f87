/** The scheduler object of crates/asset_anim/src/clip_scheduler.rs. */
module ClipScheduling {
  import opened Wrappers
  import opened ClipModel
  import opened ClipCrossings
  import opened CrossingMerge
  import opened ClipNotifications

  datatype ClipSchedulerError = BadNode(node: nat, len: nat)

  datatype ClipAdvance = ClipAdvance(notifications: seq<ClipNotification>, discarded: nat)

  class Node {
    var clip: Option<Clip>
    var time: real
    var cycle: int
    var playback: nat
    var initial: bool
    var rate: real
    var weight: real
    var goalWeight: real
    var goalTimeRemaining: real

    constructor ()
      ensures State() == Fresh()
    {
      clip, time, cycle, playback, initial := None, 0.0, 0, 0, false;
      rate, weight, goalWeight, goalTimeRemaining := 1.0, 0.0, 0.0, 0.0;
    }

    method Reset()
      modifies this
      ensures State() == Fresh()
    {
      clip, time, cycle, playback, initial := None, 0.0, 0, 0, false;
      rate, weight, goalWeight, goalTimeRemaining := 1.0, 0.0, 0.0, 0.0;
    }

    method Start(clip: Clip, playback: nat)
      modifies this
      ensures State() == old(State()).(clip := Some(clip), time := 0.0, cycle := 0, playback := playback, initial := true)
    {
      this.clip, time, cycle := Some(clip), 0.0, 0;
      this.playback, initial := playback, true;
    }

    ghost function State(): NodeState
      reads this
    {
      NodeState(clip, time, cycle, playback, initial, rate, weight, goalWeight, goalTimeRemaining)
    }
  }

  function Fresh(): NodeState {
    NodeState(None, 0.0, 0, 0, false, 1.0, 0.0, 0.0, 0.0)
  }

  function NonNegative(x: real): real {
    if x < 0.0 then 0.0 else x
  }

  /** A step length as the scheduler reads it: never negative, zero if not finite. */
  function StepLength(dt: Float): real {
    if dt.Finite? then NonNegative(dt.value) else 0.0
  }

  /** The body of the marker loop: which cycles of one marker lie in the step. */
  method MarkerProgression(clip: Clip, marker: nat, from: real, to: real, initial: bool, duration: real,
          rate: real, index: nat, ghost s: NodeState, ghost dt: real)
    returns (run: Option<Crossing>)
    requires Playable(s) && s.rate == rate && rate != 0.0 && s.clip == Some(clip) && Duration(s) == duration
    requires from == Phase(s) && to == Target(s, dt) && initial == s.initial && marker < |clip.notifies|
    ensures run == MarkerRun(s, index, dt, marker)
  {
    var notify := clip.notifies[marker];
    if !CanFire(notify) {
      return None;
    }
    var point := Point(notify);
    var first, last, step;
    if to > from {
      first := if initial && from == 0.0 && point == 0.0 then 0 else (from - point).Floor + 1;
      last := (to - point).Floor;
      step := 1;
    } else {
      first := Ceil(from - point) - 1;
      last := Ceil(to - point);
      step := -1;
    }
    if !clip.looping && ((step == 1 && (first > 0 || last < 0)) || (step == -1 && (first < 0 || last > 0))) {
      return None;
    }
    if !clip.looping {
      first, last := 0, 0;
    }
    if (step == 1 && first > last) || (step == -1 && first < last) {
      return None;
    }
    run := Some(Crossing(SecondsTo(first, point, from, duration, rate), duration / AbsReal(rate), index, marker, first, step, Abs(first - last) + 1));
  }

  /** Moves the phase of a playable node and says from where to where. */
  method PlayNode(node: Node, dt: real) returns (from: real, to: real)
    requires Playable(node.State())
    modifies node
    ensures node.State() == Played(old(node.State()), dt)
    ensures from == Phase(old(node.State())) && to == Target(old(node.State()), dt)
  {
    var clip := node.clip.value;
    var duration := clip.duration.value;
    from := if clip.looping then node.cycle as real + node.time / duration else node.time / duration;
    var next := from + Travel(dt, node.rate, duration);
    to := if clip.looping then next else Clamp(next, 0.0, 1.0);
    if to != from {
      node.initial := false;
    }
    if clip.looping {
      node.cycle := to.Floor;
      node.time := SecondsAt(to - to.Floor as real, duration);
    } else {
      node.time := SecondsAt(to, duration);
    }
  }

  /** Plays one node and stores the progressions of the markers it passes. */
  method CollectCrossings(node: Node, index: nat, dt: real, heap: CrossingHeap, total: nat) returns (total': nat)
    requires node.weight > 0.0 && dt >= 0.0 && Settled(node.State())
    modifies node, heap
    ensures node.State() == Played(old(node.State()), dt)
    ensures heap.items == old(heap.items) + NodeRuns(old(node.State()), index, dt)
    ensures total' == total + SumRemaining(NodeRuns(old(node.State()), index, dt))
  {
    ghost var s := node.State();
    total' := total;
    if node.clip.None? {
      return;
    }
    var clip := node.clip.value;
    if !clip.duration.Finite? || clip.duration.value <= EPSILON {
      node.time := 0.0;
      return;
    }
    var initial := node.initial;
    var from, to := PlayNode(node, dt);
    if node.goalWeight <= 0.0 || to == from {
      return;
    }
    MovingMeansRate(s, dt);
    for marker := 0 to |clip.notifies|
      invariant node.State() == Played(s, dt)
      invariant heap.items == old(heap.items) + RunsUpTo(s, index, dt, marker)
      invariant total' == total + SumRemaining(RunsUpTo(s, index, dt, marker))
    {
      var run := MarkerProgression(clip, marker, from, to, initial, clip.duration.value, node.rate, index, s, dt);
      if run.Some? {
        SumRemainingAppend(RunsUpTo(s, index, dt, marker), [run.value]);
        total' := total' + run.value.remaining;
        heap.Push(run.value);
      } else {
        assert RunsUpTo(s, index, dt, marker + 1) == RunsUpTo(s, index, dt, marker);
      }
    }
  }

  method AdvanceGoal(node: Node, dt: real)
    requires dt >= 0.0
    modifies node
    ensures node.State() == Blended(old(node.State()), dt)
  {
    if node.goalTimeRemaining <= 0.0 {
      return;
    }
    var step := Min(dt, node.goalTimeRemaining);
    node.weight := Slide(node.weight, node.goalWeight, step, node.goalTimeRemaining);
    node.goalTimeRemaining := node.goalTimeRemaining - step;
    if node.goalTimeRemaining <= EPSILON {
      node.weight := node.goalWeight;
      node.goalTimeRemaining := 0.0;
    }
  }

  /** The body of the node loop of a step. */
  method AdvanceNode(node: Node, index: nat, dt: real, heap: CrossingHeap, total: nat) returns (total': nat)
    requires dt >= 0.0 && Settled(node.State())
    modifies node, heap
    ensures node.State() == Advanced(old(node.State()), dt)
    ensures heap.items == old(heap.items) + NodeRuns(old(node.State()), index, dt)
    ensures total' == total + SumRemaining(NodeRuns(old(node.State()), index, dt))
  {
    total' := total;
    if node.weight > 0.0 {
      total' := CollectCrossings(node, index, dt, heap, total);
    }
    AdvanceGoal(node, dt);
  }

  class ClipScheduler {
    const identity: nat
    var nextPlayback: nat
    const nodes: seq<Node>

    ghost predicate Valid()
      reads this, nodes
    {
      && nextPlayback > 0
      && Distinct()
      && (forall i :: 0 <= i < |nodes| ==> nodes[i].playback < nextPlayback)
      && (forall i, j :: 0 <= i < j < |nodes| && nodes[i].clip.Some? && nodes[j].clip.Some? ==> nodes[i].playback != nodes[j].playback)
    }

    ghost predicate Distinct()
    {
      forall i, j :: 0 <= i < j < |nodes| ==> nodes[i] != nodes[j]
    }

    ghost function States(): (s: seq<NodeState>)
      reads nodes
      ensures |s| == |nodes|
    {
      seq(|nodes|, i requires 0 <= i < |nodes| reads nodes => nodes[i].State())
    }

    constructor (identity: nat, nodeCount: nat)
      ensures Valid() && fresh(nodes) && this.identity == identity
      ensures States() == seq(nodeCount, i => Fresh())
    {
      this.identity := identity;
      nextPlayback := 1;
      var made: seq<Node> := [];
      for i := 0 to nodeCount
        invariant |made| == i && fresh(made)
        invariant forall k :: 0 <= k < i ==> allocated(made[k]) && made[k].State() == Fresh()
        invariant forall k, l :: 0 <= k < l < i ==> made[k] != made[l]
      {
        var node := new Node();
        made := made + [node];
      }
      nodes := made;
    }

    method SetClip(index: nat, clip: Clip) returns (r: Result<(), ClipSchedulerError>)
      requires Valid()
      modifies this`nextPlayback, nodes
      ensures Valid()
      ensures index >= |nodes| ==> r == Err(BadNode(index, |nodes|)) && States() == old(States()) && nextPlayback == old(nextPlayback)
      ensures index < |nodes| ==>
                && r == Ok(()) && nextPlayback == old(nextPlayback) + 1
                && States() == old(States())[index := old(States()[index]).(clip := Some(clip), time := 0.0, cycle := 0, playback := old(nextPlayback), initial := true)]
    {
      if index >= |nodes| {
        return Err(BadNode(index, |nodes|));
      }
      var playback := nextPlayback;
      nextPlayback := nextPlayback + 1;
      nodes[index].Start(clip, playback);
      r := Ok(());
    }

    method Clear(index: nat) returns (r: Result<(), ClipSchedulerError>)
      requires Valid()
      modifies nodes
      ensures Valid()
      ensures index >= |nodes| ==> r == Err(BadNode(index, |nodes|)) && States() == old(States())
      ensures index < |nodes| ==> r == Ok(()) && States() == old(States())[index := Fresh()]
    {
      if index >= |nodes| {
        return Err(BadNode(index, |nodes|));
      }
      nodes[index].Reset();
      r := Ok(());
    }

    method SetTime(index: nat, time: Float) returns (r: Result<(), ClipSchedulerError>)
      requires Valid()
      modifies nodes
      ensures Valid()
      ensures index >= |nodes| ==> r == Err(BadNode(index, |nodes|)) && States() == old(States())
      ensures index < |nodes| ==>
                && r == Ok(())
                && States() == old(States())[index := old(States()[index]).(time := StepLength(time), initial := false)]
    {
      if index >= |nodes| {
        return Err(BadNode(index, |nodes|));
      }
      nodes[index].time := StepLength(time);
      nodes[index].initial := false;
      r := Ok(());
    }

    method SetRate(index: nat, rate: Float) returns (r: Result<(), ClipSchedulerError>)
      requires Valid()
      modifies nodes
      ensures Valid()
      ensures index >= |nodes| ==> r == Err(BadNode(index, |nodes|)) && States() == old(States())
      ensures index < |nodes| ==>
                && r == Ok(())
                && States() == old(States())[index := old(States()[index]).(rate := if rate.Finite? then rate.value else 0.0)]
    {
      if index >= |nodes| {
        return Err(BadNode(index, |nodes|));
      }
      nodes[index].rate := if rate.Finite? then rate.value else 0.0;
      r := Ok(());
    }

    method SetGoalWeight(index: nat, goalWeight: real, goalTime: real) returns (r: Result<(), ClipSchedulerError>)
      requires Valid()
      modifies nodes
      ensures Valid()
      ensures index >= |nodes| ==> r == Err(BadNode(index, |nodes|)) && States() == old(States())
      ensures index < |nodes| ==>
                && r == Ok(())
                && var s := old(States()[index]).(goalWeight := NonNegative(goalWeight), goalTimeRemaining := NonNegative(goalTime));
                   States() == old(States())[index := if goalTime <= 0.0 then s.(weight := s.goalWeight) else s]
    {
      if index >= |nodes| {
        return Err(BadNode(index, |nodes|));
      }
      var node := nodes[index];
      node.goalWeight := NonNegative(goalWeight);
      node.goalTimeRemaining := NonNegative(goalTime);
      if node.goalTimeRemaining == 0.0 {
        node.weight := node.goalWeight;
      }
      r := Ok(());
    }

    /** One step: every active node plays, the crossings come out in time order
        up to the capacity, and the rest is counted. */
    method Advance(step: Float) returns (r: ClipAdvance)
      requires Valid() && AllSettled(States())
      modifies nodes
      ensures Valid()
      ensures States() == AdvancedAll(old(States()), StepLength(step))
      ensures r.notifications == Notified(identity, old(States()), StepLength(step))
      ensures TellsInOrder(r.notifications, identity, old(States()), StepLength(step))
      ensures |r.notifications| + r.discarded == |Crossings(old(States()), StepLength(step))|
    {
      ghost var states := States();
      r := AdvanceBy(StepLength(step));
      NotifiedTells(identity, states, StepLength(step));
    }

    method AdvanceBy(dt: real) returns (r: ClipAdvance)
      requires Valid() && AllSettled(States()) && dt >= 0.0
      modifies nodes
      ensures Valid()
      ensures States() == AdvancedAll(old(States()), dt)
      ensures r.notifications == Notified(identity, old(States()), dt)
      ensures |r.notifications| + r.discarded == |Crossings(old(States()), dt)|
    {
      ghost var states := States();
      var heap, total := CollectAll(dt);
      RunsHoldCrossings(states, dt);
      var notifications := DrainInOrder(heap, states, Crossings(states, dt));
      r := ClipAdvance(notifications, if total >= |notifications| then total - |notifications| else 0);
    }

    /** The nodes play what they played before, under the same identities. */
    ghost predicate SamePlaybacks(states: seq<NodeState>)
      reads nodes
    {
      |states| == |nodes| && forall k :: 0 <= k < |nodes| ==> nodes[k].clip == states[k].clip && nodes[k].playback == states[k].playback
    }

    /** Lets every active node play and every weight move, and heaps up the crossings. */
    method CollectAll(dt: real) returns (heap: CrossingHeap, total: nat)
      requires Valid() && AllSettled(States()) && dt >= 0.0
      modifies nodes
      ensures Valid() && SamePlaybacks(old(States())) && fresh(heap)
      ensures States() == AdvancedAll(old(States()), dt)
      ensures heap.items == AllRuns(old(States()), dt, |nodes|)
      ensures total == SumRemaining(heap.items)
    {
      ghost var states := States();
      heap, total := CollectEach(dt, states);
      forall k | 0 <= k < |nodes|
        ensures nodes[k].clip == states[k].clip && nodes[k].playback == states[k].playback
      {
        AdvancedKeepsClip(states[k], dt);
      }
    }

    ghost predicate NodesAre(states: seq<NodeState>)
      reads nodes
    {
      |states| == |nodes| && forall k :: 0 <= k < |nodes| ==> nodes[k].State() == states[k]
    }

    method AdvanceAt(index: nat, dt: real, heap: CrossingHeap, total: nat, ghost current: seq<NodeState>)
      returns (total': nat)
      requires Distinct() && NodesAre(current) && index < |nodes| && dt >= 0.0 && Settled(current[index])
      modifies nodes[index], heap
      ensures NodesAre(current[index := Advanced(current[index], dt)])
      ensures heap.items == old(heap.items) + NodeRuns(current[index], index, dt)
      ensures total' == total + SumRemaining(NodeRuns(current[index], index, dt))
    {
      ghost var s := current[index];
      assert nodes[index].State() == s;
      total' := AdvanceNode(nodes[index], index, dt, heap, total);
      ghost var after := nodes[index].State();
      forall k | 0 <= k < |nodes|
        ensures nodes[k].State() == current[index := after][k]
      {
        assert k != index ==> nodes[k] != nodes[index];
      }
    }

    method CollectEach(dt: real, ghost states: seq<NodeState>) returns (heap: CrossingHeap, total: nat)
      requires Distinct() && AllSettled(states) && dt >= 0.0 && NodesAre(states)
      modifies nodes
      ensures fresh(heap)
      ensures NodesAre(AdvancedAll(states, dt))
      ensures heap.items == AllRuns(states, dt, |nodes|)
      ensures total == SumRemaining(heap.items)
    {
      heap := new CrossingHeap();
      total := 0;
      ghost var current := states;
      for index := 0 to |nodes|
        invariant fresh(heap)
        invariant Collected(states, dt, index, heap.items, current, total)
        invariant NodesAre(current)
      {
        CollectedNext(states, dt, index, heap.items, current, total);
        total := AdvanceAt(index, dt, heap, total, current);
        current := current[index := Advanced(current[index], dt)];
      }
      AdvancedPrefixAll(states, dt, |nodes|);
    }

    method Describe(crossing: Crossing, ghost states: seq<NodeState>) returns (notification: ClipNotification)
      requires SamePlaybacks(states) && Named(states, At(crossing, 0))
      ensures notification == NotificationOf(identity, states, At(crossing, 0))
    {
      var node := nodes[crossing.node];
      var clip := node.clip.value;
      notification := ClipNotification(identity, node.playback, crossing.node, crossing.cycle, crossing.marker, clip.notifies[crossing.marker].name);
    }

    /** Pops the crossings in time order and puts each progression back at its
        next cycle, until the capacity is reached or nothing is left. */
    method DrainInOrder(heap: CrossingHeap, ghost states: seq<NodeState>, ghost E: set<Event>)
      returns (notifications: seq<ClipNotification>)
      requires SamePlaybacks(states)
      requires SoundRuns(heap.items) && Stored(heap.items) == E
      requires forall e :: e in E ==> Named(states, e)
      modifies heap
      ensures notifications == Reported(identity, states, E)
    {
      ghost var emitted: seq<Event> := [];
      notifications := [];
      while |notifications| < NOTIFY_CAPACITY
        invariant SamePlaybacks(states)
        invariant Reporting(identity, states, E, heap.items, emitted, notifications)
        decreases NOTIFY_CAPACITY - |notifications|
      {
        ghost var stored := heap.items;
        ReportingStored(identity, states, E, stored, emitted, notifications);
        var popped, at := PopAndAdvance(heap);
        if popped.None? {
          break;
        }
        ReportingNext(identity, states, E, stored, emitted, notifications, at);
        var notification := Describe(popped.value, states);
        emitted := emitted + [At(popped.value, 0)];
        notifications := notifications + [notification];
      }
      ReportingDone(identity, states, E, heap.items, emitted, notifications);
    }
  }

  ghost function AdvancedPrefix(states: seq<NodeState>, dt: real, count: nat): (r: seq<NodeState>)
    requires count <= |states|
    ensures |r| == |states|
  {
    if count == 0 then states
    else AdvancedPrefix(states, dt, count - 1)[count - 1 := Advanced(states[count - 1], dt)]
  }

  lemma {:induction false} AdvancedPrefixAll(states: seq<NodeState>, dt: real, count: nat)
    requires count <= |states|
    ensures forall k :: 0 <= k < |states| ==> AdvancedPrefix(states, dt, count)[k] == if k < count then Advanced(states[k], dt) else states[k]
    ensures count == |states| ==> AdvancedPrefix(states, dt, count) == AdvancedAll(states, dt)
  {
    if count > 0 {
      AdvancedPrefixAll(states, dt, count - 1);
    }
  }

  /** The node loop of a step: the first index nodes have been advanced. */
  ghost predicate Collected(states: seq<NodeState>, dt: real, index: nat, items: seq<Crossing>,
          current: seq<NodeState>, total: nat) {
    && AllSettled(states)
    && index <= |states|
    && current == AdvancedPrefix(states, dt, index)
    && items == AllRuns(states, dt, index)
    && total == SumRemaining(items)
  }

  lemma {:induction false} CollectedNext(states: seq<NodeState>, dt: real, index: nat, items: seq<Crossing>,
          current: seq<NodeState>, total: nat)
    requires Collected(states, dt, index, items, current, total) && index < |states|
    ensures current[index] == states[index] && Settled(states[index])
    ensures var runs := NodeRuns(states[index], index, dt);
            Collected(states, dt, index + 1, items + runs, current[index := Advanced(states[index], dt)], total + SumRemaining(runs))
  {
    SumRemainingAppend(items, NodeRuns(states[index], index, dt));
    AdvancedPrefixAll(states, dt, index);
  }

  lemma AdvancedKeepsClip(s: NodeState, dt: real)
    ensures Advanced(s, dt).clip == s.clip && Advanced(s, dt).playback == s.playback
  {}
}
