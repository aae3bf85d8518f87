/** What one scheduler node is, how its phase moves, and which markers it passes:
    the declarative side of crates/asset_anim/src/clip_scheduler.rs. */
module ClipModel {
  import opened Wrappers
  import opened AsciiNames

  /** An IEEE number as far as the scheduler looks at it: a finite value or not. */
  datatype Float = Finite(value: real) | NonFinite

  datatype Notify = Notify(name: string, time: Float)

  datatype Clip = Clip(duration: Float, looping: bool, notifies: seq<Notify>)

  /** The fields of one scheduler node, as a value. */
  datatype NodeState = NodeState(
    clip: Option<Clip>,
    time: real,
    cycle: int,
    playback: nat,
    initial: bool,
    rate: real,
    weight: real,
    goalWeight: real,
    goalTimeRemaining: real)

  /** f32::EPSILON, two to the power of minus 23. */
  const EPSILON: real := 1.0 / 8388608.0

  function Clamp(x: real, lo: real, hi: real): real
    requires lo <= hi
  {
    if x < lo then lo else if x > hi then hi else x
  }

  function Min(a: real, b: real): real {
    if a <= b then a else b
  }

  function Ceil(x: real): int {
    -((-x).Floor)
  }

  /** Markers that can fire: a real name, not the reserved "end", a finite time. */
  predicate CanFire(n: Notify) {
    n.name != "" && !EqualsIgnoreCase(n.name, "end") && n.time.Finite?
  }

  function Point(n: Notify): real
    requires n.time.Finite?
  {
    Clamp(n.time.value, 0.0, 1.0)
  }

  predicate Playable(s: NodeState) {
    s.clip.Some? && s.clip.value.duration.Finite? && s.clip.value.duration.value > EPSILON
  }

  function Duration(s: NodeState): (d: real)
    requires Playable(s)
    ensures d > 0.0
  {
    s.clip.value.duration.value
  }

  /** Clip lengths covered in dt seconds. */
  function Travel(dt: real, rate: real, duration: real): real
    requires duration != 0.0
  {
    dt * rate / duration
  }

  /** Seconds it takes to play from a phase to the point of cycle n. */
  function SecondsTo(n: int, point: real, phase: real, duration: real, rate: real): real
    requires rate != 0.0
  {
    (n as real + point - phase) * duration / rate
  }

  /** Seconds into the clip at a phase. */
  function SecondsAt(phase: real, duration: real): real {
    phase * duration
  }

  /** Linear approach to the goal: step of the remaining time has passed. */
  function Slide(weight: real, goal: real, step: real, remaining: real): real
    requires remaining != 0.0
  {
    weight + (goal - weight) * step / remaining
  }

  /** Position in clip lengths: whole cycles included when the clip loops. */
  function Phase(s: NodeState): real
    requires Playable(s)
  {
    if s.clip.value.looping then s.cycle as real + s.time / Duration(s) else s.time / Duration(s)
  }

  function Target(s: NodeState, dt: real): real
    requires Playable(s)
  {
    var next := Phase(s) + Travel(dt, s.rate, Duration(s));
    if s.clip.value.looping then next else Clamp(next, 0.0, 1.0)
  }

  /** The node after its clip has played for dt. */
  function Played(s: NodeState, dt: real): NodeState {
    if s.clip.None? then s
    else if !Playable(s) then s.(time := 0.0)
    else
      var new' := Target(s, dt);
      var moved := s.(initial := s.initial && new' == Phase(s));
      if s.clip.value.looping then
        moved.(cycle := new'.Floor, time := SecondsAt(new' - new'.Floor as real, Duration(s)))
      else
        moved.(time := SecondsAt(new', Duration(s)))
  }

  /** The node after its weight has moved towards the goal for dt. */
  function Blended(s: NodeState, dt: real): NodeState {
    if s.goalTimeRemaining <= 0.0 then s
    else
      var step := Min(dt, s.goalTimeRemaining);
      var weight := Slide(s.weight, s.goalWeight, step, s.goalTimeRemaining);
      var remaining := s.goalTimeRemaining - step;
      if remaining <= EPSILON then s.(weight := s.goalWeight, goalTimeRemaining := 0.0)
      else s.(weight := weight, goalTimeRemaining := remaining)
  }

  function Advanced(s: NodeState, dt: real): NodeState {
    Blended(if s.weight > 0.0 then Played(s, dt) else s, dt)
  }

  function AdvancedAll(nodes: seq<NodeState>, dt: real): seq<NodeState> {
    seq(|nodes|, i requires 0 <= i < |nodes| => Advanced(nodes[i], dt))
  }

  /** Marker m of node s is passed in cycle n while the phase goes from old to
      new: the end is reached, the start was not. A fresh clip also passes its
      start point once when it first moves forward. */
  predicate Crosses(s: NodeState, dt: real, m: nat, n: int) {
    && Playable(s)
    && s.goalWeight > 0.0
    && m < |s.clip.value.notifies|
    && CanFire(s.clip.value.notifies[m])
    && (s.clip.value.looping || n == 0)
    && var at := n as real + Point(s.clip.value.notifies[m]);
       var from := Phase(s);
       var to := Target(s, dt);
       || from < at <= to
       || to <= at < from
       || (s.initial && from == 0.0 && from < to && n == 0 && at == 0.0)
  }

  /** Seconds into the step at which the passing happens. */
  function CrossOffset(s: NodeState, m: nat, n: int): real
    requires Playable(s) && s.rate != 0.0
    requires m < |s.clip.value.notifies| && CanFire(s.clip.value.notifies[m])
  {
    SecondsTo(n, Point(s.clip.value.notifies[m]), Phase(s), Duration(s), s.rate)
  }

  /** A non-looping clip whose time is inside the clip. SetTime can leave this
      range, see OffsetsStayInsideStep. */
  predicate InRange(s: NodeState) {
    Playable(s) && !s.clip.value.looping ==> 0.0 <= s.time <= Duration(s)
  }
}
