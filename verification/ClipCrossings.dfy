/** The closed form the scheduler uses for marker crossings: one arithmetic
    progression per marker, and the proof that it is exactly the set Crosses. */
module ClipCrossings {
  import opened Wrappers
  import opened ClipModel

  /** A progression of crossings of one marker, as it sits in the heap. */
  datatype Crossing = Crossing(
    offset: real,
    spacing: real,
    node: nat,
    marker: nat,
    cycle: int,
    step: int,
    remaining: nat)

  /** One single crossing. */
  datatype Event = Event(offset: real, node: nat, marker: nat, cycle: int)

  /** No infinite offset arises: a clip at rate zero must not be parked past its end. */
  predicate Settled(s: NodeState) {
    s.rate != 0.0 || InRange(s)
  }

  lemma MovingMeansRate(s: NodeState, dt: real)
    requires Playable(s) && Settled(s) && Target(s, dt) != Phase(s)
    ensures s.rate != 0.0
  {}

  function FirstCycle(s: NodeState, dt: real, point: real): int
    requires Playable(s)
  {
    if Target(s, dt) > Phase(s) then
      if s.initial && Phase(s) == 0.0 && point == 0.0 then 0 else (Phase(s) - point).Floor + 1
    else
      Ceil(Phase(s) - point) - 1
  }

  function LastCycle(s: NodeState, dt: real, point: real): int
    requires Playable(s)
  {
    if Target(s, dt) > Phase(s) then (Target(s, dt) - point).Floor else Ceil(Target(s, dt) - point)
  }

  function Abs(x: int): nat {
    if x < 0 then -x else x
  }

  function AbsReal(x: real): real {
    if x < 0.0 then -x else x
  }

  /** The progression pushed for marker m, if the marker is passed at all. */
  function MarkerRun(s: NodeState, index: nat, dt: real, m: nat): Option<Crossing>
    requires Playable(s) && s.rate != 0.0 && m < |s.clip.value.notifies|
  {
    var notify := s.clip.value.notifies[m];
    if !CanFire(notify) then None
    else
      var point := Point(notify);
      var step := if Target(s, dt) > Phase(s) then 1 else -1;
      var first := FirstCycle(s, dt, point);
      var last := LastCycle(s, dt, point);
      if !s.clip.value.looping && ((step == 1 && (first > 0 || last < 0)) || (step == -1 && (first < 0 || last > 0))) then None
      else
        var first' := if s.clip.value.looping then first else 0;
        var last' := if s.clip.value.looping then last else 0;
        if (step == 1 && first' > last') || (step == -1 && first' < last') then None
        else
          Some(Crossing(
            SecondsTo(first', point, Phase(s), Duration(s), s.rate),
            Duration(s) / AbsReal(s.rate),
            index, m, first', step, Abs(first' - last') + 1))
  }

  /** The k-th crossing of a progression. */
  function At(c: Crossing, k: nat): Event {
    Event(c.offset + k as real * c.spacing, c.node, c.marker, c.cycle + k * c.step)
  }

  function Events(c: Crossing): set<Event> {
    set k | 0 <= k < c.remaining :: At(c, k)
  }

  lemma ScaleKeepsOrder(a: real, b: real, d: real)
    requires a < b && d > 0.0
    ensures a * d < b * d
  {}

  /** Playing to x means floor and ceiling pick the cycles on the right side. */
  lemma FloorAtLeast(x: real, n: int)
    ensures n <= x.Floor <==> n as real <= x
    ensures Ceil(x) <= n <==> x <= n as real
  {
    var f := (-x).Floor;
    assert f as real <= -x < f as real + 1.0;
  }

  /** The cycles of the progression are exactly the crossings of the marker. */
  lemma {:induction false} RunCyclesExact(s: NodeState, index: nat, dt: real, m: nat, n: int)
    requires Playable(s) && s.rate != 0.0 && s.goalWeight > 0.0 && Target(s, dt) != Phase(s)
    requires m < |s.clip.value.notifies|
    ensures Crosses(s, dt, m, n) <==>
            var run := MarkerRun(s, index, dt, m);
            run.Some? && exists k :: 0 <= k < run.value.remaining && n == run.value.cycle + k * run.value.step
  {
    if CanFire(s.clip.value.notifies[m]) {
      var point := Point(s.clip.value.notifies[m]);
      var from, to := Phase(s), Target(s, dt);
      FloorAtLeast(from - point, n);
      FloorAtLeast(from - point, 0);
      FloorAtLeast(to - point, n);
      FloorAtLeast(to - point, 0);
      var run := MarkerRun(s, index, dt, m);
      if run.Some? {
        var k := (n - run.value.cycle) * run.value.step;
        assert n == run.value.cycle + k * run.value.step;
        assert Crosses(s, dt, m, n) <==> 0 <= k < run.value.remaining;
        assert forall j :: n == run.value.cycle + j * run.value.step ==> j == k;
      } else {
        assert !Crosses(s, dt, m, n);
      }
    }
  }

  /** A looping clip moves the way its rate points. */
  lemma {:induction false} LoopingStepSign(s: NodeState, dt: real)
    requires Playable(s) && s.rate != 0.0 && dt >= 0.0 && s.clip.value.looping && Target(s, dt) != Phase(s)
    ensures Target(s, dt) > Phase(s) <==> s.rate > 0.0
  {
    var travel := Travel(dt, s.rate, Duration(s));
    assert travel * Duration(s) == dt * s.rate;
    if s.rate > 0.0 {
      assert dt * s.rate >= 0.0;
    } else {
      assert dt * s.rate <= 0.0;
    }
  }

  lemma QuotientUnique(x: real, q: real, r: real)
    requires r != 0.0 && q * r == x
    ensures x / r == q
  {}

  lemma ScaleThenDivide(a: real, d: real, r: real)
    requires r != 0.0
    ensures a * d / r == a * (d / r)
  {
    var unit := d / r;
    assert a * d == (a * unit) * r by {
      assert unit * r == d;
      assert a * (unit * r) == (a * unit) * r;
    }
    QuotientUnique(a * d, a * unit, r);
  }

  lemma Spacing(d: real, rate: real, step: int)
    requires rate != 0.0 && (if rate > 0.0 then step == 1 else step == -1)
    ensures d / AbsReal(rate) == step as real * (d / rate)
  {
    var unit := d / rate;
    assert unit * rate == d;
    QuotientUnique(d, step as real * unit, AbsReal(rate));
  }

  /** One step along the progression is one cycle of the marker, in seconds. */
  lemma SpacingIsOneCycle(first: int, point: real, phase: real, d: real, rate: real, k: nat, step: int)
    requires rate != 0.0 && (step == 1 || step == -1) && (k != 0 ==> (step == 1 <==> rate > 0.0))
    ensures SecondsTo(first, point, phase, d, rate) + k as real * (d / AbsReal(rate)) == SecondsTo(first + k * step, point, phase, d, rate)
  {
    var a := first as real + point - phase;
    assert (first + k * step) as real + point - phase == a + (k * step) as real;
    ScaleThenDivide(a, d, rate);
    ScaleThenDivide(a + (k * step) as real, d, rate);
    var unit := d / rate;
    if k == 0 {
      assert k as real == 0.0;
    } else {
      Spacing(d, rate, step);
      if step == 1 {
        assert (a + k as real) * unit == a * unit + k as real * unit;
      } else {
        assert (k * step) as real == -(k as real);
        assert (a - k as real) * unit == a * unit - k as real * unit;
      }
    }
  }

  lemma RunShape(s: NodeState, index: nat, dt: real, m: nat)
    requires Playable(s) && s.rate != 0.0 && m < |s.clip.value.notifies| && MarkerRun(s, index, dt, m).Some?
    ensures var run := MarkerRun(s, index, dt, m).value;
            && CanFire(s.clip.value.notifies[m])
            && run.node == index && run.marker == m
            && run.offset == SecondsTo(run.cycle, Point(s.clip.value.notifies[m]), Phase(s), Duration(s), s.rate)
            && run.spacing == Duration(s) / AbsReal(s.rate)
            && run.step == (if Target(s, dt) > Phase(s) then 1 else -1)
            && (!s.clip.value.looping ==> run.remaining == 1)
  {}

  /** Every event of the progression lies at the offset of its crossing. */
  lemma {:induction false} RunOffsetsExact(s: NodeState, index: nat, dt: real, m: nat, k: nat)
    requires Playable(s) && s.rate != 0.0 && dt >= 0.0 && Target(s, dt) != Phase(s)
    requires m < |s.clip.value.notifies|
    requires MarkerRun(s, index, dt, m).Some? && k < MarkerRun(s, index, dt, m).value.remaining
    ensures var run := MarkerRun(s, index, dt, m).value;
            && CanFire(s.clip.value.notifies[m])
            && At(run, k) == Event(CrossOffset(s, m, run.cycle + k * run.step), index, m, run.cycle + k * run.step)
  {
    RunShape(s, index, dt, m);
    if s.clip.value.looping {
      LoopingStepSign(s, dt);
    }
    var run := MarkerRun(s, index, dt, m).value;
    SpacingIsOneCycle(run.cycle, Point(s.clip.value.notifies[m]), Phase(s), Duration(s), s.rate, k, run.step);
  }

  /** The events of the progression are exactly the crossings of its marker. */
  lemma {:induction false} RunEventsExact(s: NodeState, index: nat, dt: real, m: nat, e: Event)
    requires Playable(s) && s.rate != 0.0 && dt >= 0.0 && s.goalWeight > 0.0 && Target(s, dt) != Phase(s)
    requires m < |s.clip.value.notifies|
    ensures (MarkerRun(s, index, dt, m).Some? && e in Events(MarkerRun(s, index, dt, m).value)) <==>
            (Crosses(s, dt, m, e.cycle) && e == Event(CrossOffset(s, m, e.cycle), index, m, e.cycle))
  {
    RunCyclesExact(s, index, dt, m, e.cycle);
    var run := MarkerRun(s, index, dt, m);
    if run.Some? {
      forall k | 0 <= k < run.value.remaining
        ensures At(run.value, k) == Event(CrossOffset(s, m, run.value.cycle + k * run.value.step), index, m, run.value.cycle + k * run.value.step)
      {
        RunOffsetsExact(s, index, dt, m, k);
      }
      if Crosses(s, dt, m, e.cycle) && e == Event(CrossOffset(s, m, e.cycle), index, m, e.cycle) {
        var k :| 0 <= k < run.value.remaining && e.cycle == run.value.cycle + k * run.value.step;
        assert e == At(run.value, k);
      }
    }
  }

  lemma {:induction false} ScaledBounds(n: int, point: real, phase: real, d: real, rate: real, dt: real)
    requires d > 0.0 && rate != 0.0
    requires rate > 0.0 ==> 0.0 <= n as real + point - phase <= Travel(dt, rate, d)
    requires rate < 0.0 ==> Travel(dt, rate, d) <= n as real + point - phase <= 0.0
    ensures 0.0 <= SecondsTo(n, point, phase, d, rate) <= dt
  {
    var a := n as real + point - phase;
    var b := Travel(dt, rate, d);
    assert b * d == dt * rate;
    var q := a * d / rate;
    assert q * rate == a * d;
    if rate > 0.0 {
      assert 0.0 <= a * d <= b * d;
    } else {
      assert b * d <= a * d <= 0.0;
    }
  }

  lemma PhaseInUnit(time: real, d: real)
    requires d > 0.0 && 0.0 <= time <= d
    ensures 0.0 <= time / d <= 1.0
  {}

  lemma TravelSign(dt: real, rate: real, d: real)
    requires d > 0.0 && dt >= 0.0
    ensures rate >= 0.0 ==> Travel(dt, rate, d) >= 0.0
    ensures rate <= 0.0 ==> Travel(dt, rate, d) <= 0.0
  {
    if rate >= 0.0 { assert dt * rate >= 0.0; }
    if rate <= 0.0 { assert dt * rate <= 0.0; }
  }

  /** Inside its range a clip moves the way its rate points, at most by the full travel. */
  lemma {:induction false} TargetBetween(s: NodeState, dt: real)
    requires Playable(s) && InRange(s) && dt >= 0.0
    ensures var travel := Travel(dt, s.rate, Duration(s));
            && (s.rate >= 0.0 ==> Phase(s) <= Target(s, dt) <= Phase(s) + travel)
            && (s.rate <= 0.0 ==> Phase(s) + travel <= Target(s, dt) <= Phase(s))
  {
    if !s.clip.value.looping {
      PhaseInUnit(s.time, Duration(s));
    }
    TravelSign(dt, s.rate, Duration(s));
  }

  /** A marker fires at the place in the clip that is nearest to its own. */
  lemma PointIsNearest(n: Notify, x: real)
    requires n.time.Finite? && 0.0 <= x <= 1.0
    ensures 0.0 <= Point(n) <= 1.0 && AbsReal(Point(n) - n.time.value) <= AbsReal(x - n.time.value)
  {}

  /** Crossings happen inside the step as long as the clip is inside its range. */
  lemma {:induction false} OffsetInsideStep(s: NodeState, dt: real, m: nat, n: int)
    requires Playable(s) && InRange(s) && s.rate != 0.0 && dt >= 0.0
    requires Crosses(s, dt, m, n)
    ensures 0.0 <= CrossOffset(s, m, n) <= dt
  {
    TargetBetween(s, dt);
    ScaledBounds(n, Point(s.clip.value.notifies[m]), Phase(s), Duration(s), s.rate, dt);
  }
}
