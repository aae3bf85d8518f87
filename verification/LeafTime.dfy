/** How a playing leaf's time advances: crates/anim_iw4/src/xanim_time.rs. */
module LeafTime {
  import opened ClipModel

  /** Where a finished clip is parked, just below one: 1 - 2^-23. */
  const PARK: real := 1.0 - 1.0 / 8388608.0

  /** A cycle count is a 16-bit number that wraps. */
  function Wrap16(n: int): int {
    (n + 32768) % 65536 - 32768
  }

  predicate Fits16(n: int) {
    -32768 <= n < 32768
  }

  /** Clip lengths covered in a step. */
  function Delta(rate: real, frequency: real, dtime: real): real {
    rate * frequency * dtime
  }

  function Frequency(duration: real): real
    requires duration != 0.0
  {
    1.0 / duration
  }

  /** Seconds as clip lengths. */
  function Lengths(time: real, duration: real): real
    requires duration != 0.0
  {
    time / duration
  }

  /** Time and cycle after a step. */
  function Leaf(time: real, cycle: int, delta: real, looping: bool): (real, int) {
    var total := time + delta;
    if delta == 0.0 then (time, cycle)
    else if total < 1.0 then (total, cycle)
    else if looping then (total - total.Floor as real, Wrap16(cycle + total.Floor))
    else (if time < PARK then PARK else 1.0, cycle)
  }

  /** The subtraction of whole cycles, one at a time. */
  method AdvanceLeafTime(oldTime: real, cycleCount: int, rate: real, frequency: real, dtime: real,
          looping: bool)
    returns (time: real, cycle: int)
    requires Fits16(cycleCount)
    ensures (time, cycle) == Leaf(oldTime, cycleCount, Delta(rate, frequency, dtime), looping)
    ensures Fits16(cycle)
  {
    var delta := Delta(rate, frequency, dtime);
    if delta == 0.0 {
      return oldTime, cycleCount;
    }
    time := oldTime + delta;
    cycle := cycleCount;
    ghost var total := time;
    if time >= 1.0 {
      if looping {
        ghost var whole := 0;
        while time >= 1.0
          invariant whole >= 0 && time == total - whole as real && time >= 0.0
          invariant cycle == Wrap16(cycleCount + whole)
          decreases time.Floor
        {
          time := time - 1.0;
          cycle := Wrap16(cycle + 1);
          WrapOnce(cycleCount + whole);
          whole := whole + 1;
        }
        assert total.Floor == whole;
      } else if oldTime - PARK < 0.0 {
        time := PARK;
      } else {
        time := 1.0;
      }
    }
  }

  lemma WrapOnce(n: int)
    ensures Wrap16(Wrap16(n) + 1) == Wrap16(n + 1)
  {}

  /** A looping step forwards keeps cycles and time together, up to the wrap of the
      cycle count, and ends inside the clip. */
  lemma LoopConserves(time: real, cycle: int, delta: real)
    requires Fits16(cycle) && 0.0 <= time < 1.0 && 0.0 <= time + delta
    ensures var (t, c) := Leaf(time, cycle, delta, true);
            var whole := (time + delta).Floor;
            0.0 <= t < 1.0 && t + whole as real == time + delta && c == Wrap16(cycle + whole)
  {
    WrapFits(cycle);
  }

  /** A looping clip inside its cycle. */
  predicate Looping(s: NodeState) {
    Playable(s) && s.clip.value.looping && 0.0 <= s.time < Duration(s) && Fits16(s.cycle)
  }

  /** The leaf, which counts in clip lengths and is given the clip's frequency, agrees
      with the scheduler, which counts in seconds, exactly when the step does not end
      before the start of the clip, and the cycle count does not overflow. */
  lemma {:induction false} AgreesWithScheduler(s: NodeState, dt: real)
    requires Looping(s)
    ensures var d := Duration(s);
            var delta := Delta(s.rate, Frequency(d), dt);
            var total := Lengths(s.time, d) + delta;
            Leaf(Lengths(s.time, d), s.cycle, delta, true) == (Lengths(Played(s, dt).time, d), Played(s, dt).cycle)
            <==> total >= 0.0 && Fits16(s.cycle + total.Floor)
  {
    var d := Duration(s);
    var delta := Delta(s.rate, Frequency(d), dt);
    var start := Lengths(s.time, d);
    var total := start + delta;
    InUnit(s.time, d);
    SameTravel(s.rate, d, dt);
    assert Target(s, dt) == s.cycle as real + total;
    ShiftedFloor(s.cycle, total);
    ScaledBack(total - total.Floor as real, d);
    assert Played(s, dt).cycle == s.cycle + total.Floor;
    assert Played(s, dt).time == SecondsAt(total - total.Floor as real, d);
    LeafIsWhole(start, s.cycle, delta);
  }

  lemma {:induction false} LeafIsWhole(start: real, cycle: int, delta: real)
    requires 0.0 <= start < 1.0 && Fits16(cycle)
    ensures var total := start + delta;
            Leaf(start, cycle, delta, true) == (total - total.Floor as real, cycle + total.Floor)
            <==> total >= 0.0 && Fits16(cycle + total.Floor)
  {
    WrapFits(cycle + (start + delta).Floor);
  }

  lemma InUnit(time: real, d: real)
    requires d > 0.0 && 0.0 <= time < d
    ensures 0.0 <= Lengths(time, d) < 1.0
  {
    var part := time / d;
    assert part * d == time;
    assert (1.0 - part) * d == d - time;
    FactorPositive(1.0 - part, d);
  }

  lemma FactorPositive(a: real, d: real)
    requires d > 0.0 && a * d > 0.0
    ensures a > 0.0
  {}

  lemma SameTravel(rate: real, d: real, dt: real)
    requires d > 0.0
    ensures Delta(rate, Frequency(d), dt) == Travel(dt, rate, d)
  {
    var f := 1.0 / d;
    assert f * d == 1.0;
    assert (rate * f * dt) * d == dt * rate * (f * d);
  }

  lemma ScaledBack(x: real, d: real)
    requires d != 0.0
    ensures Lengths(SecondsAt(x, d), d) == x
  {}

  lemma ShiftedFloor(n: int, x: real)
    ensures (n as real + x).Floor == n + x.Floor
  {}

  lemma WrapFits(n: int)
    ensures Wrap16(n) == n <==> Fits16(n)
  {}

  /** A clip that does not loop never passes its end: it is parked just before it when
      it gets there, and stands at it from the next step on. */
  lemma {:induction false} ParkedThenDone(time: real, cycle: int, delta: real)
    requires delta > 0.0 && time <= 1.0
    ensures Leaf(time, cycle, delta, false).1 == cycle
    ensures time + delta < 1.0 ==> Leaf(time, cycle, delta, false).0 == time + delta
    ensures time + delta >= 1.0 && time < PARK ==> Leaf(time, cycle, delta, false).0 == PARK
    ensures Leaf(time, cycle, delta, false).0 <= 1.0
    ensures delta >= 1.0 - PARK ==> Leaf(PARK, cycle, delta, false).0 == 1.0 == Leaf(1.0, cycle, delta, false).0
    ensures PARK == 8388607.0 / 8388608.0
  {}
}
