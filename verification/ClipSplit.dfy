/** Cutting a step in two: one step of d1 + d2 and a step of d1 followed by a
    step of d2 leave the same nodes and report the same notifications. */
module ClipSplit {
  import opened ClipModel
  import opened ClipCrossings

  // ---------- phases ----------

  lemma ScaleRoundTrip(x: real, d: real)
    requires d != 0.0
    ensures SecondsAt(x, d) / d == x
  {}

  lemma {:induction false} PhaseAfter(s: NodeState, dt: real)
    requires Playable(s)
    ensures Playable(Played(s, dt)) && Phase(Played(s, dt)) == Target(s, dt)
  {
    var to := Target(s, dt);
    ScaleRoundTrip(to, Duration(s));
    ScaleRoundTrip(to - to.Floor as real, Duration(s));
  }

  lemma TravelAdds(d1: real, d2: real, rate: real, duration: real)
    requires duration > 0.0
    ensures Travel(d1, rate, duration) + Travel(d2, rate, duration) == Travel(d1 + d2, rate, duration)
  {
    var unit := rate / duration;
    ScaleThenDivide(d1, rate, duration);
    ScaleThenDivide(d2, rate, duration);
    ScaleThenDivide(d1 + d2, rate, duration);
    assert (d1 + d2) * unit == d1 * unit + d2 * unit;
  }

  lemma PhaseOfTime(x: real, d: real)
    requires d > 0.0 && 0.0 <= x <= 1.0
    ensures 0.0 <= SecondsAt(x, d) <= d
  {}

  lemma {:induction false} TimeAfter(s: NodeState, dt: real)
    requires Playable(s) && !s.clip.value.looping
    ensures 0.0 <= Played(s, dt).time <= Duration(s)
  {
    PhaseOfTime(Target(s, dt), Duration(s));
  }

  lemma InRangeFrom(s: NodeState, after: NodeState)
    requires after.clip == s.clip
    requires Playable(s) && !s.clip.value.looping ==> 0.0 <= after.time <= Duration(s)
    ensures InRange(after)
  {}

  lemma {:induction false} PlayedInRange(s: NodeState, dt: real)
    ensures InRange(Played(s, dt))
  {
    PlayedKeeps(s, dt);
    if Playable(s) && !s.clip.value.looping {
      TimeAfter(s, dt);
    }
    InRangeFrom(s, Played(s, dt));
  }

  /** Where a clip is after both parts is where it is after the whole. */
  lemma {:induction false} TargetSplit(s: NodeState, d1: real, d2: real)
    requires Playable(s) && InRange(s) && d1 >= 0.0 && d2 >= 0.0
    ensures Playable(Played(s, d1)) && Target(Played(s, d1), d2) == Target(s, d1 + d2)
  {
    PhaseAfter(s, d1);
    TravelAdds(d1, d2, s.rate, Duration(s));
    TravelSign(d1, s.rate, Duration(s));
    TravelSign(d2, s.rate, Duration(s));
    if !s.clip.value.looping {
      PhaseInUnit(s.time, Duration(s));
    }
  }

  lemma {:induction false} PlayedSplit(s: NodeState, d1: real, d2: real)
    requires InRange(s) && d1 >= 0.0 && d2 >= 0.0
    ensures Played(Played(s, d1), d2) == Played(s, d1 + d2)
  {
    if Playable(s) {
      TargetSplit(s, d1, d2);
      PhaseAfter(s, d1);
      PlayedInRange(s, d1);
      TargetBetween(s, d1);
      TargetBetween(Played(s, d1), d2);
    }
  }

  // ---------- weights ----------

  lemma {:induction false} SlideAdds(weight: real, goal: real, d1: real, d2: real, remaining: real)
    requires 0.0 <= d1 < remaining
    ensures Slide(Slide(weight, goal, d1, remaining), goal, d2, remaining - d1) == Slide(weight, goal, d1 + d2, remaining)
  {
    var slope := (goal - weight) / remaining;
    assert slope * remaining == goal - weight;
    ScaleRight(goal - weight, d1, remaining);
    ScaleRight(goal - weight, d1 + d2, remaining);
    var mid := Slide(weight, goal, d1, remaining);
    assert mid == weight + slope * d1;
    assert goal - mid == slope * (remaining - d1);
    ScaleRight(goal - mid, d2, remaining - d1);
    QuotientUnique(goal - mid, slope, remaining - d1);
    assert slope * (d1 + d2) == slope * d1 + slope * d2;
  }

  lemma ScaleRight(a: real, x: real, r: real)
    requires r != 0.0
    ensures a * x / r == (a / r) * x
  {
    assert x * a == a * x;
    ScaleThenDivide(x, a, r);
  }

  lemma {:induction false} BlendedSplit(s: NodeState, d1: real, d2: real)
    requires d1 >= 0.0 && d2 >= 0.0
    ensures Blended(Blended(s, d1), d2) == Blended(s, d1 + d2)
  {
    if s.goalTimeRemaining > 0.0 && s.goalTimeRemaining - Min(d1, s.goalTimeRemaining) > EPSILON {
      SlideAdds(s.weight, s.goalWeight, d1, d2, s.goalTimeRemaining);
      BlendedIsSlide(s, d1);
      BlendedIsSlide(Blended(s, d1), d2);
      BlendedIsSlide(s, d1 + d2);
    }
  }

  lemma BlendedIsSlide(s: NodeState, dt: real)
    requires s.goalTimeRemaining > 0.0 && dt >= 0.0
    ensures Blended(s, dt) == if s.goalTimeRemaining - Min(dt, s.goalTimeRemaining) <= EPSILON
                              then s.(weight := s.goalWeight, goalTimeRemaining := 0.0)
                              else s.(weight := Slide(s.weight, s.goalWeight, dt, s.goalTimeRemaining), goalTimeRemaining := s.goalTimeRemaining - dt)
  {}

  lemma {:induction false} SlideBetween(weight: real, goal: real, step: real, remaining: real)
    requires 0.0 <= step <= remaining && remaining > 0.0
    ensures weight > 0.0 && goal > 0.0 ==> Slide(weight, goal, step, remaining) > 0.0
    ensures weight <= 0.0 && goal <= 0.0 ==> Slide(weight, goal, step, remaining) <= 0.0
  {
    var slid := Slide(weight, goal, step, remaining);
    var q := (goal - weight) * step / remaining;
    assert q * remaining == (goal - weight) * step;
    assert slid * remaining == weight * (remaining - step) + goal * step by {
      assert slid * remaining == weight * remaining + q * remaining;
    }
    assert weight >= 0.0 ==> weight * (remaining - step) >= 0.0;
    assert goal >= 0.0 ==> goal * step >= 0.0;
    assert weight <= 0.0 ==> weight * (remaining - step) <= 0.0;
    assert goal <= 0.0 ==> goal * step <= 0.0;
    if weight > 0.0 && goal > 0.0 {
      if step > 0.0 {
        assert goal * step > 0.0;
      } else {
        assert weight * remaining > 0.0;
      }
    }
  }

  /** The weight does not switch the node on or off on the way to its goal. */
  predicate Steady(s: NodeState) {
    || s.goalTimeRemaining <= 0.0
    || (s.weight > 0.0 && s.goalWeight > 0.0)
    || (s.weight <= 0.0 && s.goalWeight <= 0.0)
  }

  lemma {:induction false} SteadyStays(s: NodeState, dt: real)
    requires Steady(s) && dt >= 0.0
    ensures s.weight > 0.0 <==> Advanced(s, dt).weight > 0.0
  {
    if s.goalTimeRemaining > 0.0 {
      SlideBetween(s.weight, s.goalWeight, Min(dt, s.goalTimeRemaining), s.goalTimeRemaining);
    }
  }

  lemma BlendedKeeps(s: NodeState, dt: real)
    ensures Blended(s, dt) == s.(weight := Blended(s, dt).weight, goalTimeRemaining := Blended(s, dt).goalTimeRemaining)
  {}

  lemma PlayedKeeps(s: NodeState, dt: real)
    ensures Played(s, dt) == s.(time := Played(s, dt).time, cycle := Played(s, dt).cycle, initial := Played(s, dt).initial)
  {}

  lemma {:induction false} PlayIgnoresBlend(s: NodeState, d1: real, d2: real)
    ensures Played(Blended(s, d1), d2) == Blended(Played(s, d2), d1)
  {
    BlendedKeeps(s, d1);
    PlayedKeeps(s, d2);
    var b := Blended(s, d1);
    if Playable(s) {
      assert Target(b, d2) == Target(s, d2);
    }
  }

  /** Two parts of a step leave a steady node as the whole step does. */
  lemma {:induction false} AdvancedSplit(s: NodeState, d1: real, d2: real)
    requires Steady(s) && InRange(s) && d1 >= 0.0 && d2 >= 0.0
    ensures Advanced(Advanced(s, d1), d2) == Advanced(s, d1 + d2)
  {
    SteadyStays(s, d1);
    BlendedSplit(s, d1, d2);
    if s.weight > 0.0 {
      PlayIgnoresBlend(Played(s, d1), d1, d2);
      PlayedSplit(s, d1, d2);
      BlendedSplit(Played(s, d1 + d2), d1, d2);
    }
  }

  // ---------- crossings ----------

  /** A marker is passed in the whole step iff it is passed in one of its parts. */
  lemma {:induction false} CrossesSplit(s: NodeState, d1: real, d2: real, m: nat, n: int)
    requires InRange(s) && d1 >= 0.0 && d2 >= 0.0
    ensures Crosses(s, d1 + d2, m, n) <==> Crosses(s, d1, m, n) || Crosses(Played(s, d1), d2, m, n)
    ensures !(Crosses(s, d1, m, n) && Crosses(Played(s, d1), d2, m, n))
  {
    if Playable(s) {
      PhaseAfter(s, d1);
      TargetSplit(s, d1, d2);
      PlayedInRange(s, d1);
      TargetBetween(s, d1);
      TargetBetween(Played(s, d1), d2);
    } else {
      PlayedKeeps(s, d1);
    }
  }

  lemma {:induction false} SecondsShift(n: int, point: real, from: real, mid: real, duration: real, rate: real,
          dt: real)
    requires duration > 0.0 && rate != 0.0 && mid == from + Travel(dt, rate, duration)
    ensures SecondsTo(n, point, from, duration, rate) == SecondsTo(n, point, mid, duration, rate) + dt
  {
    var unit := duration / rate;
    var travel := Travel(dt, rate, duration);
    ScaleThenDivide(n as real + point - from, duration, rate);
    ScaleThenDivide(n as real + point - mid, duration, rate);
    ScaleThenDivide(travel, duration, rate);
    assert travel * duration == dt * rate;
    QuotientUnique(dt * rate, dt, rate);
    assert (n as real + point - from) * unit == (n as real + point - mid) * unit + travel * unit;
  }

  /** A crossing of the second part happens d1 later in the whole step. */
  lemma {:induction false} OffsetShift(s: NodeState, d1: real, d2: real, m: nat, n: int)
    requires InRange(s) && d1 >= 0.0 && d2 >= 0.0 && s.rate != 0.0
    requires Crosses(Played(s, d1), d2, m, n)
    ensures Playable(s) && Played(s, d1).rate == s.rate
    ensures m < |s.clip.value.notifies| && CanFire(s.clip.value.notifies[m])
    ensures CrossOffset(s, m, n) == CrossOffset(Played(s, d1), m, n) + d1
  {
    PlayedKeeps(s, d1);
    PhaseAfter(s, d1);
    var s1 := Played(s, d1);
    TravelSign(d1, s.rate, Duration(s));
    TravelSign(d2, s.rate, Duration(s));
    assert Phase(s1) == Phase(s) + Travel(d1, s.rate, Duration(s)) by {
      assert Target(s1, d2) != Phase(s1);
      if !s.clip.value.looping {
        PhaseInUnit(s.time, Duration(s));
      }
    }
    SecondsShift(n, Point(s.clip.value.notifies[m]), Phase(s), Phase(s1), Duration(s), s.rate, d1);
  }

  lemma {:induction false} SecondsPositive(n: int, point: real, from: real, duration: real, rate: real)
    requires duration > 0.0 && rate != 0.0
    requires if rate > 0.0 then n as real + point > from else n as real + point < from
    ensures SecondsTo(n, point, from, duration, rate) > 0.0
  {
    var a := n as real + point - from;
    var q := SecondsTo(n, point, from, duration, rate);
    assert q * rate == a * duration;
    if rate > 0.0 {
      assert a * duration > 0.0;
    } else {
      assert a * duration < 0.0;
    }
  }

  /** Nothing of the second part happens at its very start, unless nothing moved before. */
  lemma {:induction false} SecondPartIsLater(s: NodeState, d1: real, d2: real, m: nat, n: int)
    requires InRange(s) && d1 > 0.0 && d2 >= 0.0 && s.rate != 0.0
    requires Crosses(Played(s, d1), d2, m, n)
    ensures CrossOffset(Played(s, d1), m, n) > 0.0
  {
    var s1 := Played(s, d1);
    PlayedKeeps(s, d1);
    PhaseAfter(s, d1);
    PlayedInRange(s, d1);
    TargetBetween(s, d1);
    TargetBetween(s1, d2);
    TravelNonZero(d1, s.rate, Duration(s));
    TravelSign(d1, s.rate, Duration(s));
    if !s.clip.value.looping {
      PhaseInUnit(s.time, Duration(s));
    }
    SecondsPositive(n, Point(s.clip.value.notifies[m]), Phase(s1), Duration(s), s.rate);
  }

  lemma TravelNonZero(dt: real, rate: real, duration: real)
    requires dt > 0.0 && rate != 0.0 && duration > 0.0
    ensures Travel(dt, rate, duration) != 0.0
  {
    assert Travel(dt, rate, duration) * duration == dt * rate;
    if rate > 0.0 {
      assert dt * rate > 0.0;
    } else {
      assert dt * rate < 0.0;
    }
  }
}
