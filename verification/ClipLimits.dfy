/** Where the promises of the scheduler stop: the exact conditions under which a
    node may be stepped in parts, and under which crossings lie inside the step. */
module ClipLimits {
  import opened Wrappers
  import opened ClipModel
  import opened ClipCrossings
  import opened ClipSplit

  // ---------- dividing a step ----------

  /** The node may be stepped in any two parts. */
  ghost predicate Divisible(s: NodeState) {
    forall d1: real, d2: real :: d1 >= 0.0 && d2 >= 0.0 ==> Advanced(Advanced(s, d1), d2) == Advanced(s, d1 + d2)
  }

  /** Playing never runs from outside into a clip whose ends it is held between. */
  predicate PlaysOn(s: NodeState) {
    Playable(s) && !s.clip.value.looping ==>
      (s.rate >= 0.0 && s.time >= 0.0) || (s.rate <= 0.0 && s.time <= Duration(s))
  }

  /** The time is one that playing can leave behind. */
  predicate InsideClip(s: NodeState) {
    if s.clip.None? then true
    else if !Playable(s) then s.time == 0.0
    else 0.0 <= s.time && if s.clip.value.looping then s.time < Duration(s) else s.time <= Duration(s)
  }

  /** Once dt has been played, nothing moves any more: the clip stands still or is
      at the end it plays towards. */
  predicate RestsAfter(s: NodeState, dt: real) {
    || !Playable(s)
    || s.rate == 0.0
    || (!s.clip.value.looping &&
          var at := Phase(s) + Travel(dt, s.rate, Duration(s));
          if s.rate > 0.0 then at >= 1.0 else at <= 0.0)
  }

  /** When a weight on its way to a goal below zero, or at it, passes zero. */
  function FallTime(weight: real, goal: real, remaining: real): real
    requires weight > 0.0 && goal <= 0.0
  {
    weight * remaining / (weight - goal)
  }

  /** When a weight that fades out is no longer positive: on its way down, or where
      what remains is too short to be waited for. */
  function SilentAt(s: NodeState): real
    requires s.weight > 0.0 && s.goalWeight <= 0.0
  {
    var down := Min(s.goalTimeRemaining - EPSILON, FallTime(s.weight, s.goalWeight, s.goalTimeRemaining));
    if down < 0.0 then 0.0 else down
  }

  /** What a caller can look up before dividing a step. A node that is silent all
      along may always be divided, one that fades in must not move, one that fades
      out must have come to rest by then. */
  predicate MayDivide(s: NodeState) {
    if s.weight <= 0.0 then s.goalTimeRemaining <= 0.0 || s.goalWeight <= 0.0 || (InsideClip(s) && RestsAfter(s, 0.0))
    else PlaysOn(s) && (s.goalTimeRemaining <= 0.0 || s.goalWeight > 0.0 || RestsAfter(s, SilentAt(s)))
  }

  lemma {:induction false} SilentExact(s: NodeState, dt: real)
    requires s.weight > 0.0 && s.goalWeight <= 0.0 && s.goalTimeRemaining > 0.0 && dt >= 0.0
    ensures Blended(s, dt).weight <= 0.0 <==> dt >= SilentAt(s)
  {
    BlendedIsSlide(s, dt);
    SlideReachesZero(s.weight, s.goalWeight, s.goalTimeRemaining, dt);
  }

  lemma {:induction false} SlideReachesZero(weight: real, goal: real, remaining: real, dt: real)
    requires weight > 0.0 && goal <= 0.0 && remaining > 0.0
    ensures Slide(weight, goal, dt, remaining) <= 0.0 <==> dt >= FallTime(weight, goal, remaining)
  {
    var fall := weight - goal;
    var q := FallTime(weight, goal, remaining);
    var x := (goal - weight) * dt / remaining;
    assert q * fall == weight * remaining;
    assert x * remaining == -(fall * dt);
    Regroup(weight, x, remaining, fall, q, dt);
    SameSign(weight + x, remaining, fall, q - dt);
  }

  lemma Regroup(w: real, x: real, r: real, f: real, q: real, dt: real)
    requires q * f == w * r && x * r == -(f * dt)
    ensures (w + x) * r == f * (q - dt)
  {
    assert (w + x) * r == w * r + x * r;
    assert f * (q - dt) == q * f - f * dt;
  }

  lemma SameSign(a: real, r: real, f: real, b: real)
    requires r > 0.0 && f > 0.0 && a * r == f * b
    ensures a <= 0.0 <==> b <= 0.0
  {}

  lemma {:induction false} PlayedOn(s: NodeState, d1: real, d2: real)
    requires PlaysOn(s) && d1 >= 0.0 && d2 >= 0.0
    ensures Played(Played(s, d1), d2) == Played(s, d1 + d2)
  {
    if InRange(s) {
      PlayedSplit(s, d1, d2);
    } else {
      var d := Duration(s);
      PhaseAfter(s, d1);
      TravelSign(d1, s.rate, d);
      TravelSign(d2, s.rate, d);
      TravelSign(d1 + d2, s.rate, d);
      PhaseOutside(s);
    }
  }

  lemma {:induction false} PhaseOutside(s: NodeState)
    requires Playable(s) && !s.clip.value.looping
    ensures s.time > Duration(s) <==> Phase(s) > 1.0
    ensures s.time < 0.0 <==> Phase(s) < 0.0
  {
    assert Phase(s) * Duration(s) == s.time;
    SameSign(Phase(s), Duration(s), 1.0, s.time);
    SameSign(-Phase(s), Duration(s), 1.0, -s.time);
    SameSign(Phase(s) - 1.0, Duration(s), 1.0, s.time - Duration(s));
  }

  /** Seconds in which the phase goes from one place to another. */
  lemma {:induction false} TravelTakes(from: real, to: real, rate: real, d: real) returns (dt: real)
    requires rate != 0.0 && d > 0.0 && (rate > 0.0 <==> to > from) && to != from
    ensures dt > 0.0 && Travel(dt, rate, d) == to - from
  {
    dt := (to - from) * d / rate;
    assert dt * rate == (to - from) * d;
    QuotientUnique(dt * rate, to - from, d);
    if rate > 0.0 {
      assert (to - from) * d > 0.0;
    } else {
      assert (to - from) * d < 0.0;
    }
  }

  /** Held back to its end first, a node that plays back into its clip comes ahead. */
  lemma {:induction false} HeldBack(s: NodeState) returns (dt: real)
    requires !PlaysOn(s)
    ensures dt >= 0.0 && Playable(Played(s, 0.0)) && Target(Played(s, 0.0), dt) != Target(s, dt)
  {
    PhaseOutside(s);
    PhaseAfter(s, 0.0);
    var end := if s.rate > 0.0 then 0.0 else 1.0;
    dt := TravelTakes(Phase(s), end, s.rate, Duration(s));
    assert Travel(0.0, s.rate, Duration(s)) == 0.0;
    assert Phase(Played(s, 0.0)) == end;
  }

  lemma {:induction false} PlayedRests(s: NodeState, d1: real, d2: real)
    requires RestsAfter(s, d1) && d1 >= 0.0 && d2 >= 0.0
    ensures Played(s, d1) == Played(s, d1 + d2)
  {
    if Playable(s) {
      TravelAdds(d1, d2, s.rate, Duration(s));
      TravelSign(d2, s.rate, Duration(s));
    }
  }

  /** And what does not rest is somewhere else later. */
  lemma {:induction false} MovesOn(s: NodeState, d1: real) returns (d2: real)
    requires !RestsAfter(s, d1) && d1 >= 0.0
    ensures d2 >= 0.0 && Target(s, d1 + d2) != Target(s, d1)
  {
    var at := Phase(s) + Travel(d1, s.rate, Duration(s));
    if s.clip.value.looping {
      d2 := 1.0;
      TravelNonZero(d2, s.rate, Duration(s));
    } else {
      d2 := TravelTakes(at, if s.rate > 0.0 then 1.0 else 0.0, s.rate, Duration(s));
    }
    TravelAdds(d1, d2, s.rate, Duration(s));
  }

  lemma {:induction false} InsideExact(s: NodeState)
    ensures Played(s, 0.0) == s <==> InsideClip(s)
  {
    if Playable(s) {
      var d := Duration(s);
      assert Travel(0.0, s.rate, d) == 0.0;
      var part := s.time / d;
      assert part * d == s.time;
      SameSign(-part, d, 1.0, -s.time);
      SameSign(part, d, 1.0, s.time);
      SameSign(part - 1.0, d, 1.0, s.time - d);
      SameSign(1.0 - part, d, 1.0, d - s.time);
      if s.clip.value.looping {
        FloorAtLeast(Phase(s), s.cycle);
        FloorAtLeast(Phase(s), s.cycle + 1);
        var to := Phase(s);
        var rest := to - to.Floor as real;
        ScaleRoundTrip(rest, d);
      } else {
        ScaleRoundTrip(Target(s, 0.0), d);
      }
    }
  }

  lemma {:induction false} SteppedPlaying(s: NodeState, d1: real, d2: real)
    requires d1 >= 0.0 && d2 >= 0.0 && s.weight > 0.0 && Advanced(s, d1).weight > 0.0
    ensures Advanced(Advanced(s, d1), d2) == Blended(Played(Played(s, d1), d2), d1 + d2)
  {
    PlayIgnoresBlend(Played(s, d1), d1, d2);
    BlendedSplit(Played(Played(s, d1), d2), d1, d2);
  }

  lemma {:induction false} SteppedSilent(s: NodeState, d1: real, d2: real)
    requires d1 >= 0.0 && d2 >= 0.0 && s.weight > 0.0 && Advanced(s, d1).weight <= 0.0
    ensures Advanced(Advanced(s, d1), d2) == Blended(Played(s, d1), d1 + d2)
  {
    BlendedSplit(Played(s, d1), d1, d2);
  }

  lemma {:induction false} SteppedAwake(s: NodeState, d1: real, d2: real)
    requires d1 >= 0.0 && d2 >= 0.0 && s.weight <= 0.0
    ensures Advanced(s, d1 + d2) == Blended(s, d1 + d2)
    ensures Advanced(Advanced(s, d1), d2) == Blended(if Blended(s, d1).weight > 0.0 then Played(s, d2) else s, d1 + d2)
  {
    BlendedSplit(s, d1, d2);
    PlayIgnoresBlend(s, d1, d2);
    BlendedSplit(Played(s, d2), d1, d2);
  }

  /** Blending hides no difference of what has been played. */
  lemma {:induction false} BlendedDiffers(s: NodeState, t: NodeState, dt: real)
    requires (s.clip, s.time, s.cycle, s.initial) != (t.clip, t.time, t.cycle, t.initial)
    ensures Blended(s, dt) != Blended(t, dt)
  {
    BlendedKeeps(s, dt);
    BlendedKeeps(t, dt);
  }

  lemma {:induction false} PlayedDiffers(s: NodeState, t: NodeState, dt: real)
    requires Playable(s) && Playable(t) && s.clip == t.clip && Phase(s) != Phase(t)
    ensures Blended(s, dt) != Blended(t, dt)
  {
    BlendedDiffers(s, t, dt);
  }

  /** A node that fades in from nothing is not moved by the step that wakes it, so
      it ends elsewhere when the step is divided, unless it does not move at all. */
  lemma {:induction false} FadeInDependsOnSteps(s: NodeState)
    requires s.goalTimeRemaining > 0.0 && s.weight <= 0.0 && s.goalWeight > 0.0
    ensures Divisible(s) <==> InsideClip(s) && RestsAfter(s, 0.0)
  {
    var r := s.goalTimeRemaining;
    InsideExact(s);
    if InsideClip(s) && RestsAfter(s, 0.0) {
      forall d1: real, d2: real | d1 >= 0.0 && d2 >= 0.0
        ensures Advanced(Advanced(s, d1), d2) == Advanced(s, d1 + d2)
      {
        SteppedAwake(s, d1, d2);
        PlayedRests(s, 0.0, d2);
      }
    } else if !InsideClip(s) {
      SteppedAwake(s, r, 0.0);
      PlayedKeeps(s, 0.0);
      BlendedDiffers(Played(s, 0.0), s, r);
    } else {
      var dt := MovesOn(s, 0.0);
      PhaseAfter(s, 0.0);
      PhaseAfter(s, dt);
      SteppedAwake(s, r, dt);
      PlayedKeeps(s, dt);
      PlayedDiffers(Played(s, dt), s, r + dt);
    }
  }

  /** A node that fades out is not moved by the steps after it has fallen silent, so
      it must rest by then. */
  lemma {:induction false} FadeOutDependsOnSteps(s: NodeState)
    requires s.goalTimeRemaining > 0.0 && s.weight > 0.0 && s.goalWeight <= 0.0
    ensures Divisible(s) <==> PlaysOn(s) && RestsAfter(s, SilentAt(s))
  {
    var silent := SilentAt(s);
    if !RestsAfter(s, silent) {
      var dt := MovesOn(s, silent);
      FadesOut(s, silent);
      SteppedSilent(s, silent, dt);
      PhaseAfter(s, silent);
      PhaseAfter(s, silent + dt);
      PlayedKeeps(s, silent);
      PlayedKeeps(s, silent + dt);
      PlayedDiffers(Played(s, silent), Played(s, silent + dt), silent + dt);
    } else if !PlaysOn(s) {
      PhaseOutside(s);
      assert Travel(0.0, s.rate, Duration(s)) == 0.0;
      FadesOut(s, 0.0);
      HeldBackDiffers(s);
    } else {
      forall d1: real, d2: real | d1 >= 0.0 && d2 >= 0.0
        ensures Advanced(Advanced(s, d1), d2) == Advanced(s, d1 + d2)
      {
        FadesOut(s, d1);
        if d1 < silent {
          SteppedPlaying(s, d1, d2);
          PlayedOn(s, d1, d2);
        } else {
          SteppedSilent(s, d1, d2);
          PlayedRests(s, silent, d1 - silent);
          PlayedRests(s, silent, d1 + d2 - silent);
        }
      }
    }
  }

  lemma {:induction false} FadesOut(s: NodeState, dt: real)
    requires s.weight > 0.0 && s.goalWeight <= 0.0 && s.goalTimeRemaining > 0.0 && dt >= 0.0
    ensures Advanced(s, dt).weight <= 0.0 <==> dt >= SilentAt(s)
  {
    PlayedKeeps(s, dt);
    SilentExact(Played(s, dt), dt);
  }

  lemma {:induction false} HeldBackDiffers(s: NodeState)
    requires s.weight > 0.0 && Advanced(s, 0.0).weight > 0.0 && !PlaysOn(s)
    ensures !Divisible(s)
  {
    var dt := HeldBack(s);
    SteppedPlaying(s, 0.0, dt);
    PhaseAfter(s, 0.0);
    PhaseAfter(s, dt);
    PhaseAfter(Played(s, 0.0), dt);
    PlayedKeeps(s, 0.0);
    PlayedKeeps(Played(s, 0.0), dt);
    PlayedKeeps(s, dt);
    PlayedDiffers(Played(Played(s, 0.0), dt), Played(s, dt), dt);
    assert Advanced(Advanced(s, 0.0), dt) != Advanced(s, 0.0 + dt);
  }

  lemma {:induction false} SteadyDivides(s: NodeState)
    requires Steady(s) && s.weight > 0.0
    ensures Divisible(s) <==> PlaysOn(s)
  {
    if PlaysOn(s) {
      forall d1: real, d2: real | d1 >= 0.0 && d2 >= 0.0
        ensures Advanced(Advanced(s, d1), d2) == Advanced(s, d1 + d2)
      {
        SteadyStays(s, d1);
        SteppedPlaying(s, d1, d2);
        PlayedOn(s, d1, d2);
      }
    } else {
      SteadyStays(s, 0.0);
      HeldBackDiffers(s);
    }
  }

  /** Any node may be stepped in any two parts exactly when MayDivide says so. */
  lemma {:induction false} DivisibleExactly(s: NodeState)
    ensures Divisible(s) <==> MayDivide(s)
  {
    if Steady(s) && s.weight > 0.0 {
      SteadyDivides(s);
    } else if Steady(s) {
      forall d1: real, d2: real | d1 >= 0.0 && d2 >= 0.0
        ensures Advanced(Advanced(s, d1), d2) == Advanced(s, d1 + d2)
      {
        SteadyStays(s, d1);
        BlendedSplit(s, d1, d2);
      }
    } else if s.weight > 0.0 {
      FadeOutDependsOnSteps(s);
    } else {
      FadeInDependsOnSteps(s);
    }
  }

  /** A second and a half into a clip of one second, playing back: three quarters of a
      second at once lead to 0.75, but a quarter and a half, one after the other, to 0.5. */
  lemma {:induction false} LateTimeExample(s: NodeState)
    requires s.clip == Some(Clip(Finite(1.0), false, [])) && s.time == 1.5 && s.rate == -1.0
    requires s.weight == 1.0 && s.goalTimeRemaining == 0.0
    ensures Advanced(s, 0.75).time == 0.75 && Advanced(Advanced(s, 0.25), 0.5).time == 0.5
  {
    assert Travel(0.75, -1.0, 1.0) == -0.75 && Travel(0.25, -1.0, 1.0) == -0.25 && Travel(0.5, -1.0, 1.0) == -0.5;
    assert Phase(s) == 1.5;
    assert Advanced(s, 0.25).time == 1.0;
  }

  // ---------- offsets ----------

  function WithMarker(s: NodeState, n: Notify): NodeState
    requires s.clip.Some?
  {
    s.(clip := Some(s.clip.value.(notifies := [n])))
  }

  /** The marker of n, were it the clip's only one, is passed inside the step. */
  predicate InsideStep(s: NodeState, dt: real, n: Notify)
    requires Playable(s) && s.rate != 0.0
  {
    CanFire(n) && Crosses(WithMarker(s, n), dt, 0, 0) ==> 0.0 <= CrossOffset(WithMarker(s, n), 0, 0) <= dt
  }

  lemma MarkerMatters(s: NodeState, dt: real, n: Notify)
    requires Playable(s)
    ensures Playable(WithMarker(s, n)) && Phase(WithMarker(s, n)) == Phase(s) && Target(WithMarker(s, n), dt) == Target(s, dt)
    ensures InRange(WithMarker(s, n)) <==> InRange(s)
  {}

  lemma PhaseAboveUnit(time: real, d: real)
    requires d > 0.0 && time > d
    ensures time / d > 1.0
  {}

  /** Beyond the end of its clip, a node that plays forwards passes the end marker
      before the step begins. */
  lemma {:induction false} BeforeStep(s: NodeState, dt: real, n: Notify)
    requires Playable(s) && !s.clip.value.looping && s.goalWeight > 0.0 && dt >= 0.0
    requires s.time > Duration(s) && s.rate > 0.0
    requires n == Notify("x", Finite(1.0))
    ensures !InsideStep(s, dt, n)
  {
    MarkerMatters(s, dt, n);
    PhaseAboveUnit(s.time, Duration(s));
    TravelSign(dt, s.rate, Duration(s));
    var q := SecondsTo(0, 1.0, Phase(s), Duration(s), s.rate);
    assert q * s.rate == (0 as real + 1.0 - Phase(s)) * Duration(s);
    assert (1.0 - Phase(s)) * Duration(s) < 0.0;
    assert CrossOffset(WithMarker(s, n), 0, 0) == q;
    assert Crosses(WithMarker(s, n), dt, 0, 0);
  }

  /** And one that plays backwards without getting back into the clip passes it
      after the step is over. */
  lemma {:induction false} AfterStep(s: NodeState, dt: real, n: Notify)
    requires Playable(s) && !s.clip.value.looping && s.goalWeight > 0.0 && dt >= 0.0
    requires s.time > Duration(s) && s.rate < 0.0 && Phase(s) + Travel(dt, s.rate, Duration(s)) > 1.0
    requires n == Notify("x", Finite(1.0))
    ensures !InsideStep(s, dt, n)
  {
    MarkerMatters(s, dt, n);
    PhaseAboveUnit(s.time, Duration(s));
    var d := Duration(s);
    var q := SecondsTo(0, 1.0, Phase(s), d, s.rate);
    ReachedLate(0 as real + 1.0 - Phase(s), Travel(dt, s.rate, d), d, s.rate, dt);
    assert CrossOffset(WithMarker(s, n), 0, 0) == q > dt;
    TravelSign(dt, s.rate, d);
    assert Crosses(WithMarker(s, n), dt, 0, 0);
  }

  lemma ReachedLate(way: real, travel: real, d: real, rate: real, dt: real)
    requires rate < 0.0 && d > 0.0 && travel == Travel(dt, rate, d) && way < travel
    ensures way * d / rate > dt
  {
    var q := way * d / rate;
    assert q * rate == way * d;
    assert travel * d == dt * rate;
    ScaleKeepsOrder(way, travel, d);
    DividedByNegative(q, dt, rate);
  }

  lemma DividedByNegative(a: real, b: real, r: real)
    requires r < 0.0 && a * r < b * r
    ensures a > b
  {}

  lemma {:induction false} BackIntoClip(s: NodeState, dt: real, n: Notify)
    requires Playable(s) && !s.clip.value.looping && dt >= 0.0
    requires s.time > Duration(s) && s.rate < 0.0 && Phase(s) + Travel(dt, s.rate, Duration(s)) <= 1.0
    ensures InsideStep(s, dt, n)
  {
    MarkerMatters(s, dt, n);
    PhaseAboveUnit(s.time, Duration(s));
    if CanFire(n) && Crosses(WithMarker(s, n), dt, 0, 0) {
      ScaledBounds(0, Point(n), Phase(s), Duration(s), s.rate, dt);
    }
  }

  /** A non-looping node passes every possible marker inside the step exactly when
      it starts inside its clip or plays backwards into it. */
  lemma {:induction false} OffsetsStayInsideStep(s: NodeState, dt: real)
    requires Playable(s) && !s.clip.value.looping && s.goalWeight > 0.0 && dt >= 0.0 && s.time >= 0.0 && s.rate != 0.0
    ensures (s.time <= Duration(s) || (s.rate < 0.0 && Phase(s) + Travel(dt, s.rate, Duration(s)) <= 1.0))
            <==> forall n :: InsideStep(s, dt, n)
  {
    var end := Notify("x", Finite(1.0));
    if s.time <= Duration(s) {
      forall n ensures InsideStep(s, dt, n) {
        MarkerMatters(s, dt, n);
        if CanFire(n) && Crosses(WithMarker(s, n), dt, 0, 0) {
          OffsetInsideStep(WithMarker(s, n), dt, 0, 0);
        }
      }
    } else if s.rate > 0.0 {
      BeforeStep(s, dt, end);
    } else if Phase(s) + Travel(dt, s.rate, Duration(s)) > 1.0 {
      AfterStep(s, dt, end);
    } else {
      forall n ensures InsideStep(s, dt, n) {
        BackIntoClip(s, dt, n);
      }
    }
  }
}
