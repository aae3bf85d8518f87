/** Keyframe sampling, one component at a time: crates/anim_iw4/src/sample.rs. */
module Sampling {
  datatype FrameKind = Dense | Sparse

  /** The two keys around a frame, and how far between them it is. */
  datatype Between = Between(first: nat, second: nat, amount: real)

  const FIRST_KEY := Between(0, 0, 0.0)

  /** How far between start and end the frame is. */
  function Share(frame: real, start: real, end: real): real {
    if end > start then (frame - start) / (end - start) else 0.0
  }

  /** The first gap from i on whose end is not before the frame. */
  function GapFrom(frames: seq<nat>, last: nat, frame: real, i: nat): (r: Between)
    requires last < |frames| && i <= last
    ensures r.first <= r.second <= last
    decreases last - i
  {
    if i == last then Between(last, last, 0.0)
    else
      var start, end := frames[i] as real, frames[i + 1] as real;
      if frame <= end then Between(i, i + 1, Share(frame, start, end))
      else GapFrom(frames, last, frame, i + 1)
  }

  function Span(kind: FrameKind, frames: seq<nat>, count: nat, frame: real): (r: Between)
    ensures r.first <= r.second && (r.second < count || (count == 0 && r == FIRST_KEY))
  {
    if count <= 1 then FIRST_KEY
    else
      var last := count - 1;
      match kind
      case Dense =>
        var inside := if frame < 0.0 then 0.0 else if frame > last as real then last as real else frame;
        var first := inside.Floor;
        Between(first, if first + 1 < last then first + 1 else last, inside - first as real)
      case Sparse =>
        if |frames| < count || frame <= frames[0] as real then FIRST_KEY
        else if frame >= frames[last] as real then Between(last, last, 0.0)
        else GapFrom(frames, last, frame, 0)
  }

  method FindSpan(kind: FrameKind, frames: seq<nat>, count: nat, frame: real) returns (r: Between)
    ensures r == Span(kind, frames, count, frame)
  {
    if count <= 1 {
      return FIRST_KEY;
    }
    var last := count - 1;
    if kind == Dense {
      var inside := if frame < 0.0 then 0.0 else if frame > last as real then last as real else frame;
      var first: nat := inside.Floor;
      return Between(first, if first + 1 < last then first + 1 else last, inside - first as real);
    }
    if |frames| < count || frame <= frames[0] as real {
      return FIRST_KEY;
    }
    if frame >= frames[last] as real {
      return Between(last, last, 0.0);
    }
    var i := 0;
    while i < last
      invariant i <= last && GapFrom(frames, last, frame, 0) == GapFrom(frames, last, frame, i)
    {
      var start, end := frames[i] as real, frames[i + 1] as real;
      if frame <= end {
        return Between(i, i + 1, Share(frame, start, end));
      }
      i := i + 1;
    }
    r := Between(last, last, 0.0);
  }

  function Lerp(a: real, b: real, t: real): real {
    a + t * (b - a)
  }

  /** empty is what is sampled where there are no keys. */
  function Sample(kind: FrameKind, frames: seq<nat>, values: seq<real>, empty: real, frame: real): real {
    if values == [] then empty
    else
      var s := Span(kind, frames, |values|, frame);
      Lerp(values[s.first], values[s.second], s.amount)
  }

  // ---------- strictly increasing tables ----------

  predicate Increasing(frames: seq<nat>) {
    forall i, j | 0 <= i < j < |frames| :: frames[i] < frames[j]
  }

  /** t is the share of the part in the whole. */
  predicate IsShare(t: real, part: real, whole: real) {
    t * whole == part && 0.0 < t <= 1.0
  }

  predicate Brackets(frames: seq<nat>, last: nat, frame: real, g: Between)
    requires last < |frames|
  {
    && g.second == g.first + 1 <= last
    && frames[g.first] as real < frame <= frames[g.second] as real
    && IsShare(g.amount, frame - frames[g.first] as real, frames[g.second] as real - frames[g.first] as real)
  }

  lemma ShareIsShare(frame: real, start: real, end: real)
    requires start < frame <= end
    ensures IsShare(Share(frame, start, end), frame - start, end - start)
  {
    Proportion(frame - start, end - start);
  }

  /** The gap found is the one the frame lies in, at the proportion it lies. */
  lemma {:induction false} GapBrackets(frames: seq<nat>, last: nat, frame: real, i: nat)
    requires last < |frames| && i < last && Increasing(frames)
    requires frames[i] as real < frame < frames[last] as real
    ensures Brackets(frames, last, frame, GapFrom(frames, last, frame, i))
    decreases last - i
  {
    var start, end := frames[i] as real, frames[i + 1] as real;
    if frame > end {
      OrderReflects(frames, i + 1, last);
      GapBrackets(frames, last, frame, i + 1);
    } else {
      ShareIsShare(frame, start, end);
      assert GapFrom(frames, last, frame, i) == Between(i, i + 1, Share(frame, start, end));
    }
  }

  lemma PositiveProduct(a: real, b: real)
    requires a > 0.0 && b > 0.0
    ensures a * b > 0.0
  {}

  lemma FactorBounds(t: real, part: real, whole: real)
    requires 0.0 < part <= whole && t * whole == part
    ensures 0.0 < t <= 1.0
  {
    if t > 1.0 {
      PositiveProduct(t - 1.0, whole);
    } else if t < 0.0 {
      PositiveProduct(-t, whole);
    }
  }

  lemma Proportion(part: real, whole: real)
    requires 0.0 < part <= whole
    ensures part / whole * whole == part && 0.0 < part / whole <= 1.0
  {
    FactorBounds(part / whole, part, whole);
  }

  /** Sampling goes through every key. */
  lemma ThroughKeys(frames: seq<nat>, values: seq<real>, empty: real, k: nat)
    requires |frames| == |values| && k < |values| && Increasing(frames)
    ensures Sample(Sparse, frames, values, empty, frames[k] as real) == values[k]
  {
    var last := |values| - 1;
    OrderReflects(frames, 0, k);
    OrderReflects(frames, k, last);
    if 0 < k < last {
      ThroughInnerKey(frames, last, k);
    }
  }

  lemma ThroughInnerKey(frames: seq<nat>, last: nat, k: nat)
    requires last < |frames| && 0 < k < last && Increasing(frames)
    ensures GapFrom(frames, last, frames[k] as real, 0) == Between(k - 1, k, 1.0)
  {
    OrderReflects(frames, 0, k);
    OrderReflects(frames, k, last);
    GapBrackets(frames, last, frames[k] as real, 0);
    var g := GapFrom(frames, last, frames[k] as real, 0);
    GapOfKey(frames, g, k);
    var whole := frames[g.second] as real - frames[g.first] as real;
    assert IsShare(g.amount, frames[k] as real - frames[g.first] as real, whole);
    OrderReflects(frames, g.first, g.second);
    WholeGap(g.amount, frames[k] as real - frames[g.first] as real, whole);
  }

  lemma OrderReflects(frames: seq<nat>, a: nat, b: nat)
    requires Increasing(frames) && a < |frames| && b < |frames|
    ensures frames[a] < frames[b] <==> a < b
  {}

  lemma GapOfKey(frames: seq<nat>, g: Between, k: nat)
    requires Increasing(frames) && g.second == g.first + 1 < |frames| && k < |frames|
    requires frames[g.first] < frames[k] <= frames[g.second]
    ensures k == g.second
  {
    OrderReflects(frames, g.first, k);
    OrderReflects(frames, g.second, k);
  }

  lemma WholeGap(amount: real, part: real, whole: real)
    requires whole > 0.0 && IsShare(amount, part, whole) && part == whole
    ensures amount == 1.0
  {
    assert (amount - 1.0) * whole == 0.0;
  }

  /** The keys around a frame: their frames bracket it, up to the ends of the table. */
  lemma SpanBrackets(frames: seq<nat>, count: nat, frame: real)
    requires 0 < count == |frames| && Increasing(frames)
    ensures var s := Span(Sparse, frames, count, frame);
            && 0.0 <= s.amount <= 1.0 && s.second <= s.first + 1
            && (frames[0] as real <= frame ==> frames[s.first] as real <= frame)
            && (frame <= frames[count - 1] as real ==> frame <= frames[s.second] as real)
  {
    if count > 1 && frames[0] as real < frame < frames[count - 1] as real {
      GapBrackets(frames, count - 1, frame, 0);
    }
  }

  function Lower(a: real, b: real): real {
    if a <= b then a else b
  }

  function Upper(a: real, b: real): real {
    if a <= b then b else a
  }

  lemma LerpInside(a: real, b: real, t: real)
    requires 0.0 <= t <= 1.0
    ensures Lower(a, b) <= Lerp(a, b, t) <= Upper(a, b)
  {
    if a <= b {
      Scaled(t, b - a);
    } else {
      Scaled(t, a - b);
      assert t * (b - a) == -(t * (a - b));
    }
  }

  lemma Scaled(t: real, d: real)
    requires 0.0 <= t <= 1.0 && d >= 0.0
    ensures 0.0 <= t * d <= d
  {
    assert (1.0 - t) * d >= 0.0;
  }

  /** A sample lies between the values of the two keys around its frame. */
  lemma SampleInside(frames: seq<nat>, values: seq<real>, empty: real, frame: real)
    requires 0 < |values| == |frames| && Increasing(frames)
    ensures var s := Span(Sparse, frames, |values|, frame);
            Lower(values[s.first], values[s.second]) <= Sample(Sparse, frames, values, empty, frame) <= Upper(values[s.first], values[s.second])
  {
    SpanBrackets(frames, |values|, frame);
    var s := Span(Sparse, frames, |values|, frame);
    LerpInside(values[s.first], values[s.second], s.amount);
  }

  /** The line through two points, at a distance from the first. */
  function OnLineAt(a: real, b: real, whole: real, part: real): real
    requires whole != 0.0
  {
    a + (b - a) / whole * part
  }

  /** Between two keys a sample moves in a straight line: three frames of one gap have
      samples in proportion. */
  lemma {:induction false} SampleIsStraight(frames: seq<nat>, values: seq<real>, empty: real, k: nat, f: real,
          g: real, h: real)
    requires |frames| == |values| && k + 1 < |values| && Increasing(frames)
    requires frames[k] as real <= f <= g <= h <= frames[k + 1] as real
    ensures var (a, b, c) := (Sample(Sparse, frames, values, empty, f), Sample(Sparse, frames, values, empty, g), Sample(Sparse, frames, values, empty, h));
            (b - a) * (h - f) == (c - a) * (g - f)
  {
    OrderReflects(frames, k, k + 1);
    SampleOnLine(frames, values, empty, k, f);
    SampleOnLine(frames, values, empty, k, g);
    SampleOnLine(frames, values, empty, k, h);
    var start, whole := frames[k] as real, (frames[k + 1] - frames[k]) as real;
    Straight(values[k], values[k + 1], whole, start, f, g, h);
  }

  lemma Straight(a: real, b: real, whole: real, start: real, f: real, g: real, h: real)
    requires whole != 0.0
    ensures (OnLineAt(a, b, whole, g - start) - OnLineAt(a, b, whole, f - start)) * (h - f)
         == (OnLineAt(a, b, whole, h - start) - OnLineAt(a, b, whole, f - start)) * (g - f)
  {
    var slope := (b - a) / whole;
    Risen(slope, f - start, g - start);
    Risen(slope, f - start, h - start);
    Exchange(slope, g - f, h - f);
  }

  lemma Risen(slope: real, x: real, y: real)
    ensures slope * y - slope * x == slope * (y - x)
  {}

  lemma Exchange(slope: real, x: real, y: real)
    ensures slope * x * y == slope * y * x
  {
    assert slope * x * y == slope * (x * y) == slope * (y * x);
  }

  lemma LineEnds(a: real, b: real, whole: real)
    requires whole != 0.0
    ensures OnLineAt(a, b, whole, 0.0) == a && OnLineAt(a, b, whole, whole) == b
  {
    assert (b - a) / whole * whole == b - a;
  }

  lemma LerpOnLine(a: real, b: real, whole: real, part: real, amount: real)
    requires whole != 0.0 && amount * whole == part
    ensures Lerp(a, b, amount) == OnLineAt(a, b, whole, part)
  {
    OnLine(amount, (b - a) / whole, whole, part, b - a);
  }

  /** Inside a gap, the two keys of the gap are the ones around the frame. */
  lemma SpanInGap(frames: seq<nat>, k: nat, frame: real)
    requires k + 1 < |frames| && Increasing(frames)
    requires (frames[k] as real) < frame < frames[k + 1] as real
    ensures var s := Span(Sparse, frames, |frames|, frame);
            && s.first == k && s.second == k + 1
            && s.amount * (frames[k + 1] - frames[k]) as real == frame - frames[k] as real
  {
    var last := |frames| - 1;
    OrderReflects(frames, 0, k);
    OrderReflects(frames, k + 1, last);
    OrderReflects(frames, 0, last);
    GapBrackets(frames, last, frame, 0);
    GapIs(frames, GapFrom(frames, last, frame, 0), frame, k);
  }

  /** In a gap, samples lie on the line through its keys. */
  lemma {:induction false} SampleOnLine(frames: seq<nat>, values: seq<real>, empty: real, k: nat, frame: real)
    requires |frames| == |values| && k + 1 < |values| && Increasing(frames) && frames[k] < frames[k + 1]
    requires frames[k] as real <= frame <= frames[k + 1] as real
    ensures Sample(Sparse, frames, values, empty, frame)
         == OnLineAt(values[k], values[k + 1], (frames[k + 1] - frames[k]) as real, frame - frames[k] as real)
  {
    var whole := (frames[k + 1] - frames[k]) as real;
    LineEnds(values[k], values[k + 1], whole);
    if frame == frames[k] as real {
      ThroughKeys(frames, values, empty, k);
    } else if frame == frames[k + 1] as real {
      ThroughKeys(frames, values, empty, k + 1);
    } else {
      SpanInGap(frames, k, frame);
      LerpOnLine(values[k], values[k + 1], whole, frame - frames[k] as real, Span(Sparse, frames, |frames|, frame).amount);
    }
  }

  lemma OnLine(amount: real, slope: real, whole: real, part: real, rise: real)
    requires amount * whole == part && slope * whole == rise
    ensures amount * rise == slope * part
  {
    assert amount * (slope * whole) == slope * (amount * whole);
  }

  lemma GapIs(frames: seq<nat>, s: Between, frame: real, k: nat)
    requires Increasing(frames) && k + 1 < |frames| && s.second == s.first + 1 < |frames|
    requires frames[s.first] as real < frame <= frames[s.second] as real
    requires (frames[k] as real) < frame < frames[k + 1] as real
    ensures s.first == k
  {
    OrderReflects(frames, s.first, k + 1);
    OrderReflects(frames, k, s.second);
  }

  // ---------- dense frames ----------

  function EveryFrame(count: nat): seq<nat> {
    seq(count, i => i)
  }

  /** In the table of all frames, the gap of a frame is the one that ends at it or
      next after it. */
  lemma {:induction false} GapOfFrame(last: nat, frame: real, i: nat)
    requires i < last && i as real < frame <= last as real
    ensures var g := GapFrom(EveryFrame(last + 1), last, frame, i);
            && g.second == g.first + 1 <= last && g.first as real < frame <= g.second as real
            && g.amount == frame - g.first as real
    decreases last - i
  {
    if frame > (i + 1) as real {
      GapOfFrame(last, frame, i + 1);
    }
  }

  /** Dense keys sample as sparse ones would whose table lists every frame. */
  lemma DenseIsSparse(frames: seq<nat>, values: seq<real>, empty: real, frame: real)
    ensures Sample(Dense, frames, values, empty, frame) == Sample(Sparse, EveryFrame(|values|), values, empty, frame)
  {
    if |values| > 1 {
      var last := |values| - 1;
      if 0.0 < frame < last as real {
        GapOfFrame(last, frame, 0);
        var g := GapFrom(EveryFrame(|values|), last, frame, 0);
        if frame == g.second as real {
          assert Span(Dense, frames, |values|, frame).amount == 0.0;
        } else {
          assert frame.Floor == g.first;
        }
      }
    }
  }
}
