/** The animation random numbers are one cycle through all 32-bit states:
    random in crates/anim_iw4/src/player_anim.rs. */
module AnimRandom {
  import opened Powers

  const MULTIPLIER: nat := 0x343fd
  const INCREMENT: nat := 0x269ec3
  const STATES: nat := 0x1_0000_0000

  type State = x: nat | x < STATES

  function Step(x: State): State {
    (x * MULTIPLIER % STATES + INCREMENT) % STATES
  }

  /** The state after k draws. */
  function After(x: State, k: nat): State {
    if k == 0 then x else Step(After(x, k - 1))
  }

  /** One draw: the seed moves on, and its top 15 bits come out. */
  method Random(seed: State) returns (next: State, drawn: nat)
    ensures next == Step(seed)
    ensures drawn < 0x8000 && next == drawn * 0x20000 + next % 0x20000
  {
    next := (seed * MULTIPLIER % STATES + INCREMENT) % STATES;
    drawn := next / 0x20000;
  }

  // ---------- the recurrence without wrapping ----------

  function Power(k: nat): nat {
    if k == 0 then 1 else MULTIPLIER * Power(k - 1)
  }

  /** 1 + a + ... + a^(k-1). */
  function Sum(k: nat): nat {
    if k == 0 then 0 else MULTIPLIER * Sum(k - 1) + 1
  }

  function Unwrapped(x: nat, k: nat): nat {
    Power(k) * x + INCREMENT * Sum(k)
  }

  lemma UnwrappedStep(x: nat, k: nat)
    ensures Unwrapped(x, k + 1) == MULTIPLIER * Unwrapped(x, k) + INCREMENT
  {
    assert Power(k + 1) * x == MULTIPLIER * (Power(k) * x);
  }

  lemma {:induction false} AfterWraps(x: State, k: nat)
    ensures After(x, k) == Unwrapped(x, k) % STATES
  {
    if k > 0 {
      AfterWraps(x, k - 1);
      UnwrappedStep(x, k - 1);
      WrapStep(Unwrapped(x, k - 1));
    }
  }

  lemma MultiplesVanish(r: nat, m: nat)
    ensures (r + m * STATES) % STATES == r % STATES
  {}

  /** Wrapping before a step or after it is the same. */
  lemma WrapStep(u: nat)
    ensures Step(u % STATES) == (MULTIPLIER * u + INCREMENT) % STATES
  {
    var q, r := u / STATES, u % STATES;
    var t := r * MULTIPLIER / STATES;
    MultiplesVanish(r * MULTIPLIER % STATES + INCREMENT, t + MULTIPLIER * q);
  }

  lemma {:induction false} PowerIsSum(k: nat)
    ensures Power(k) == (MULTIPLIER - 1) * Sum(k) + 1
  {
    if k > 0 {
      PowerIsSum(k - 1);
    }
  }

  /** What the sum is multiplied by, in how far the state moves. */
  function Move(x: nat): (odd: nat) {
    (MULTIPLIER - 1) * x + INCREMENT
  }

  lemma MoveIsOdd(x: nat)
    ensures Move(x) % 2 == 1
  {
    assert Move(x) == 2 * (MULTIPLIER / 2 * x + INCREMENT / 2) + 1;
  }

  /** How far k draws move the state: the sum times an odd number. */
  lemma Distance(x: nat, k: nat)
    ensures Unwrapped(x, k) == x + Sum(k) * Move(x)
  {
    PowerIsSum(k);
    var s := Sum(k);
    assert ((MULTIPLIER - 1) * s + 1) * x == s * ((MULTIPLIER - 1) * x) + x;
    assert s * ((MULTIPLIER - 1) * x + INCREMENT) == s * ((MULTIPLIER - 1) * x) + s * INCREMENT;
  }

  // ---------- powers of two ----------

  /** x can be halved n times. */
  predicate Halves(x: nat, n: nat) {
    n == 0 || (x % 2 == 0 && Halves(x / 2, n - 1))
  }

  lemma HalfOfProduct(h: nat, q: nat)
    ensures (2 * h) * q == 2 * (h * q)
  {}

  lemma {:induction false} HalvesToMultiple(x: nat, n: nat) returns (q: nat)
    requires Halves(x, n)
    ensures x == Pow2(n) * q
  {
    if n == 0 {
      q := x;
    } else {
      q := HalvesToMultiple(x / 2, n - 1);
      HalfOfProduct(Pow2(n - 1), q);
    }
  }

  lemma {:induction false} MultipleHalves(q: nat, n: nat)
    ensures Halves(Pow2(n) * q, n)
  {
    if n > 0 {
      MultipleHalves(q, n - 1);
      HalfOfProduct(Pow2(n - 1), q);
    }
  }

  lemma HalvesIsMultiple(x: nat)
    ensures Halves(x, 32) <==> x % STATES == 0
  {
    Pow32();
    if Halves(x, 32) {
      var q := HalvesToMultiple(x, 32);
    }
    if x % STATES == 0 {
      MultipleHalves(x / STATES, 32);
    }
  }

  lemma OddTimesOdd(h: nat, g: nat)
    ensures (2 * h + 1) * (2 * g + 1) == 2 * (h * (2 * g + 1) + g) + 1
  {}

  /** An odd factor changes nothing. */
  lemma {:induction false} OddFactor(x: nat, odd: nat, n: nat)
    requires odd % 2 == 1
    ensures Halves(x * odd, n) <==> Halves(x, n)
  {
    if n > 0 {
      var h, g := x / 2, odd / 2;
      if x % 2 == 0 {
        HalfOfProduct(h, odd);
        OddFactor(h, odd, n - 1);
      } else {
        OddTimesOdd(h, g);
      }
    }
  }

  // ---------- the period ----------

  lemma {:induction false} PowerIsOneModFour(k: nat)
    ensures Power(k) % 4 == 1
  {
    if k > 0 {
      PowerIsOneModFour(k - 1);
    }
  }

  lemma {:induction false} SumParity(k: nat) returns (half: nat)
    ensures Sum(k) == 2 * half + k % 2
  {
    if k == 0 {
      half := 0;
    } else {
      half := SumParity(k - 1);
      half := MULTIPLIER * half + if k % 2 == 1 then 0 else (MULTIPLIER + 1) / 2;
    }
  }

  lemma {:induction false} SumAdds(j: nat, k: nat)
    ensures Sum(j + k) == Power(k) * Sum(j) + Sum(k)
  {
    if k > 0 {
      SumAdds(j, k - 1);
      assert MULTIPLIER * (Power(k - 1) * Sum(j)) == Power(k) * Sum(j);
    }
  }

  lemma PlusOnce(p: nat, s: nat, odd: nat)
    requires p + 1 == 2 * odd
    ensures p * s + s == 2 * (s * odd)
  {
    assert p * s + s == (p + 1) * s == (2 * odd) * s;
  }

  lemma HalvesDouble(y: nat, n: nat)
    requires n > 0
    ensures Halves(2 * y, n) <==> Halves(y, n - 1)
  {}

  lemma OddHalf(p: nat) returns (odd: nat)
    requires p % 4 == 1
    ensures odd % 2 == 1 && p + 1 == 2 * odd
  {
    odd := 2 * (p / 4) + 1;
  }

  lemma DoubleSum(j: nat) returns (odd: nat)
    ensures odd % 2 == 1 && Sum(2 * j) == 2 * (Sum(j) * odd)
  {
    var p, s := Power(j), Sum(j);
    PowerIsOneModFour(j);
    odd := OddHalf(p);
    PlusOnce(p, s, odd);
    SumAdds(j, j);
    assert 2 * j == j + j;
  }

  lemma SumHalvesDouble(j: nat, n: nat)
    requires n > 0 && (Halves(Sum(j), n - 1) <==> Halves(j, n - 1))
    ensures Halves(Sum(2 * j), n) <==> Halves(2 * j, n)
  {
    var odd := DoubleSum(j);
    HalvesDouble(Sum(j) * odd, n);
    HalvesDouble(j, n);
    OddFactor(Sum(j), odd, n - 1);
  }

  lemma OddHalves(half: nat, n: nat)
    requires n > 0
    ensures !Halves(2 * half + 1, n)
  {}

  lemma SumHalvesOdd(k: nat, n: nat)
    requires n > 0 && k % 2 == 1
    ensures !Halves(Sum(k), n) && !Halves(k, n)
  {
    var half := SumParity(k);
    OddHalves(half, n);
    OddHalves(k / 2, n);
  }

  /** The sum has exactly as many factors of two as the number of its terms. */
  lemma {:induction false} SumHalves(k: nat, n: nat)
    ensures Halves(Sum(k), n) <==> Halves(k, n)
    decreases n
  {
    if n > 0 {
      if k % 2 == 0 {
        SumHalves(k / 2, n - 1);
        SumHalvesDouble(k / 2, n);
      } else {
        SumHalvesOdd(k, n);
      }
    }
  }

  lemma SameRemainder(x: State, d: nat)
    ensures (x + d) % STATES == x <==> d % STATES == 0
  {}

  lemma MultipleOfSum(k: nat, odd: nat)
    requires odd % 2 == 1
    ensures Sum(k) * odd % STATES == 0 <==> k % STATES == 0
  {
    HalvesIsMultiple(Sum(k) * odd);
    OddFactor(Sum(k), odd, 32);
    SumHalves(k, 32);
    HalvesIsMultiple(k);
  }

  lemma UnwrappedReturns(x: State, k: nat)
    ensures Unwrapped(x, k) % STATES == x <==> k % STATES == 0
  {
    Distance(x, k);
    MoveIsOdd(x);
    var d := Sum(k) * Move(x);
    MultipleOfSum(k, Move(x));
    SameRemainder(x, d);
  }

  /** From any seed the state comes back after 2^32 draws and its multiples, and
      never before. */
  lemma ReturnsExactly(x: State, k: nat)
    ensures After(x, k) == x <==> k % STATES == 0
  {
    AfterWraps(x, k);
    UnwrappedReturns(x, k);
  }

  lemma {:induction false} AfterAdds(x: State, j: nat, k: nat)
    ensures After(x, j + k) == After(After(x, j), k)
  {
    if k > 0 {
      AfterAdds(x, j, k - 1);
    }
  }

  lemma NoRepeat(x: State, i: nat, j: nat)
    requires i < j < i + STATES
    ensures After(x, i) != After(x, j)
  {
    AfterAdds(x, i, j - i);
    ReturnsExactly(After(x, i), j - i);
    assert (j - i) % STATES == j - i;
  }

  /** The states met in the first n draws. */
  ghost function Met(x: State, n: nat): set<nat> {
    set k | 0 <= k < n :: After(x, k)
  }

  lemma {:induction false} MetCount(x: State, n: nat)
    requires n <= STATES
    ensures |Met(x, n)| == n
  {
    if n > 0 {
      MetCount(x, n - 1);
      forall k: nat | k < n - 1
        ensures After(x, k) != After(x, n - 1)
      {
        NoRepeat(x, k, n - 1);
      }
      assert Met(x, n) == Met(x, n - 1) + {After(x, n - 1)};
    }
  }

  ghost function Below(n: nat): set<nat> {
    if n == 0 then {} else Below(n - 1) + {n - 1}
  }

  lemma {:induction false} BelowCount(n: nat)
    ensures |Below(n)| == n && forall y: nat :: y in Below(n) <==> y < n
  {
    if n > 0 {
      BelowCount(n - 1);
    }
  }

  lemma SameSizeSubset(a: set<nat>, b: set<nat>)
    requires a <= b && |a| == |b|
    ensures a == b
  {
    assert b == a + (b - a);
  }

  /** Every state is met, from every seed, within 2^32 draws. */
  lemma MeetsEveryState(x: State, y: State)
    ensures exists k: nat :: k < STATES && After(x, k) == y
  {
    MetCount(x, STATES);
    BelowCount(STATES);
    SameSizeSubset(Met(x, STATES), Below(STATES));
    assert y in Below(STATES);
  }
}
