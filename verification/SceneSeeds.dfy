/** Seeds of the randomly placed scenes: mix and its use in
    crates/approved_tests/src/main.rs. A 64-bit number is a natural below 2^64. */
module SceneSeeds {
  import opened Powers

  const SIZE: nat := 0x1_0000_0000_0000_0000

  type U64 = x: nat | x < SIZE

  function Xor(a: nat, b: nat): nat {
    if a == 0 then b else if b == 0 then a
    else 2 * Xor(a / 2, b / 2) + if a % 2 == b % 2 then 0 else 1
  }

  lemma {:induction false} XorHalf(a: nat, b: nat)
    ensures Xor(a, b) / 2 == Xor(a / 2, b / 2)
    ensures Xor(a, b) % 2 == if a % 2 == b % 2 then 0 else 1
  {}

  lemma {:induction false} XorSelf(a: nat)
    ensures Xor(a, a) == 0
  {
    if a > 0 {
      XorSelf(a / 2);
    }
  }

  lemma SameParts(a: nat, b: nat)
    requires a / 2 == b / 2 && a % 2 == b % 2
    ensures a == b
  {}

  lemma {:induction false} XorAssociates(a: nat, b: nat, c: nat)
    ensures Xor(Xor(a, b), c) == Xor(a, Xor(b, c))
    decreases a + b + c
  {
    if a > 0 || b > 0 || c > 0 {
      XorAssociates(a / 2, b / 2, c / 2);
      XorHalf(a, b);
      XorHalf(b, c);
      XorHalf(Xor(a, b), c);
      XorHalf(a, Xor(b, c));
      SameParts(Xor(Xor(a, b), c), Xor(a, Xor(b, c)));
    }
  }

  lemma {:induction false} XorBelow(a: nat, b: nat, n: nat)
    requires a < Pow2(n) && b < Pow2(n)
    ensures Xor(a, b) < Pow2(n)
  {
    if a != 0 && b != 0 {
      XorBelow(a / 2, b / 2, n - 1);
    }
  }

  lemma {:induction false} XorShr(a: nat, b: nat, s: nat)
    ensures Shr(Xor(a, b), s) == Xor(Shr(a, s), Shr(b, s))
    decreases s
  {
    if s > 0 {
      XorHalf(a, b);
      XorShr(a / 2, b / 2, s - 1);
    }
  }

  /** One number twice in a row goes away. */
  lemma XorUndone(a: nat, b: nat)
    ensures Xor(Xor(a, b), b) == a
  {
    XorAssociates(a, b, b);
    XorSelf(b);
  }

  lemma XorCancels(s: nat, x: nat, y: nat)
    requires Xor(s, x) == Xor(s, y)
    ensures x == y
  {
    XorAssociates(s, s, x);
    XorAssociates(s, s, y);
    XorSelf(s);
  }

  // ---------- the steps ----------

  function Xor64(a: U64, b: U64): U64 {
    Pow64();
    XorBelow(a, b, 64);
    Xor(a, b)
  }

  function Fold(x: U64, s: nat): U64 {
    Xor64(x, Shr(x, s))
  }

  function Unfold(x: U64, s: nat): U64 {
    Xor64(Xor64(x, Shr(x, s)), Shr(x, 2 * s))
  }

  function Times(x: U64, m: nat): U64 {
    x * m % SIZE
  }

  function Plus(x: U64, m: nat): U64 {
    (x + m) % SIZE
  }

  /** A fold by a third of the width or more is undone by folding twice as far too. */
  lemma FoldUndone(x: U64, s: nat)
    requires 22 <= s
    ensures Unfold(Fold(x, s), s) == x && Fold(Unfold(x, s), s) == x
  {
    var y, z, w := Shr(x, s), Shr(x, 2 * s), Shr(x, 3 * s);
    ShrAdds(x, s, s);
    ShrAdds(x, 2 * s, s);
    Pow64();
    ShrEmpties(x, 64, 3 * s);
    XorShr(x, y, s);
    ShrAdds(Fold(x, s), s, s);
    XorShr(y, z, s);
    assert Shr(Fold(x, s), s) == Xor(y, z) && Shr(Fold(x, s), 2 * s) == z;
    ThreeInARow(x, y, z);
    XorShr(Xor(x, y), z, s);
    assert Shr(Unfold(x, s), s) == Xor(y, z);
    FourInARow(x, y, z);
  }

  lemma ThreeInARow(x: nat, y: nat, z: nat)
    ensures Xor(Xor(Xor(x, y), Xor(y, z)), z) == x
  {
    XorAssociates(Xor(x, y), Xor(y, z), z);
    XorUndone(y, z);
    XorUndone(x, y);
  }

  lemma FourInARow(x: nat, y: nat, z: nat)
    ensures Xor(Xor(Xor(x, y), z), Xor(y, z)) == x
  {
    XorAssociates(x, y, z);
    XorUndone(x, Xor(y, z));
  }

  lemma MultiplesVanish(r: nat, m: nat)
    ensures (r + m * SIZE) % SIZE == r % SIZE
  {}

  lemma Distributes(a: nat, b: nat, c: nat)
    ensures (a + b) * c == a * c + b * c
  {}

  lemma Reorders(a: nat, b: nat, c: nat)
    ensures a * b * c == a * (b * c)
  {}

  /** A product and its carry, times the inverse factor. */
  lemma CarriedBack(x: nat, m: nat, inverse: nat, k: nat, q: nat, r: nat)
    requires m * inverse == 1 + k * SIZE && x * m == q * SIZE + r
    ensures r * inverse + (q * inverse) * SIZE == x + (x * k) * SIZE
  {
    Distributes(q * SIZE, r, inverse);
    Reorders(x, m, inverse);
    Distributes(1, k * SIZE, x);
    assert x * (1 + k * SIZE) == (1 + k * SIZE) * x;
    Reorders(x, k, SIZE);
  }

  /** Inverse factors undo each other. */
  lemma TimesUndone(x: U64, m: nat, inverse: nat, k: nat)
    requires m * inverse == 1 + k * SIZE
    ensures Times(Times(x, m), inverse) == x
  {
    var q, r := x * m / SIZE, Times(x, m);
    CarriedBack(x, m, inverse, k, q, r);
    MultiplesVanish(r * inverse, q * inverse);
    MultiplesVanish(x, x * k);
  }

  lemma PlusUndone(x: U64, m: U64)
    ensures Plus(Plus(x, m), SIZE - m) == x && Plus(Plus(x, SIZE - m), m) == x
  {}

  // ---------- mix ----------

  const GOLDEN: U64 := 0x9E37_79B9_7F4A_7C15
  const FIRST: U64 := 0xBF58_476D_1CE4_E5B9
  const SECOND: U64 := 0x94D0_49BB_1331_11EB

  /** The inverses of the two factors modulo 2^64, and what the products carry over. */
  const FIRST_INVERSE: U64 := 0x96DE_1B17_3F11_9089
  const FIRST_CARRY: nat := 0x70C3_BCA7_8F27_F46C
  const SECOND_INVERSE: U64 := 0x3196_42B2_D24D_8EC3
  const SECOND_CARRY: nat := 0x1CD3_36ED_A85F_1453

  lemma Inverses()
    ensures FIRST * FIRST_INVERSE == 1 + FIRST_CARRY * SIZE
    ensures SECOND * SECOND_INVERSE == 1 + SECOND_CARRY * SIZE
  {}

  function Mixed(z: U64): U64 {
    Fold(Times(Fold(Times(Fold(Plus(z, GOLDEN), 30), FIRST), 27), SECOND), 31)
  }

  /** Each step undone, last first. */
  function Unmixed(z: U64): U64 {
    Plus(Unfold(Times(Unfold(Times(Unfold(z, 31), SECOND_INVERSE), 27), FIRST_INVERSE), 30), SIZE - GOLDEN)
  }

  method Mix(z0: U64) returns (z: U64)
    ensures z == Mixed(z0) && Unmixed(z) == z0
  {
    UnmixMix(z0);
    z := Plus(z0, GOLDEN);
    z := Times(Xor64(z, Shr(z, 30)), FIRST);
    z := Times(Xor64(z, Shr(z, 27)), SECOND);
    z := Xor64(z, Shr(z, 31));
  }

  /** Every input can be had back from its output... */
  lemma UnmixMix(z: U64)
    ensures Unmixed(Mixed(z)) == z
  {
    Inverses();
    var a := Plus(z, GOLDEN);
    var b := Times(Fold(a, 30), FIRST);
    var c := Times(Fold(b, 27), SECOND);
    FoldUndone(c, 31);
    TimesUndone(Fold(b, 27), SECOND, SECOND_INVERSE, SECOND_CARRY);
    FoldUndone(b, 27);
    TimesUndone(Fold(a, 30), FIRST, FIRST_INVERSE, FIRST_CARRY);
    FoldUndone(a, 30);
    PlusUndone(z, GOLDEN);
  }

  /** ...and every number is an output: mix is a bijection. */
  lemma MixUnmix(y: U64)
    ensures Mixed(Unmixed(y)) == y
  {
    Inverses();
    var c := Times(Unfold(y, 31), SECOND_INVERSE);
    var b := Times(Unfold(c, 27), FIRST_INVERSE);
    PlusUndone(Unfold(b, 30), GOLDEN);
    FoldUndone(b, 30);
    TimesUndone(Unfold(c, 27), FIRST_INVERSE, FIRST, FIRST_CARRY);
    FoldUndone(c, 27);
    TimesUndone(Unfold(y, 31), SECOND_INVERSE, SECOND, SECOND_CARRY);
    FoldUndone(y, 31);
  }

  // ---------- scenes ----------

  function SceneNumber(mapIndex: nat, index: nat): U64 {
    (mapIndex * 16 + index + 1) % SIZE
  }

  lemma NumbersEqual(m: nat, i: nat, m': nat, i': nat)
    requires m <= 1 && m' <= 1 && i < 16 && i' < 16 && SceneNumber(m, i) == SceneNumber(m', i')
    ensures m == m' && i == i'
  {}

  /** The seed of a randomly placed scene. The first map has index 0, the second 1. */
  function SceneSeed(seed: U64, mapIndex: nat, index: nat): U64 {
    Mixed(Xor64(seed, Mixed(SceneNumber(mapIndex, index))))
  }

  lemma SeedsEqual(seed: U64, a: U64, b: U64)
    requires Mixed(Xor64(seed, Mixed(a))) == Mixed(Xor64(seed, Mixed(b)))
    ensures a == b
  {
    UnmixMix(Xor64(seed, Mixed(a)));
    UnmixMix(Xor64(seed, Mixed(b)));
    XorCancels(seed, Mixed(a), Mixed(b));
    UnmixMix(a);
    UnmixMix(b);
  }

  /** Seeds are equal only for scenes with the same number. */
  lemma SceneSeedsEqual(seed: U64, m: nat, i: nat, m': nat, i': nat)
    requires m <= 1 && m' <= 1 && i < 16 && i' < 16 && SceneSeed(seed, m, i) == SceneSeed(seed, m', i')
    ensures m == m' && i == i'
  {
    SeedsEqual(seed, SceneNumber(m, i), SceneNumber(m', i'));
    NumbersEqual(m, i, m', i');
  }

  /** No two scenes of the two maps of a run share a seed. */
  ghost predicate SeedsDistinct(seed: U64, scenes: nat) {
    forall m: nat, i: nat, m': nat, i': nat ::
      m <= 1 && m' <= 1 && i < scenes && i' < scenes && SceneSeed(seed, m, i) == SceneSeed(seed, m', i') ==> m == m' && i == i'
  }

  lemma SeventeenthScene(seed: U64)
    ensures SceneSeed(seed, 0, 16) == SceneSeed(seed, 1, 0)
  {
    assert SceneNumber(0, 16) == SceneNumber(1, 0);
  }

  /** Whatever the run's seed, that holds exactly when a map has at most 16 scenes. */
  lemma SeedsDistinctIff(seed: U64, scenes: nat)
    ensures SeedsDistinct(seed, scenes) <==> scenes <= 16
  {
    forall m: nat, i: nat, m': nat, i': nat |
      m <= 1 && m' <= 1 && i < 16 && i' < 16 && SceneSeed(seed, m, i) == SceneSeed(seed, m', i')
      ensures m == m' && i == i'
    {
      SceneSeedsEqual(seed, m, i, m', i');
    }
    SeventeenthScene(seed);
  }
}
