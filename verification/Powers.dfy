/** Powers of two, and shifts to the right, on natural numbers. */
module Powers {
  function Pow2(n: nat): (p: nat)
    ensures p > 0
  {
    if n == 0 then 1 else 2 * Pow2(n - 1)
  }

  lemma Pow32()
    ensures Pow2(32) == 0x1_0000_0000
  {
    assert Pow2(8) == 0x100;
    assert Pow2(16) == 0x10000;
    assert Pow2(24) == 0x100_0000;
  }

  lemma Pow64()
    ensures Pow2(64) == 0x1_0000_0000_0000_0000
  {
    Pow32();
    assert Pow2(40) == 0x100_0000_0000;
    assert Pow2(48) == 0x1_0000_0000_0000;
    assert Pow2(56) == 0x100_0000_0000_0000;
  }

  /** A shift by s places is s shifts by one. */
  function Shr(x: nat, s: nat): (y: nat)
    ensures y <= x
  {
    if s == 0 then x else Shr(x / 2, s - 1)
  }

  lemma {:induction false} ShrAdds(x: nat, s: nat, t: nat)
    ensures Shr(x, s + t) == Shr(Shr(x, s), t)
  {
    if s > 0 {
      ShrAdds(x / 2, s - 1, t);
    }
  }

  lemma {:induction false} ShrEmpties(x: nat, n: nat, s: nat)
    requires x < Pow2(n) && n <= s
    ensures Shr(x, s) == 0
  {
    if s > 0 {
      ShrEmpties(x / 2, if n == 0 then 0 else n - 1, s - 1);
    }
  }
}
