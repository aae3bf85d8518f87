/** Sets of up to 192 bones, most significant bit first, and how a part's set is
    lifted by its first bone: crates/anim_iw4/src/hide.rs. A machine word is a
    natural number below 2^32. */
module HideBits {
  import opened Powers

  type Word = w: nat | w < 0x1_0000_0000

  /** Binary digit j of a number, from the least significant. */
  predicate Digit(w: nat, j: nat) {
    if j == 0 then w % 2 == 1 else Digit(w / 2, j - 1)
  }

  function Or(a: nat, b: nat): nat {
    if a == 0 then b else if b == 0 then a
    else 2 * Or(a / 2, b / 2) + if a % 2 == 1 || b % 2 == 1 then 1 else 0
  }

  function And(a: nat, b: nat): nat {
    if a == 0 || b == 0 then 0
    else 2 * And(a / 2, b / 2) + if a % 2 == 1 && b % 2 == 1 then 1 else 0
  }

  // ---------- digits of words ----------

  lemma {:induction false} NoDigits(j: nat)
    ensures !Digit(0, j)
  {
    if j > 0 { NoDigits(j - 1); }
  }

  lemma {:induction false} OrDigit(a: nat, b: nat, j: nat)
    ensures Digit(Or(a, b), j) <==> Digit(a, j) || Digit(b, j)
  {
    NoDigits(j);
    if a != 0 && b != 0 && j > 0 {
      OrDigit(a / 2, b / 2, j - 1);
    }
  }

  lemma {:induction false} AndDigit(a: nat, b: nat, j: nat)
    ensures Digit(And(a, b), j) <==> Digit(a, j) && Digit(b, j)
  {
    NoDigits(j);
    if a != 0 && b != 0 && j > 0 {
      AndDigit(a / 2, b / 2, j - 1);
    }
  }

  lemma {:induction false} OrBelow(a: nat, b: nat, n: nat)
    requires a < Pow2(n) && b < Pow2(n)
    ensures Or(a, b) < Pow2(n)
  {
    if a != 0 && b != 0 {
      OrBelow(a / 2, b / 2, n - 1);
    }
  }

  /** Dropping the top digit of a number leaves the others. */
  lemma {:induction false} TopDropped(w: nat, n: nat, j: nat)
    requires Pow2(n) <= w < Pow2(n + 1) && j < n
    ensures Digit(w - Pow2(n), j) == Digit(w, j)
  {
    assert (w - Pow2(n)) / 2 == w / 2 - Pow2(n - 1);
    if j > 0 {
      TopDropped(w / 2, n - 1, j - 1);
    }
  }

  lemma {:induction false} DigitsDetermine(a: nat, b: nat, n: nat)
    requires a < Pow2(n) && b < Pow2(n) && forall j | 0 <= j < n :: Digit(a, j) == Digit(b, j)
    ensures a == b
  {
    if n > 0 {
      assert Digit(a, 0) == Digit(b, 0);
      forall j | 0 <= j < n - 1
        ensures Digit(a / 2, j) == Digit(b / 2, j)
      {
        assert Digit(a, j + 1) == Digit(b, j + 1);
      }
      DigitsDetermine(a / 2, b / 2, n - 1);
    }
  }

  lemma {:induction false} SomeDigit(w: nat, n: nat) returns (j: nat)
    requires 0 < w < Pow2(n)
    ensures j < n && Digit(w, j)
  {
    if w % 2 == 1 {
      j := 0;
    } else {
      j := SomeDigit(w / 2, n - 1);
      j := j + 1;
    }
  }

  // ---------- bones ----------

  const CAPACITY: nat := 192

  type Words = s: seq<Word> | |s| == 6 witness [0, 0, 0, 0, 0, 0]

  /** Digit of a word that stands for position k from the left. */
  predicate BitAt(w: Word, k: nat)
    requires k < 32
  {
    Digit(w, 31 - k)
  }

  predicate Bit(words: Words, bone: nat) {
    bone < CAPACITY && BitAt(words[bone / 32], bone % 32)
  }

  lemma BitsDetermine(a: Words, b: Words)
    requires forall bone | 0 <= bone < CAPACITY :: Bit(a, bone) == Bit(b, bone)
    ensures a == b
  {
    Pow32();
    forall i | 0 <= i < 6
      ensures a[i] == b[i]
    {
      forall j | 0 <= j < 32
        ensures Digit(a[i], j) == Digit(b[i], j)
      {
        assert Bit(a, 32 * i + (31 - j)) == Bit(b, 32 * i + (31 - j));
      }
      DigitsDetermine(a[i], b[i], 32);
    }
  }

  function OrWord(a: Word, b: Word): (w: Word)
  {
    Pow32();
    OrBelow(a, b, 32);
    Or(a, b)
  }

  /** A shift to the left, which keeps the 32 lowest digits each time. */
  function Shl(w: Word, s: nat): Word
    decreases s
  {
    if s == 0 then w else Shl(2 * w % 0x1_0000_0000, s - 1)
  }

  lemma {:induction false} ShrDigit(w: Word, s: nat, j: nat)
    ensures Digit(Shr(w, s), j) == Digit(w, j + s)
  {
    if s > 0 {
      ShrDigit(w / 2, s - 1, j);
    }
  }

  lemma DoubledDigit(w: Word, j: nat)
    requires j < 32
    ensures Digit(2 * w % 0x1_0000_0000, j) <==> j > 0 && Digit(w, j - 1)
  {
    Pow32();
    var cut := if w < Pow2(31) then w else w - Pow2(31);
    assert 2 * w % 0x1_0000_0000 == 2 * cut;
    if j > 0 && w >= Pow2(31) {
      TopDropped(w, 31, j - 1);
    }
  }

  lemma {:induction false} ShlDigit(w: Word, s: nat, j: nat)
    requires j < 32
    ensures Digit(Shl(w, s), j) <==> j >= s && Digit(w, j - s)
    decreases s
  {
    if s > 0 {
      ShlDigit(2 * w % 0x1_0000_0000, s - 1, j);
      if j >= s - 1 {
        DoubledDigit(w, j - (s - 1));
      }
    }
  }

  lemma ShrBit(w: Word, s: nat, k: nat)
    requires k < 32
    ensures BitAt(Shr(w, s), k) <==> k >= s && BitAt(w, k - s)
  {
    ShrDigit(w, s, 31 - k);
    if k < s {
      Pow32();
      HighDigit(w, 31 - k + s, 32);
    }
  }

  lemma {:induction false} HighDigit(w: nat, j: nat, n: nat)
    requires w < Pow2(n) && n <= j
    ensures !Digit(w, j)
  {
    if n == 0 {
      NoDigits(j);
    } else {
      HighDigit(w / 2, j - 1, n - 1);
    }
  }

  lemma ShlBit(w: Word, s: nat, k: nat)
    requires k < 32
    ensures BitAt(Shl(w, s), k) <==> k + s < 32 && BitAt(w, k + s)
  {
    ShlDigit(w, s, 31 - k);
  }

  lemma OrBit(a: Word, b: Word, k: nat)
    requires k < 32
    ensures BitAt(OrWord(a, b), k) <==> BitAt(a, k) || BitAt(b, k)
  {
    OrDigit(a, b, 31 - k);
  }

  // ---------- lifting ----------

  /** The part of a lifted set that comes into word i. */
  function LiftedWord(src: Words, base: nat, i: nat): Word
    requires i < 6
  {
    var wordShift, bitShift := base / 32, base % 32;
    var low := if i >= wordShift then Shr(src[i - wordShift], bitShift) else 0;
    var high := if bitShift > 0 && i >= wordShift + 1 then Shl(src[i - wordShift - 1], 32 - bitShift) else 0;
    OrWord(low, high)
  }

  function Lifted(src: Words, base: nat): Words {
    seq(6, i requires 0 <= i < 6 => LiftedWord(src, base, i))
  }

  lemma LiftedWordBit(src: Words, base: nat, i: nat, k: nat)
    requires i < 6 && k < 32
    ensures BitAt(LiftedWord(src, base, i), k) <==> 32 * i + k >= base && Bit(src, 32 * i + k - base)
  {
    var wordShift, bitShift := base / 32, base % 32;
    NoDigits(31 - k);
    var low := if i >= wordShift then Shr(src[i - wordShift], bitShift) else 0;
    var high := if bitShift > 0 && i >= wordShift + 1 then Shl(src[i - wordShift - 1], 32 - bitShift) else 0;
    OrBit(low, high, k);
    if i >= wordShift {
      ShrBit(src[i - wordShift], bitShift, k);
    }
    if bitShift > 0 && i >= wordShift + 1 {
      ShlBit(src[i - wordShift - 1], 32 - bitShift, k);
    }
    if 32 * i + k >= base {
      var bone := 32 * i + k - base;
      if k >= bitShift {
        assert bone / 32 == i - wordShift && bone % 32 == k - bitShift;
      } else {
        assert bone / 32 == i - wordShift - 1 && bone % 32 == 32 + k - bitShift;
      }
    }
  }

  /** Lifting moves bone b to b + base and drops what leaves the 192 places. */
  lemma LiftedBit(src: Words, base: nat, bone: nat)
    ensures Bit(Lifted(src, base), bone) <==> bone < CAPACITY && bone >= base && Bit(src, bone - base)
  {
    if bone < CAPACITY {
      LiftedWordBit(src, base, bone / 32, bone % 32);
    }
  }

  /** Two lifts are one lift by the sum, whatever is dropped on the way. */
  lemma LiftedTwice(src: Words, first: nat, second: nat)
    ensures Lifted(Lifted(src, first), second) == Lifted(src, first + second)
  {
    forall bone | 0 <= bone < CAPACITY
      ensures Bit(Lifted(Lifted(src, first), second), bone) == Bit(Lifted(src, first + second), bone)
    {
      LiftedBit(Lifted(src, first), second, bone);
      LiftedBit(src, first + second, bone);
      if bone >= second {
        LiftedBit(src, first, bone - second);
      }
    }
    BitsDetermine(Lifted(Lifted(src, first), second), Lifted(src, first + second));
  }

  function OrWords(a: Words, b: Words): Words {
    seq(6, i requires 0 <= i < 6 => OrWord(a[i], b[i]))
  }

  lemma OrWordsBit(a: Words, b: Words, bone: nat)
    ensures Bit(OrWords(a, b), bone) <==> Bit(a, bone) || Bit(b, bone)
  {
    if bone < CAPACITY {
      OrBit(a[bone / 32], b[bone / 32], bone % 32);
    }
  }

  // ---------- the operations ----------

  method SetHidePartBit(words: array<Word>, bone: nat)
    requires words.Length == 6
    modifies words
    ensures forall b: nat :: Bit(words[..], b) <==> Bit(old(words[..]), b) || (b == bone && bone < CAPACITY)
  {
    if bone >= CAPACITY {
      return;
    }
    Pow32();
    var mask := Shr(0x8000_0000, bone % 32);
    ghost var before: Words := words[..];
    words[bone / 32] := OrWord(words[bone / 32], mask);
    forall b: nat
      ensures Bit(words[..], b) <==> Bit(before, b) || (b == bone && bone < CAPACITY)
    {
      if b < CAPACITY && b / 32 == bone / 32 {
        OrBit(before[b / 32], mask, b % 32);
        MaskBit(bone % 32, b % 32);
      }
    }
  }

  /** The mask of position k has that one bit. */
  lemma MaskBit(k: nat, b: nat)
    requires k < 32 && b < 32
    ensures BitAt(Shr(0x8000_0000, k), b) <==> b == k
  {
    ShrBit(0x8000_0000, k, b);
    if b >= k {
      TopBit(31, 31 - (b - k));
      Pow32();
    }
  }

  lemma {:induction false} TopBit(n: nat, j: nat)
    ensures Digit(Pow2(n), j) <==> j == n
  {
    if n == 0 {
      if j > 0 {
        NoDigits(j - 1);
      }
    } else if j > 0 {
      TopBit(n - 1, j - 1);
    }
  }

  /** Bone b of the source arrives at b + base, unless that is past the end;
      what was in the destination stays. */
  method OrShiftPartBits(dst: array<Word>, src: Words, base: nat)
    requires dst.Length == 6
    modifies dst
    ensures dst[..] == OrWords(old(dst[..]), Lifted(src, base))
    ensures forall bone: nat :: Bit(dst[..], bone) <==>
              Bit(old(dst[..]), bone) || (base <= bone < CAPACITY && Bit(src, bone - base))
  {
    ghost var before: Words := dst[..];
    OrShiftWords(dst, src, base);
    forall bone: nat
      ensures Bit(dst[..], bone) <==> Bit(before, bone) || (base <= bone < CAPACITY && Bit(src, bone - base))
    {
      OrWordsBit(before, Lifted(src, base), bone);
      LiftedBit(src, base, bone);
    }
  }

  method OrShiftWords(dst: array<Word>, src: Words, base: nat)
    requires dst.Length == 6
    modifies dst
    ensures dst[..] == OrWords(old(dst[..]), Lifted(src, base))
  {
    var wordShift := base / 32;
    var bitShift := base % 32;
    if bitShift == 0 {
      for i := 0 to 6
        invariant forall j | 0 <= j < 6 :: dst[j] == if j < i then OrWords(old(dst[..]), Lifted(src, base))[j] else old(dst[j])
      {
        if i >= wordShift {
          dst[i] := OrWord(dst[i], src[i - wordShift]);
        }
      }
      return;
    }
    var inv := 32 - bitShift;
    for i := 0 to 6
      invariant forall j | 0 <= j < 6 :: dst[j] == if j < i then OrWords(old(dst[..]), Lifted(src, base))[j] else old(dst[j])
    {
      var low := if i >= wordShift then Shr(src[i - wordShift], bitShift) else 0;
      var high := if i >= wordShift + 1 then Shl(src[i - wordShift - 1], inv) else 0;
      dst[i] := OrWord(dst[i], OrWord(low, high));
    }
  }

  /** A surface is hidden when some bone of its part, lifted, is hidden. */
  method SurfaceHidden(part: Words, mask: Words, base: nat) returns (hidden: bool)
    ensures hidden <==> exists bone: nat :: Bit(part, bone) && Bit(mask, bone + base)
  {
    var lifted := new Word[6](_ => 0);
    ghost var zero: Words := lifted[..];
    NoBits(zero);
    OrShiftPartBits(lifted, part, base);
    ghost var all: Words := lifted[..];
    hidden := false;
    for i := 0 to 6
      invariant !hidden && lifted[..] == all
      invariant forall bone: nat :: bone < 32 * i ==> !(Bit(all, bone) && Bit(mask, bone))
    {
      if And(lifted[i], mask[i]) != 0 {
        CommonBit(all, mask, i);
        return true;
      }
      NoCommonBit(all, mask, i);
    }
    forall bone: nat
      ensures !(Bit(part, bone) && Bit(mask, bone + base))
    {
      assert Bit(all, bone + base) ==> !Bit(mask, bone + base);
    }
  }

  lemma NoBits(words: Words)
    requires forall i | 0 <= i < 6 :: words[i] == 0
    ensures forall bone: nat :: !Bit(words, bone)
  {
    forall bone: nat | bone < CAPACITY
      ensures !Bit(words, bone)
    {
      NoDigits(31 - bone % 32);
    }
  }

  lemma NoCommonBit(a: Words, b: Words, i: nat)
    requires i < 6 && And(a[i], b[i]) == 0
    ensures forall bone: nat | bone / 32 == i :: !(Bit(a, bone) && Bit(b, bone))
  {
    forall bone: nat | bone / 32 == i
      ensures !(Bit(a, bone) && Bit(b, bone))
    {
      AndDigit(a[i], b[i], 31 - bone % 32);
      NoDigits(31 - bone % 32);
    }
  }

  lemma CommonBit(a: Words, b: Words, i: nat)
    requires i < 6 && And(a[i], b[i]) != 0
    ensures exists bone: nat :: Bit(a, bone) && Bit(b, bone)
  {
    Pow32();
    AndBelow(a[i], b[i]);
    var j := SomeDigit(And(a[i], b[i]), 32);
    AndDigit(a[i], b[i], j);
    assert Bit(a, 32 * i + (31 - j)) && Bit(b, 32 * i + (31 - j));
  }

  lemma {:induction false} AndBelow(a: nat, b: nat)
    ensures And(a, b) <= a
  {
    if a != 0 && b != 0 {
      AndBelow(a / 2, b / 2);
    }
  }
}
