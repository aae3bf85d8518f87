/** The bytes a tokenizer may take for text are the encodings of Unicode text, section
    3 of RFC 3629. */
module Utf8 {
  import opened AtrLexer

  /** Code points without the surrogates. */
  predicate Scalar(cp: nat) {
    cp < 0x110000 && !(0xD800 <= cp < 0xE000)
  }

  function Byte(n: nat): char
    requires n < 256
  {
    n as char
  }

  /** Six more bits. */
  function Continued(n: nat): char {
    Byte(0x80 + n % 64)
  }

  function Encode(cp: nat): (bytes: string)
    requires Scalar(cp)
    ensures bytes != ""
  {
    if cp < 0x80 then [Byte(cp)]
    else if cp < 0x800 then [Byte(0xC0 + cp / 64), Continued(cp)]
    else if cp < 0x10000 then [Byte(0xE0 + cp / 4096), Continued(cp / 64), Continued(cp)]
    else [Byte(0xF0 + cp / 262144), Continued(cp / 4096), Continued(cp / 64), Continued(cp)]
  }

  type Text = cps: seq<nat> | forall i :: 0 <= i < |cps| ==> Scalar(cps[i])

  function EncodeAll(cps: Text): string {
    if cps == [] then "" else Encode(cps[0]) + EncodeAll(cps[1..])
  }

  lemma {:induction false} EncodedLength(cp: nat, rest: string)
    requires Scalar(cp)
    ensures CharLength(Encode(cp) + rest) == |Encode(cp)|
  {
    var s := Encode(cp) + rest;
    assert forall i :: 0 <= i < |Encode(cp)| ==> s[i] == Encode(cp)[i];
  }

  /** Six-bit digits, put together and taken apart. */
  lemma Digits(high: nat, low: nat)
    requires low < 64
    ensures (64 * high + low) / 64 == high && (64 * high + low) % 64 == low
  {}

  lemma TwoDown(n: nat)
    ensures n / 4096 == n / 64 / 64
  {}

  lemma ThreeDown(n: nat)
    ensures n / 262144 == n / 64 / 64 / 64
  {}

  lemma {:induction false} ThreeDigits(a: nat, b: nat, c: nat) returns (cp: nat)
    requires b < 64 && c < 64
    ensures cp == 4096 * a + 64 * b + c && cp / 4096 == a && cp / 64 % 64 == b && cp % 64 == c
  {
    cp := 64 * (64 * a + b) + c;
    Digits(64 * a + b, c);
    Digits(a, b);
    TwoDown(cp);
  }

  lemma {:induction false} FourDigits(a: nat, b: nat, c: nat, d: nat) returns (cp: nat)
    requires b < 64 && c < 64 && d < 64
    ensures cp == 262144 * a + 4096 * b + 64 * c + d
    ensures cp / 262144 == a && cp / 4096 % 64 == b && cp / 64 % 64 == c && cp % 64 == d
  {
    var high := ThreeDigits(a, b, c);
    cp := 64 * high + d;
    Digits(high, d);
    TwoDown(cp);
    TwoDown(high);
    ThreeDown(cp);
  }

  /** What six bits a byte adds. */
  function Low(s: string, i: nat): (n: nat)
    requires InRange(s, i, 0x80, 0xBF)
    ensures n < 64
  {
    s[i] as nat - 0x80
  }

  lemma {:induction false} DecodedThree(s: string) returns (cp: nat)
    requires CharLength(s) == 3
    ensures Scalar(cp) && s[..3] == Encode(cp)
  {
    cp := ThreeDigits(s[0] as nat - 0xE0, Low(s, 1), Low(s, 2));
  }

  lemma {:induction false} DecodedFour(s: string) returns (cp: nat)
    requires CharLength(s) == 4
    ensures Scalar(cp) && s[..4] == Encode(cp)
  {
    cp := FourDigits(s[0] as nat - 0xF0, Low(s, 1), Low(s, 2), Low(s, 3));
  }

  lemma {:induction false} Decoded(s: string) returns (cp: nat)
    requires CharLength(s) > 0
    ensures Scalar(cp) && s[..CharLength(s)] == Encode(cp)
  {
    var n := CharLength(s);
    if n == 1 {
      cp := s[0] as nat;
    } else if n == 2 {
      Digits(s[0] as nat - 0xC0, Low(s, 1));
      cp := 64 * (s[0] as nat - 0xC0) + Low(s, 1);
    } else if n == 3 {
      cp := DecodedThree(s);
    } else {
      cp := DecodedFour(s);
    }
  }

  lemma {:induction false} EncodedIsUtf8(cps: Text)
    ensures IsUtf8(EncodeAll(cps))
    decreases |cps|
  {
    if cps != [] {
      var first, rest := Encode(cps[0]), EncodeAll(cps[1..]);
      EncodedLength(cps[0], rest);
      EncodedIsUtf8(cps[1..]);
      assert (first + rest)[|first|..] == rest;
    }
  }

  lemma {:induction false} Utf8IsEncoded(s: string) returns (cps: Text)
    requires IsUtf8(s)
    ensures s == EncodeAll(cps)
    decreases |s|
  {
    if s == "" {
      cps := [];
    } else {
      var n := CharLength(s);
      var cp := Decoded(s);
      var rest := Utf8IsEncoded(s[n..]);
      cps := [cp] + rest;
      assert cps[1..] == rest && s == s[..n] + s[n..];
    }
  }

  /** Bytes are accepted as text exactly if they encode some. */
  lemma Utf8Exact(s: string)
    ensures IsUtf8(s) <==> exists cps: Text :: s == EncodeAll(cps)
  {
    if IsUtf8(s) {
      var cps := Utf8IsEncoded(s);
    }
    forall cps: Text | s == EncodeAll(cps)
      ensures IsUtf8(s)
    {
      EncodedIsUtf8(cps);
    }
  }
}
