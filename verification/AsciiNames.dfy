/** Case folding of asset names, which touches ASCII letters only. */
module AsciiNames {
  predicate IsUpper(c: char) {
    'A' <= c <= 'Z'
  }

  function LowerChar(c: char): char {
    if IsUpper(c) then (c as int + 32) as char else c
  }

  function Lower(s: string): string {
    seq(|s|, i requires 0 <= i < |s| => LowerChar(s[i]))
  }

  predicate EqualsIgnoreCase(a: string, b: string) {
    |a| == |b| && forall i :: 0 <= i < |a| ==> LowerChar(a[i]) == LowerChar(b[i])
  }

  predicate HasUpper(s: string) {
    exists i | 0 <= i < |s| :: IsUpper(s[i])
  }

  /** A name is its own folding exactly when no letter of it is upper case. */
  lemma LowerFixes(s: string)
    ensures Lower(s) == s <==> !HasUpper(s)
  {
    forall i | 0 <= i < |s|
      ensures Lower(s)[i] == s[i] <==> !IsUpper(s[i])
    {
    }
  }

  lemma LowerHasNoUpper(s: string)
    ensures !HasUpper(Lower(s)) && Lower(Lower(s)) == Lower(s)
  {
    LowerFixes(Lower(s));
  }
}
