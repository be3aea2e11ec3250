/**
 * Ruby's String#downcase as the handler uses it on the named captures of a
 * command. The route patterns only capture ASCII word characters (and `-` for
 * the node), so lower-casing maps 'A'..'Z' to 'a'..'z' and keeps every other
 * character.
 */
module Text {

  predicate IsUpper(c: char) {
    'A' <= c <= 'Z'
  }

  function LowerChar(c: char): char {
    if IsUpper(c) then (c as int - 'A' as int + 'a' as int) as char else c
  }

  /** No upper-case ASCII letter occurs in `s`. */
  predicate IsLowerCase(s: string) {
    forall i :: 0 <= i < |s| ==> !IsUpper(s[i])
  }

  /** `r` is `s` with each character lower-cased in place. */
  predicate IsLowering(r: string, s: string) {
    |r| == |s| && forall i :: 0 <= i < |s| ==> r[i] == LowerChar(s[i])
  }

  /** `s.downcase`: each character lower-cased where it stands, so nothing upper-case is left. */
  function Lower(s: string): (r: string)
    ensures IsLowering(r, s)
    ensures IsLowerCase(r)
  {
    if s == [] then [] else [LowerChar(s[0])] + Lower(s[1..])
  }

  /** A string is left unchanged by lower-casing exactly when it is already lower case. */
  lemma {:induction false} LowerFixesExactlyLowerCase(s: string)
    ensures Lower(s) == s <==> IsLowerCase(s)
  {
    if s != [] {
      LowerFixesExactlyLowerCase(s[1..]);
      if IsLowerCase(s) {
        assert IsLowerCase(s[1..]) by {
          forall i | 0 <= i < |s[1..]| ensures !IsUpper(s[1..][i]) {
            assert s[1..][i] == s[i + 1];
          }
        }
        assert LowerChar(s[0]) == s[0];
      }
    }
  }

  /** Lower-casing twice is lower-casing once. */
  lemma LowerIdempotent(s: string)
    ensures Lower(Lower(s)) == Lower(s)
  {
    LowerFixesExactlyLowerCase(Lower(s));
  }
}
