/** `str.upper()` and `str.lower()` on the ASCII letters; other characters are left
    as they are. */
module CaseFold {

  predicate IsLowerLetter(c: char) { 'a' <= c <= 'z' }

  predicate IsUpperLetter(c: char) { 'A' <= c <= 'Z' }

  function UpperChar(c: char): char
  {
    if IsLowerLetter(c) then (c as int - 32) as char else c
  }

  function LowerChar(c: char): char
  {
    if IsUpperLetter(c) then (c as int + 32) as char else c
  }

  /** A string with no lower-case letter: what `str.upper()` produces. */
  predicate IsUpper(s: string)
  {
    forall i :: 0 <= i < |s| ==> !IsLowerLetter(s[i])
  }

  /** `s.upper()`: same length, no lower-case letter left, and equal to `s` ignoring case. */
  function Upper(s: string): (r: string)
    ensures |r| == |s| && IsUpper(r)
    ensures forall i :: 0 <= i < |s| ==> LowerChar(r[i]) == LowerChar(s[i])
  {
    if s == [] then [] else [UpperChar(s[0])] + Upper(s[1..])
  }

  /** `s.lower()`: same length, no upper-case letter left, and equal to `s` ignoring case. */
  function Lower(s: string): (r: string)
    ensures |r| == |s|
    ensures forall i :: 0 <= i < |r| ==> !IsUpperLetter(r[i])
    ensures forall i :: 0 <= i < |s| ==> UpperChar(r[i]) == UpperChar(s[i])
  {
    if s == [] then [] else [LowerChar(s[0])] + Lower(s[1..])
  }

  /** `upper()` leaves a string that is already upper case as it is. */
  lemma {:induction false} UpperOfUpper(s: string)
    requires IsUpper(s)
    ensures Upper(s) == s
  {
    if s != [] {
      assert IsUpper(s[1..]) by {
        forall i | 0 <= i < |s[1..]| ensures !IsLowerLetter(s[1..][i]) {
          assert s[1..][i] == s[i + 1];
        }
      }
      UpperOfUpper(s[1..]);
    }
  }

  /** Hence `upper()` is idempotent. */
  lemma UpperIdempotent(s: string)
    ensures Upper(Upper(s)) == Upper(s)
  {
    UpperOfUpper(Upper(s));
  }

  /** Two characters without an upper-case letter among them that upper-case alike are equal. */
  lemma FoldInjective(x: char, y: char)
    requires !IsUpperLetter(x) && !IsUpperLetter(y) && UpperChar(x) == UpperChar(y)
    ensures x == y
  {
  }

  /** `s.lower() == t.lower()` exactly when `s` and `t` are equal ignoring case. */
  lemma LowerEqualIgnoringCase(s: string, t: string)
    ensures Lower(s) == Lower(t) <==>
      |s| == |t| && forall i :: 0 <= i < |s| ==> UpperChar(s[i]) == UpperChar(t[i])
  {
    var ls, lt := Lower(s), Lower(t);
    if ls == lt {
      forall i | 0 <= i < |s| ensures UpperChar(s[i]) == UpperChar(t[i]) {
        assert UpperChar(s[i]) == UpperChar(ls[i]);
        assert UpperChar(t[i]) == UpperChar(lt[i]);
      }
    }
    if |s| == |t| && forall i :: 0 <= i < |s| ==> UpperChar(s[i]) == UpperChar(t[i]) {
      forall i | 0 <= i < |s| ensures ls[i] == lt[i] {
        FoldInjective(ls[i], lt[i]);
      }
      assert ls == lt;
    }
  }
}
