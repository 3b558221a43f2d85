/**
 * ASCII case mapping: Python's `str.lower()` and `str.capitalize()` on
 * strings whose letters are ASCII. Characters other than `A`-`Z` and `a`-`z`
 * are left as they are by both.
 */
module Text {

  predicate IsUpper(c: char) {
    'A' <= c <= 'Z'
  }

  predicate IsLower(c: char) {
    'a' <= c <= 'z'
  }

  function LowerChar(c: char): (r: char)
    ensures IsUpper(c) ==> IsLower(r) && r as int == c as int + 32
    ensures !IsUpper(c) ==> r == c
  {
    if IsUpper(c) then (c as int + 32) as char else c
  }

  function UpperChar(c: char): (r: char)
    ensures IsLower(c) ==> IsUpper(r) && r as int == c as int - 32
    ensures !IsLower(c) ==> r == c
  {
    if IsLower(c) then (c as int - 32) as char else c
  }

  /** `s.lower()` */
  function Lower(s: string): (r: string)
    ensures |r| == |s|
    ensures forall i :: 0 <= i < |s| ==> r[i] == LowerChar(s[i])
  {
    seq(|s|, i requires 0 <= i < |s| => LowerChar(s[i]))
  }

  /** `s.capitalize()`: the first character upper-cased, all the others lower-cased. */
  function Capitalize(s: string): (r: string)
    ensures |r| == |s|
    ensures |s| > 0 ==> r[0] == UpperChar(s[0]) && r[1..] == Lower(s[1..])
  {
    if s == [] then [] else [UpperChar(s[0])] + Lower(s[1..])
  }

  /** A string that `Lower` leaves unchanged has no upper-case letter. */
  predicate IsLowerCase(s: string) {
    forall i :: 0 <= i < |s| ==> !IsUpper(s[i])
  }

  lemma LowerIsLowerCase(s: string)
    ensures IsLowerCase(Lower(s))
    ensures Lower(Lower(s)) == Lower(s)
  {
  }

  lemma LowerCaseFixed(s: string)
    requires IsLowerCase(s)
    ensures Lower(s) == s
  {
  }

  /** Capitalising a word whose tail is already lower case only upper-cases its first letter. */
  lemma CapitalizeWord(s: string)
    requires |s| > 0 && IsLowerCase(s[1..])
    ensures Capitalize(s) == [UpperChar(s[0])] + s[1..]
  {
    LowerCaseFixed(s[1..]);
  }

  /** Lower-casing forgets what capitalisation did. */
  lemma LowerOfCapitalize(s: string)
    ensures Lower(Capitalize(s)) == Lower(s)
  {
    if s != [] {
      var c := Capitalize(s);
      forall i | 0 <= i < |s|
        ensures Lower(c)[i] == Lower(s)[i]
      {
        if i > 0 {
          assert c[i] == Lower(s[1..])[i - 1];
        }
      }
    }
  }

  /** Capitalisation only looks at the lower-cased string. */
  lemma CapitalizeOfLower(s: string)
    ensures Capitalize(Lower(s)) == Capitalize(s)
  {
    if s != [] {
      var l := Lower(s);
      assert l[1..] == Lower(s[1..]);
      LowerIsLowerCase(s[1..]);
    }
  }

  lemma CapitalizeIdempotent(s: string)
    ensures Capitalize(Capitalize(s)) == Capitalize(s)
  {
    LowerOfCapitalize(s);
    CapitalizeOfLower(Capitalize(s));
    CapitalizeOfLower(s);
  }

  /** Strings with the same lower-case form capitalise alike. */
  lemma CapitalizeRespectsLower(a: string, b: string)
    requires Lower(a) == Lower(b)
    ensures Capitalize(a) == Capitalize(b)
  {
    CapitalizeOfLower(a);
    CapitalizeOfLower(b);
  }
}
