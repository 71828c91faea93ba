/**
 * The string operations the city code takes from Foundation and the Swift
 * standard library: `lowercased()`, `uppercased()`, `capitalized` and the
 * `<` order on strings (`hasPrefix` is Dafny's prefix order `<=`).  Case mapping is modelled on the
 * ASCII letters only; every other character maps to itself.  The order is
 * the lexicographic order on character codes.
 */
module Text {

  predicate IsUpperLetter(c: char) { 'A' <= c <= 'Z' }

  predicate IsLowerLetter(c: char) { 'a' <= c <= 'z' }

  /** Spaces, tabs and line terminators delimit the words of `capitalized`. */
  predicate IsWordSeparator(c: char) { c == ' ' || c == '\t' || c == '\n' || c == '\r' }

  /** ASCII lower-casing: 'A'..'Z' move 32 code points up to 'a'..'z'. */
  function LowerChar(c: char): (d: char)
    ensures IsUpperLetter(c) ==> d as int == c as int + 32 && IsLowerLetter(d)
    ensures !IsUpperLetter(c) ==> d == c
    ensures !IsUpperLetter(d)
    ensures IsWordSeparator(d) == IsWordSeparator(c)
  {
    if IsUpperLetter(c) then (c as int + 32) as char else c
  }

  /** ASCII upper-casing: 'a'..'z' move 32 code points down to 'A'..'Z'. */
  function UpperChar(c: char): (d: char)
    ensures IsLowerLetter(c) ==> d as int == c as int - 32 && IsUpperLetter(d)
    ensures !IsLowerLetter(c) ==> d == c
    ensures !IsLowerLetter(d)
    ensures IsWordSeparator(d) == IsWordSeparator(c)
  {
    if IsLowerLetter(c) then (c as int - 32) as char else c
  }

  /** Upper-casing forgets whether the letter was lower-cased first. */
  lemma UpperOfLowerChar(c: char)
    ensures UpperChar(LowerChar(c)) == UpperChar(c)
  {
  }

  /** A string none of whose letters is upper case: what `lowercased()` produces. */
  predicate IsLowerCase(s: string) {
    forall i :: 0 <= i < |s| ==> !IsUpperLetter(s[i])
  }

  /** `lowercased()`: each upper-case letter replaced by its lower-case partner, all else kept. */
  function Lower(s: string): (r: string)
    ensures |r| == |s|
    ensures forall i :: 0 <= i < |s| ==>
              if IsUpperLetter(s[i]) then r[i] as int == s[i] as int + 32 else r[i] == s[i]
    ensures IsLowerCase(r)
    ensures IsLowerCase(s) ==> r == s
  {
    seq(|s|, i requires 0 <= i < |s| => LowerChar(s[i]))
  }

  /** `uppercased()`: each lower-case letter replaced by its upper-case partner, all else kept. */
  function Upper(s: string): (r: string)
    ensures |r| == |s|
    ensures forall i :: 0 <= i < |s| ==>
              if IsLowerLetter(s[i]) then r[i] as int == s[i] as int - 32 else r[i] == s[i]
    ensures forall i :: 0 <= i < |r| ==> !IsLowerLetter(r[i])
  {
    seq(|s|, i requires 0 <= i < |s| => UpperChar(s[i]))
  }

  /** Lower-casing a lower-cased string changes nothing. */
  lemma LowerIdempotent(s: string)
    ensures Lower(Lower(s)) == Lower(s)
  {
  }

  /** Lower-casing forgets an upper-casing done before it: case is lost, letters are not. */
  lemma LowerOfUpper(s: string)
    ensures Lower(Upper(s)) == Lower(s)
  {
  }

  lemma LowerTail(s: string)
    requires s != []
    ensures Lower(s)[0] == LowerChar(s[0]) && Lower(s)[1..] == Lower(s[1..])
  {
  }

  /**
   * `capitalized` from the given position on: the first character of each
   * word upper case, every other character lower case; `atWordStart` says
   * whether `s[0]` begins a word, and a separator makes the next character
   * begin one.
   */
  /** Whether `s[i]` begins a word, given whether `s[0]` does. */
  predicate StartsWord(s: string, i: nat, atWordStart: bool)
    requires i < |s|
  {
    if i == 0 then atWordStart else IsWordSeparator(s[i - 1])
  }

  function CapitalizedFrom(s: string, atWordStart: bool): (r: string)
    ensures |r| == |s|
    ensures forall i :: 0 <= i < |s| ==>
              r[i] == if StartsWord(s, i, atWordStart) then UpperChar(s[i]) else LowerChar(s[i])
    decreases |s|
  {
    if s == [] then []
    else
      var rest := CapitalizedFrom(s[1..], IsWordSeparator(s[0]));
      var r := [if atWordStart then UpperChar(s[0]) else LowerChar(s[0])] + rest;
      assert forall i :: 1 <= i < |s| ==>
        r[i] == rest[i - 1] && s[i] == s[1..][i - 1]
        && StartsWord(s, i, atWordStart) == StartsWord(s[1..], i - 1, IsWordSeparator(s[0]));
      r
  }

  /**
   * `capitalized`: the first character and every character after a separator
   * upper-cased, every other character lower-cased.
   */
  function Capitalized(s: string): (r: string)
    ensures |r| == |s|
    ensures s != [] ==> r[0] == UpperChar(s[0])
    ensures forall i :: 0 < i < |s| ==>
              r[i] == if IsWordSeparator(s[i - 1]) then UpperChar(s[i]) else LowerChar(s[i])
  {
    CapitalizedFrom(s, true)
  }

  /** `capitalized` does not depend on the case the string had before. */
  lemma {:induction false} CapitalizedIgnoresCase(s: string, atWordStart: bool)
    ensures CapitalizedFrom(Lower(s), atWordStart) == CapitalizedFrom(s, atWordStart)
    decreases |s|
  {
    if s != [] {
      LowerTail(s);
      UpperOfLowerChar(s[0]);
      CapitalizedIgnoresCase(s[1..], IsWordSeparator(s[0]));
    }
  }

  /** Characters inside a word: no upper-case letter and no separator. */
  predicate IsWordTail(s: string) {
    forall i :: 0 <= i < |s| ==> !IsUpperLetter(s[i]) && !IsWordSeparator(s[i])
  }

  lemma {:induction false} CapitalizedOfWordTail(s: string)
    requires IsWordTail(s)
    ensures CapitalizedFrom(s, false) == s
    decreases |s|
  {
    if s != [] {
      CapitalizedOfWordTail(s[1..]);
    }
  }

  /** A single word written as one capital followed by lower-case letters is its own `capitalized`. */
  lemma CapitalizedOfCapitalWord(s: string)
    requires s != [] && !IsLowerLetter(s[0]) && !IsWordSeparator(s[0])
    requires IsWordTail(s[1..])
    ensures Capitalized(s) == s
  {
    CapitalizedOfWordTail(s[1..]);
    assert s == [s[0]] + s[1..];
  }

  /** `capitalized` works left to right: a word boundary carries over from the first part to the second. */
  lemma {:induction false} CapitalizedFromAppend(a: string, b: string, atWordStart: bool)
    ensures CapitalizedFrom(a + b, atWordStart)
            == CapitalizedFrom(a, atWordStart)
               + CapitalizedFrom(b, if a == [] then atWordStart else IsWordSeparator(a[|a| - 1]))
    decreases |a|
  {
    if a == [] {
      assert a + b == b;
    } else {
      var tail := a[1..];
      assert (a + b)[0] == a[0] && (a + b)[1..] == tail + b;
      assert tail != [] ==> tail[|tail| - 1] == a[|a| - 1];
      CapitalizedFromAppend(tail, b, IsWordSeparator(a[0]));
    }
  }

  /** Two capitalised words joined by a space are their own `capitalized`. */
  lemma CapitalizedOfTwoWords(first: string, second: string)
    requires first != [] && !IsLowerLetter(first[0]) && !IsWordSeparator(first[0]) && IsWordTail(first[1..])
    requires second != [] && !IsLowerLetter(second[0]) && !IsWordSeparator(second[0]) && IsWordTail(second[1..])
    ensures Capitalized(first + " " + second) == first + " " + second
  {
    var s := first + " " + second;
    var r := Capitalized(s);
    forall i | 0 <= i < |s| ensures r[i] == s[i] {
      if i == 0 {
      } else if i < |first| {
        assert s[i - 1] == first[i - 1] && s[i] == first[i];
        assert i - 1 > 0 ==> first[i - 1] == first[1..][i - 2];
        assert first[i] == first[1..][i - 1];
      } else if i == |first| {
        assert s[i - 1] == first[i - 1];
        assert i - 1 > 0 ==> first[i - 1] == first[1..][i - 2];
      } else if i == |first| + 1 {
      } else {
        var j := i - |first| - 1;
        assert s[i - 1] == second[j - 1] && s[i] == second[j];
        assert j - 1 > 0 ==> second[j - 1] == second[1..][j - 2];
        assert second[j] == second[1..][j - 1];
      }
    }
  }

  /** `a < b` on strings: lexicographic on character codes, a proper prefix first. */
  predicate LexLess(a: string, b: string): (less: bool)
    ensures less ==> a != b
    ensures a < b ==> less
    ensures a != [] && b != [] && a[0] < b[0] ==> less
    decreases |a|
  {
    if a == [] then b != []
    else if b == [] then false
    else if a[0] != b[0] then a[0] < b[0]
    else LexLess(a[1..], b[1..])
  }

  lemma {:induction false} LexIrreflexive(a: string)
    ensures !LexLess(a, a)
    decreases |a|
  {
    if a != [] {
      LexIrreflexive(a[1..]);
    }
  }

  lemma {:induction false} LexTransitive(a: string, b: string, c: string)
    requires LexLess(a, b) && LexLess(b, c)
    ensures LexLess(a, c)
    decreases |a|
  {
    if a != [] && a[0] == b[0] && b[0] == c[0] {
      LexTransitive(a[1..], b[1..], c[1..]);
    }
  }

  /** Any two different strings are ordered one way or the other. */
  lemma {:induction false} LexTotal(a: string, b: string)
    ensures a == b || LexLess(a, b) || LexLess(b, a)
    decreases |a|
  {
    if a != [] && b != [] && a[0] == b[0] {
      LexTotal(a[1..], b[1..]);
      if a[1..] == b[1..] {
        assert a == [a[0]] + a[1..] && b == [b[0]] + b[1..];
      }
    }
  }

  /** A common prefix does not decide the order: what follows it does. */
  lemma {:induction false} LexLessAfterCommonPrefix(p: string, a: string, b: string)
    ensures LexLess(p + a, p + b) <==> LexLess(a, b)
    decreases |p|
  {
    if p != [] {
      assert (p + a)[0] == p[0] == (p + b)[0];
      assert (p + a)[1..] == p[1..] + a && (p + b)[1..] == p[1..] + b;
      LexLessAfterCommonPrefix(p[1..], a, b);
    } else {
      assert p + a == a && p + b == b;
    }
  }

  lemma LexAsymmetric(a: string, b: string)
    requires LexLess(a, b)
    ensures !LexLess(b, a)
  {
    if LexLess(b, a) {
      LexTransitive(a, b, a);
      LexIrreflexive(a);
    }
  }
}
