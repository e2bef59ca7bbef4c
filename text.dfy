/** The few string operations of Python that the recognition and catalog code
    relies on: `str.lower()`, the substring test `k in s` and `str.title()`,
    restricted to ASCII letters. */
module Text {

  predicate IsUpper(c: char) {
    'A' <= c <= 'Z'
  }

  predicate IsLower(c: char) {
    'a' <= c <= 'z'
  }

  /** A "cased" character in the sense of `str.title()`. */
  predicate IsLetter(c: char) {
    IsUpper(c) || IsLower(c)
  }

  function LowerChar(c: char): (r: char)
    ensures IsUpper(c) ==> IsLower(r)
    ensures !IsUpper(c) ==> r == c
  {
    if IsUpper(c) then (c as int + 32) as char else c
  }

  function UpperChar(c: char): (r: char)
    ensures IsLower(c) ==> IsUpper(r)
    ensures !IsLower(c) ==> r == c
  {
    if IsLower(c) then (c as int - 32) as char else c
  }

  /** `s.lower()`: every character keeps its place, upper-case letters become
      lower-case. */
  function ToLower(s: string): (r: string)
    ensures |r| == |s|
    ensures forall i :: 0 <= i < |s| ==> r[i] == LowerChar(s[i])
    ensures forall i :: 0 <= i < |s| ==> !IsUpper(r[i])
  {
    seq(|s|, i requires 0 <= i < |s| => LowerChar(s[i]))
  }

  /** `k` occurs in `s` starting at position `i`. */
  predicate OccursAt(s: string, k: string, i: int) {
    0 <= i && i + |k| <= |s| && s[i..i + |k|] == k
  }

  /** Characters `j..` of `k` agree with `s` from position `i + j` on. */
  predicate MatchAt(s: string, k: string, i: nat, j: nat)
    requires i + |k| <= |s| && j <= |k|
    decreases |k| - j
  {
    j == |k| || (s[i + j] == k[j] && MatchAt(s, k, i, j + 1))
  }

  /** `k` occurs in `s` at some position `i` or later. */
  predicate ContainsFrom(s: string, k: string, i: nat)
    decreases |s| - i
  {
    i + |k| <= |s| && (MatchAt(s, k, i, 0) || ContainsFrom(s, k, i + 1))
  }

  /** Python's substring test `k in s`. */
  predicate Contains(s: string, k: string) {
    ContainsFrom(s, k, 0)
  }

  lemma {:induction false} MatchAtIsSlice(s: string, k: string, i: nat, j: nat)
    requires i + |k| <= |s| && j <= |k|
    ensures MatchAt(s, k, i, j) <==> s[i + j..i + |k|] == k[j..]
    decreases |k| - j
  {
    if j < |k| {
      MatchAtIsSlice(s, k, i, j + 1);
      assert s[i + j..i + |k|] == [s[i + j]] + s[i + j + 1..i + |k|];
      assert k[j..] == [k[j]] + k[j + 1..];
    }
  }

  lemma {:induction false} ContainsFromIsOccurrence(s: string, k: string, i: nat)
    ensures ContainsFrom(s, k, i) <==> exists p :: i <= p && OccursAt(s, k, p)
    decreases |s| - i
  {
    if i + |k| <= |s| {
      MatchAtIsSlice(s, k, i, 0);
      assert k[0..] == k;
      assert MatchAt(s, k, i, 0) <==> OccursAt(s, k, i);
      ContainsFromIsOccurrence(s, k, i + 1);
      if exists p :: i <= p && OccursAt(s, k, p) {
        var p :| i <= p && OccursAt(s, k, p);
        assert p == i || (i + 1 <= p && OccursAt(s, k, p));
      }
    } else {
      assert forall p :: i <= p ==> !OccursAt(s, k, p);
    }
  }

  /** The executable test agrees with the definition of a substring. */
  lemma ContainsIsOccurrence(s: string, k: string)
    ensures Contains(s, k) <==> exists p :: OccursAt(s, k, p)
  {
    ContainsFromIsOccurrence(s, k, 0);
    if exists p :: OccursAt(s, k, p) {
      var p :| OccursAt(s, k, p);
      assert 0 <= p;
    }
  }

  /** A witness position is enough to establish `k in s`. */
  lemma OccursAtContains(s: string, k: string, p: int)
    requires OccursAt(s, k, p)
    ensures Contains(s, k)
  {
    ContainsIsOccurrence(s, k);
  }

  /** Every string occurs in itself, so a longer subject containing `k` as a
      slice contains it too. */
  lemma SliceContains(s: string, k: string, p: nat)
    requires p + |k| <= |s| && s[p..p + |k|] == k
    ensures Contains(s, k)
  {
    OccursAtContains(s, k, p);
  }

  /** The empty string contains no non-empty keyword. */
  lemma EmptyContainsNothing(k: string)
    requires |k| > 0
    ensures !Contains("", k)
  {
  }

  /** `s.title()`, with `prevCased` telling whether the character before `s`
      was a letter: a letter after a letter is lowered, any other letter is
      raised, and anything else is copied and ends the word. */
  function TitleFrom(s: string, prevCased: bool): (r: string)
    ensures |r| == |s|
  {
    if |s| == 0 then ""
    else if IsLetter(s[0]) then
      [if prevCased then LowerChar(s[0]) else UpperChar(s[0])] + TitleFrom(s[1..], true)
    else
      [s[0]] + TitleFrom(s[1..], false)
  }

  /** Python's `s.title()`. */
  function Title(s: string): (r: string)
    ensures |r| == |s|
  {
    TitleFrom(s, false)
  }

  /** Inside a word of lower-case letters, title-casing changes nothing. */
  lemma {:induction false} TitleFromLowerTail(s: string)
    requires forall i :: 0 <= i < |s| ==> IsLower(s[i])
    ensures TitleFrom(s, true) == s
  {
    if |s| > 0 {
      TitleFromLowerTail(s[1..]);
    }
  }

  /** A single lower-case word gets its first letter raised and keeps the rest:
      `"jewelry".title() == "Jewelry"`. */
  lemma TitleOfLowerWord(s: string)
    requires |s| > 0
    requires forall i :: 0 <= i < |s| ==> IsLower(s[i])
    ensures Title(s) == [UpperChar(s[0])] + s[1..]
  {
    TitleFromLowerTail(s[1..]);
  }

}
