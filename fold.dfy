/**
 * Case-insensitive string equality (`strings.EqualFold`), restricted to ASCII case folding:
 * two strings are equal under folding when they have the same length and agree character by
 * character once upper-case ASCII letters are mapped to lower case.
 */
module Fold {

  function FoldChar(c: char): (r: char)
    ensures !('A' <= r <= 'Z')
    ensures 'a' <= c <= 'z' ==> r == c
  {
    if 'A' <= c <= 'Z' then (c as int - 'A' as int + 'a' as int) as char else c
  }

  /** Folding is idempotent. */
  lemma FoldCharIdempotent(c: char)
    ensures FoldChar(FoldChar(c)) == FoldChar(c)
  {
  }

  predicate EqualFold(s: string, t: string)
  {
    |s| == |t| && forall i :: 0 <= i < |s| ==> FoldChar(s[i]) == FoldChar(t[i])
  }

  /** Folding only ever identifies a letter with its other case: two folded-equal characters
      are equal or differ by exactly the ASCII case offset. */
  lemma FoldCharIdentifiesCasesOnly(c: char, d: char)
    requires FoldChar(c) == FoldChar(d)
    ensures c == d || (c as int - d as int == 32 && 'a' <= c <= 'z') || (d as int - c as int == 32 && 'a' <= d <= 'z')
  {
  }

  /** EqualFold is an equivalence relation. */
  lemma EqualFoldIsEquivalence(s: string, t: string, u: string)
    ensures EqualFold(s, s)
    ensures EqualFold(s, t) ==> EqualFold(t, s)
    ensures EqualFold(s, t) && EqualFold(t, u) ==> EqualFold(s, u)
  {
  }

  /** EqualFold never identifies strings of different lengths, and extends plain equality. */
  lemma EqualFoldRefinesEquality(s: string, t: string)
    ensures s == t ==> EqualFold(s, t)
    ensures EqualFold(s, t) ==> |s| == |t|
  {
  }

  lemma EqualFoldExample()
    ensures EqualFold("ATOM", "atom")
    ensures !EqualFold("UMEE", "atom")
  {
    assert "UMEE"[0] == 'U' && "atom"[0] == 'a';
    assert FoldChar('U') != FoldChar('a');
  }
}
