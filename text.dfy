/**
 * The string operations both classifiers are built on: Python's `str.lower`
 * restricted to ASCII, and Python's `in` test between two strings, which is
 * plain substring containment (not word matching).
 */
module Text {

  /** Lower-cases one character; only 'A'..'Z' change. */
  function LowerChar(c: char): (r: char)
    ensures 'A' <= c <= 'Z' ==> r as int == c as int + 32
    ensures !('A' <= c <= 'Z') ==> r == c
    ensures !('A' <= r <= 'Z')
  {
    if 'A' <= c <= 'Z' then (c as int + 32) as char else c
  }

  /** `s.lower()`, character by character. */
  function Lower(s: string): (r: string)
    ensures |r| == |s|
    ensures forall i :: 0 <= i < |s| ==> r[i] == LowerChar(s[i])
  {
    seq(|s|, i requires 0 <= i < |s| => LowerChar(s[i]))
  }

  /** Lower-casing works character by character, so it distributes over concatenation. */
  lemma LowerAppend(a: string, b: string)
    ensures Lower(a + b) == Lower(a) + Lower(b)
  {
    assert forall i :: 0 <= i < |a + b| ==> Lower(a + b)[i] == (Lower(a) + Lower(b))[i];
  }

  /** Lower-casing twice is lower-casing once. */
  lemma LowerIdempotent(s: string)
    ensures Lower(Lower(s)) == Lower(s)
  {
    assert forall i :: 0 <= i < |s| ==> Lower(Lower(s))[i] == Lower(s)[i];
  }

  /** `k` occurs in `text` starting at position `i`. */
  predicate OccursAt(text: string, k: string, i: nat)
  {
    i + |k| <= |text| && text[i..i + |k|] == k
  }

  /** Characters `j..` of `k` agree with the text from position `i + j` on. */
  function MatchesFrom(text: string, k: string, i: nat, j: nat): bool
    requires i + |k| <= |text|
    decreases |k| - j
  {
    j >= |k| || (text[i + j] == k[j] && MatchesFrom(text, k, i, j + 1))
  }

  /** `k` occurs in `text` at some position `i` or later, tried position by position. */
  function ContainsFrom(text: string, k: string, i: nat): bool
    decreases |text| - i
  {
    i + |k| <= |text| && (MatchesFrom(text, k, i, 0) || ContainsFrom(text, k, i + 1))
  }

  /** `MatchesFrom` compares the rest of the window character by character. */
  lemma {:induction false} MatchesFromIff(text: string, k: string, i: nat, j: nat)
    requires i + |k| <= |text|
    ensures MatchesFrom(text, k, i, j) <==> forall m :: j <= m < |k| ==> text[i + m] == k[m]
    decreases |k| - j
  {
    if j < |k| {
      MatchesFromIff(text, k, i, j + 1);
    }
  }

  /** `ContainsFrom` finds exactly the occurrences at position `i` or later. */
  lemma {:induction false} ContainsFromIff(text: string, k: string, i: nat)
    ensures ContainsFrom(text, k, i) <==> exists p: nat :: i <= p && OccursAt(text, k, p)
    decreases |text| - i
  {
    if i + |k| <= |text| {
      ContainsFromIff(text, k, i + 1);
      MatchesFromIff(text, k, i, 0);
      assert MatchesFrom(text, k, i, 0) <==> OccursAt(text, k, i) by {
        assert MatchesFrom(text, k, i, 0) ==> text[i..i + |k|] == k;
      }
      assert forall p: nat :: i <= p && OccursAt(text, k, p) ==> p == i || i + 1 <= p;
    } else {
      assert forall p: nat :: i <= p ==> !OccursAt(text, k, p);
    }
  }

  /** Python's `k in text` for two strings: `k` is a substring of `text`.
      The empty string is a substring of every string. */
  function Contains(text: string, k: string): (r: bool)
    ensures r <==> exists i: nat :: OccursAt(text, k, i)
  {
    ContainsFromIff(text, k, 0);
    ContainsFrom(text, k, 0)
  }

  /** An occurrence inside one part is an occurrence inside any string that contains the part. */
  lemma ContainsShift(pre: string, s: string, post: string, k: string)
    requires Contains(s, k)
    ensures Contains(pre + s + post, k)
  {
    var i: nat :| OccursAt(s, k, i);
    var t := pre + s + post;
    assert t[|pre| + i..|pre| + i + |k|] == s[i..i + |k|];
    assert OccursAt(t, k, |pre| + i);
  }

  /** Inside an occurrence, the text and the word agree character by character. */
  lemma WindowChar(text: string, k: string, i: nat, j: nat)
    requires OccursAt(text, k, i) && i <= j < i + |k|
    ensures k[j - i] == text[j]
  {
    assert text[i..i + |k|][j - i] == text[j];
  }

  /**
   * A word without a space occurs in `a + " " + b` exactly when it occurs in
   * `a` or in `b`: no occurrence can straddle the separating space.
   */
  lemma {:induction false} ContainsAcrossSpace(a: string, b: string, k: string)
    requires ' ' !in k
    ensures Contains(a + " " + b, k) <==> Contains(a, k) || Contains(b, k)
  {
    var t := a + " " + b;
    if Contains(a, k) {
      ContainsShift([], a, " " + b, k);
      assert [] + a + (" " + b) == t;
    } else if Contains(b, k) {
      ContainsShift(a + " ", b, [], k);
      assert a + " " + b + [] == t;
    }
    if Contains(t, k) {
      var i: nat :| OccursAt(t, k, i);
      if i <= |a| < i + |k| {
        WindowChar(t, k, i, |a|);
        assert false;
      }
      if i + |k| <= |a| {
        assert a[i..i + |k|] == t[i..i + |k|];
        assert OccursAt(a, k, i);
      } else {
        assert forall m :: |a| < m < |t| ==> t[m] == b[m - |a| - 1];
        assert b[i - |a| - 1..i - |a| - 1 + |k|] == t[i..i + |k|];
        assert OccursAt(b, k, i - |a| - 1);
      }
    }
  }
}
