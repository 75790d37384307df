/** The two JavaScript string tests the classifiers are built from:
    `s.startsWith(p)` and `s.includes(t)`, over strings as sequences of characters. */
module Strings {

  /** `s.startsWith(p)`: p is a prefix of s. */
  predicate StartsWith(s: string, p: string) {
    |p| <= |s| && s[..|p|] == p
  }

  /** t occurs in s starting at offset i. */
  predicate OccursAt(s: string, t: string, i: int) {
    0 <= i <= |s| - |t| && s[i..i + |t|] == t
  }

  /** `s.includes(t)`: t occurs in s at some offset. */
  predicate Includes(s: string, t: string) {
    exists i | 0 <= i <= |s| - |t| :: OccursAt(s, t, i)
  }

  /** An occurrence at offset i is found. */
  lemma IncludesAt(s: string, t: string, i: int)
    requires OccursAt(s, t, i)
    ensures Includes(s, t)
  {
  }

  /** t is not in s when its k-th character is not a character of s. */
  lemma MissingChar(s: string, t: string, k: int)
    requires 0 <= k < |t|
    requires t[k] !in s
    ensures !Includes(s, t)
  {
    forall i | 0 <= i <= |s| - |t|
      ensures !OccursAt(s, t, i)
    {
      assert s[i..i + |t|][k] == s[i + k];
    }
  }

  /** t is not in s when no two adjacent characters of s are its k-th and (k+1)-th. */
  lemma MissingPair(s: string, t: string, k: int)
    requires 0 <= k && k + 1 < |t|
    requires forall i :: 0 <= i < |s| - 1 ==> !(s[i] == t[k] && s[i + 1] == t[k + 1])
    ensures !Includes(s, t)
  {
    forall i | 0 <= i <= |s| - |t|
      ensures !OccursAt(s, t, i)
    {
      assert s[i..i + |t|][k] == s[i + k] && s[i..i + |t|][k + 1] == s[i + k + 1];
      assert !(s[i + k] == t[k] && s[i + k + 1] == t[k + 1]);
    }
  }

  /** p is not a prefix of s when they differ at position k. */
  lemma NotPrefix(s: string, p: string, k: int)
    requires 0 <= k < |p|
    requires k >= |s| || s[k] != p[k]
    ensures !StartsWith(s, p)
  {
    if |p| <= |s| {
      assert s[..|p|][k] == s[k];
    }
  }
}
