/** Prefix and occurrence tests on strings, shared by the client's key handling and the server's header handling. */
module Text {
  predicate StartsWith(s: string, p: string) {
    |p| <= |s| && s[..|p|] == p
  }

  /** A string that differs from p somewhere in p's length does not start with p. */
  lemma NotPrefix(s: string, p: string, i: nat)
    requires i < |p| <= |s| && s[i] != p[i]
    ensures !StartsWith(s, p)
  {
    assert s[..|p|][i] == s[i];
  }

  /** p occurs in s starting at index j. */
  predicate OccursAt(s: string, p: string, j: nat) {
    j + |p| <= |s| && s[j..j + |p|] == p
  }
}
