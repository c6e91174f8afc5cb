/** The two string operations the host resolvers use, as Go's
    strings.HasSuffix and strings.TrimSuffix define them. */
module Strings {

  /** s ends with t. */
  predicate HasSuffix(s: string, t: string) {
    |t| <= |s| && s[|s| - |t|..] == t
  }

  /** s without its suffix t, or s itself when it does not end with t. */
  function TrimSuffix(s: string, t: string): (r: string)
    ensures HasSuffix(s, t) ==> r + t == s
    ensures !HasSuffix(s, t) ==> r == s
  {
    if HasSuffix(s, t) then s[..|s| - |t|] else s
  }

  /** A string ending with p + t also ends with t. */
  lemma SuffixOfSuffix(s: string, p: string, t: string)
    requires HasSuffix(s, p + t)
    ensures HasSuffix(s, t)
  {
    assert s[|s| - |t|..] == s[|s| - |p + t|..][|p|..];
  }

  /** Appending t and trimming it again gives back the prefix. */
  lemma TrimAppended(a: string, t: string)
    ensures HasSuffix(a + t, t)
    ensures TrimSuffix(a + t, t) == a
  {
    assert (a + t)[|a + t| - |t|..] == t;
    assert (a + t)[..|a + t| - |t|] == a;
  }
}
