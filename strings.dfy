/** The two string predicates of Go's `strings` package that the core relies on. */
module Strings {

  /** Go's `strings.HasPrefix(s, prefix)`: case-sensitive, character by character. */
  predicate HasPrefix(s: string, prefix: string)
  {
    |prefix| <= |s| && s[..|prefix|] == prefix
  }

  /** Go's `strings.HasSuffix(s, suffix)`. */
  predicate HasSuffix(s: string, suffix: string)
  {
    |suffix| <= |s| && s[|s| - |suffix|..] == suffix
  }

  /** A prefix of a prefix is a prefix. */
  lemma PrefixTransitive(s: string, p: string, q: string)
    requires HasPrefix(s, p) && HasPrefix(p, q)
    ensures HasPrefix(s, q)
  {
    assert s[..|q|] == s[..|p|][..|q|];
  }

  /** A string built as `p + rest` starts with `p` and ends with any suffix of `rest`. */
  lemma ConcatPrefixSuffix(p: string, rest: string, suffix: string)
    requires HasSuffix(rest, suffix)
    ensures HasPrefix(p + rest, p) && HasSuffix(p + rest, suffix)
  {
    assert (p + rest)[..|p|] == p;
    assert (p + rest)[|p + rest| - |suffix|..] == rest[|rest| - |suffix|..];
  }
}
