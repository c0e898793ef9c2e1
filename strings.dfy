/** JavaScript's `String.prototype.startsWith` on strings as sequences of chars. */
module Strings {

  /** `s.startsWith(prefix)`: `s` is `prefix` followed by some rest. */
  predicate StartsWith(s: string, prefix: string)
  {
    |prefix| <= |s| && s[..|prefix|] == prefix
  }

  /** Any concatenation starts with its left part. */
  lemma StartsWithConcat(prefix: string, rest: string)
    ensures StartsWith(prefix + rest, prefix)
  {
    assert (prefix + rest)[..|prefix|] == prefix;
  }
}
