/** Path-prefix matching, as JavaScript's `String.prototype.startsWith` does it. */
module Paths {

  /** `s.startsWith(prefix)`: the first |prefix| characters of `s` are `prefix`. */
  predicate StartsWith(s: string, prefix: string) {
    |prefix| <= |s| && s[..|prefix|] == prefix
  }

}
