/** Character and prefix tests shared by the validator and the seller-record model. */
module Strings {

  /** An ASCII decimal digit: `\d` in a JavaScript regular expression without
      the `u` flag, and the digits the model reads for Python's `\d`. */
  predicate IsAsciiDigit(c: char) { '0' <= c <= '9' }

  /** JavaScript's `s.startsWith(prefix)` and Python's `s.startswith(prefix)`. */
  predicate StartsWith(s: string, prefix: string) {
    |prefix| <= |s| && s[..|prefix|] == prefix
  }
}
