/** The few functions of Go's strings package that the model needs. */
module Strings {

  /** `strings.Contains`. */
  predicate Contains(s: string, t: string) {
    exists i :: 0 <= i <= |s| && t <= s[i..]
  }

  /** `strings.HasSuffix`. */
  predicate HasSuffix(s: string, t: string) {
    |t| <= |s| && s[|s| - |t|..] == t
  }
}
