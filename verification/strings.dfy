/** Substring occurrence, used to say what an error message mentions. */
module Strings {

  /** `sub` occurs in `s` starting at position `k`. */
  predicate OccursAt(sub: string, s: string, k: nat)
  {
    k + |sub| <= |s| && s[k..k + |sub|] == sub
  }

  /** `sub` occurs somewhere in `s`. */
  ghost predicate IsInfix(sub: string, s: string)
  {
    exists k: nat :: OccursAt(sub, s, k)
  }
}
