/** Facts about sequences shared by the modules of the model. */
module Sequences {

  /** No element occurs twice: a sequence used as an insertion-ordered set. */
  ghost predicate NoDuplicates<T>(s: seq<T>) {
    forall i, j :: 0 <= i < j < |s| ==> s[i] != s[j]
  }
}
