/** Facts about sequences shared by the modules below. */
module Seqs {
  /** Concatenation is associative; stated for the steps that regroup a list and its new tail. */
  lemma AppendAssoc<T>(a: seq<T>, b: seq<T>, c: seq<T>)
    ensures (a + b) + c == a + (b + c)
  {
  }
}
