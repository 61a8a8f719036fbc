/** What several parts of the model share. */
module Basics {
  datatype Option<+T> = None | Some(value: T)

  /** Below this block version the reads of a failed run are put into the read table. */
  const READS_OF_FAILED_RUNS_DROPPED := 2201

  /** A table cell: the value and the index of the transaction that put it. */
  datatype Cell = Cell(index: nat, value: string)

  lemma SubsetSize<T>(a: set<T>, b: set<T>)
    requires a <= b
    ensures |a| <= |b|
    ensures |a| == |b| ==> a == b
  {
    assert b == a + (b - a);
  }
}
