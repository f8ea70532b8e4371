/** Sequence operations that the list macros carry out on links. */
module Splice {

  ghost predicate Distinct<T>(ns: seq<T>) {
    forall i, j :: 0 <= i < j < |ns| ==> ns[i] != ns[j]
  }

  /** ns with x put in before position k. */
  ghost function Inserted<T>(ns: seq<T>, k: nat, x: T): seq<T>
    requires k <= |ns|
  {
    seq(|ns| + 1, i requires 0 <= i <= |ns| => if i < k then ns[i] else if i == k then x else ns[i - 1])
  }

  /** ns without position k. */
  ghost function Removed<T>(ns: seq<T>, k: nat): seq<T>
    requires k < |ns|
  {
    seq(|ns| - 1, i requires 0 <= i < |ns| - 1 => if i < k then ns[i] else ns[i + 1])
  }

  /** Removing what was inserted restores the sequence. */
  lemma RemoveUndoesInsert<T>(ns: seq<T>, k: nat, x: T)
    requires k <= |ns|
    ensures Removed(Inserted(ns, k, x), k) == ns
  {
  }
}
