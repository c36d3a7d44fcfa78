// Bounded serialization: while the text is too large, ask for something smaller.
module Serialization {
  import opened Wrappers

  datatype Written<T> = Fits(value: T, pruned: nat) | TooLarge(value: T)

  const ATTEMPTS := 6

  /** `size` is the length of the text, `prune` gives None when it has nothing
      smaller, and `left` attempts are left. */
  function SerializeFrom<T>(v: T, pruned: nat, left: nat, maxBytes: nat, size: T -> nat, prune: T -> Option<T>): Written<T>
    decreases left
  {
    if size(v) <= maxBytes then Fits(v, pruned)
    else if left == 0 || prune(v).None? then TooLarge(v)
    else SerializeFrom(prune(v).value, pruned + 1, left - 1, maxBytes, size, prune)
  }

  /** What was tried, one after the other: each but the last was too large and had
      the next to offer. */
  ghost predicate Tried<T>(trail: seq<T>, v: T, maxBytes: nat, size: T -> nat, prune: T -> Option<T>) {
    && trail != [] && trail[0] == v
    && forall i :: 0 <= i < |trail| - 1 ==> size(trail[i]) > maxBytes && prune(trail[i]) == Some(trail[i + 1])
  }

  /** Writing takes the first that fits, and gives up only when nothing smaller is
      offered or the attempts are used up. */
  lemma {:induction false} SerializingTries<T>(v: T, pruned: nat, left: nat, maxBytes: nat, size: T -> nat, prune: T -> Option<T>)
    returns (trail: seq<T>)
    ensures Tried(trail, v, maxBytes, size, prune) && |trail| <= left + 1
    ensures var last := trail[|trail| - 1];
            SerializeFrom(v, pruned, left, maxBytes, size, prune)
            == if size(last) <= maxBytes then Fits(last, pruned + |trail| - 1) else TooLarge(last)
    ensures var last := trail[|trail| - 1];
            size(last) > maxBytes ==> |trail| == left + 1 || prune(last).None?
    decreases left
  {
    if size(v) <= maxBytes || left == 0 || prune(v).None? {
      trail := [v];
    } else {
      var rest := SerializingTries(prune(v).value, pruned + 1, left - 1, maxBytes, size, prune);
      trail := [v] + rest;
    }
  }

  method SerializePrunable<T>(value: T, maxBytes: nat, size: T -> nat, prune: T -> Option<T>) returns (w: Written<T>)
    ensures w == SerializeFrom(value, 0, ATTEMPTS, maxBytes, size, prune)
    ensures w.Fits? ==> size(w.value) <= maxBytes && w.pruned <= ATTEMPTS
    ensures w.TooLarge? ==> size(w.value) > maxBytes
  {
    var current, pruned, attempt := value, 0, 0;
    while attempt < ATTEMPTS
      invariant pruned == attempt <= ATTEMPTS
      invariant SerializeFrom(current, pruned, ATTEMPTS - attempt, maxBytes, size, prune) == SerializeFrom(value, 0, ATTEMPTS, maxBytes, size, prune)
    {
      if size(current) <= maxBytes {
        return Fits(current, pruned);
      }
      var next := prune(current);
      if next.None? {
        break;
      }
      pruned := pruned + 1;
      current := next.value;
      attempt := attempt + 1;
    }
    w := if size(current) <= maxBytes then Fits(current, pruned) else TooLarge(current);
  }
}
