/** The odometer of the engine (src/index_counters.rs): one cursor per list,
    the list lengths, the iteration position and the number of combinations. */
module IndexCounters {
  import opened MixedRadix

  class IndexCounters {
    /** The current cursor of each list. */
    var indexes: array<nat>
    /** The length of each list; never changed after construction. */
    const lens: seq<nat>
    /** The 0-based number of the next combination to produce. */
    var currIter: nat
    /** The number of combinations; never changed after construction. */
    const maxIters: nat

    /** The state every reachable odometer is in: one cursor per list, each
        below its list's length, and a position no further than the end. */
    ghost predicate Valid()
      reads this, indexes
    {
      indexes.Length == |lens| && Positive(lens) &&
      InRange(indexes[..], lens) &&
      maxIters == Product(lens) && currIter <= maxIters
    }

    constructor (indexes: array<nat>, lens: seq<nat>, currIter: nat, maxIters: nat)
      ensures this.indexes == indexes && this.lens == lens
      ensures this.currIter == currIter && this.maxIters == maxIters
    {
      this.indexes := indexes;
      this.lens := lens;
      this.currIter := currIter;
      this.maxIters := maxIters;
    }

    /** Mixed-radix increment starting at position `nlists`: the cursor there is
        raised by one; when it would reach its list's length it is reset to 0
        and the carry moves one position left, except at position 0, where the
        cursor stays as it is and the loop stops. */
    method Increment(nlists: nat)
      requires nlists < indexes.Length && indexes.Length == |lens|
      modifies indexes
      ensures indexes[..] == Carry(old(indexes[..]), lens, nlists)
      ensures forall i :: nlists < i < indexes.Length ==> indexes[i] == old(indexes[i])
      ensures InRange(old(indexes[..]), lens) ==> InRange(indexes[..], lens)
      ensures currIter == old(currIter)
    {
      var n: nat := nlists;
      while true
        invariant n <= nlists
        invariant Carry(indexes[..], lens, n) == Carry(old(indexes[..]), lens, nlists)
        decreases n
      {
        ghost var before := indexes[..];
        var increment := false;
        if indexes[n] + 1 >= lens[n] {
          if n != 0 {
            indexes[n] := 0;
            increment := true;
          }
        } else {
          indexes[n] := indexes[n] + 1;
        }
        assert indexes[..] == if increment || before[n] + 1 < lens[n] then before[n := indexes[n]] else before;
        if increment {
          n := n - 1;
        } else {
          break;
        }
      }
    }

    /** Sets every cursor back to 0; the lengths, the position and the number
        of combinations stay as they are. */
    method Reset()
      modifies indexes
      ensures indexes[..] == Zeros(indexes.Length)
      ensures currIter == old(currIter)
    {
      for i := 0 to indexes.Length
        invariant forall j :: 0 <= j < i ==> indexes[j] == 0
      {
        indexes[i] := 0;
      }
    }
  }
}
