/** The combination engine (src/lib.rs): an odometer over the lists of one
    input shape, producing combinations on demand, with a buffer-reusing form
    of `next`, skipping, reset and saving/restoring the position. */
module Permutate {
  import opened Wrappers
  import opened MixedRadix
  import opened ListWrapper
  import IndexCounters
  import TupleOfLists

  class Permutator<A, B, C> {
    /** The input being permutated; the engine never changes it. */
    const lists: Lists<A, B, C>
    /** The odometer: cursors, lengths, position, number of combinations. */
    const counters: IndexCounters.IndexCounters

    /** The objects that make up the engine's state. */
    ghost function Repr(): set<object>
      reads this, counters
    {
      {this, counters, counters.indexes}
    }

    /** The engine invariant: a well-formed input whose lengths the odometer
        holds, and a valid odometer. */
    ghost predicate Valid()
      reads this, counters, counters.indexes
    {
      WellFormed(lists) && counters.Valid() && counters.lens == Lens(lists)
    }

    /** Until the end, the cursors denote the position: the state every
        sequence of `next`, `nth`, `next_with_buffer` and `reset` calls keeps,
        and that `set_index` keeps when given a matching pair. */
    ghost predicate Synced()
      reads this, counters, counters.indexes
      requires Valid()
    {
      counters.currIter < counters.maxIters ==>
        Value(counters.indexes[..], counters.lens) == counters.currIter
    }

    /** Every combination has been produced. */
    ghost predicate Exhausted()
      reads this, counters
    {
      counters.currIter == counters.maxIters
    }

    /** All-zero cursors, position 0, and the product of the lengths as the
        number of combinations. */
    constructor (lists: Lists<A, B, C>)
      requires WellFormed(lists)
      ensures Valid() && Synced()
      ensures fresh(counters) && fresh(counters.indexes)
      ensures this.lists == lists
      ensures counters.indexes[..] == Zeros(WrapperLen(lists))
      ensures counters.currIter == 0 && counters.maxIters == Product(Lens(lists))
    {
      var nlists := WrapperLen(lists);
      var nvalues := Lens(lists);
      var maxIters := Product(nvalues);
      var zeros := new nat[nlists](_ => 0);
      this.lists := lists;
      counters := new IndexCounters.IndexCounters(zeros, nvalues, 0, maxIters);
      new;
      assert counters.indexes[..] == Zeros(nlists);
      ValueZeros(nvalues);
    }

    /** Restores a position saved with GetIndex. */
    method SetIndex(iterNo: nat, indexes: seq<nat>)
      requires Valid()
      requires |indexes| == |counters.lens|
      requires InRange(indexes, counters.lens) && iterNo <= counters.maxIters
      modifies counters
      ensures Valid() && fresh(counters.indexes)
      ensures GetIndex() == (iterNo, indexes)
      ensures iterNo < counters.maxIters && Value(indexes, counters.lens) == iterNo ==> Synced()
    {
      counters.indexes := new nat[|indexes|](i requires 0 <= i < |indexes| => indexes[i]);
      counters.currIter := iterNo;
      assert counters.indexes[..] == indexes;
    }

    /** The position and a copy of the cursors, fit to pass to SetIndex. */
    function GetIndex(): (r: (nat, seq<nat>))
      reads this, counters, counters.indexes
      requires Valid()
      ensures r.0 <= MaxPermutations()
      ensures |r.1| == WrapperLen(lists) && InRange(r.1, Lens(lists))
    {
      (counters.currIter, counters.indexes[..])
    }

    /** The number of combinations: the product of the list lengths. */
    function MaxPermutations(): (r: nat)
      reads this, counters, counters.indexes
      requires Valid()
      ensures r == Product(Lens(lists)) && r >= 1
      ensures r == |Enumerate(lists)|
    {
      counters.maxIters
    }

    /** Back to the first combination: all cursors and the position are 0. */
    method Reset()
      requires Valid()
      modifies counters, counters.indexes
      ensures Valid() && Synced() && counters.indexes == old(counters.indexes)
      ensures counters.currIter == 0 && counters.indexes[..] == Zeros(WrapperLen(lists))
    {
      counters.Reset();
      counters.currIter := 0;
      ValueZeros(counters.lens);
    }

    /** The step every producing operation shares: unless exhausted, count
        one combination and move the odometer on, returning the cursors the
        combination is to be taken from (the cursors before the move). */
    method Step() returns (cursors: Option<seq<nat>>)
      requires Valid()
      modifies counters, counters.indexes
      ensures Valid() && counters.indexes == old(counters.indexes)
      ensures cursors.None? <==> old(counters.currIter) == counters.maxIters
      ensures cursors.None? ==>
        counters.currIter == old(counters.currIter) && counters.indexes[..] == old(counters.indexes[..])
      ensures cursors.Some? ==>
        cursors.value == old(counters.indexes[..]) && InRange(cursors.value, Lens(lists)) &&
        counters.currIter == old(counters.currIter) + 1 &&
        counters.indexes[..] == Carry(cursors.value, counters.lens, WrapperLen(lists) - 1)
      ensures old(Synced()) ==> Synced()
      ensures old(Synced()) && cursors.Some? ==>
        Value(cursors.value, counters.lens) == old(counters.currIter)
    {
      if counters.maxIters != 0 && counters.currIter == counters.maxIters {
        return None;
      }
      counters.currIter := counters.currIter + 1;
      var current := counters.indexes[..];
      counters.Increment(WrapperLen(lists) - 1);
      cursors := Some(current);
      if old(Synced()) && counters.currIter < counters.maxIters {
        CarryIncrements(current, counters.lens);
      }
    }

    /** The iterator's `next`: the combination at the current cursors, then
        the odometer moves on; None once every combination has been produced,
        and then nothing changes. */
    method Next() returns (r: Option<Item<A, B, C>>)
      requires Valid()
      modifies counters, counters.indexes
      ensures Valid() && counters.indexes == old(counters.indexes)
      ensures r.None? <==> old(counters.currIter) == counters.maxIters
      ensures r.None? ==>
        counters.currIter == old(counters.currIter) && counters.indexes[..] == old(counters.indexes[..])
      ensures r.Some? ==>
        r.value == NextItem(lists, old(counters.indexes[..])) &&
        counters.currIter == old(counters.currIter) + 1 &&
        counters.indexes[..] == Carry(old(counters.indexes[..]), counters.lens, WrapperLen(lists) - 1)
      ensures old(Synced()) ==> Synced()
      ensures old(Synced()) && r.Some? ==> r.value == Enumerate(lists)[old(counters.currIter)]
    {
      var cursors := Step();
      if cursors.None? {
        return None;
      }
      r := Some(NextItem(lists, cursors.value));
      if old(Synced()) {
        EnumerateAt(lists, cursors.value);
      }
    }

    /** The iterator's `nth`: skips `n` combinations, each skip still counting
        and moving the odometer, then produces the next one; None when the
        end comes first. */
    method Nth(n: nat) returns (r: Option<Item<A, B, C>>)
      requires Valid()
      modifies counters, counters.indexes
      ensures Valid() && counters.indexes == old(counters.indexes)
      ensures r.None? <==> old(counters.currIter) + n >= counters.maxIters
      ensures r.None? ==>
        counters.currIter == counters.maxIters &&
        counters.indexes[..] == Advance(old(counters.indexes[..]), counters.lens, counters.maxIters - old(counters.currIter))
      ensures r.Some? ==>
        r.value == NextItem(lists, Advance(old(counters.indexes[..]), counters.lens, n)) &&
        counters.currIter == old(counters.currIter) + n + 1 &&
        counters.indexes[..] == Advance(old(counters.indexes[..]), counters.lens, n + 1)
      ensures old(Synced()) ==> Synced()
      ensures old(Synced()) && r.Some? ==> r.value == Enumerate(lists)[old(counters.currIter) + n]
    {
      ghost var start := counters.indexes[..];
      var reached := Skip(n);
      if !reached {
        return None;
      }
      ghost var mid := counters.indexes[..];
      r := Next();
      assert r.Some? ==> counters.indexes[..] == Carry(mid, counters.lens, |mid| - 1);
    }

    /** The skipping iterations of `nth`: up to `n` steps that count and move
        the odometer without producing anything; false when the end comes
        before all `n` are done. */
    method Skip(n: nat) returns (reached: bool)
      requires Valid()
      modifies counters, counters.indexes
      ensures Valid() && counters.indexes == old(counters.indexes)
      ensures reached <==> old(counters.currIter) + n <= counters.maxIters
      ensures reached ==>
        counters.currIter == old(counters.currIter) + n &&
        counters.indexes[..] == Advance(old(counters.indexes[..]), counters.lens, n)
      ensures !reached ==>
        counters.currIter == counters.maxIters &&
        counters.indexes[..] == Advance(old(counters.indexes[..]), counters.lens, counters.maxIters - old(counters.currIter))
      ensures old(Synced()) ==> Synced()
    {
      ghost var start, c0 := counters.indexes[..], counters.currIter;
      var k: nat := n;
      while k != 0
        invariant Valid() && counters.indexes == old(counters.indexes)
        invariant k <= n && counters.currIter == c0 + (n - k)
        invariant counters.indexes[..] == Advance(start, counters.lens, n - k)
        invariant old(Synced()) ==> Synced()
      {
        var cursors := Step();
        if cursors.None? {
          return false;
        }
        k := k - 1;
      }
      return true;
    }

    /** `next_with_buffer` for the row shapes: the same combination `next`
        would produce, written into the first slots of the caller's array;
        false, with nothing changed, once every combination has been
        produced. */
    method NextWithBuffer(buffer: array<A>) returns (produced: bool)
      requires Valid() && IsRowShape(lists) && buffer.Length >= WrapperLen(lists)
      requires buffer !in Repr()
      modifies counters, counters.indexes, buffer
      ensures Valid() && counters.indexes == old(counters.indexes)
      ensures produced <==> old(counters.currIter) != counters.maxIters
      ensures !produced ==>
        counters.currIter == old(counters.currIter) && counters.indexes[..] == old(counters.indexes[..]) &&
        buffer[..] == old(buffer[..])
      ensures produced ==>
        buffer[..WrapperLen(lists)] == NextItem(lists, old(counters.indexes[..])).values &&
        buffer[WrapperLen(lists)..] == old(buffer[WrapperLen(lists)..]) &&
        counters.currIter == old(counters.currIter) + 1 &&
        counters.indexes[..] == Carry(old(counters.indexes[..]), counters.lens, WrapperLen(lists) - 1)
      ensures old(Synced()) ==> Synced()
      ensures old(Synced()) && produced ==>
        buffer[..WrapperLen(lists)] == Enumerate(lists)[old(counters.currIter)].values
    {
      var cursors := Step();
      if cursors.None? {
        return false;
      }
      ListWrapper.NextWithBuffer(lists, cursors.value, buffer);
      produced := true;
      if old(Synced()) {
        EnumerateAt(lists, cursors.value);
      }
    }

    /** `next_with_buffer` for pairs: every component of the caller's pair is
        overwritten with the combination `next` would produce. */
    method NextWithBuffer2(buffer: TupleOfLists.Buffer2<A, B>) returns (produced: bool)
      requires Valid() && lists.Tuple2?
      modifies counters, counters.indexes, buffer
      ensures Valid() && counters.indexes == old(counters.indexes)
      ensures produced <==> old(counters.currIter) != counters.maxIters
      ensures !produced ==>
        counters.currIter == old(counters.currIter) && counters.indexes[..] == old(counters.indexes[..]) &&
        buffer.Value() == old(buffer.Value())
      ensures produced ==>
        Pair(buffer.Value()) == NextItem(lists, old(counters.indexes[..])) &&
        counters.currIter == old(counters.currIter) + 1 &&
        counters.indexes[..] == Carry(old(counters.indexes[..]), counters.lens, WrapperLen(lists) - 1)
      ensures old(Synced()) ==> Synced()
      ensures old(Synced()) && produced ==> Pair(buffer.Value()) == Enumerate(lists)[old(counters.currIter)]
    {
      var cursors := Step();
      if cursors.None? {
        return false;
      }
      ListWrapper.NextWithBuffer2(lists, cursors.value, buffer);
      produced := true;
      if old(Synced()) {
        EnumerateAt(lists, cursors.value);
      }
    }

    /** `next_with_buffer` for triples: every component of the caller's triple
        is overwritten with the combination `next` would produce. */
    method NextWithBuffer3(buffer: TupleOfLists.Buffer3<A, B, C>) returns (produced: bool)
      requires Valid() && lists.Tuple3?
      modifies counters, counters.indexes, buffer
      ensures Valid() && counters.indexes == old(counters.indexes)
      ensures produced <==> old(counters.currIter) != counters.maxIters
      ensures !produced ==>
        counters.currIter == old(counters.currIter) && counters.indexes[..] == old(counters.indexes[..]) &&
        buffer.Value() == old(buffer.Value())
      ensures produced ==>
        Triple(buffer.Value()) == NextItem(lists, old(counters.indexes[..])) &&
        counters.currIter == old(counters.currIter) + 1 &&
        counters.indexes[..] == Carry(old(counters.indexes[..]), counters.lens, WrapperLen(lists) - 1)
      ensures old(Synced()) ==> Synced()
      ensures old(Synced()) && produced ==> Triple(buffer.Value()) == Enumerate(lists)[old(counters.currIter)]
    {
      var cursors := Step();
      if cursors.None? {
        return false;
      }
      ListWrapper.NextWithBuffer3(lists, cursors.value, buffer);
      produced := true;
      if old(Synced()) {
        EnumerateAt(lists, cursors.value);
      }
    }
  }
}
