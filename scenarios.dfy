/** The engine as its callers use it (the files under tests/): draining it with `next`,
    with `next_with_buffer` after a first `next`, counting, resetting and
    skipping, on the inputs the repository's tests use. */
module Scenarios {
  import opened Wrappers
  import opened MixedRadix
  import opened ListWrapper
  import Permutate
  import TupleOfLists
  import VecOfLists

  // ---------------------------------------------------------------------
  // Generic clients.

  /** Calls `next` until it answers None: the rest of the reference
      enumeration comes out, in order, and the engine ends exhausted. */
  method CollectAll<A, B, C>(p: Permutate.Permutator<A, B, C>) returns (items: seq<Item<A, B, C>>)
    requires p.Valid() && p.Synced()
    modifies p.counters, p.counters.indexes
    ensures p.Valid() && p.Synced() && p.Exhausted()
    ensures p.counters.indexes == old(p.counters.indexes)
    ensures items == Enumerate(p.lists)[old(p.counters.currIter)..]
  {
    ghost var c0, e := p.counters.currIter, Enumerate(p.lists);
    items := [];
    while true
      invariant p.Valid() && p.Synced() && p.counters.indexes == old(p.counters.indexes)
      invariant c0 <= p.counters.currIter <= |e|
      invariant items == e[c0..p.counters.currIter]
      decreases p.counters.maxIters - p.counters.currIter
    {
      ghost var i := p.counters.currIter;
      var r := p.Next();
      if r.None? {
        return;
      }
      SliceGrows(e, c0, i);
      items := items + [r.value];
    }
  }

  /** Iterator counting: the number of combinations still to come. */
  method CountAll<A, B, C>(p: Permutate.Permutator<A, B, C>) returns (count: nat)
    requires p.Valid()
    modifies p.counters, p.counters.indexes
    ensures p.Valid() && p.Exhausted()
    ensures count == p.counters.maxIters - old(p.counters.currIter)
  {
    ghost var c0 := p.counters.currIter;
    count := 0;
    while true
      invariant p.Valid() && p.counters.indexes == old(p.counters.indexes)
      invariant p.counters.currIter == c0 + count
      decreases p.counters.maxIters - p.counters.currIter
    {
      var r := p.Next();
      if r.None? {
        return;
      }
      count := count + 1;
    }
  }

  /** A first `next`, then `next_with_buffer` into that combination's own
      storage until it answers false: the same rows `next` alone gives. */
  method CollectWithBuffer<A, B, C>(p: Permutate.Permutator<A, B, C>) returns (items: seq<Item<A, B, C>>)
    requires p.Valid() && p.Synced() && IsRowShape(p.lists)
    modifies p.counters, p.counters.indexes
    ensures p.Valid() && p.Synced() && p.Exhausted()
    ensures items == Enumerate(p.lists)[old(p.counters.currIter)..]
  {
    ghost var c0, e := p.counters.currIter, Enumerate(p.lists);
    var first := p.Next();
    if first.None? {
      return [];
    }
    var row := first.value.values;
    var buffer := new A[|row|](i requires 0 <= i < |row| => row[i]);
    var rest := DrainWithBuffer(p, buffer);
    SliceSplits(e, c0);
    items := [first.value] + rest;
  }

  /** `next_with_buffer` into a row buffer until it answers false. */
  method DrainWithBuffer<A, B, C>(p: Permutate.Permutator<A, B, C>, buffer: array<A>) returns (items: seq<Item<A, B, C>>)
    requires p.Valid() && p.Synced() && IsRowShape(p.lists)
    requires buffer !in p.Repr() && buffer.Length == WrapperLen(p.lists)
    modifies p.counters, p.counters.indexes, buffer
    ensures p.Valid() && p.Synced() && p.Exhausted()
    ensures items == Enumerate(p.lists)[old(p.counters.currIter)..]
  {
    ghost var c0, e := p.counters.currIter, Enumerate(p.lists);
    items := [];
    while true
      invariant p.Valid() && p.Synced() && p.counters.indexes == old(p.counters.indexes)
      invariant c0 <= p.counters.currIter <= |e|
      invariant items == e[c0..p.counters.currIter]
      decreases p.counters.maxIters - p.counters.currIter
    {
      ghost var i := p.counters.currIter;
      var produced := p.NextWithBuffer(buffer);
      if !produced {
        return;
      }
      assert buffer[..] == buffer[..WrapperLen(p.lists)];
      SliceGrows(e, c0, i);
      items := items + [Row(buffer[..])];
    }
  }

  /** The same for pairs: a first `next`, then the caller's pair is
      overwritten in place by `next_with_buffer`. */
  method CollectPairsWithBuffer<A, B, C>(p: Permutate.Permutator<A, B, C>) returns (items: seq<Item<A, B, C>>)
    requires p.Valid() && p.Synced() && p.lists.Tuple2?
    modifies p.counters, p.counters.indexes
    ensures p.Valid() && p.Synced() && p.Exhausted()
    ensures items == Enumerate(p.lists)[old(p.counters.currIter)..]
  {
    ghost var c0, e := p.counters.currIter, Enumerate(p.lists);
    var first := p.Next();
    if first.None? {
      return [];
    }
    var t := first.value.pair;
    var buffer := new TupleOfLists.Buffer2(t.0, t.1);
    var rest := DrainPairsWithBuffer(p, buffer);
    SliceSplits(e, c0);
    items := [first.value] + rest;
  }

  /** `next_with_buffer` into a pair buffer until it answers false. */
  method DrainPairsWithBuffer<A, B, C>(p: Permutate.Permutator<A, B, C>, buffer: TupleOfLists.Buffer2<A, B>)
    returns (items: seq<Item<A, B, C>>)
    requires p.Valid() && p.Synced() && p.lists.Tuple2?
    requires buffer !in p.Repr()
    modifies p.counters, p.counters.indexes, buffer
    ensures p.Valid() && p.Synced() && p.Exhausted()
    ensures items == Enumerate(p.lists)[old(p.counters.currIter)..]
  {
    ghost var c0, e := p.counters.currIter, Enumerate(p.lists);
    items := [];
    while true
      invariant p.Valid() && p.Synced() && p.counters.indexes == old(p.counters.indexes)
      invariant c0 <= p.counters.currIter <= |e|
      invariant items == e[c0..p.counters.currIter]
      decreases p.counters.maxIters - p.counters.currIter
    {
      ghost var i := p.counters.currIter;
      var produced := p.NextWithBuffer2(buffer);
      if !produced {
        return;
      }
      SliceGrows(e, c0, i);
      items := items + [Pair(buffer.Value())];
    }
  }

  /** The same for triples: a first `next`, then the caller's triple is
      overwritten in place by `next_with_buffer`. */
  method CollectTriplesWithBuffer<A, B, C>(p: Permutate.Permutator<A, B, C>) returns (items: seq<Item<A, B, C>>)
    requires p.Valid() && p.Synced() && p.lists.Tuple3?
    modifies p.counters, p.counters.indexes
    ensures p.Valid() && p.Synced() && p.Exhausted()
    ensures items == Enumerate(p.lists)[old(p.counters.currIter)..]
  {
    ghost var c0, e := p.counters.currIter, Enumerate(p.lists);
    var first := p.Next();
    if first.None? {
      return [];
    }
    var t := first.value.triple;
    var buffer := new TupleOfLists.Buffer3(t.0, t.1, t.2);
    var rest := DrainTriplesWithBuffer(p, buffer);
    SliceSplits(e, c0);
    items := [first.value] + rest;
  }

  /** `next_with_buffer` into a triple buffer until it answers false. */
  method DrainTriplesWithBuffer<A, B, C>(p: Permutate.Permutator<A, B, C>, buffer: TupleOfLists.Buffer3<A, B, C>)
    returns (items: seq<Item<A, B, C>>)
    requires p.Valid() && p.Synced() && p.lists.Tuple3?
    requires buffer !in p.Repr()
    modifies p.counters, p.counters.indexes, buffer
    ensures p.Valid() && p.Synced() && p.Exhausted()
    ensures items == Enumerate(p.lists)[old(p.counters.currIter)..]
  {
    ghost var c0, e := p.counters.currIter, Enumerate(p.lists);
    items := [];
    while true
      invariant p.Valid() && p.Synced() && p.counters.indexes == old(p.counters.indexes)
      invariant c0 <= p.counters.currIter <= |e|
      invariant items == e[c0..p.counters.currIter]
      decreases p.counters.maxIters - p.counters.currIter
    {
      ghost var i := p.counters.currIter;
      var produced := p.NextWithBuffer3(buffer);
      if !produced {
        return;
      }
      SliceGrows(e, c0, i);
      items := items + [Triple(buffer.Value())];
    }
  }

  /** `nth(n)` produces combination `n` of what remains, and a following
      `next` the one after it. */
  method NthThenNext<A, B, C>(p: Permutate.Permutator<A, B, C>, n: nat)
    returns (skipped: Option<Item<A, B, C>>, following: Option<Item<A, B, C>>)
    requires p.Valid() && p.Synced() && p.counters.currIter + n + 1 < p.counters.maxIters
    modifies p.counters, p.counters.indexes
    ensures p.Valid() && p.Synced()
    ensures skipped == Some(Enumerate(p.lists)[old(p.counters.currIter) + n])
    ensures following == Some(Enumerate(p.lists)[old(p.counters.currIter) + n + 1])
  {
    ghost var c, e := p.counters.currIter, Enumerate(p.lists);
    skipped := p.Nth(n);
    assert skipped == Some(e[c + n]) && p.counters.currIter == c + n + 1;
    following := p.Next();
  }

  /** Drain, reset, drain again: the second pass is the whole enumeration,
      identical to the first pass of a fresh engine. */
  method CollectTwice<A, B, C>(p: Permutate.Permutator<A, B, C>) returns (first: seq<Item<A, B, C>>, second: seq<Item<A, B, C>>)
    requires p.Valid() && p.Synced()
    modifies p.counters, p.counters.indexes
    ensures p.Valid() && p.Exhausted()
    ensures first == Enumerate(p.lists)[old(p.counters.currIter)..]
    ensures second == Enumerate(p.lists)
  {
    first := CollectAll(p);
    p.Reset();
    second := CollectAll(p);
  }

  /** A slice that grows by one position gains that element. */
  lemma SliceGrows<T>(e: seq<T>, a: nat, b: nat)
    requires a <= b < |e|
    ensures e[a..b + 1] == e[a..b] + [e[b]]
  {
  }

  /** A suffix is its first element followed by the rest. */
  lemma SliceSplits<T>(e: seq<T>, a: nat)
    requires a < |e|
    ensures e[a..] == [e[a]] + e[a + 1..]
  {
  }

  // ---------------------------------------------------------------------
  // Three lists of "1", "2", "3" (tests/permutation_values.rs).

  function Digits(): seq<string>
  {
    ["1", "2", "3"]
  }

  function ThreeDigitLists(): seq<seq<string>>
  {
    [Digits(), Digits(), Digits()]
  }

  function ThreeDigitInput(): Lists<string, (), ()>
  {
    Vec(ThreeDigitLists())
  }

  /** 27 combinations; combination `i` takes the digits of `i` in base 3. */
  lemma ThreeDigitListsCell(i: nat)
    requires i < 27
    ensures WellFormed(ThreeDigitInput())
    ensures |Enumerate(ThreeDigitInput())| == 27
    ensures Enumerate(ThreeDigitInput())[i] ==
      Row([Digits()[i / 9], Digits()[i / 3 % 3], Digits()[i % 3]])
  {
    var l := ThreeDigitInput();
    var lens := Lens(l);
    assert lens == [3, 3, 3];
    var d := [i / 9, i / 3 % 3, i % 3];
    ValueOfTriple(d, lens);
    assert Value(d, lens) == i;
    EnumerateAt(l, d);
    assert NextItem(l, d).values == [Digits()[i / 9], Digits()[i / 3 % 3], Digits()[i % 3]];
  }

  /** The order the test expects, first and last rows. */
  lemma ThreeDigitListsOrder()
    ensures WellFormed(ThreeDigitInput())
    ensures var e := Enumerate(ThreeDigitInput());
      |e| == 27 &&
      e[0] == Row(["1", "1", "1"]) && e[1] == Row(["1", "1", "2"]) &&
      e[2] == Row(["1", "1", "3"]) && e[3] == Row(["1", "2", "1"]) &&
      e[26] == Row(["3", "3", "3"])
  {
    ThreeDigitListsCell(0);
    ThreeDigitListsCell(1);
    ThreeDigitListsCell(2);
    ThreeDigitListsCell(3);
    ThreeDigitListsCell(26);
  }

  /** Combinations 10 and 11 of the three digit lists. */
  lemma ThreeDigitListsSkip()
    ensures WellFormed(ThreeDigitInput())
    ensures var e := Enumerate(ThreeDigitInput());
      |e| == 27 && e[10] == Row(["2", "1", "2"]) && e[11] == Row(["2", "1", "3"])
  {
    ThreeDigitListsCell(10);
    ThreeDigitListsCell(11);
  }

  /** `nth(10)` on a fresh engine gives combination 10, and a following
      `nth(0)` gives combination 11, since the skipped and produced
      combinations are all consumed. */
  method NthThenNth() returns (tenth: Option<Item<string, (), ()>>, eleventh: Option<Item<string, (), ()>>)
    ensures tenth == Some(Row(["2", "1", "2"]))
    ensures eleventh == Some(Row(["2", "1", "3"]))
  {
    ThreeDigitListsSkip();
    var p := new Permutate.Permutator(ThreeDigitInput());
    tenth := p.Nth(10);
    eleventh := p.Nth(0);
  }

  // ---------------------------------------------------------------------
  // Lists of different lengths (tests/permutation_values.rs).

  function MixedLists(): seq<seq<string>>
  {
    [["0", "1"], ["A", "B"], ["a", "b", "c"], ["_"]]
  }

  function MixedInput(): Lists<string, (), ()>
  {
    Vec(MixedLists())
  }

  /** Twelve combinations from ["0", "A", "a", "_"] to ["1", "B", "c", "_"]. */
  lemma MixedListsOrder()
    ensures WellFormed(MixedInput())
    ensures var e := Enumerate(MixedInput());
      |e| == 12 &&
      e[0] == Row(["0", "A", "a", "_"]) && e[5] == Row(["0", "B", "c", "_"]) &&
      e[6] == Row(["1", "A", "a", "_"]) && e[11] == Row(["1", "B", "c", "_"])
  {
    var lens := Lens(MixedInput());
    assert lens == [2, 2, 3, 1];
    ValueOfTriple([0, 0, 0], lens[..3]);
    assert Product(lens) == Product(lens[..3]) * 1;
    MixedListsAt(0, 0, 0);
    MixedListsAt(0, 1, 2);
    MixedListsAt(1, 0, 0);
    MixedListsAt(1, 1, 2);
  }

  /** Helper of MixedListsOrder: cursors `[i, j, k, 0]` select combination
      `(i * 2 + j) * 3 + k`. */
  lemma MixedListsAt(i: nat, j: nat, k: nat)
    requires i < 2 && j < 2 && k < 3
    ensures WellFormed(MixedInput())
    ensures (i * 2 + j) * 3 + k < |Enumerate(MixedInput())|
    ensures Enumerate(MixedInput())[(i * 2 + j) * 3 + k] == NextItem(MixedInput(), [i, j, k, 0])
  {
    var l, d := MixedInput(), [i, j, k, 0];
    var lens := Lens(l);
    assert lens == [2, 2, 3, 1];
    ValueOfTriple(d[..3], lens[..3]);
    assert Value(d, lens) == Value(d[..3], lens[..3]) * 1 + 0;
    EnumerateAt(l, d);
  }

  // ---------------------------------------------------------------------
  // One list repeated (tests/single_list_permutation.rs, tests/reset.rs).

  function RepeatedInput(): Lists<string, (), ()>
  {
    Repeated(Digits())
  }

  /** The repeated shape over ["1", "2", "3"] enumerates exactly what three
      copies of that list do. */
  lemma RepeatedMatchesThreeLists()
    ensures WellFormed(RepeatedInput())
    ensures WellFormed(ThreeDigitInput())
    ensures Enumerate(RepeatedInput()) == Enumerate(ThreeDigitInput())
  {
    assert ThreeDigitLists() == seq(3, _ => Digits());
  }

  function OneListInput(): Lists<string, (), ()>
  {
    Vec([Digits()])
  }

  /** A list of one list gives one-element rows, in list order. */
  lemma OneListOrder()
    ensures WellFormed(OneListInput())
    ensures Enumerate(OneListInput()) == [Row(["1"]), Row(["2"]), Row(["3"])]
  {
    var l := OneListInput();
    var lens := Lens(l);
    assert lens == [3] && lens[..0] == [];
    var e := Enumerate(l);
    assert |e| == 3;
    OneListAt(0);
    OneListAt(1);
    OneListAt(2);
    assert e == [e[0], e[1], e[2]];
  }

  /** Helper of OneListOrder: row `i` holds element `i` of the list. */
  lemma OneListAt(i: nat)
    requires i < 3
    ensures WellFormed(OneListInput())
    ensures i < |Enumerate(OneListInput())| && Enumerate(OneListInput())[i] == Row([Digits()[i]])
  {
    var l := OneListInput();
    var lens := Lens(l);
    assert lens == [3] && lens[..0] == [];
    assert Value([i], lens) == i;
    EnumerateAt(l, [i]);
    assert NextItem(l, [i]).values == [Digits()[i]];
  }

  // ---------------------------------------------------------------------
  // A pair of lists of different types (tests/tuples.rs).

  function MixedPair(): (seq<string>, seq<int>)
  {
    (["A", "B", "C"], [0, 1, 2])
  }

  function MixedPairInput(): Lists<string, int, ()>
  {
    Tuple2(MixedPair())
  }

  /** Nine pairs from ("A", 0) to ("C", 2); pair `i * 3 + j` is
      (["A", "B", "C"][i], j). */
  lemma MixedPairAt(i: nat, j: nat)
    requires i < 3 && j < 3
    ensures WellFormed(MixedPairInput())
    ensures |Enumerate(MixedPairInput())| == 9
    ensures Enumerate(MixedPairInput())[i * 3 + j] == Pair((MixedPair().0[i], j))
  {
    var t := MixedPair();
    ValueOfPair([i, j], TupleOfLists.Lens2(t));
    TupleOfLists.Enumerate2At(t, [i, j]);
  }

  // ---------------------------------------------------------------------
  // A triple of lists of different types (tests/tuples.rs).

  function MixedTriple(): (seq<string>, seq<int>, seq<bool>)
  {
    (["A", "B"], [0, 1, 2], [false, true])
  }

  /** Twelve triples from ("A", 0, false) to ("B", 2, true). */
  lemma MixedTripleOrder()
    ensures WellFormed(Tuple3(MixedTriple()))
    ensures var e := Enumerate(Tuple3(MixedTriple()));
      |e| == 12 &&
      e[0] == Triple(("A", 0, false)) && e[1] == Triple(("A", 0, true)) &&
      e[2] == Triple(("A", 1, false)) &&
      e[10] == Triple(("B", 2, false)) && e[11] == Triple(("B", 2, true))
  {
    MixedTripleAt(0, 0, 0);
    MixedTripleAt(0, 0, 1);
    MixedTripleAt(0, 1, 0);
    MixedTripleAt(1, 2, 0);
    MixedTripleAt(1, 2, 1);
  }

  /** Helper of MixedTripleOrder: cursors `[i, j, k]` select triple
      `(i * 3 + j) * 2 + k`, and there are twelve. */
  lemma MixedTripleAt(i: nat, j: nat, k: nat)
    requires i < 2 && j < 3 && k < 2
    ensures WellFormed(Tuple3(MixedTriple()))
    ensures |Enumerate(Tuple3(MixedTriple()))| == 12
    ensures Enumerate(Tuple3(MixedTriple()))[(i * 3 + j) * 2 + k] ==
      Triple((MixedTriple().0[i], MixedTriple().1[j], MixedTriple().2[k]))
  {
    var t := MixedTriple();
    var lens := TupleOfLists.Lens3(t);
    ValueOfTriple([i, j, k], lens);
    TupleOfLists.Enumerate3At(t, [i, j, k]);
  }

  // ---------------------------------------------------------------------
  // Six lists of ten digits (tests/million_permutations.rs).

  function TenDigits(): seq<string>
  {
    ["0", "1", "2", "3", "4", "5", "6", "7", "8", "9"]
  }

  /** Two lists of two: their shape, the two steps from `[1, 0]`, and the
      combinations at those cursors. */
  lemma TwoByTwoSteps()
    ensures WrapperLen(TwoByTwo()) == 2 && Lens(TwoByTwo()) == [2, 2] && Product(Lens(TwoByTwo())) == 4
    ensures Carry([1, 0], [2, 2], 1) == [1, 1] && Carry([1, 1], [2, 2], 1) == [1, 0]
    ensures NextItem(TwoByTwo(), [1, 0]) == Row(["b", "c"]) && NextItem(TwoByTwo(), [1, 1]) == Row(["b", "d"])
  {
    assert Carry([1, 1], [2, 2], 0) == [1, 1];
  }

  function TwoByTwo(): Lists<string, (), ()>
  {
    Vec([["a", "b"], ["c", "d"]])
  }

  /** `set_index(0, [1, 0])` on two lists of two: the engine still yields
      four combinations, but the odometer starting at the last combination's
      first digit never wraps back to `a`; it repeats `bc`, `bd`. */
  method SetIndexDoesNotWrap() returns (rs: seq<Option<Item<string, (), ()>>>)
    ensures rs == [Some(Row(["b", "c"])), Some(Row(["b", "d"])),
                   Some(Row(["b", "c"])), Some(Row(["b", "d"])), None]
  {
    var p := new Permutate.Permutator(TwoByTwo());
    TwoByTwoSteps();
    p.SetIndex(0, [1, 0]);
    var r1, r2 := NextTwiceFromLastBlock(p);
    var r3, r4 := NextTwiceFromLastBlock(p);
    var r5 := p.Next();
    rs := [r1, r2, r3, r4, r5];
  }

  /** Two `next` calls on two lists of two from cursors `[1, 0]`: `bc`, then
      `bd`, and the cursors are back at `[1, 0]`. */
  method NextTwiceFromLastBlock(p: Permutate.Permutator<string, (), ()>)
    returns (r1: Option<Item<string, (), ()>>, r2: Option<Item<string, (), ()>>)
    requires p.Valid() && p.lists == TwoByTwo() && p.counters.indexes[..] == [1, 0]
    requires p.counters.currIter + 2 <= p.counters.maxIters
    modifies p.counters, p.counters.indexes
    ensures p.Valid() && p.lists == TwoByTwo() && p.counters.indexes == old(p.counters.indexes)
    ensures p.counters.indexes[..] == [1, 0]
    ensures p.counters.currIter == old(p.counters.currIter) + 2
    ensures r1 == Some(Row(["b", "c"])) && r2 == Some(Row(["b", "d"]))
  {
    TwoByTwoSteps();
    r1 := p.Next();
    r2 := p.Next();
  }

  /** A fresh engine over six lists of ten produces exactly one million
      combinations. */
  method MillionPermutations() returns (count: nat)
    ensures count == 1000000
  {
    var lists := seq(6, _ => TenDigits());
    var l: Lists<string, (), ()> := Vec(lists);
    ProductOfEqual(Lens(l), 10);
    assert Pow(10, 6) == 1000000;
    var p := new Permutate.Permutator(l);
    count := CountAll(p);
  }
}
