# permutate: the combination engine, modelled in Dafny

The Rust crate `permutate` enumerates the Cartesian product of several lists.
The core is a `Permutator`. It couples the input (a *list wrapper*) with an
odometer of cursors, one cursor per list. Each call to `next` takes one
element from each list at the cursor positions, then advances the odometer.
The last list varies fastest. The engine stops after the product of the list
lengths.

The model has one Dafny module per source file of the core, plus two helper
modules:

- `MixedRadix` (helper): reads the cursors as a mixed-radix number.
  - Digit 0 is most significant, and the radices are the list lengths.
  - `Carry` is the pure meaning of `IndexCounters::increment`; `Advance` is
    `m` such steps.
  - Lemmas prove what a step does to the number: it adds one, it preserves
    the cursor range, and it saturates at position 0.
  - A further lemma proves that the number orders cursor vectors
    lexicographically.
- `IndexCounters` (`src/index_counters.rs`): a class. The cursors live in an
  `array<nat>` that `Increment` and `Reset` update in place.
- `VecOfLists`, `SingleList`, `TupleOfLists`: the list wrappers.
  - `wrapper_len`, `lens` and `next_item` are functions.
  - `next_with_buffer` is a method that writes a caller's array (rows) or a
    caller's tuple object (`Buffer2`, `Buffer3`).
  - Each module also defines a reference enumeration, by div/mod on the
    combination number, and proves
    `Enumerate[Value(cursors)] == next_item(cursors)`.
- `ListWrapper` (`src/list_wrapper.rs`): the trait. It becomes a tagged
  variant `Lists` over the shapes, and combinations are an `Item` variant
  (`Row`, `Pair`, `Triple`). Every trait operation dispatches to the shape's
  module.
- `Permutate` (`src/lib.rs`): the class `Permutator`. It holds
  `new`, `set_index`, `get_index`, `max_permutations`, `reset`, `next`, `nth`
  and `next_with_buffer`.
  - Each method's contract gives the new odometer state in terms of `Carry`
    or `Advance`.
  - Each method also states that the ghost predicate `Synced` survives. When
    it holds, the produced combination is entry `curr_iter` of the reference
    enumeration.
  - `Synced` means that, until the end, the cursors denote the position
    `curr_iter`.
- `Scenarios` (helper): the engine as the repository's tests drive it.
  - Draining with `next`, with `next_with_buffer` after a first `next`, and
    with `count`.
  - A reset between two drains, and `nth` followed by `nth` or `next`.
  - The concrete inputs of the tests, with the orders the tests expect.

Inputs and outputs: nothing here reads files or prints. The command-line tool
is outside the model.

Where the code and its documentation disagree, the model follows the code.
The doc comment of `set_index` (src/lib.rs:28-37) says that enumeration
starting from position 0 at an arbitrary cursor state "loops around" to the
combinations before that state. `increment` (src/index_counters.rs:22-26)
cannot do that: when every cursor is at its maximum, position 0 keeps its
value and the others go back to 0. So after the last combination the odometer
repeats the final block instead of wrapping. `MixedRadix.CarrySaturates`
states this behaviour, and `Scenarios.SetIndexDoesNotWrap` shows it on the
engine: two lists `[a, b]` and `[c, d]`, `set_index(0, [1, 0])`, then five
`next` calls give `bc`, `bd`, `bc`, `bd` and none; `ac` and `ad` never come. In normal use it is never observed, because `next` and
`nth` stop at `max_iters`.

## Model

| member | source | states |
|---|---|---|
| `MixedRadix.Product` | src/lib.rs:84 | the number of combinations is at least one when no list is empty |
| `MixedRadix.Carry` | src/index_counters.rs:16-38 | one increment touches only the positions at and left of where it starts, and keeps every cursor below its list's length |
| `MixedRadix.Advance` | src/lib.rs:147-151 | `m` increments keep the vector's length and every cursor in range |
| `MixedRadix.CarryIncrements` | src/index_counters.rs:16-38 | below the last combination, an increment started at the last list raises the denoted number by exactly one (odometer carrying) |
| `MixedRadix.CarrySaturates` | src/index_counters.rs:22-26 | when all cursors 0..k are at their maximum, the increment resets 1..k to 0 and leaves cursor 0 unchanged: no wrap-around |
| `MixedRadix.CarryPrefix` | src/index_counters.rs:16-38 | an increment started at `k` is the increment of the first `k+1` cursors, the rest untouched |
| `MixedRadix.AdvanceValue` | src/lib.rs:142-159 | `m` increments from a vector denoting `v` reach the vector denoting `v+m` while that is a combination |
| `MixedRadix.ValueBound` | src/index_counters.rs:8-11 | in-range cursors denote a number below `max_iters` |
| `MixedRadix.ValueZeros` | src/lib.rs:88 | the all-zero cursors denote the first combination |
| `MixedRadix.ValueSurjective` | src/index_counters.rs:4-11 | every number below `max_iters` is denoted by some in-range cursor vector, so with injectivity the cursor states and the positions correspond one to one |
| `MixedRadix.ValueInjective` | src/index_counters.rs:4-7 | two in-range cursor vectors denote the same number exactly when they are equal |
| `MixedRadix.ValueOrder` | src/index_counters.rs:16-38 | the denoted number orders cursor vectors exactly as lexicographic order does, both directions |
| `MixedRadix.CarryAdvancesLex` | src/index_counters.rs:16-38 | each increment below the last combination moves the cursors strictly forward in lexicographic order |
| `MixedRadix.ProductOfEqual` | src/specializations/single_list.rs:15-19 | k lists of length n give n to the power k combinations |
| `MixedRadix.ValueOfPair` | src/specializations/tuple_of_lists.rs:19-23 | for two lists, the denoted number and the count in closed form |
| `MixedRadix.ValueOfTriple` | src/specializations/tuple_of_lists.rs:19-23 | for three lists, the denoted number and the count in closed form |
| `IndexCounters.IndexCounters.constructor` | src/index_counters.rs:1-12 | the four fields hold the given cursors, lengths, position and total |
| `IndexCounters.IndexCounters.Increment` | src/index_counters.rs:16-38 | the cursor array becomes `Carry` of its old contents from position `nlists`; positions right of `nlists` and the counters are unchanged; in-range cursors stay in range |
| `IndexCounters.IndexCounters.Reset` | src/index_counters.rs:40-44 | every cursor becomes 0, in place, and the position is untouched |
| `VecOfLists.WrapperLen` | src/list_wrapper/vec_of_lists.rs:8-12 | the number of lists, at least one |
| `VecOfLists.Lens` | src/list_wrapper/vec_of_lists.rs:13-21 | one length per list, equal to that list's length, each nonzero |
| `VecOfLists.NextItem` | src/list_wrapper/vec_of_lists.rs:22-30 | one value per cursor, value `i` drawn from list `i` |
| `VecOfLists.NextWithBuffer` | src/list_wrapper/vec_of_lists.rs:32-51 | the first `len(indexes)` buffer slots receive exactly `next_item`'s values; later slots are untouched |
| `VecOfLists.CartesianProduct` | src/list_wrapper/vec_of_lists.rs:4-52 | the reference enumeration has exactly the product of the lengths many entries |
| `VecOfLists.CartesianProductAt` | src/list_wrapper/vec_of_lists.rs:22-30 | the combination at cursors `d` is entry `Value(d)` of the reference enumeration |
| `VecOfLists.CartesianProductMembers` | src/list_wrapper/vec_of_lists.rs:22-30 | a sequence is in the enumeration exactly when element `i` comes from list `i` for every `i` |
| `VecOfLists.CartesianProductComplete` | src/list_wrapper/vec_of_lists.rs:22-30 | every sequence drawing element `i` from list `i` is enumerated |
| `VecOfLists.CartesianProductCellIn` | src/list_wrapper/vec_of_lists.rs:22-30 | every enumerated entry draws element `i` from list `i` |
| `SingleList.WrapperLen` | src/specializations/single_list.rs:10-14 | the number of logical lists is the length of the single list, at least one |
| `SingleList.Lens` | src/specializations/single_list.rs:15-19 | `n` logical lists, each of length `n` |
| `SingleList.NextItem` | src/specializations/single_list.rs:20-25 | one value per cursor, every value from the single list |
| `SingleList.NextWithBuffer` | src/list_wrapper.rs:20-21 | the first `len(indexes)` slots receive exactly `next_item`'s values; the rest are untouched |
| `SingleList.Copies` | src/specializations/single_list.rs:3-6 | the homogeneous input the shape stands for: `n` lists, each the single list |
| `SingleList.Enumerate` | src/specializations/single_list.rs:15-19 | `n` to the power `n` combinations |
| `SingleList.Count` | src/specializations/single_list.rs:15-19 | the product of the lengths is `n` to the power `n` |
| `SingleList.MatchesCopies` | src/specializations/single_list.rs:10-25 | the shape reports the same count, lengths and combination as `n` copies of the list in the homogeneous shape |
| `SingleList.EnumerateAt` | src/specializations/single_list.rs:20-25 | the combination at cursors `d` is entry `Value(d)` of the reference enumeration |
| `TupleOfLists.WrapperLen2` | src/specializations/tuple_of_lists.rs:16-18 | a pair stands for two lists, the length `Lens2` has |
| `TupleOfLists.Lens2` | src/specializations/tuple_of_lists.rs:19-23 | a pair of lists has two lengths, the components' lengths, each nonzero |
| `TupleOfLists.NextItem2` | src/specializations/tuple_of_lists.rs:24-30 | component `j` comes from list `j` |
| `TupleOfLists.NextWithBuffer2` | src/specializations/tuple_of_lists.rs:33-46 | every component of the caller's pair is overwritten with `next_item` |
| `TupleOfLists.Cell2` | src/specializations/tuple_of_lists.rs:24-30 | each reference entry draws its components from their lists |
| `TupleOfLists.Enumerate2` | src/specializations/tuple_of_lists.rs:11-47 | the reference enumeration of pairs has product-many entries |
| `TupleOfLists.Enumerate2At` | src/specializations/tuple_of_lists.rs:24-30 | the pair at cursors `d` is entry `Value(d)` of the reference enumeration |
| `TupleOfLists.Enumerate2Members` | src/specializations/tuple_of_lists.rs:24-30 | a pair is enumerated exactly when each component comes from its list |
| `TupleOfLists.Enumerate2Sound` | src/specializations/tuple_of_lists.rs:24-30 | every enumerated pair draws from the two lists |
| `TupleOfLists.Enumerate2Complete` | src/specializations/tuple_of_lists.rs:24-30 | every pair drawn from the two lists is enumerated |
| `TupleOfLists.WrapperLen3` | src/specializations/tuple_of_lists.rs:16-18 | a triple stands for three lists, the length `Lens3` has |
| `TupleOfLists.Lens3` | src/specializations/tuple_of_lists.rs:19-23 | a triple of lists has three lengths, the components' lengths, each nonzero |
| `TupleOfLists.NextItem3` | src/specializations/tuple_of_lists.rs:24-30 | component `j` comes from list `j` |
| `TupleOfLists.NextWithBuffer3` | src/specializations/tuple_of_lists.rs:33-46 | every component of the caller's triple is overwritten with `next_item` |
| `TupleOfLists.Cell3` | src/specializations/tuple_of_lists.rs:24-30 | each reference entry draws its components from their lists |
| `TupleOfLists.Enumerate3` | src/specializations/tuple_of_lists.rs:11-47 | the reference enumeration of triples has product-many entries |
| `TupleOfLists.Enumerate3At` | src/specializations/tuple_of_lists.rs:24-30 | the triple at cursors `d` is entry `Value(d)` of the reference enumeration |
| `TupleOfLists.Enumerate3Members` | src/specializations/tuple_of_lists.rs:24-30 | a triple is enumerated exactly when each component comes from its list |
| `TupleOfLists.Buffer2.constructor` | src/specializations/tuple_of_lists.rs:36 | a caller-owned pair holding the given components |
| `TupleOfLists.Buffer3.constructor` | src/specializations/tuple_of_lists.rs:36 | a caller-owned triple holding the given components |
| `ListWrapper.WrapperLen` | src/list_wrapper.rs:14-15 | every shape has at least one list |
| `ListWrapper.Lens` | src/list_wrapper.rs:16-17 | one nonzero length per list, for every shape |
| `ListWrapper.NextItem` | src/list_wrapper.rs:18-19 | a row for the list shapes, with one value per list; a pair for pairs; a triple for triples |
| `ListWrapper.NextWithBuffer` | src/list_wrapper.rs:20-21 | for row shapes, the first `wrapper_len` slots of the buffer become `next_item`; later slots are untouched |
| `ListWrapper.NextWithBuffer2` | src/list_wrapper.rs:20-21 | for pairs, the caller's pair becomes `next_item` |
| `ListWrapper.NextWithBuffer3` | src/list_wrapper.rs:20-21 | for triples, the caller's triple becomes `next_item` |
| `ListWrapper.Enumerate` | src/list_wrapper.rs:9-22 | every shape's reference enumeration has product-many entries |
| `ListWrapper.EnumerateAt` | src/list_wrapper.rs:18-19 | for every shape, the combination at cursors `d` is entry `Value(d)` of the reference enumeration |
| `Permutate.Permutator.constructor` | src/lib.rs:81-96 | all-zero cursors, position 0, total the product of the lengths, and the engine is valid and in sync |
| `Permutate.Permutator.SetIndex` | src/lib.rs:98-105 | the cursors and the position become exactly the given ones (in a fresh array); the engine is in sync again whenever the pair is consistent |
| `Permutate.Permutator.GetIndex` | src/lib.rs:108-110 | the position (at most the total) and a copy of in-range cursors |
| `Permutate.Permutator.MaxPermutations` | src/lib.rs:113-115 | the product of the lengths, at least one, and the length of the reference enumeration |
| `Permutate.Permutator.Reset` | src/lib.rs:118-121 | cursors all zero in the same array, position 0, in sync |
| `Permutate.Permutator.Step` | src/lib.rs:164-173 | when exhausted, nothing changes; otherwise the position grows by one, the cursors take one carry step, and the old cursors are returned with their number |
| `Permutate.Permutator.Next` | src/lib.rs:161-177 | None exactly at the end, with nothing changed; otherwise `next_item` of the old cursors, position plus one, cursors carried; in sync it is entry `curr_iter` of the reference enumeration |
| `Permutate.Permutator.Nth` | src/lib.rs:142-159 | None exactly when fewer than `n+1` combinations remain; otherwise `next_item` after `n` skips, with `n+1` positions consumed; in sync it is entry `curr_iter+n` |
| `Permutate.Permutator.Skip` | src/lib.rs:143-152 | the skipping iterations of `nth`: all `n` skips happen exactly when they fit before the end, position and cursors moving by that many steps; otherwise it stops exhausted |
| `Permutate.Permutator.NextWithBuffer` | src/lib.rs:123-133 | false exactly at the end, with buffer and state unchanged; otherwise the buffer's first `wrapper_len` slots hold what `next` would return, and the state moves as in `next` |
| `Permutate.Permutator.NextWithBuffer2` | src/lib.rs:123-133 | the same for a pair buffer |
| `Permutate.Permutator.NextWithBuffer3` | src/lib.rs:123-133 | the same for a triple buffer |
| `Scenarios.CollectAll` | tests/permutation_values.rs:47-53 | draining with `next` yields the rest of the reference enumeration, in order, and ends exhausted |
| `Scenarios.CountAll` | tests/million_permutations.rs:17-21 | counting yields the number of combinations still to come |
| `Scenarios.CollectWithBuffer` | tests/permutation_values.rs:64-81 | one `next`, then `next_with_buffer` into that row, yields the same sequence as `next` alone |
| `Scenarios.DrainWithBuffer` | tests/permutation_values.rs:73-75 | repeated `next_with_buffer` into one array yields the rest of the enumeration |
| `Scenarios.CollectPairsWithBuffer` | tests/tuples.rs:67-84 | the same equivalence for a reused pair |
| `Scenarios.DrainPairsWithBuffer` | tests/tuples.rs:76-78 | repeated `next_with_buffer` into one pair yields the rest of the enumeration |
| `Scenarios.CollectTriplesWithBuffer` | tests/tuples.rs:116-133 | the same equivalence for a reused triple |
| `Scenarios.DrainTriplesWithBuffer` | tests/tuples.rs:125-127 | repeated `next_with_buffer` into one triple yields the rest of the enumeration |
| `Scenarios.NthThenNext` | tests/permutation_values.rs:55-58 | `nth(n)` gives entry `n` of what remains and the next call gives entry `n+1` |
| `Scenarios.CollectTwice` | tests/reset.rs:41-62 | drain, reset, drain: the second pass is the whole enumeration, the same as a fresh engine's |
| `Scenarios.ThreeDigitListsCell` | tests/permutation_values.rs:4-42 | over three lists "1","2","3" there are 27 combinations, and combination `i` spells `i` in base 3 |
| `Scenarios.ThreeDigitListsOrder` | tests/permutation_values.rs:12-42 | first rows 111, 112, 113, 121 and last row 333 |
| `Scenarios.ThreeDigitListsSkip` | tests/permutation_values.rs:24-25 | rows 10 and 11 are 212 and 213 |
| `Scenarios.NthThenNth` | tests/permutation_values.rs:55-58 | on a fresh engine `nth(10)` gives 212 and then `nth(0)` gives 213 |
| `Scenarios.MixedListsOrder` | tests/permutation_values.rs:83-119 | lists of lengths 2, 2, 3, 1 give 12 rows from 0Aa_ to 1Bc_ |
| `Scenarios.MixedListsAt` | tests/permutation_values.rs:92-107 | cursors `[i, j, k, 0]` give row `(2i + j) * 3 + k` |
| `Scenarios.RepeatedMatchesThreeLists` | tests/single_list_permutation.rs:45-57 | one list repeated enumerates exactly what three copies of it do |
| `Scenarios.OneListOrder` | tests/single_list_permutation.rs:40-42 | a list holding just "1","2","3" gives the rows 1, 2, 3 |
| `Scenarios.OneListAt` | tests/single_list_permutation.rs:92-104 | row `i` of that input holds element `i` |
| `Scenarios.MixedPairAt` | tests/tuples.rs:40-64 | the pair input gives 9 pairs, and pair `3i + j` is (["A","B","C"][i], j) |
| `Scenarios.MixedTripleOrder` | tests/tuples.rs:86-113 | the triple input gives 12 triples, from (A,0,false) to (B,2,true) |
| `Scenarios.MixedTripleAt` | tests/tuples.rs:89-104 | cursors `[i, j, k]` give triple `(3i + j) * 2 + k` |
| `Scenarios.SetIndexDoesNotWrap` | src/lib.rs:28-37 | after `set_index(0, [1, 0])` on two lists of two, five `next` calls give `bc`, `bd`, `bc`, `bd`, none: the documented wrap-around to `ac`, `ad` does not happen |
| `Scenarios.NextTwiceFromLastBlock` | src/index_counters.rs:22-26 | from cursors `[1, 0]` on two lists of two, two `next` calls give `bc` then `bd` and bring the cursors back to `[1, 0]` |
| `Scenarios.MillionPermutations` | tests/million_permutations.rs:4-21 | six lists of ten digits give exactly one million combinations |

## Left out

- The command-line tool (src/bin), examples/overview.rs and benches are
  outside the model. They read files, parse arguments and print.
  `tests/todo.rs`, `src/specializations.rs` and
  `src/specializations/list_of_lists.rs` are also left out: they are earlier
  or unused versions of the shapes.
- Tuple arities 1 and 4 to 12 are left out. The source generates them from
  the same macro as arities 2 and 3, which are modelled, and they differ only
  in the number of components.
- Machine integers are not modelled: `usize` is `nat`. Overflow of the
  product of the lengths, and of `curr_iter`, is not represented.
- Empty inputs are not modelled. An empty list, or no list at all, is a
  precondition (`WellFormed`), as the source's `debug_assert`s demand. The
  source's behaviour on such input is not defined.
- `Permutate.Permutator.SetIndex`: requires in-range cursors and
  `iter_no <= max_iters`. The source demands only the right length (a
  `debug_assert`); out-of-range cursors would make its unchecked indexing
  undefined behaviour.
- Unchecked indexing (`get_unchecked`) becomes checked indexing whose bounds
  the contracts prove.
- The pointer-identity checks of the tests are left out. They check that
  returned values point at the input strings; the model has values, not
  references.
- `SingleList.NextWithBuffer`: src/specializations/single_list.rs has no
  `next_with_buffer`. The repeated shape's own implementation lives in
  src/list_wrapper/single_list.rs, which is not part of this model; only its
  `Repeated` type is re-exported (src/list_wrapper.rs:5-6). The body is
  reconstructed from the trait's documented contract
  (src/list_wrapper.rs:18-21): the same values `next_item` selects, written
  into the buffer's first slots.
- `Permutate.Permutator.NextWithBuffer`: returns true or false rather than
  the buffer reference. The buffer itself is the caller's array or tuple
  object, as in the source.
- `Permutate.Permutator.Next`: takes the snapshot of the cursors before the
  increment and builds the combination from it. The source builds it before
  the increment; the two are equal.
- `Permutate.Permutator.Nth`: its last loop iteration is written as a call to
  `Next`. That iteration does the same check, count, read and increment.
- The shape abstraction is a tagged variant rather than a trait. The
  `PermutatorWrapper` trait's phantom item type is replaced by the `Item`
  variant.
