/** The repeated shape (src/specializations/single_list.rs): one list of
    length n taken as n lists that are all equal to it, so that a combination
    is an n-tuple drawn with repetition from that one list. */
module SingleList {
  import opened MixedRadix
  import VecOfLists

  /** The number of logical lists: the length of the single list, nonzero. */
  function WrapperLen<T>(list: seq<T>): (r: nat)
    requires |list| != 0
    ensures r >= 1 && r == |list|
  {
    |list|
  }

  /** n copies of the length n, one per logical list. */
  function Lens<T>(list: seq<T>): (r: seq<nat>)
    requires |list| != 0
    ensures |r| == WrapperLen(list) && Positive(r)
    ensures forall i :: 0 <= i < |r| ==> r[i] == |list|
  {
    var nlists := |list|;
    seq(nlists, _ => nlists)
  }

  /** Every cursor indexes the one underlying list. */
  function NextItem<T>(list: seq<T>, indexes: seq<nat>): (r: seq<T>)
    requires forall i :: 0 <= i < |indexes| ==> indexes[i] < |list|
    ensures |r| == |indexes|
    ensures forall i :: 0 <= i < |r| ==> r[i] in list
  {
    seq(|indexes|, i requires 0 <= i < |indexes| => list[indexes[i]])
  }

  /** The buffer-reusing form of NextItem: the first `|indexes|` slots of the
      buffer receive the combination, the others stay as they were. */
  method NextWithBuffer<T>(list: seq<T>, indexes: seq<nat>, buffer: array<T>)
    requires |list| != 0 && buffer.Length >= WrapperLen(list) && |indexes| <= buffer.Length
    requires forall i :: 0 <= i < |indexes| ==> indexes[i] < |list|
    modifies buffer
    ensures buffer[..|indexes|] == NextItem(list, indexes)
    ensures buffer[|indexes|..] == old(buffer[|indexes|..])
  {
    var index := 0;
    while index < |indexes|
      invariant 0 <= index <= |indexes|
      invariant buffer[..index] == NextItem(list, indexes)[..index]
      invariant buffer[index..] == old(buffer[index..])
    {
      buffer[index] := list[indexes[index]];
      index := index + 1;
    }
  }

  /** The homogeneous input the repeated shape stands for: n copies of the list. */
  function Copies<T>(list: seq<T>): (r: seq<seq<T>>)
    ensures |r| == |list| && forall i :: 0 <= i < |r| ==> r[i] == list
  {
    seq(|list|, _ => list)
  }

  /** The reference enumeration: all n-tuples over the list, last position
      varying fastest. */
  function Enumerate<T>(list: seq<T>): (r: seq<seq<T>>)
    requires |list| != 0
    ensures |r| == Pow(|list|, |list|)
  {
    ProductOfEqual(VecOfLists.Lens(Copies(list)), |list|);
    VecOfLists.CartesianProduct(Copies(list))
  }

  /** There are n to the power n combinations. */
  lemma Count<T>(list: seq<T>)
    requires |list| != 0
    ensures Product(Lens(list)) == Pow(|list|, |list|)
  {
    ProductOfEqual(Lens(list), |list|);
  }

  /** The repeated shape reports the same lengths and selects the same
      combinations as the homogeneous shape over n copies of the list, so an
      engine over either produces the same sequence. */
  lemma MatchesCopies<T>(list: seq<T>, indexes: seq<nat>)
    requires |list| != 0
    requires forall i :: 0 <= i < |indexes| ==> indexes[i] < |list|
    requires |indexes| <= |list|
    ensures VecOfLists.NonEmptyLists(Copies(list))
    ensures WrapperLen(list) == VecOfLists.WrapperLen(Copies(list))
    ensures Lens(list) == VecOfLists.Lens(Copies(list))
    ensures VecOfLists.Addresses(Copies(list), indexes)
    ensures NextItem(list, indexes) == VecOfLists.NextItem(Copies(list), indexes)
  {
  }

  /** The combination at cursors `d` is the one numbered `Value(d)` in the
      reference enumeration. */
  lemma EnumerateAt<T>(list: seq<T>, d: seq<nat>)
    requires |list| != 0 && InRange(d, Lens(list))
    ensures Value(d, Lens(list)) < |Enumerate(list)|
    ensures Enumerate(list)[Value(d, Lens(list))] == NextItem(list, d)
  {
    MatchesCopies(list, d);
    VecOfLists.CartesianProductAt(Copies(list), d);
  }
}
