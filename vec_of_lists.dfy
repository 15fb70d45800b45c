/** The homogeneous shape (src/list_wrapper/vec_of_lists.rs): a list of lists
    whose elements all have the same type.  A combination is a sequence with
    one element taken from each list. */
module VecOfLists {
  import opened MixedRadix

  /** Every list has at least one element. */
  predicate NonEmptyLists<T>(lists: seq<seq<T>>)
  {
    forall i :: 0 <= i < |lists| ==> |lists[i]| != 0
  }

  /** Element `i` of `c` is an element of list `i`, for every list. */
  ghost predicate DrawsFrom<T>(lists: seq<seq<T>>, c: seq<T>)
  {
    |c| == |lists| && forall i :: 0 <= i < |c| ==> c[i] in lists[i]
  }

  /** The cursors address an element of each of the first `|indexes|` lists. */
  predicate Addresses<T>(lists: seq<seq<T>>, indexes: seq<nat>)
  {
    |indexes| <= |lists| && forall i :: 0 <= i < |indexes| ==> indexes[i] < |lists[i]|
  }

  /** The number of lists being permutated; there must be at least one. */
  function WrapperLen<T>(lists: seq<seq<T>>): (r: nat)
    requires |lists| != 0
    ensures r >= 1 && r == |lists|
  {
    |lists|
  }

  /** The length of each list, one per list, each nonzero. */
  function Lens<T>(lists: seq<seq<T>>): (r: seq<nat>)
    requires NonEmptyLists(lists)
    ensures |r| == |lists| && Positive(r)
    ensures forall i :: 0 <= i < |r| ==> r[i] == |lists[i]|
  {
    seq(|lists|, i requires 0 <= i < |lists| => |lists[i]|)
  }

  /** The combination the cursors select: element `i` is drawn from list `i`. */
  function NextItem<T>(lists: seq<seq<T>>, indexes: seq<nat>): (r: seq<T>)
    requires Addresses(lists, indexes)
    ensures |r| == |indexes|
    ensures forall i :: 0 <= i < |r| ==> r[i] in lists[i]
  {
    seq(|indexes|, i requires 0 <= i < |indexes| => lists[i][indexes[i]])
  }

  /** Writes the combination the cursors select into the first `|indexes|`
      slots of a caller's buffer, leaving the other slots alone. */
  method NextWithBuffer<T>(lists: seq<seq<T>>, indexes: seq<nat>, buffer: array<T>)
    requires |lists| != 0 && buffer.Length >= WrapperLen(lists)
    requires Addresses(lists, indexes)
    modifies buffer
    ensures buffer[..|indexes|] == NextItem(lists, indexes)
    ensures buffer[|indexes|..] == old(buffer[|indexes|..])
  {
    var index := 0;
    while index < |indexes|
      invariant 0 <= index <= |indexes|
      invariant buffer[..index] == NextItem(lists, indexes)[..index]
      invariant buffer[index..] == old(buffer[index..])
    {
      buffer[index] := lists[index][indexes[index]];
      index := index + 1;
    }
  }

  // ---------------------------------------------------------------------
  // The reference enumeration.

  /** Cell `i` of the product of the combinations `init` with the list `last`:
      combination `i / |last|` of `init` extended by element `i % |last|`. */
  function Extend<T>(init: seq<seq<T>>, last: seq<T>, i: nat): seq<T>
    requires i < |init| * |last|
  {
    DivBound(i, |init|, |last|);
    init[i / |last|] + [last[i % |last|]]
  }

  /** All combinations of one element from each list, the last list varying
      fastest: the order the odometer produces them in. */
  function CartesianProduct<T>(lists: seq<seq<T>>): (r: seq<seq<T>>)
    requires NonEmptyLists(lists)
    ensures |r| == Product(Lens(lists))
  {
    if |lists| == 0 then [[]]
    else
      var n := |lists|;
      var init, last := CartesianProduct(lists[..n - 1]), lists[n - 1];
      assert Lens(lists)[..n - 1] == Lens(lists[..n - 1]);
      seq(|init| * |last|, i requires 0 <= i < |init| * |last| => Extend(init, last, i))
  }

  /** The combination at cursors `d` is the one numbered `Value(d)` in the
      reference enumeration. */
  lemma {:induction false} CartesianProductAt<T>(lists: seq<seq<T>>, d: seq<nat>)
    requires NonEmptyLists(lists) && InRange(d, Lens(lists))
    ensures Value(d, Lens(lists)) < |CartesianProduct(lists)|
    ensures CartesianProduct(lists)[Value(d, Lens(lists))] == NextItem(lists, d)
  {
    ValueBound(d, Lens(lists));
    if |lists| > 0 {
      var n := |lists|;
      var lens, init, last := Lens(lists), lists[..n - 1], lists[n - 1];
      assert lens[..n - 1] == Lens(init);
      var dp := d[..n - 1];
      CartesianProductAt(init, dp);
      var v := Value(dp, Lens(init));
      DivModOf(v, |last|, d[n - 1]);
      assert Value(d, lens) == v * |last| + d[n - 1];
      assert NextItem(lists, d) == NextItem(init, dp) + [last[d[n - 1]]];
    }
  }

  /** Every combination of the reference enumeration draws element `i` from
      list `i`, and every such sequence occurs in it: it is exactly the
      Cartesian product. */
  lemma {:induction false} CartesianProductMembers<T>(lists: seq<seq<T>>, c: seq<T>)
    requires NonEmptyLists(lists)
    ensures c in CartesianProduct(lists) <==> DrawsFrom(lists, c)
  {
    var cp := CartesianProduct(lists);
    if c in cp {
      var k :| 0 <= k < |cp| && cp[k] == c;
      CartesianProductCellIn(lists, k);
    }
    if DrawsFrom(lists, c) {
      CartesianProductComplete(lists, c);
    }
  }

  /** Helper of CartesianProductMembers: every sequence drawing element `i`
      from list `i` is in the reference enumeration. */
  lemma {:induction false} CartesianProductComplete<T>(lists: seq<seq<T>>, c: seq<T>)
    requires NonEmptyLists(lists) && DrawsFrom(lists, c)
    ensures c in CartesianProduct(lists)
  {
    var d := seq(|c|, i requires 0 <= i < |c| => IndexOf(lists[i], c[i]));
    assert InRange(d, Lens(lists));
    CartesianProductAt(lists, d);
    assert NextItem(lists, d) == c;
  }

  /** Helper of CartesianProductMembers: every cell draws from the lists. */
  lemma {:induction false} CartesianProductCellIn<T>(lists: seq<seq<T>>, k: nat)
    requires NonEmptyLists(lists) && k < |CartesianProduct(lists)|
    ensures DrawsFrom(lists, CartesianProduct(lists)[k])
  {
    if |lists| > 0 {
      var n := |lists|;
      var init, last := lists[..n - 1], lists[n - 1];
      var cp := CartesianProduct(init);
      DivBound(k, |cp|, |last|);
      CartesianProductCellIn(init, k / |last|);
      assert CartesianProduct(lists)[k] == cp[k / |last|] + [last[k % |last|]];
    }
  }

  /** The position of an element that occurs in a list. */
  ghost function IndexOf<T>(list: seq<T>, x: T): (r: nat)
    requires x in list
    ensures r < |list| && list[r] == x
  {
    if list[0] == x then 0 else 1 + IndexOf(list[1..], x)
  }
}
