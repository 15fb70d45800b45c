/** The heterogeneous shape (src/specializations/tuple_of_lists.rs): a tuple of
    lists whose element types may differ; a combination is a tuple of the same
    arity.  The source generates one implementation per arity from 1 to 12 with
    a macro; arities 2 and 3 are modelled here. */
module TupleOfLists {
  import opened MixedRadix

  // ---------------------------------------------------------------------
  // Arity 2.

  /** A caller-owned pair whose components are overwritten in place. */
  class Buffer2<A, B> {
    var first: A
    var second: B

    constructor (first: A, second: B)
      ensures this.first == first && this.second == second
    {
      this.first := first;
      this.second := second;
    }

    /** The pair the buffer currently holds. */
    function Value(): (A, B)
      reads this
    {
      (first, second)
    }
  }

  /** The arity: the last component index, 1, plus one. */
  function WrapperLen2<A, B>(lists: (seq<A>, seq<B>)): (r: nat)
    ensures r == 2
  {
    1 + 1
  }

  /** The length of each component list, in component order, each nonzero. */
  function Lens2<A, B>(lists: (seq<A>, seq<B>)): (r: seq<nat>)
    requires |lists.0| != 0 && |lists.1| != 0
    ensures |r| == WrapperLen2(lists) && Positive(r)
    ensures r[0] == |lists.0| && r[1] == |lists.1|
  {
    [|lists.0|, |lists.1|]
  }

  /** The cursors address an element of each component list. */
  predicate Addresses2<A, B>(lists: (seq<A>, seq<B>), indexes: seq<nat>)
  {
    |indexes| >= 2 && indexes[0] < |lists.0| && indexes[1] < |lists.1|
  }

  /** Component j of the combination comes from component list j. */
  function NextItem2<A, B>(lists: (seq<A>, seq<B>), indexes: seq<nat>): (r: (A, B))
    requires Addresses2(lists, indexes)
    ensures r.0 in lists.0 && r.1 in lists.1
  {
    (lists.0[indexes[0]], lists.1[indexes[1]])
  }

  /** Overwrites every component of the buffer; the arity is fixed by the
      type, so there is no size to check. */
  method NextWithBuffer2<A, B>(lists: (seq<A>, seq<B>), indexes: seq<nat>, buffer: Buffer2<A, B>)
    requires Addresses2(lists, indexes)
    modifies buffer
    ensures buffer.Value() == NextItem2(lists, indexes)
  {
    buffer.first := lists.0[indexes[0]];
    buffer.second := lists.1[indexes[1]];
  }

  /** Cell `i` of the reference enumeration of pairs. */
  function Cell2<A, B>(lists: (seq<A>, seq<B>), i: nat): (r: (A, B))
    requires i < |lists.0| * |lists.1|
    ensures r.0 in lists.0 && r.1 in lists.1
  {
    DivBound(i, |lists.0|, |lists.1|);
    (lists.0[i / |lists.1|], lists.1[i % |lists.1|])
  }

  /** All pairs, the second component varying fastest. */
  function Enumerate2<A, B>(lists: (seq<A>, seq<B>)): (r: seq<(A, B)>)
    requires |lists.0| != 0 && |lists.1| != 0
    ensures |r| == Product(Lens2(lists))
  {
    ValueOfPair([0, 0], Lens2(lists));
    seq(|lists.0| * |lists.1|, i requires 0 <= i < |lists.0| * |lists.1| => Cell2(lists, i))
  }

  /** The pair at cursors `d` is the one numbered `Value(d)` in Enumerate2. */
  lemma Enumerate2At<A, B>(lists: (seq<A>, seq<B>), d: seq<nat>)
    requires |lists.0| != 0 && |lists.1| != 0 && InRange(d, Lens2(lists))
    ensures Value(d, Lens2(lists)) < |Enumerate2(lists)|
    ensures Enumerate2(lists)[Value(d, Lens2(lists))] == NextItem2(lists, d)
  {
    ValueBound(d, Lens2(lists));
    ValueOfPair(d, Lens2(lists));
    DivModOf(d[0], |lists.1|, d[1]);
  }

  /** Enumerate2 holds exactly the pairs drawn from the two lists. */
  lemma Enumerate2Members<A, B>(lists: (seq<A>, seq<B>), p: (A, B))
    requires |lists.0| != 0 && |lists.1| != 0
    ensures p in Enumerate2(lists) <==> p.0 in lists.0 && p.1 in lists.1
  {
    if p in Enumerate2(lists) {
      Enumerate2Sound(lists, p);
    }
    if p.0 in lists.0 && p.1 in lists.1 {
      Enumerate2Complete(lists, p);
    }
  }

  /** Helper of Enumerate2Members: every cell draws from the two lists. */
  lemma Enumerate2Sound<A, B>(lists: (seq<A>, seq<B>), p: (A, B))
    requires |lists.0| != 0 && |lists.1| != 0 && p in Enumerate2(lists)
    ensures p.0 in lists.0 && p.1 in lists.1
  {
    var e := Enumerate2(lists);
    var k :| 0 <= k < |e| && e[k] == p;
    assert e[k] == Cell2(lists, k);
  }

  /** Helper of Enumerate2Members: every pair drawn from the lists is a cell. */
  lemma Enumerate2Complete<A, B>(lists: (seq<A>, seq<B>), p: (A, B))
    requires p.0 in lists.0 && p.1 in lists.1
    ensures p in Enumerate2(lists)
  {
    var i :| 0 <= i < |lists.0| && lists.0[i] == p.0;
    var j :| 0 <= j < |lists.1| && lists.1[j] == p.1;
    Enumerate2At(lists, [i, j]);
  }

  // ---------------------------------------------------------------------
  // Arity 3.

  /** A caller-owned triple whose components are overwritten in place. */
  class Buffer3<A, B, C> {
    var first: A
    var second: B
    var third: C

    constructor (first: A, second: B, third: C)
      ensures this.first == first && this.second == second && this.third == third
    {
      this.first := first;
      this.second := second;
      this.third := third;
    }

    /** The triple the buffer currently holds. */
    function Value(): (A, B, C)
      reads this
    {
      (first, second, third)
    }
  }

  /** The arity: the last component index, 2, plus one. */
  function WrapperLen3<A, B, C>(lists: (seq<A>, seq<B>, seq<C>)): (r: nat)
    ensures r == 3
  {
    2 + 1
  }

  /** The length of each component list, in component order, each nonzero. */
  function Lens3<A, B, C>(lists: (seq<A>, seq<B>, seq<C>)): (r: seq<nat>)
    requires |lists.0| != 0 && |lists.1| != 0 && |lists.2| != 0
    ensures |r| == WrapperLen3(lists) && Positive(r)
    ensures r[0] == |lists.0| && r[1] == |lists.1| && r[2] == |lists.2|
  {
    [|lists.0|, |lists.1|, |lists.2|]
  }

  /** The cursors address an element of each component list. */
  predicate Addresses3<A, B, C>(lists: (seq<A>, seq<B>, seq<C>), indexes: seq<nat>)
  {
    |indexes| >= 3 && indexes[0] < |lists.0| && indexes[1] < |lists.1| && indexes[2] < |lists.2|
  }

  /** Component j of the combination comes from component list j. */
  function NextItem3<A, B, C>(lists: (seq<A>, seq<B>, seq<C>), indexes: seq<nat>): (r: (A, B, C))
    requires Addresses3(lists, indexes)
    ensures r.0 in lists.0 && r.1 in lists.1 && r.2 in lists.2
  {
    (lists.0[indexes[0]], lists.1[indexes[1]], lists.2[indexes[2]])
  }

  /** Overwrites every component of the buffer; the arity is fixed by the
      type, so there is no size to check. */
  method NextWithBuffer3<A, B, C>(lists: (seq<A>, seq<B>, seq<C>), indexes: seq<nat>, buffer: Buffer3<A, B, C>)
    requires Addresses3(lists, indexes)
    modifies buffer
    ensures buffer.Value() == NextItem3(lists, indexes)
  {
    buffer.first := lists.0[indexes[0]];
    buffer.second := lists.1[indexes[1]];
    buffer.third := lists.2[indexes[2]];
  }

  /** Cell `i` of the reference enumeration of triples. */
  function Cell3<A, B, C>(lists: (seq<A>, seq<B>, seq<C>), i: nat): (r: (A, B, C))
    requires i < |lists.0| * |lists.1| * |lists.2|
    ensures r.0 in lists.0 && r.1 in lists.1 && r.2 in lists.2
  {
    DivBound(i, |lists.0| * |lists.1|, |lists.2|);
    var q := i / |lists.2|;
    DivBound(q, |lists.0|, |lists.1|);
    (lists.0[q / |lists.1|], lists.1[q % |lists.1|], lists.2[i % |lists.2|])
  }

  /** All triples, the third component varying fastest, then the second. */
  function Enumerate3<A, B, C>(lists: (seq<A>, seq<B>, seq<C>)): (r: seq<(A, B, C)>)
    requires |lists.0| != 0 && |lists.1| != 0 && |lists.2| != 0
    ensures |r| == Product(Lens3(lists))
  {
    ValueOfTriple([0, 0, 0], Lens3(lists));
    var n := |lists.0| * |lists.1| * |lists.2|;
    seq(n, i requires 0 <= i < n => Cell3(lists, i))
  }

  /** The triple at cursors `d` is the one numbered `Value(d)` in Enumerate3. */
  lemma Enumerate3At<A, B, C>(lists: (seq<A>, seq<B>, seq<C>), d: seq<nat>)
    requires |lists.0| != 0 && |lists.1| != 0 && |lists.2| != 0 && InRange(d, Lens3(lists))
    ensures Value(d, Lens3(lists)) < |Enumerate3(lists)|
    ensures Enumerate3(lists)[Value(d, Lens3(lists))] == NextItem3(lists, d)
  {
    ValueBound(d, Lens3(lists));
    ValueOfTriple(d, Lens3(lists));
    var q := d[0] * |lists.1| + d[1];
    DivModOf(q, |lists.2|, d[2]);
    DivModOf(d[0], |lists.1|, d[1]);
  }

  /** Enumerate3 holds exactly the triples drawn from the three lists. */
  lemma Enumerate3Members<A, B, C>(lists: (seq<A>, seq<B>, seq<C>), t: (A, B, C))
    requires |lists.0| != 0 && |lists.1| != 0 && |lists.2| != 0
    ensures t in Enumerate3(lists) <==> t.0 in lists.0 && t.1 in lists.1 && t.2 in lists.2
  {
    if t in Enumerate3(lists) {
      var e := Enumerate3(lists);
      var k :| 0 <= k < |e| && e[k] == t;
      assert e[k] == Cell3(lists, k);
    }
    if t.0 in lists.0 && t.1 in lists.1 && t.2 in lists.2 {
      var i :| 0 <= i < |lists.0| && lists.0[i] == t.0;
      var j :| 0 <= j < |lists.1| && lists.1[j] == t.1;
      var m :| 0 <= m < |lists.2| && lists.2[m] == t.2;
      Enumerate3At(lists, [i, j, m]);
    }
  }
}
