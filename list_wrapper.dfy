/** The `ListWrapper` abstraction (src/list_wrapper.rs): what the engine needs of
    an input shape.  The source expresses it as a trait with one implementation
    per shape; here it is a tagged variant over the shapes, and each operation
    dispatches to the shape's own module. */
module ListWrapper {
  import opened MixedRadix
  import VecOfLists
  import SingleList
  import TupleOfLists

  /** The input shapes: a list of lists, one list repeated against itself, and
      tuples of lists of arity 2 and 3. */
  datatype Lists<A, B, C> =
    | Vec(lists: seq<seq<A>>)
    | Repeated(list: seq<A>)
    | Tuple2(pair: (seq<A>, seq<B>))
    | Tuple3(triple: (seq<A>, seq<B>, seq<C>))

  /** A combination, in the form that matches its shape. */
  datatype Item<A, B, C> =
    | Row(values: seq<A>)
    | Pair(pair: (A, B))
    | Triple(triple: (A, B, C))

  /** Shapes whose combinations are sequences and whose buffers are arrays. */
  predicate IsRowShape<A, B, C>(l: Lists<A, B, C>)
  {
    l.Vec? || l.Repeated?
  }

  /** At least one list, and no list is empty: what every adapter demands. */
  predicate WellFormed<A, B, C>(l: Lists<A, B, C>)
  {
    match l
    case Vec(ls) => |ls| != 0 && VecOfLists.NonEmptyLists(ls)
    case Repeated(list) => |list| != 0
    case Tuple2(p) => |p.0| != 0 && |p.1| != 0
    case Tuple3(t) => |t.0| != 0 && |t.1| != 0 && |t.2| != 0
  }

  /** The number of lists being permutated. */
  function WrapperLen<A, B, C>(l: Lists<A, B, C>): (r: nat)
    requires WellFormed(l)
    ensures r >= 1
  {
    match l
    case Vec(ls) => VecOfLists.WrapperLen(ls)
    case Repeated(list) => SingleList.WrapperLen(list)
    case Tuple2(p) => TupleOfLists.WrapperLen2(p)
    case Tuple3(t) => TupleOfLists.WrapperLen3(t)
  }

  /** The length of each list: one per list, each nonzero. */
  function Lens<A, B, C>(l: Lists<A, B, C>): (r: seq<nat>)
    requires WellFormed(l)
    ensures |r| == WrapperLen(l) && Positive(r)
  {
    match l
    case Vec(ls) => VecOfLists.Lens(ls)
    case Repeated(list) => SingleList.Lens(list)
    case Tuple2(p) => TupleOfLists.Lens2(p)
    case Tuple3(t) => TupleOfLists.Lens3(t)
  }

  /** The combination the cursors select; a row has one value per list. */
  function NextItem<A, B, C>(l: Lists<A, B, C>, indexes: seq<nat>): (r: Item<A, B, C>)
    requires WellFormed(l) && InRange(indexes, Lens(l))
    ensures r.Row? <==> IsRowShape(l)
    ensures r.Row? ==> |r.values| == WrapperLen(l)
    ensures r.Pair? <==> l.Tuple2?
  {
    match l
    case Vec(ls) => Row(VecOfLists.NextItem(ls, indexes))
    case Repeated(list) => Row(SingleList.NextItem(list, indexes))
    case Tuple2(p) => Pair(TupleOfLists.NextItem2(p, indexes))
    case Tuple3(t) => Triple(TupleOfLists.NextItem3(t, indexes))
  }

  /** Same values as NextItem, written into the first slots of a caller's
      array instead of allocated; the rest of the array is left alone. */
  method NextWithBuffer<A, B, C>(l: Lists<A, B, C>, indexes: seq<nat>, buffer: array<A>)
    requires WellFormed(l) && IsRowShape(l) && InRange(indexes, Lens(l))
    requires buffer.Length >= WrapperLen(l)
    modifies buffer
    ensures buffer[..WrapperLen(l)] == NextItem(l, indexes).values
    ensures buffer[WrapperLen(l)..] == old(buffer[WrapperLen(l)..])
  {
    match l
    case Vec(ls) => VecOfLists.NextWithBuffer(ls, indexes, buffer);
    case Repeated(list) => SingleList.NextWithBuffer(list, indexes, buffer);
  }

  /** Same value as NextItem, written into a caller's pair. */
  method NextWithBuffer2<A, B, C>(l: Lists<A, B, C>, indexes: seq<nat>, buffer: TupleOfLists.Buffer2<A, B>)
    requires WellFormed(l) && l.Tuple2? && InRange(indexes, Lens(l))
    modifies buffer
    ensures Pair(buffer.Value()) == NextItem(l, indexes)
  {
    TupleOfLists.NextWithBuffer2(l.pair, indexes, buffer);
  }

  /** Same value as NextItem, written into a caller's triple. */
  method NextWithBuffer3<A, B, C>(l: Lists<A, B, C>, indexes: seq<nat>, buffer: TupleOfLists.Buffer3<A, B, C>)
    requires WellFormed(l) && l.Tuple3? && InRange(indexes, Lens(l))
    modifies buffer
    ensures Triple(buffer.Value()) == NextItem(l, indexes)
  {
    TupleOfLists.NextWithBuffer3(l.triple, indexes, buffer);
  }

  /** Wraps sequences as rows. */
  function Rows<A, B, C>(s: seq<seq<A>>): (r: seq<Item<A, B, C>>)
    ensures |r| == |s| && forall i :: 0 <= i < |s| ==> r[i] == Row(s[i])
  {
    seq(|s|, i requires 0 <= i < |s| => Row(s[i]))
  }

  /** The reference enumeration of every shape: all combinations, the last
      list varying fastest. */
  function Enumerate<A, B, C>(l: Lists<A, B, C>): (r: seq<Item<A, B, C>>)
    requires WellFormed(l)
    ensures |r| == Product(Lens(l))
  {
    match l
    case Vec(ls) => Rows(VecOfLists.CartesianProduct(ls))
    case Repeated(list) =>
      SingleList.Count(list);
      Rows(SingleList.Enumerate(list))
    case Tuple2(p) => seq(|TupleOfLists.Enumerate2(p)|, i requires 0 <= i < |TupleOfLists.Enumerate2(p)| => Pair(TupleOfLists.Enumerate2(p)[i]))
    case Tuple3(t) => seq(|TupleOfLists.Enumerate3(t)|, i requires 0 <= i < |TupleOfLists.Enumerate3(t)| => Triple(TupleOfLists.Enumerate3(t)[i]))
  }

  /** For every shape, the combination at cursors `d` is the one numbered
      `Value(d)` in the reference enumeration. */
  lemma EnumerateAt<A, B, C>(l: Lists<A, B, C>, d: seq<nat>)
    requires WellFormed(l) && InRange(d, Lens(l))
    ensures Value(d, Lens(l)) < |Enumerate(l)|
    ensures Enumerate(l)[Value(d, Lens(l))] == NextItem(l, d)
  {
    match l
    case Vec(ls) => VecOfLists.CartesianProductAt(ls, d);
    case Repeated(list) => SingleList.EnumerateAt(list, d);
    case Tuple2(p) => TupleOfLists.Enumerate2At(p, d);
    case Tuple3(t) => TupleOfLists.Enumerate3At(t, d);
  }
}
