/** Mixed-radix arithmetic that gives the odometer of `IndexCounters` its meaning.

    A cursor vector `d` over radices `lens` is read as a number whose digit `i`
    has radix `lens[i]`, digit 0 being the most significant and the last digit
    the least significant (the last list varies fastest).  `Carry` is the pure
    meaning of `IndexCounters::increment`; the lemmas below say what it does to
    that number.
 */
module MixedRadix {

  /** Every radix is at least one (no list is empty). */
  predicate Positive(lens: seq<nat>)
  {
    forall i :: 0 <= i < |lens| ==> lens[i] >= 1
  }

  /** Every cursor is below the length of its list. */
  predicate InRange(d: seq<nat>, lens: seq<nat>)
  {
    |d| == |lens| && forall i :: 0 <= i < |d| ==> d[i] < lens[i]
  }

  /** The product of all list lengths: the number of combinations. */
  function Product(lens: seq<nat>): (r: nat)
    ensures Positive(lens) ==> r >= 1
  {
    if |lens| == 0 then 1
    else
      var p := Product(lens[..|lens| - 1]);
      assert Positive(lens) ==> Positive(lens[..|lens| - 1]);
      p * lens[|lens| - 1]
  }

  /** The number a cursor vector denotes, digit 0 most significant. */
  function Value(d: seq<nat>, lens: seq<nat>): nat
    requires |d| == |lens|
  {
    if |d| == 0 then 0
    else Value(d[..|d| - 1], lens[..|lens| - 1]) * lens[|lens| - 1] + d[|d| - 1]
  }

  /** The all-zero cursor vector of length `n`. */
  function Zeros(n: nat): seq<nat>
  {
    seq(n, _ => 0)
  }

  /** One odometer step starting at position `k`, exactly as the loop of
      `IndexCounters::increment` performs it: an overflowing nonzero position is
      reset to 0 and the carry moves left; an overflowing position 0 is left as
      it is and the carry stops. */
  function Carry(d: seq<nat>, lens: seq<nat>, k: nat): (r: seq<nat>)
    requires |d| == |lens| && k < |d|
    ensures |r| == |d|
    ensures forall i :: k < i < |d| ==> r[i] == d[i]
    ensures InRange(d, lens) ==> InRange(r, lens)
    decreases k
  {
    if d[k] + 1 >= lens[k] then
      if k != 0 then Carry(d[k := 0], lens, k - 1) else d
    else
      d[k := d[k] + 1]
  }

  /** `m` full odometer steps, each started at the last position. */
  function Advance(d: seq<nat>, lens: seq<nat>, m: nat): (r: seq<nat>)
    requires |d| == |lens| && |d| >= 1
    ensures |r| == |d|
    ensures InRange(d, lens) ==> InRange(r, lens)
  {
    if m == 0 then d else Carry(Advance(d, lens, m - 1), lens, |d| - 1)
  }

  // ---------------------------------------------------------------------
  // Arithmetic helpers.

  lemma MulMonotone(a: nat, b: nat, m: nat)
    requires a <= b
    ensures a * m <= b * m
  {
  }

  lemma MulCancel(a: nat, b: nat, m: nat)
    requires a * m < b * m
    ensures a < b
  {
    if b <= a {
      MulMonotone(b, a, m);
    }
  }

  /** Euclidean division of `q * m + x` by `m` when `x < m`. */
  lemma DivModOf(q: nat, m: nat, x: nat)
    requires x < m
    ensures (q * m + x) / m == q && (q * m + x) % m == x
  {
    var n := q * m + x;
    var q', x' := n / m, n % m;
    assert n == q' * m + x' && 0 <= x' < m;
    if q' < q {
      MulMonotone(q' + 1, q, m);
      assert false;
    } else if q' > q {
      MulMonotone(q + 1, q', m);
      assert false;
    }
  }

  /** An index below `a * b` has a quotient by `b` below `a`. */
  lemma DivBound(i: nat, a: nat, b: nat)
    requires i < a * b
    ensures b > 0 && i / b < a
  {
    assert b != 0;
    var q := i / b;
    assert q * b <= i;
    MulCancel(q, a, b);
  }

  // ---------------------------------------------------------------------
  // Facts about Product and Value.

  /** Values of in-range vectors are below the number of combinations. */
  lemma {:induction false} ValueBound(d: seq<nat>, lens: seq<nat>)
    requires InRange(d, lens)
    ensures Value(d, lens) < Product(lens)
  {
    if |d| > 0 {
      var n := |d|;
      ValueBound(d[..n - 1], lens[..n - 1]);
      var v, p, l := Value(d[..n - 1], lens[..n - 1]), Product(lens[..n - 1]), lens[n - 1];
      MulMonotone(v + 1, p, l);
      assert Value(d, lens) == v * l + d[n - 1] < (v + 1) * l;
    }
  }

  /** The all-zero vector denotes 0: the first combination. */
  lemma {:induction false} ValueZeros(lens: seq<nat>)
    ensures Value(Zeros(|lens|), lens) == 0
  {
    if |lens| > 0 {
      var n := |lens|;
      assert Zeros(n)[..n - 1] == Zeros(n - 1);
      ValueZeros(lens[..n - 1]);
    }
  }

  /** Vectors that agree digit by digit denote the same number, and
      in-range vectors that denote the same number are equal. */
  lemma {:induction false} ValueInjective(d: seq<nat>, e: seq<nat>, lens: seq<nat>)
    requires InRange(d, lens) && InRange(e, lens)
    ensures Value(d, lens) == Value(e, lens) <==> d == e
  {
    if |d| > 0 && Value(d, lens) == Value(e, lens) {
      var n := |d|;
      var l := lens[n - 1];
      var vd, ve := Value(d[..n - 1], lens[..n - 1]), Value(e[..n - 1], lens[..n - 1]);
      DivModOf(vd, l, d[n - 1]);
      DivModOf(ve, l, e[n - 1]);
      ValueInjective(d[..n - 1], e[..n - 1], lens[..n - 1]);
      assert d == d[..n - 1] + [d[n - 1]] && e == e[..n - 1] + [e[n - 1]];
    }
  }

  /** `d` comes before `e` in lexicographic order, position 0 deciding first. */
  predicate LexLess(d: seq<nat>, e: seq<nat>)
    requires |d| == |e|
  {
    exists k :: 0 <= k < |d| && d[..k] == e[..k] && d[k] < e[k]
  }

  /** The denoted numbers order in-range vectors exactly as lexicographic
      order does: the odometer lists combinations in lexicographic order of
      their cursors. */
  lemma {:induction false} ValueOrder(d: seq<nat>, e: seq<nat>, lens: seq<nat>)
    requires InRange(d, lens) && InRange(e, lens)
    ensures Value(d, lens) < Value(e, lens) <==> LexLess(d, e)
  {
    if |d| > 0 {
      var n := |d|;
      var dp, ep, lp := d[..n - 1], e[..n - 1], lens[..n - 1];
      ValueOrder(dp, ep, lp);
      ValueInjective(dp, ep, lp);
      LexLessSplit(d, e);
      DigitOrder(Value(dp, lp), Value(ep, lp), d[n - 1], e[n - 1], lens[n - 1]);
    }
  }

  /** Helper of ValueOrder: lexicographic order decided on all positions but
      the last, then on the last. */
  lemma LexLessSplit(d: seq<nat>, e: seq<nat>)
    requires |d| == |e| > 0
    ensures var n := |d|;
      LexLess(d, e) <==>
        LexLess(d[..n - 1], e[..n - 1]) || (d[..n - 1] == e[..n - 1] && d[n - 1] < e[n - 1])
  {
    var n := |d|;
    var dp, ep := d[..n - 1], e[..n - 1];
    if LexLess(d, e) {
      var k :| 0 <= k < n && d[..k] == e[..k] && d[k] < e[k];
      if k < n - 1 {
        assert dp[..k] == ep[..k] && dp[k] < ep[k];
      } else {
        assert dp == d[..k] && ep == e[..k];
      }
    }
    if LexLess(dp, ep) {
      var k :| 0 <= k < n - 1 && dp[..k] == ep[..k] && dp[k] < ep[k];
      assert d[..k] == dp[..k] && e[..k] == ep[..k];
    }
    if dp == ep && d[n - 1] < e[n - 1] {
      assert d[..n - 1] == e[..n - 1];
    }
  }

  /** Helper of ValueOrder: one more digit below the radix `l` keeps the
      order of the higher part, or decides it when the higher parts agree. */
  lemma DigitOrder(vd: nat, ve: nat, x: nat, y: nat, l: nat)
    requires x < l && y < l
    ensures vd * l + x < ve * l + y <==> vd < ve || (vd == ve && x < y)
  {
    if vd < ve {
      MulMonotone(vd + 1, ve, l);
    } else if ve < vd {
      MulMonotone(ve + 1, vd, l);
    }
  }

  // ---------------------------------------------------------------------
  // Facts about Carry.

  /** A step started at `k` touches only the first `k + 1` positions, and on
      them it is the step on the truncated vector. */
  lemma {:induction false} CarryPrefix(d: seq<nat>, lens: seq<nat>, k: nat)
    requires |d| == |lens| && k < |d|
    ensures Carry(d, lens, k) == Carry(d[..k + 1], lens[..k + 1], k) + d[k + 1..]
    decreases k
  {
    var dk, lk := d[..k + 1], lens[..k + 1];
    if d[k] + 1 >= lens[k] {
      if k != 0 {
        CarryPrefix(d[k := 0], lens, k - 1);
        CarryPrefix(dk[k := 0], lk, k - 1);
        assert d[k := 0][..k] == dk[k := 0][..k];
        assert lens[..k] == lk[..k];
        assert dk[k := 0][k..] == [0];
        assert d[k := 0][k..] == [0] + d[k + 1..];
      } else {
        assert d == dk + d[k + 1..];
      }
    } else {
      assert d[k := d[k] + 1] == dk[k := d[k] + 1] + d[k + 1..];
    }
  }

  /** Below the last combination, a full step raises the denoted number by
      exactly one. */
  lemma {:induction false} CarryIncrements(d: seq<nat>, lens: seq<nat>)
    requires InRange(d, lens) && |d| >= 1
    requires Value(d, lens) + 1 < Product(lens)
    ensures Value(Carry(d, lens, |d| - 1), lens) == Value(d, lens) + 1
  {
    var n := |d|;
    var dp, lp, x, l := d[..n - 1], lens[..n - 1], d[n - 1], lens[n - 1];
    var vp := Value(dp, lp);
    assert Value(d, lens) == vp * l + x;
    if n == 1 {
      assert dp == [] && lp == [] && Product(lens) == l;
    }
    if x + 1 < l {
      var r := d[n - 1 := x + 1];
      assert r[..n - 1] == dp;
    } else {
      assert x == l - 1;
      assert n >= 2;
      // The carry: (vp + 1) * l fits below Product(lp) * l, so vp + 1 < Product(lp).
      assert (vp + 1) * l == vp * l + l;
      MulCancel(vp + 1, Product(lp), l);
      assert InRange(dp, lp);
      CarryIncrements(dp, lp);
      var e := d[n - 1 := 0];
      CarryPrefix(e, lens, n - 2);
      assert e[..n - 1] == dp && lens[..n - 1] == lp && e[n - 1..] == [0];
      var c := Carry(dp, lp, n - 2);
      var r := c + [0];
      assert Carry(d, lens, n - 1) == r;
      assert r[..n - 1] == c;
      assert Value(r, lens) == Value(c, lp) * l;
    }
  }

  /** Below the last combination, a full step moves the cursors forward in
      lexicographic order. */
  lemma CarryAdvancesLex(d: seq<nat>, lens: seq<nat>)
    requires InRange(d, lens) && |d| >= 1
    requires Value(d, lens) + 1 < Product(lens)
    ensures LexLess(d, Carry(d, lens, |d| - 1))
  {
    CarryIncrements(d, lens);
    ValueOrder(d, Carry(d, lens, |d| - 1), lens);
  }

  /** When cursors 0..k are all at their maximum, a step started at `k` resets
      positions 1..k to 0 but leaves cursor 0 where it is: the odometer
      saturates at position 0 instead of wrapping around. */
  lemma {:induction false} CarrySaturates(d: seq<nat>, lens: seq<nat>, k: nat)
    requires |d| == |lens| && k < |d|
    requires forall i :: 0 <= i <= k ==> d[i] + 1 == lens[i]
    ensures Carry(d, lens, k)[0] == d[0]
    ensures forall i :: 0 < i <= k ==> Carry(d, lens, k)[i] == 0
    decreases k
  {
    if k != 0 {
      CarrySaturates(d[k := 0], lens, k - 1);
    }
  }

  /** `m` steps from any in-range vector `d` reach the vector denoting
      `Value(d) + m`, while that is still below the total. */
  lemma {:induction false} AdvanceValue(d: seq<nat>, lens: seq<nat>, m: nat)
    requires InRange(d, lens) && |d| >= 1
    requires Value(d, lens) + m < Product(lens)
    ensures Value(Advance(d, lens, m), lens) == Value(d, lens) + m
  {
    if m > 0 {
      AdvanceValue(d, lens, m - 1);
      CarryIncrements(Advance(d, lens, m - 1), lens);
    }
  }

  /** Every number below the total is denoted by some in-range vector: the
      one `v` steps from the first combination reach.  With `ValueInjective`,
      `Value` is a bijection between in-range vectors and `[0, Product(lens))`. */
  lemma ValueSurjective(lens: seq<nat>, v: nat)
    requires Positive(lens) && |lens| >= 1 && v < Product(lens)
    ensures InRange(Advance(Zeros(|lens|), lens, v), lens)
    ensures Value(Advance(Zeros(|lens|), lens, v), lens) == v
  {
    ValueZeros(lens);
    AdvanceValue(Zeros(|lens|), lens, v);
  }

  // ---------------------------------------------------------------------
  // Short vectors, as the fixed-arity tuple shapes use them.

  /** Two digits: `d[0] * lens[1] + d[1]` out of `lens[0] * lens[1]`. */
  lemma ValueOfPair(d: seq<nat>, lens: seq<nat>)
    requires |d| == |lens| == 2
    ensures Value(d, lens) == d[0] * lens[1] + d[1]
    ensures Product(lens) == lens[0] * lens[1]
  {
    var d1, l1 := d[..1], lens[..1];
    assert d1[..0] == [] && l1[..0] == [];
    assert Value(d1, l1) == 0 * lens[0] + d[0];
    assert Product(l1) == 1 * lens[0];
  }

  /** Three digits: `(d[0] * lens[1] + d[1]) * lens[2] + d[2]` out of
      `lens[0] * lens[1] * lens[2]`. */
  lemma ValueOfTriple(d: seq<nat>, lens: seq<nat>)
    requires |d| == |lens| == 3
    ensures Value(d, lens) == (d[0] * lens[1] + d[1]) * lens[2] + d[2]
    ensures Product(lens) == lens[0] * lens[1] * lens[2]
  {
    ValueOfPair(d[..2], lens[..2]);
  }

  /** `base` raised to `exp`. */
  function Pow(base: nat, exp: nat): nat
  {
    if exp == 0 then 1 else Pow(base, exp - 1) * base
  }

  /** `k` lists of the same length `n` give `n` to the power `k` combinations. */
  lemma {:induction false} ProductOfEqual(lens: seq<nat>, n: nat)
    requires forall i :: 0 <= i < |lens| ==> lens[i] == n
    ensures Product(lens) == Pow(n, |lens|)
  {
    if |lens| > 0 {
      ProductOfEqual(lens[..|lens| - 1], n);
    }
  }
}
