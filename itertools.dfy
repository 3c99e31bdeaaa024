/** The two enumerations the hand evaluator walks: the Cartesian product of a
    list of candidate lists (in the order `itertools.product` yields it, the
    last position varying fastest) and the 3-element subsets of five positions
    (in the order `itertools.combinations(range(5), 3)` yields them). */
module Itertools {

  /** Number of tuples in the Cartesian product of `lists`. */
  function ProductSize<T>(lists: seq<seq<T>>): nat {
    if lists == [] then 1 else |lists[0]| * ProductSize(lists[1..])
  }

  /** `t` picks one element from each list of `lists`, position by position. */
  ghost predicate IsChoice<T>(lists: seq<seq<T>>, t: seq<T>) {
    |t| == |lists| && forall i :: 0 <= i < |t| ==> t[i] in lists[i]
  }

  function Prepend<T>(v: T, tails: seq<seq<T>>): (r: seq<seq<T>>)
    ensures |r| == |tails|
    ensures forall i :: 0 <= i < |r| ==> r[i] == [v] + tails[i]
  {
    seq(|tails|, i requires 0 <= i < |tails| => [v] + tails[i])
  }

  /** Every element of `heads` in front of every element of `tails`, heads outermost. */
  function Extend<T>(heads: seq<T>, tails: seq<seq<T>>): (r: seq<seq<T>>)
    ensures |r| == |heads| * |tails|
  {
    if heads == [] then [] else Prepend(heads[0], tails) + Extend(heads[1..], tails)
  }

  /** The Cartesian product of `lists`, in lexicographic order of positions. */
  function Product<T>(lists: seq<seq<T>>): (p: seq<seq<T>>)
    ensures |p| == ProductSize(lists)
  {
    if lists == [] then [[]] else Extend(lists[0], Product(lists[1..]))
  }

  /** `a * m` grows with `a`. */
  lemma MulMonotone(a: nat, b: nat, m: nat)
    requires a <= b
    ensures a * m <= b * m
  {
    var d := b - a;
    assert b * m == a * m + d * m;
  }

  /** Division by `m` recovers the quotient and remainder of `q * m + r`. */
  lemma DivMod(k: nat, m: nat, q: nat, r: nat)
    requires r < m && k == q * m + r
    ensures k / m == q && k % m == r
  {
    var q0, r0 := k / m, k % m;
    assert k == q0 * m + r0;
    if q0 < q {
      MulMonotone(q0 + 1, q, m);
    } else if q < q0 {
      MulMonotone(q + 1, q0, m);
    }
    assert q0 == q;
  }

  /** Indices below `a * m` have a quotient below `a`. */
  lemma QuotientBound(k: nat, a: nat, m: nat)
    requires k < a * m
    ensures m > 0 && k / m < a
  {
    var q0, r0 := k / m, k % m;
    assert k == q0 * m + r0;
    if q0 >= a {
      MulMonotone(a, q0, m);
    }
  }

  lemma SizeSplit<T>(lists: seq<seq<T>>, k: nat)
    requires lists != [] && k < ProductSize(lists)
    ensures ProductSize(lists[1..]) > 0
    ensures k / ProductSize(lists[1..]) < |lists[0]|
  {
    QuotientBound(k, |lists[0]|, ProductSize(lists[1..]));
  }

  /** The `k`-th tuple of the product, decoded as a mixed-radix number whose
      last digit belongs to the last list. */
  function TupleAt<T>(lists: seq<seq<T>>, k: nat): (t: seq<T>)
    requires k < ProductSize(lists)
    ensures |t| == |lists|
    ensures forall i :: 0 <= i < |t| ==> t[i] in lists[i]
  {
    if lists == [] then []
    else
      var m := ProductSize(lists[1..]);
      SizeSplit(lists, k);
      [lists[0][k / m]] + TupleAt(lists[1..], k % m)
  }

  lemma {:induction false} ExtendAt<T>(heads: seq<T>, tails: seq<seq<T>>, q: nat, r: nat)
    requires q < |heads| && r < |tails|
    ensures q * |tails| + r < |Extend(heads, tails)|
    ensures Extend(heads, tails)[q * |tails| + r] == [heads[q]] + tails[r]
  {
    var m := |tails|;
    assert q * m + r < (q + 1) * m <= |heads| * m;
    if q > 0 {
      ExtendAt(heads[1..], tails, q - 1, r);
      assert (q - 1) * m + r + m == q * m + r;
    }
  }

  /** Euclidean division of `k` by a positive `m`. */
  lemma DivModParts(k: nat, m: nat)
    requires m > 0
    ensures k == (k / m) * m + k % m && k % m < m
  {
  }

  /** The `k`-th element of Extend, read off the quotient and the remainder. */
  lemma ExtendIndex<T>(heads: seq<T>, tails: seq<seq<T>>, k: nat)
    requires k < |heads| * |tails|
    ensures |tails| > 0 && k / |tails| < |heads|
    ensures Extend(heads, tails)[k] == [heads[k / |tails|]] + tails[k % |tails|]
  {
    var m := |tails|;
    QuotientBound(k, |heads|, m);
    DivModParts(k, m);
    var q, r := k / m, k % m;
    ExtendAt(heads, tails, q, r);
  }

  /** Decoding index `k` gives exactly the `k`-th tuple of the product. */
  lemma {:induction false} ProductAt<T>(lists: seq<seq<T>>, k: nat)
    requires k < ProductSize(lists)
    ensures Product(lists)[k] == TupleAt(lists, k)
  {
    if lists != [] {
      var rest := Product(lists[1..]);
      ExtendIndex(lists[0], rest, k);
      ProductAt(lists[1..], k % |rest|);
    }
  }

  function IndexOf<T(==)>(s: seq<T>, x: T): (i: nat)
    requires x in s
    ensures i < |s| && s[i] == x
  {
    if s[0] == x then 0 else 1 + IndexOf(s[1..], x)
  }

  /** The mixed-radix digits `q` (below `a`) and `r` (below `m`) make an index below `a * m`. */
  lemma Compose(q: nat, r: nat, a: nat, m: nat)
    requires q < a && r < m
    ensures q * m + r < a * m
    ensures (q * m + r) / m == q && (q * m + r) % m == r
  {
    MulMonotone(q + 1, a, m);
    assert (q + 1) * m == q * m + m;
    DivMod(q * m + r, m, q, r);
  }

  /** One step of TupleAt: the first digit and the index of the rest. */
  lemma TupleAtUnfold<T>(lists: seq<seq<T>>, k: nat)
    requires lists != [] && k < ProductSize(lists)
    ensures ProductSize(lists[1..]) > 0 && k / ProductSize(lists[1..]) < |lists[0]|
    ensures TupleAt(lists, k)
      == [lists[0][k / ProductSize(lists[1..])]] + TupleAt(lists[1..], k % ProductSize(lists[1..]))
  {
    SizeSplit(lists, k);
  }

  /** The index of a choice among the product's tuples (inverse of TupleAt). */
  function Encode<T(==)>(lists: seq<seq<T>>, t: seq<T>): (k: nat)
    requires IsChoice(lists, t)
    ensures k < ProductSize(lists) && TupleAt(lists, k) == t
    decreases |lists|
  {
    if lists == [] then 0
    else
      assert IsChoice(lists[1..], t[1..]);
      var r := Encode(lists[1..], t[1..]);
      var q := IndexOf(lists[0], t[0]);
      var m := ProductSize(lists[1..]);
      Compose(q, r, |lists[0]|, m);
      TupleAtUnfold(lists, q * m + r);
      assert [t[0]] + t[1..] == t;
      q * m + r
  }

  /** The product holds exactly the choices. */
  lemma ProductMembers<T>(lists: seq<seq<T>>, t: seq<T>)
    ensures t in Product(lists) <==> IsChoice(lists, t)
  {
    if t in Product(lists) {
      var k :| 0 <= k < |Product(lists)| && Product(lists)[k] == t;
      ProductAt(lists, k);
    }
    if IsChoice(lists, t) {
      var k := Encode(lists, t);
      ProductAt(lists, k);
    }
  }

  /** Every tuple of the product has one entry per list. */
  lemma ProductLengths<T>(lists: seq<seq<T>>)
    ensures forall t :: t in Product(lists) ==> |t| == |lists|
  {
    forall t | t in Product(lists) ensures |t| == |lists| {
      var k :| 0 <= k < |Product(lists)| && Product(lists)[k] == t;
      ProductAt(lists, k);
    }
  }

  /** The ten 3-element subsets of positions 0..4, as `itertools.combinations`
      yields them. */
  const Combinations: seq<(nat, nat, nat)> :=
    [(0, 1, 2), (0, 1, 3), (0, 1, 4), (0, 2, 3), (0, 2, 4),
     (0, 3, 4), (1, 2, 3), (1, 2, 4), (1, 3, 4), (2, 3, 4)]

  /** Each entry of the table is an increasing triple of positions below 5. */
  lemma CombinationAt(n: nat)
    requires n < |Combinations|
    ensures |Combinations| == 10
    ensures Combinations[n].0 < Combinations[n].1 < Combinations[n].2 < 5
  {
  }

  predicate LexLess(x: (nat, nat, nat), y: (nat, nat, nat)) {
    x.0 < y.0 || (x.0 == y.0 && (x.1 < y.1 || (x.1 == y.1 && x.2 < y.2)))
  }

  /** Lexicographic order is transitive. */
  lemma LexLessTransitive(x: (nat, nat, nat), y: (nat, nat, nat), z: (nat, nat, nat))
    requires LexLess(x, y) && LexLess(y, z)
    ensures LexLess(x, z)
  {
  }

  /** Neighbouring entries of the table are in increasing lexicographic order. */
  lemma CombinationsAdjacent(n: nat)
    requires n + 1 < |Combinations|
    ensures LexLess(Combinations[n], Combinations[n + 1])
  {
  }

  /** Any two entries of the table are in increasing lexicographic order. */
  lemma {:induction false} CombinationsOrdered(n: nat, m: nat)
    requires n < m < |Combinations|
    ensures LexLess(Combinations[n], Combinations[m])
    decreases m - n
  {
    CombinationsAdjacent(m - 1);
    if n < m - 1 {
      CombinationsOrdered(n, m - 1);
      LexLessTransitive(Combinations[n], Combinations[m - 1], Combinations[m]);
    }
  }

  /** Every increasing triple of positions below 5 is in the table. */
  lemma CombinationsComplete(i: nat, j: nat, k: nat)
    requires i < j < k < 5
    ensures (i, j, k) in Combinations
  {
    var n := if i == 0 then (if j == 1 then k - 2 else if j == 2 then k + 0 else 5)
      else if i == 1 then (if j == 2 then k + 3 else 8)
      else 9;
    assert Combinations[n] == (i, j, k);
  }
}
