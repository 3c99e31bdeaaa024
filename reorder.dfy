/** Reordering the five codes does not change the outcome: the evaluator is
    invariant under exchanging two codes, and hence under every permutation. */
module Reorder {
  import opened Text
  import opened Cards
  import opened Itertools
  import opened Niu
  import opened NiuProperties

  /** `s` with the entries at `i` and `j` exchanged. */
  function Swap<T>(s: seq<T>, i: nat, j: nat): (r: seq<T>)
    requires i < |s| && j < |s|
    ensures |r| == |s| && r[i] == s[j] && r[j] == s[i]
    ensures forall k :: 0 <= k < |s| && k != i && k != j ==> r[k] == s[k]
  {
    s[i := s[j]][j := s[i]]
  }

  /** The position that entry `k` moves to when `i` and `j` are exchanged. */
  function Moved(k: nat, i: nat, j: nat): nat {
    if k == i then j else if k == j then i else k
  }

  /** Entry `k` of the exchanged sequence comes from position `Moved(k, i, j)`. */
  lemma SwapAt<T>(s: seq<T>, i: nat, j: nat, k: nat)
    requires i < |s| && j < |s| && k < |s|
    ensures Moved(k, i, j) < |s| && Swap(s, i, j)[k] == s[Moved(k, i, j)]
  {
  }

  lemma SwapMoved<T>(s: seq<T>, i: nat, j: nat, k: nat)
    requires i < |s| && j < |s| && k < |s|
    ensures Moved(k, i, j) < |s| && Swap(s, i, j)[Moved(k, i, j)] == s[k]
  {
  }

  /** Exchanging two entries keeps the sum of an assignment. */
  lemma TotalSwap(a: seq<nat>, i: nat, j: nat)
    requires |a| == 5 && i < 5 && j < 5
    ensures Total(Swap(a, i, j)) == Total(a)
  {
    var b := Swap(a, i, j);
    assert i == 0 || i == 1 || i == 2 || i == 3 || i == 4;
    assert j == 0 || j == 1 || j == 2 || j == 3 || j == 4;
  }

  /** The two tail cards may be given in either order. */
  lemma TailHandSymmetric(c4: Card, v4: nat, c5: Card, v5: nat)
    ensures TailHand(c4, v4, c5, v5) == TailHand(c5, v5, c4, v4)
  {
  }

  /** Exchanging two cards and their values keeps an assignment an assignment. */
  lemma {:induction false} AssignmentSwap(cards: seq<Card>, a: seq<nat>, i: nat, j: nat)
    requires IsAssignment(cards, a) && i < |cards| && j < |cards|
    ensures IsAssignment(Swap(cards, i, j), Swap(a, i, j))
  {
    var cs, b := Swap(cards, i, j), Swap(a, i, j);
    forall k | 0 <= k < |b| ensures b[k] in cs[k].values {
      SwapMoved(cards, i, j, Moved(k, i, j));
      SwapMoved(a, i, j, Moved(k, i, j));
    }
  }

  /** The split at tail `t1`, `t2` becomes the split at the moved tail, with
      the same outcome. */
  lemma {:induction false} SplitSwap(cards: seq<Card>, a: seq<nat>, t1: nat, t2: nat, i: nat, j: nat)
    returns (u1: nat, u2: nat)
    requires IsSplit(cards, a, t1, t2) && i < 5 && j < 5
    ensures SplitScores(Swap(cards, i, j), Swap(a, i, j), u1, u2, TailHand(cards[t1], a[t1], cards[t2], a[t2]))
  {
    var cs: seq<Card>, b: seq<nat> := Swap(cards, i, j), Swap(a, i, j);
    u1, u2 := Moved(t1, i, j), Moved(t2, i, j);
    SwapMoved(cards, i, j, t1);
    SwapMoved(cards, i, j, t2);
    SwapMoved(a, i, j, t1);
    SwapMoved(a, i, j, t2);
    TotalSwap(a, i, j);
    AssignmentSwap(cards, a, i, j);
    if u2 < u1 {
      TailHandSymmetric(cards[t1], a[t1], cards[t2], a[t2]);
      u1, u2 := u2, u1;
    }
  }

  /** A decomposition of the hand is still a decomposition once two cards
      exchange places, with the same outcome. */
  lemma {:induction false} AchievableSwap(cards: seq<Card>, i: nat, j: nat, h: Hand)
    requires |cards| == 5 && i < 5 && j < 5 && Achievable(cards, h)
    ensures Achievable(Swap(cards, i, j), h)
  {
    var a, t1, t2 :| SplitScores(cards, a, t1, t2, h);
    var u1, u2 := SplitSwap(cards, a, t1, t2, i, j);
  }

  /** Exchanging two codes exchanges the decoded cards, and an empty code
      still makes decoding fail. */
  lemma {:induction false} DecodeAllSwap(codes: seq<string>, i: nat, j: nat)
    requires i < |codes| && j < |codes|
    ensures DecodeAll(Swap(codes, i, j)).None? <==> DecodeAll(codes).None?
    ensures DecodeAll(codes).Some? ==> DecodeAll(Swap(codes, i, j)).value == Swap(DecodeAll(codes).value, i, j)
  {
    var sw := Swap(codes, i, j);
    if DecodeAll(codes).None? {
      var k :| 0 <= k < |codes| && codes[k] == [];
      SwapMoved(codes, i, j, k);
    } else if DecodeAll(sw).None? {
      var k :| 0 <= k < |sw| && sw[k] == [];
      SwapAt(codes, i, j, k);
    } else {
      var cards, swapped := DecodeAll(codes).value, DecodeAll(sw).value;
      forall k | 0 <= k < |codes| ensures swapped[k] == Swap(cards, i, j)[k] {
        SwapAt(codes, i, j, k);
        SwapAt(cards, i, j, k);
      }
    }
  }

  /** Decoded cards keep their own codes. */
  lemma {:induction false} DecodeAllDecoded(codes: seq<string>)
    requires DecodeAll(codes).Some?
    ensures IsDecoded(DecodeAll(codes).value)
  {
  }

  /** The first candidate value of each card. */
  function FirstValues(cards: seq<Card>): (f: seq<nat>)
    requires HasValues(cards)
    ensures |f| == |cards| && forall k :: 0 <= k < |cards| ==> f[k] == cards[k].values[0]
  {
    seq(|cards|, k requires 0 <= k < |cards| => cards[k].values[0])
  }

  /** For five cards, the Five Small sum is the total of the first values. */
  lemma FirstValueSumFive(cards: seq<Card>)
    requires |cards| == 5 && HasValues(cards)
    ensures FirstValueSum(cards) == Total(FirstValues(cards))
  {
    var c1 := cards[1..];
    var c2 := c1[1..];
    var c3 := c2[1..];
    var c4 := c3[1..];
    assert c4[1..] == [];
    assert FirstValueSum(c4) == cards[4].values[0];
    assert FirstValueSum(c3) == cards[3].values[0] + FirstValueSum(c4);
    assert FirstValueSum(c2) == cards[2].values[0] + FirstValueSum(c3);
    assert FirstValueSum(c1) == cards[1].values[0] + FirstValueSum(c2);
  }

  /** Exchanging two cards keeps the Five Small sum. */
  lemma {:induction false} FirstValueSumSwap(cards: seq<Card>, i: nat, j: nat)
    requires |cards| == 5 && HasValues(cards) && i < 5 && j < 5
    ensures HasValues(Swap(cards, i, j))
    ensures FirstValueSum(Swap(cards, i, j)) == FirstValueSum(cards)
  {
    var cs := Swap(cards, i, j);
    assert FirstValues(cs) == Swap(FirstValues(cards), i, j);
    FirstValueSumFive(cards);
    FirstValueSumFive(cs);
    TotalSwap(FirstValues(cards), i, j);
  }

  /** Exchanging two cards keeps Five Dukes and the Five Small ranks. */
  lemma {:induction false} SpecialsSwap(cards: seq<Card>, i: nat, j: nat)
    requires i < |cards| && j < |cards|
    ensures AllFace(Swap(cards, i, j)) <==> AllFace(cards)
    ensures AllSmallRanks(Swap(cards, i, j)) <==> AllSmallRanks(cards)
  {
    var cs := Swap(cards, i, j);
    forall k | 0 <= k < |cards| ensures cs[Moved(k, i, j)] == cards[k] && cs[k] == cards[Moved(k, i, j)] {
      SwapMoved(cards, i, j, k);
      SwapAt(cards, i, j, k);
    }
  }

  /** Exchanging two decoded cards does not change the search result. */
  lemma {:induction false} SearchSwap(cards: seq<Card>, i: nat, j: nat)
    requires |cards| == 5 && IsDecoded(cards) && i < 5 && j < 5
    ensures Search(Swap(cards, i, j)) == Search(cards)
  {
    var cs := Swap(cards, i, j);
    assert cards == Swap(cs, i, j);
    forall h ensures Achievable(cards, h) <==> Achievable(cs, h) {
      if Achievable(cards, h) {
        AchievableSwap(cards, i, j, h);
      }
      if Achievable(cs, h) {
        AchievableSwap(cs, i, j, h);
      }
    }
    SearchDependsOnlyOnAchievable(cards, cs);
  }

  /** Exchanging two decoded cards does not change their outcome. */
  lemma {:induction false} ClassifySwap(cards: seq<Card>, i: nat, j: nat)
    requires |cards| == 5 && IsDecoded(cards) && HasValues(cards) && i < 5 && j < 5
    ensures HasValues(Swap(cards, i, j))
    ensures Classify(Swap(cards, i, j)) == Classify(cards)
  {
    SpecialsSwap(cards, i, j);
    FirstValueSumSwap(cards, i, j);
    SearchSwap(cards, i, j);
  }

  /** Exchanging two codes does not change the outcome. */
  lemma {:induction false} EvaluateSwap(codes: seq<string>, i: nat, j: nat)
    requires i < |codes| && j < |codes|
    ensures Evaluate(Swap(codes, i, j)) == Evaluate(codes)
  {
    DecodeAllSwap(codes, i, j);
    if |codes| == 5 && DecodeAll(codes).Some? {
      DecodeAllDecoded(codes);
      ClassifySwap(DecodeAll(codes).value, i, j);
    }
  }

  /** Exchanging two entries keeps the multiset of entries. */
  lemma SwapMultiset<T>(s: seq<T>, i: nat, j: nat)
    requires i < |s| && j < |s|
    ensures multiset(Swap(s, i, j)) == multiset(s)
  {
    var t := s[i := s[j]];
    assert multiset(t) == multiset(s) - multiset{s[i]} + multiset{s[j]};
    assert multiset(t[j := s[i]]) == multiset(t) - multiset{t[j]} + multiset{s[i]};
  }

  /** Reorderings of each other that share a prefix are reorderings after it. */
  lemma {:induction false} SuffixMultiset<T>(p: seq<T>, r: seq<T>, k: nat)
    requires |p| == |r| && k <= |p| && p[..k] == r[..k] && multiset(p) == multiset(r)
    ensures multiset(p[k..]) == multiset(r[k..])
  {
    assert p == p[..k] + p[k..] && r == r[..k] + r[k..];
    assert multiset(p) == multiset(p[..k]) + multiset(p[k..]);
    assert multiset(r) == multiset(r[..k]) + multiset(r[k..]);
    assert multiset(p[k..]) == multiset(p) - multiset(p[..k]);
    assert multiset(r[k..]) == multiset(r) - multiset(r[..k]);
  }

  /** Once the first entries agree, the rests are reorderings of each other. */
  lemma {:induction false} DropAgreeing<T>(p: seq<T>, q: seq<T>, k: nat)
    requires k < |p| && k < |q| && p[k] == q[k] && multiset(p[k..]) == multiset(q[k..])
    ensures multiset(p[k + 1..]) == multiset(q[k + 1..])
  {
    assert p[k..] == [p[k]] + p[k + 1..];
    assert q[k..] == [q[k]] + q[k + 1..];
    assert multiset(p[k + 1..]) == multiset(p[k..]) - multiset{p[k]};
    assert multiset(q[k + 1..]) == multiset(q[k..]) - multiset{q[k]};
  }

  /** When the entries at `k` differ, the one `q` wants is further along in `p`. */
  lemma {:induction false} FindLater<T>(p: seq<T>, q: seq<T>, k: nat) returns (m: nat)
    requires k < |p| && k < |q| && p[k] != q[k] && multiset(p[k..]) == multiset(q[k..])
    ensures k < m < |p| && p[m] == q[k]
  {
    assert q[k] in multiset(q[k..]) by {
      assert q[k..][0] == q[k];
    }
    var n :| 0 <= n < |p[k..]| && p[k..][n] == q[k];
    m := k + n;
  }

  /** Bringing that entry forward makes one more entry agree. */
  lemma {:induction false} SwapForward<T>(p: seq<T>, q: seq<T>, k: nat, m: nat)
    requires |p| == |q| && k < m < |p| && p[m] == q[k]
    requires p[..k] == q[..k] && multiset(p[k..]) == multiset(q[k..])
    ensures Swap(p, k, m)[..k + 1] == q[..k + 1]
    ensures multiset(Swap(p, k, m)[k + 1..]) == multiset(q[k + 1..])
  {
    var r := Swap(p, k, m);
    SwapMultiset(p, k, m);
    assert r[..k] == p[..k];
    SuffixMultiset(r, p, k);
    DropAgreeing(r, q, k);
    assert r[..k + 1] == q[..k + 1];
  }

  /** Codes that agree on a prefix of length `k` and are reorderings of each
      other after it have the same outcome. */
  lemma {:induction false} EvaluateReordered(p: seq<string>, q: seq<string>, k: nat)
    requires |p| == |q| && k <= |p|
    requires p[..k] == q[..k] && multiset(p[k..]) == multiset(q[k..])
    ensures Evaluate(p) == Evaluate(q)
    decreases |p| - k
  {
    if k == |p| {
      assert p == p[..k] && q == q[..k];
    } else if p[k] == q[k] {
      DropAgreeing(p, q, k);
      assert p[..k + 1] == q[..k + 1];
      EvaluateReordered(p, q, k + 1);
    } else {
      var m := FindLater(p, q, k);
      SwapForward(p, q, k, m);
      EvaluateSwap(p, k, m);
      EvaluateReordered(Swap(p, k, m), q, k + 1);
    }
  }

  /** Any reordering of the codes has the same outcome. */
  lemma {:induction false} EvaluatePermutation(p: seq<string>, q: seq<string>)
    requires multiset(p) == multiset(q)
    ensures Evaluate(p) == Evaluate(q)
  {
    assert |p| == |multiset(p)| == |multiset(q)| == |q|;
    assert p[..0] == q[..0] && p[0..] == p && q[0..] == q;
    EvaluateReordered(p, q, 0);
  }
}
