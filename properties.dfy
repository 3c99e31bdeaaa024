/** What the search computes, stated independently of the enumeration: the
    result of `Search` is the best-scoring tail over every value assignment and
    every tail pair whose other three cards sum to a multiple of ten; that
    best is unique, so the order in which decompositions are found does not
    matter and reordering the five codes does not change the outcome. */
module NiuProperties {
  import opened Text
  import opened Cards
  import opened Itertools
  import opened Niu

  function Total(a: seq<nat>): nat
    requires |a| == 5
  {
    a[0] + a[1] + a[2] + a[3] + a[4]
  }

  /** `a` gives every card one of its candidate values. */
  ghost predicate IsAssignment(cards: seq<Card>, a: seq<nat>) {
    |a| == |cards| && forall i :: 0 <= i < |a| ==> a[i] in cards[i].values
  }

  /** Under `a`, the cards at `t1 < t2` form a tail whose body (the other
      three cards) sums to a multiple of ten. */
  ghost predicate IsSplit(cards: seq<Card>, a: seq<nat>, t1: nat, t2: nat) {
    |cards| == 5 && IsAssignment(cards, a) && t1 < t2 < 5 && (Total(a) - a[t1] - a[t2]) % 10 == 0
  }

  /** The split of `a` at tail `t1`, `t2` scores outcome `h`. */
  ghost predicate SplitScores(cards: seq<Card>, a: seq<nat>, t1: nat, t2: nat, h: Hand) {
    IsSplit(cards, a, t1, t2) && TailHand(cards[t1], a[t1], cards[t2], a[t2]) == h
  }

  /** Some decomposition of the hand scores outcome `h`. */
  ghost predicate Achievable(cards: seq<Card>, h: Hand) {
    |cards| == 5 && exists a: seq<nat>, t1: nat, t2: nat :: SplitScores(cards, a, t1, t2, h)
  }

  /** `h` is what the search should report: No Niu when nothing is achievable,
      otherwise an achievable outcome that no achievable outcome outscores. */
  ghost predicate IsBestAchievable(cards: seq<Card>, h: Hand) {
    if h == NoNiu then forall x :: !Achievable(cards, x)
    else Achievable(cards, h) && forall x :: Achievable(cards, x) ==> Score(x) <= Score(h)
  }

  /** The outcomes `TailHand` can produce: a Niu point is between 1 and 9. */
  predicate IsTailOutcome(h: Hand) {
    IsTailHand(h) && (h.Niu? ==> 1 <= h.point <= 9)
  }

  /** The cards are what the decoder produced from their own codes. */
  ghost predicate IsDecoded(cards: seq<Card>) {
    forall i :: 0 <= i < |cards| ==> DecodeCard(cards[i].code) == Decoded(cards[i])
  }

  // ---------------------------------------------------------------------
  // The running best

  /** The running best is the start or one of the visited outcomes, and no
      visited outcome scores more. */
  lemma {:induction false} BestFromIsMax(start: Hand, hs: seq<Hand>)
    requires IsRanked(start)
    requires forall h :: h in hs ==> IsTailHand(h)
    ensures BestFrom(start, hs) == start || BestFrom(start, hs) in hs
    ensures Score(start) <= Score(BestFrom(start, hs))
    ensures forall h :: h in hs ==> Score(h) <= Score(BestFrom(start, hs))
  {
    if hs != [] {
      var init := hs[..|hs| - 1];
      BestFromIsMax(start, init);
      assert forall h :: h in hs ==> h in init || h == hs[|hs| - 1];
    }
  }

  /** Ties keep the first: a best other than the start is the first visited
      outcome to reach its score. */
  lemma {:induction false} BestFromIsFirst(start: Hand, hs: seq<Hand>)
    requires IsRanked(start)
    requires forall h :: h in hs ==> IsTailHand(h)
    ensures BestFrom(start, hs) != start ==>
      exists i :: 0 <= i < |hs| && hs[i] == BestFrom(start, hs)
        && Score(start) < Score(hs[i])
        && forall j :: 0 <= j < i ==> Score(hs[j]) < Score(hs[i])
  {
    if hs != [] {
      var init := hs[..|hs| - 1];
      var last := |hs| - 1;
      BestFromIsFirst(start, init);
      BestFromIsMax(start, init);
      if Score(hs[last]) > Score(BestFrom(start, init)) {
        assert forall j :: 0 <= j < last ==> hs[j] in init;
      } else if BestFrom(start, init) != start {
        var i :| 0 <= i < |init| && init[i] == BestFrom(start, init)
          && Score(start) < Score(init[i])
          && forall j :: 0 <= j < i ==> Score(init[j]) < Score(init[i]);
        assert hs[i] == init[i];
        assert forall j :: 0 <= j < i ==> hs[j] == init[j];
      }
    }
  }

  // ---------------------------------------------------------------------
  // The enumeration covers exactly the decompositions

  /** An outcome found under `a` comes from a body among the first `n` combinations. */
  lemma {:induction false} FoundInWitness(cards: seq<Card>, a: seq<nat>, n: nat, h: Hand) returns (m: nat)
    requires |cards| == 5 && |a| == 5 && n <= 10
    requires h in FoundIn(cards, a, n)
    ensures m < n && IsBody(a, m) && BodyHand(cards, a, m) == h
  {
    if h in FoundIn(cards, a, n - 1) {
      m := FoundInWitness(cards, a, n - 1, h);
    } else {
      m := n - 1;
    }
  }

  /** Every body among the first `n` combinations contributes its outcome. */
  lemma {:induction false} FoundInHas(cards: seq<Card>, a: seq<nat>, n: nat, m: nat)
    requires |cards| == 5 && |a| == 5 && m < n <= 10 && IsBody(a, m)
    ensures BodyHand(cards, a, m) in FoundIn(cards, a, n)
  {
    if m < n - 1 {
      FoundInHas(cards, a, n - 1, m);
    }
  }

  /** An outcome found under `assigns` comes from a body of one of them. */
  lemma {:induction false} FoundWitness(cards: seq<Card>, assigns: seq<seq<nat>>, h: Hand) returns (j: nat, m: nat)
    requires |cards| == 5 && forall a :: a in assigns ==> |a| == 5
    requires h in Found(cards, assigns)
    ensures j < |assigns| && m < 10 && IsBody(assigns[j], m) && BodyHand(cards, assigns[j], m) == h
  {
    var init := assigns[..|assigns| - 1];
    if h in Found(cards, init) {
      j, m := FoundWitness(cards, init, h);
      assert assigns[j] == init[j];
    } else {
      j := |assigns| - 1;
      m := FoundInWitness(cards, assigns[j], 10, h);
    }
  }

  /** Every body of every assignment of `assigns` contributes its outcome. */
  lemma {:induction false} FoundHas(cards: seq<Card>, assigns: seq<seq<nat>>, j: nat, m: nat)
    requires |cards| == 5 && forall a :: a in assigns ==> |a| == 5
    requires j < |assigns| && m < 10 && IsBody(assigns[j], m)
    ensures BodyHand(cards, assigns[j], m) in Found(cards, assigns)
  {
    var init := assigns[..|assigns| - 1];
    if j < |assigns| - 1 {
      assert assigns[j] == init[j];
      FoundHas(cards, init, j, m);
    } else {
      FoundInHas(cards, assigns[j], 10, m);
    }
  }

  /** Combination `m` is a body exactly when its tail pair splits the hand. */
  lemma {:induction false} BodyIsSplit(cards: seq<Card>, a: seq<nat>, m: nat)
    requires |cards| == 5 && IsAssignment(cards, a) && m < 10
    ensures IsBody(a, m) <==> IsSplit(cards, a, TailOf(m)[0], TailOf(m)[1])
    ensures BodyHand(cards, a, m) == TailHand(cards[TailOf(m)[0]], a[TailOf(m)[0]], cards[TailOf(m)[1]], a[TailOf(m)[1]])
  {
    CombinationAt(m);
    var c := Combinations[m];
    var t := TailOf(m);
    assert a[c.0] + a[c.1] + a[c.2] == Total(a) - a[t[0]] - a[t[1]] by {
      assert m == 0 || m == 1 || m == 2 || m == 3 || m == 4 || m == 5 || m == 6 || m == 7 || m == 8 || m == 9;
    }
  }

  /** Every tail pair is the tail of one of the ten combinations. */
  lemma EveryTailPair(t1: nat, t2: nat) returns (m: nat)
    requires t1 < t2 < 5
    ensures m < 10 && TailOf(m) == [t1, t2]
  {
    m := if t1 == 0 then (if t2 == 1 then 9 else if t2 == 2 then 8 else if t2 == 3 then 7 else 6)
         else if t1 == 1 then (if t2 == 2 then 5 else if t2 == 3 then 4 else 3)
         else if t1 == 2 then (if t2 == 3 then 2 else 1)
         else 0;
  }

  lemma {:induction false} AssignmentIsChoice(cards: seq<Card>, a: seq<nat>)
    ensures IsAssignment(cards, a) <==> IsChoice(ValueLists(cards), a)
  {
  }

  /** Every outcome the enumeration finds is achievable. */
  lemma {:induction false} FoundIsSplit(cards: seq<Card>, h: Hand)
    requires |cards| == 5 && h in Found(cards, Assignments(cards))
    ensures Achievable(cards, h)
  {
    var assigns := Assignments(cards);
    var j, m := FoundWitness(cards, assigns, h);
    var a := assigns[j];
    ProductMembers(ValueLists(cards), a);
    AssignmentIsChoice(cards, a);
    BodyIsSplit(cards, a, m);
    var t := TailOf(m);
    assert SplitScores(cards, a, t[0], t[1], h);
  }

  /** Every split of the hand is found by the enumeration. */
  lemma {:induction false} SplitIsFound(cards: seq<Card>, a: seq<nat>, t1: nat, t2: nat)
    requires IsSplit(cards, a, t1, t2)
    ensures TailHand(cards[t1], a[t1], cards[t2], a[t2]) in Found(cards, Assignments(cards))
  {
    var assigns := Assignments(cards);
    AssignmentIsChoice(cards, a);
    ProductMembers(ValueLists(cards), a);
    var j :| 0 <= j < |assigns| && assigns[j] == a;
    var m := EveryTailPair(t1, t2);
    BodyIsSplit(cards, a, m);
    FoundHas(cards, assigns, j, m);
  }

  /** The outcomes the enumeration finds are exactly the achievable ones. */
  lemma {:induction false} FoundIsAchievable(cards: seq<Card>, h: Hand)
    requires |cards| == 5
    ensures h in Found(cards, Assignments(cards)) <==> Achievable(cards, h)
  {
    if h in Found(cards, Assignments(cards)) {
      FoundIsSplit(cards, h);
    }
    if Achievable(cards, h) {
      AchievableIsFound(cards, h);
    }
  }

  /** Every achievable outcome is found by the enumeration. */
  lemma {:induction false} AchievableIsFound(cards: seq<Card>, h: Hand)
    requires Achievable(cards, h)
    ensures h in Found(cards, Assignments(cards))
  {
    var a, t1, t2 :| SplitScores(cards, a, t1, t2, h);
    SplitIsFound(cards, a, t1, t2);
  }

  // ---------------------------------------------------------------------
  // The search reports the best achievable outcome, and that best is unique

  /** The search result is the best achievable outcome (No Niu when there is none). */
  lemma {:induction false} SearchIsBest(cards: seq<Card>)
    requires |cards| == 5
    ensures IsBestAchievable(cards, Search(cards))
  {
    var b := Search(cards);
    if b == NoNiu {
      forall x ensures !Achievable(cards, x) {
        if Achievable(cards, x) {
          SearchBounds(cards, x);
        }
      }
    } else {
      BestFromIsMax(NoNiu, Found(cards, Assignments(cards)));
      FoundIsAchievable(cards, b);
      forall x | Achievable(cards, x) ensures Score(x) <= Score(b) {
        SearchBounds(cards, x);
      }
    }
  }

  /** The search result outscores No Niu and scores at least every achievable outcome. */
  lemma {:induction false} SearchBounds(cards: seq<Card>, x: Hand)
    requires |cards| == 5 && Achievable(cards, x)
    ensures Search(cards) != NoNiu && Score(x) <= Score(Search(cards))
  {
    var hs := Found(cards, Assignments(cards));
    AchievableIsFound(cards, x);
    BestFromIsMax(NoNiu, hs);
    assert Search(cards) == BestFrom(NoNiu, hs);
  }

  /** Two different tail outcomes score the same only for a pair of 200s
      against a Ngau Tonku. */
  lemma {:induction false} ScoreCollision(x: Hand, y: Hand)
    requires IsTailOutcome(x) && IsTailOutcome(y) && x != y && Score(x) == Score(y)
    ensures (x == NgauTonku && y == DoubleOx(200)) || (x == DoubleOx(200) && y == NgauTonku)
  {
  }

  /** The ranking the scores encode: No Niu below every Niu point, Niu by
      point below Super Niu, Super Niu below every pair, pairs by value, and
      Ngau Tonku above every pair worth less than 200. */
  lemma ScoreRanking(p: nat, q: nat, v: nat, w: nat)
    requires 1 <= p <= 9 && 1 <= q <= 9
    ensures Score(NoNiu) < Score(Niu(p)) < Score(SuperNiu) < Score(DoubleOx(v))
    ensures Score(Niu(p)) < Score(Niu(q)) <==> p < q
    ensures Score(DoubleOx(v)) < Score(DoubleOx(w)) <==> v < w
    ensures Score(DoubleOx(v)) < Score(NgauTonku) <==> v < 200
  {
  }

  /** Different outcomes are reported differently: the (text, multiplier,
      colour) triple names the outcome. */
  lemma {:induction false} RenderInjective(h1: Hand, h2: Hand)
    requires Render(h1) == Render(h2)
    ensures h1 == h2
  {
    match h1
    case DoubleOx(v) =>
      var w := h2.pair;
      var t := Render(h1).text;
      assert t == "Double Ox " + ShowNat(v) + " (对子牛)";
      assert t == "Double Ox " + ShowNat(w) + " (对子牛)";
      assert ShowNat(v) == t[10..|t| - 6];
      assert ShowNat(w) == t[10..|t| - 6];
      ParseShowNat(v);
      ParseShowNat(w);
    case Niu(p) =>
      var q := h2.point;
      var t := Render(h1).text;
      assert t == "Niu " + ShowNat(p) + " (牛" + ShowNat(p) + ")";
      assert t == "Niu " + ShowNat(q) + " (牛" + ShowNat(q) + ")";
      assert |ShowNat(p)| == |ShowNat(q)|;
      assert ShowNat(p) == t[4..4 + |ShowNat(p)|];
      assert ShowNat(q) == t[4..4 + |ShowNat(q)|];
      ParseShowNat(p);
      ParseShowNat(q);
    case _ =>
  }

  /** What the decoder guarantees about a card's values: a face card is worth
      10, a spade Ace is worth 1 and is no face card, and only the 3 and the 6
      have two values. */
  ghost predicate HasDecodedValues(c: Card) {
    && (c.isFace ==> c.values == [10])
    && (IsSpadeAce(c) ==> c.values == [1] && !c.isFace)
    && (c.values == [3, 6] || c.values == [6, 3] || |c.values| == 1)
  }

  lemma {:induction false} DecodedCardFacts(c: Card)
    requires DecodeCard(c.code) == Decoded(c)
    ensures HasDecodedValues(c)
  {
  }

  lemma {:induction false} DecodedHandFacts(cards: seq<Card>)
    requires IsDecoded(cards)
    ensures forall i :: 0 <= i < |cards| ==> HasDecodedValues(cards[i])
  {
    forall i | 0 <= i < |cards| ensures HasDecodedValues(cards[i]) {
      DecodedCardFacts(cards[i]);
    }
  }

  /** The fifth position, given four distinct ones. */
  lemma FifthPosition(t1: nat, t2: nat, u1: nat, u2: nat) returns (x: nat)
    requires t1 < 5 && t2 < 5 && u1 < 5 && u2 < 5
    requires t1 != t2 && t1 != u1 && t1 != u2 && t2 != u1 && t2 != u2 && u1 != u2
    ensures x < 5 && x != t1 && x != t2 && x != u1 && x != u2
  {
    x := if 0 != t1 && 0 != t2 && 0 != u1 && 0 != u2 then 0
      else if 1 != t1 && 1 != t2 && 1 != u1 && 1 != u2 then 1
      else if 2 != t1 && 2 != t2 && 2 != u1 && 2 != u2 then 2
      else if 3 != t1 && 3 != t2 && 3 != u1 && 3 != u2 then 3
      else 4;
  }

  /** With two tails `t1, t2` and `u1, u2` that share no position, each body
      is the other tail plus the fifth card `x`. */
  lemma {:induction false} BodiesOfDisjointTails(a: seq<nat>, t1: nat, t2: nat, u1: nat, u2: nat, x: nat)
    requires |a| == 5 && t1 < 5 && t2 < 5 && u1 < 5 && u2 < 5 && x < 5
    requires t1 != t2 && t1 != u1 && t1 != u2 && t1 != x && t2 != u1 && t2 != u2 && t2 != x
    requires u1 != u2 && u1 != x && u2 != x
    ensures Total(a) - a[t1] - a[t2] == a[u1] + a[u2] + a[x]
    ensures Total(a) - a[u1] - a[u2] == a[t1] + a[t2] + a[x]
  {
  }

  /** A decoded card cannot complete a body with two 200s under one choice
      and a body with 1 and 10 under another: it would be worth a multiple of
      ten once and one short of a multiple of ten the other time. */
  lemma {:induction false} FifthCard(values: seq<nat>, p: nat, q: nat)
    requires values == [3, 6] || values == [6, 3] || |values| == 1
    requires p in values && q in values && (400 + p) % 10 == 0
    ensures (11 + q) % 10 != 0
  {
    if |values| == 1 {
      assert p == values[0] && q == values[0];
    }
  }

  /** A Ngau Tonku tail is a spade Ace (worth 1) and a face card (worth 10). */
  lemma {:induction false} NgauTonkuTail(cards: seq<Card>, a: seq<nat>, t1: nat, t2: nat)
    requires |cards| == 5 && IsAssignment(cards, a) && t1 < t2 < 5
    requires HasDecodedValues(cards[t1]) && HasDecodedValues(cards[t2])
    requires TailHand(cards[t1], a[t1], cards[t2], a[t2]) == NgauTonku
    ensures (cards[t1].values == [1] && cards[t2].values == [10]) || (cards[t1].values == [10] && cards[t2].values == [1])
  {
  }

  /** A tail that is a pair of 200s holds two cards whose only value is 200. */
  lemma {:induction false} PairTail(cards: seq<Card>, b: seq<nat>, u1: nat, u2: nat)
    requires |cards| == 5 && IsAssignment(cards, b) && u1 < u2 < 5
    requires HasDecodedValues(cards[u1]) && HasDecodedValues(cards[u2])
    requires TailHand(cards[u1], b[u1], cards[u2], b[u2]) == DoubleOx(200)
    ensures cards[u1].values == [200] && cards[u2].values == [200]
  {
  }

  /** A hand cannot offer both a Ngau Tonku and a pair of 200s: the two tails
      would be disjoint and the fifth card would have to complete both bodies,
      being worth a multiple of ten under one assignment and one short of a
      multiple of ten under the other. */
  lemma {:induction false} NoScoreTie(cards: seq<Card>)
    requires |cards| == 5 && IsDecoded(cards)
    ensures !(Achievable(cards, NgauTonku) && Achievable(cards, DoubleOx(200)))
  {
    if Achievable(cards, NgauTonku) && Achievable(cards, DoubleOx(200)) {
      var a, t1, t2 :| SplitScores(cards, a, t1, t2, NgauTonku);
      var b, u1, u2 :| SplitScores(cards, b, u1, u2, DoubleOx(200));
      DecodedHandFacts(cards);
      NoTieSplits(cards, a, t1, t2, b, u1, u2);
      assert false;
    }
  }

  /** Under any two assignments, a tail of an Ace and a face card sums to 11,
      and a pair of cards worth only 200 sits elsewhere. */
  lemma {:induction false} TailValues(cards: seq<Card>, a: seq<nat>, b: seq<nat>, t1: nat, t2: nat, u1: nat, u2: nat)
    requires |cards| == 5 && IsAssignment(cards, a) && IsAssignment(cards, b)
    requires t1 < t2 < 5 && u1 < u2 < 5
    requires (cards[t1].values == [1] && cards[t2].values == [10]) || (cards[t1].values == [10] && cards[t2].values == [1])
    requires cards[u1].values == [200] && cards[u2].values == [200]
    ensures a[t1] + a[t2] == 11 && b[t1] + b[t2] == 11
    ensures a[u1] == 200 && a[u2] == 200
    ensures t1 != u1 && t1 != u2 && t2 != u1 && t2 != u2
  {
    assert a[t1] in cards[t1].values && a[t2] in cards[t2].values;
    assert b[t1] in cards[t1].values && b[t2] in cards[t2].values;
    assert a[u1] in cards[u1].values && a[u2] in cards[u2].values;
  }

  /** The two splits of NoScoreTie, one at a time. */
  lemma {:induction false} NoTieSplits(cards: seq<Card>, a: seq<nat>, t1: nat, t2: nat, b: seq<nat>, u1: nat, u2: nat)
    requires IsSplit(cards, a, t1, t2) && IsSplit(cards, b, u1, u2)
    requires forall i :: 0 <= i < 5 ==> HasDecodedValues(cards[i])
    requires TailHand(cards[t1], a[t1], cards[t2], a[t2]) == NgauTonku
    ensures TailHand(cards[u1], b[u1], cards[u2], b[u2]) != DoubleOx(200)
  {
    if TailHand(cards[u1], b[u1], cards[u2], b[u2]) == DoubleOx(200) {
      NgauTonkuTail(cards, a, t1, t2);
      PairTail(cards, b, u1, u2);
      TailValues(cards, a, b, t1, t2, u1, u2);
      var x := FifthPosition(t1, t2, u1, u2);
      BodiesOfDisjointTails(a, t1, t2, u1, u2, x);
      BodiesOfDisjointTails(b, t1, t2, u1, u2, x);
      assert (400 + a[x]) % 10 == 0 && (11 + b[x]) % 10 == 0;
      assert HasDecodedValues(cards[x]) && a[x] in cards[x].values && b[x] in cards[x].values;
      FifthCard(cards[x].values, a[x], b[x]);
      assert false;
    }
  }

  /** The best achievable outcome of a decoded hand is unique. */
  lemma {:induction false} BestIsUnique(cards: seq<Card>, h1: Hand, h2: Hand)
    requires |cards| == 5 && IsDecoded(cards)
    requires IsBestAchievable(cards, h1) && IsBestAchievable(cards, h2)
    ensures h1 == h2
  {
    if h1 != NoNiu && h2 != NoNiu && h1 != h2 {
      assert Score(h1) == Score(h2);
      ScoreCollision(h1, h2);
      NoScoreTie(cards);
    }
  }

  /** The search result depends only on which outcomes are achievable, not on
      the order in which the decompositions are enumerated. */
  lemma {:induction false} SearchDependsOnlyOnAchievable(cards1: seq<Card>, cards2: seq<Card>)
    requires |cards1| == 5 && |cards2| == 5 && IsDecoded(cards1)
    requires forall h :: Achievable(cards1, h) <==> Achievable(cards2, h)
    ensures Search(cards1) == Search(cards2)
  {
    SearchIsBest(cards1);
    SearchIsBest(cards2);
    var h2 := Search(cards2);
    assert IsBestAchievable(cards1, h2);
    BestIsUnique(cards1, Search(cards1), h2);
  }
}
