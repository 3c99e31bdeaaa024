/** The hands tried at the bottom of logic.py, and a few more, worked through
    the model: each states the outcome and what `calculate_niu` reports. */
module Examples {
  import opened Text
  import opened Cards
  import opened Niu
  import opened NiuProperties
  import opened Reorder
  import opened Outcomes

  /** Past the guards, the outcome of decoded cards is their search result. */
  lemma {:induction false} EvaluateDecoded(codes: seq<string>, cards: seq<Card>)
    requires |codes| == 5 && DecodeAll(codes) == Some(cards)
    requires !AllFace(cards) && !AllSmallRanks(cards)
    ensures Evaluate(codes) == Search(cards)
  {
  }

  /** A hand holding a card that is no face card, and a card whose rank is
      no Five Small rank, is neither Five Dukes nor Five Small. */
  lemma NotSpecial(cards: seq<Card>, f: nat, r: nat)
    requires f < |cards| && r < |cards| && !cards[f].isFace
    requires var rank := cards[r].rank; rank != "a" && rank != "2" && rank != "3" && rank != "4"
    ensures !AllFace(cards) && !AllSmallRanks(cards)
  {
  }

  // ---------------------------------------------------------------------
  // The Ngau Tonku test: 10, 10, 10, A of spades, K

  /** Three tens, a spade Ace and a face card: the Ace and the face card are
      a Ngau Tonku tail, and no card is worth more than 10. */
  lemma {:induction false} NgauTonkuSplit(cards: seq<Card>)
    requires |cards| == 5
    requires cards[0].values == [10] && cards[1].values == [10] && cards[2].values == [10]
    requires cards[3].values == [1] && IsSpadeAce(cards[3])
    requires cards[4].values == [10] && cards[4].isFace
    ensures Achievable(cards, NgauTonku) && ValuesAtMost(cards, 199)
  {
    var a: seq<nat> := [10, 10, 10, 1, 10];
    assert IsAssignment(cards, a) by {
      forall i | 0 <= i < 5 ensures a[i] in cards[i].values {
        assert i == 0 || i == 1 || i == 2 || i == 3 || i == 4;
      }
    }
    assert Total(a) == 41;
    assert SplitScores(cards, a, 3, 4, NgauTonku);
    forall i, v | 0 <= i < 5 && v in cards[i].values ensures v <= 199 {
      assert i == 0 || i == 1 || i == 2 || i == 3 || i == 4;
    }
  }

  /** The Ngau Tonku test, on any five codes equal to the hand printed under `__main__` in logic.py. */
  lemma {:induction false} NgauTonkuHand(codes: seq<string>)
    requires |codes| == 5
    requires codes[0] == "10h" && codes[1] == "10d" && codes[2] == "10c" && codes[3] == "As" && codes[4] == "Kh"
    ensures Evaluate(codes) == NgauTonku
  {
    var cards := NgauTonkuCards(codes);
    NotSpecial(cards, 0, 0);
    EvaluateDecoded(codes, cards);
    NgauTonkuSplit(cards);
    NgauTonkuWinsOutright(cards);
  }

  /** The codes 10h, 10d, 10c, As, Kh decode to three tens, the spade Ace and
      a King. */
  lemma {:induction false} NgauTonkuCards(codes: seq<string>) returns (cards: seq<Card>)
    requires |codes| == 5
    requires codes[0] == "10h" && codes[1] == "10d" && codes[2] == "10c" && codes[3] == "As" && codes[4] == "Kh"
    ensures DecodeAll(codes) == Some(cards) && |cards| == 5
    ensures cards[0].values == [10] && cards[1].values == [10] && cards[2].values == [10]
    ensures cards[3].values == [1] && IsSpadeAce(cards[3])
    ensures cards[4].values == [10] && cards[4].isFace
    ensures cards[0].rank == "10" && !cards[0].isFace
  {
    DecodeTen('h');
    DecodeTen('d');
    DecodeTen('c');
    DecodeLettered('A', 's');
    DecodeLettered('K', 'h');
    cards := DecodeAll(codes).value;
  }

  /** The Ngau Tonku test: three tens, the Ace of spades and a King. */
  lemma NgauTonkuExample()
    ensures Evaluate(["10h", "10d", "10c", "As", "Kh"]) == NgauTonku
    ensures Render(NgauTonku) == Evaluation("Ngau Tonku! (黑杰)", 5, (138, 43, 226))
  {
    NgauTonkuHand(["10h", "10d", "10c", "As", "Kh"]);
  }

  // ---------------------------------------------------------------------
  // The 3/6 test: 3, 7, 10, 3, 6

  /** Values 3|6, 7, 10, 3|6, 6|3 without a spade Ace: the two threes read as
      sixes make a pair of sixes over a body 7 + 10 + 3. */
  lemma {:induction false} DoubleOxSplit(cards: seq<Card>)
    requires |cards| == 5
    requires cards[0].values == [3, 6] && cards[1].values == [7] && cards[2].values == [10]
    requires cards[3].values == [3, 6] && cards[4].values == [6, 3]
    requires !IsSpadeAce(cards[0]) && !IsSpadeAce(cards[3])
    ensures Achievable(cards, DoubleOx(6))
  {
    var a: seq<nat> := [6, 7, 10, 6, 3];
    assert IsAssignment(cards, a) by {
      forall i | 0 <= i < 5 ensures a[i] in cards[i].values {
        assert i == 0 || i == 1 || i == 2 || i == 3 || i == 4;
      }
    }
    assert Total(a) == 32;
    assert SplitScores(cards, a, 0, 3, DoubleOx(6));
  }

  /** In that hand no tail beats a pair of sixes: a 7 or a 10 occurs once, and
      there is no spade Ace. */
  lemma {:induction false} DoubleOxBound(cards: seq<Card>, b: seq<nat>, t1: nat, t2: nat)
    requires IsSplit(cards, b, t1, t2)
    requires cards[0].values == [3, 6] && cards[1].values == [7] && cards[2].values == [10]
    requires cards[3].values == [3, 6] && cards[4].values == [6, 3]
    requires !IsSpadeAce(cards[0]) && !IsSpadeAce(cards[1]) && !IsSpadeAce(cards[2])
    requires !IsSpadeAce(cards[3]) && !IsSpadeAce(cards[4])
    ensures Score(TailHand(cards[t1], b[t1], cards[t2], b[t2])) <= Score(DoubleOx(6))
  {
    var v := b[t1];
    assert v in cards[t1].values && b[t2] in cards[t2].values;
    if v == b[t2] {
      assert v == 7 ==> t1 == 1 && t2 == 1;
      assert v == 10 ==> t1 == 2 && t2 == 2;
    }
  }

  /** Those values, without a spade Ace, make a pair of sixes. */
  lemma {:induction false} DoubleOxSearch(cards: seq<Card>)
    requires |cards| == 5
    requires cards[0].values == [3, 6] && cards[1].values == [7] && cards[2].values == [10]
    requires cards[3].values == [3, 6] && cards[4].values == [6, 3]
    requires !IsSpadeAce(cards[0]) && !IsSpadeAce(cards[1]) && !IsSpadeAce(cards[2])
    requires !IsSpadeAce(cards[3]) && !IsSpadeAce(cards[4])
    ensures Search(cards) == DoubleOx(6)
  {
    DoubleOxSplit(cards);
    forall x | Achievable(cards, x) && x != DoubleOx(6) ensures Score(x) < Score(DoubleOx(6)) {
      var b: seq<nat>, t1: nat, t2: nat :| SplitScores(cards, b, t1, t2, x);
      DoubleOxBound(cards, b, t1, t2);
    }
    SearchFindsUnique(cards, DoubleOx(6));
  }

  /** The 3/6 test, on any five codes equal to the hand printed under `__main__` in logic.py. */
  lemma {:induction false} DoubleOxHand(codes: seq<string>)
    requires |codes| == 5
    requires codes[0] == "3d" && codes[1] == "7h" && codes[2] == "10c" && codes[3] == "3s" && codes[4] == "6h"
    ensures Evaluate(codes) == DoubleOx(6)
  {
    var cards := DoubleOxCards(codes);
    NotSpecial(cards, 2, 2);
    EvaluateDecoded(codes, cards);
    DoubleOxSearch(cards);
  }

  /** The codes 3d, 7h, 10c, 3s, 6h decode to values 3|6, 7, 10, 3|6, 6|3. */
  lemma {:induction false} DoubleOxCards(codes: seq<string>) returns (cards: seq<Card>)
    requires |codes| == 5
    requires codes[0] == "3d" && codes[1] == "7h" && codes[2] == "10c" && codes[3] == "3s" && codes[4] == "6h"
    ensures DecodeAll(codes) == Some(cards) && |cards| == 5
    ensures cards[0].values == [3, 6] && cards[1].values == [7] && cards[2].values == [10]
    ensures cards[3].values == [3, 6] && cards[4].values == [6, 3]
    ensures !IsSpadeAce(cards[0]) && !IsSpadeAce(cards[1]) && !IsSpadeAce(cards[2])
    ensures !IsSpadeAce(cards[3]) && !IsSpadeAce(cards[4])
    ensures cards[2].rank == "10" && !cards[2].isFace
  {
    DecodeDigit('3', 'd');
    DecodeDigit('7', 'h');
    DecodeTen('c');
    DecodeDigit('3', 's');
    DecodeDigit('6', 'h');
    cards := DecodeAll(codes).value;
  }

  /** A pair of sixes is reported with multiplier 2. */
  lemma RenderPairOfSixes()
    ensures Render(DoubleOx(6)) == Evaluation("Double Ox 6 (对子牛)", 2, (255, 215, 0))
  {
    assert ShowNat(6) == "6";
  }

  /** The 3/6 test: the two threes count as sixes and pair up. */
  lemma DoubleOxExample()
    ensures Evaluate(["3d", "7h", "10c", "3s", "6h"]) == DoubleOx(6)
    ensures Render(DoubleOx(6)) == Evaluation("Double Ox 6 (对子牛)", 2, (255, 215, 0))
  {
    DoubleOxHand(["3d", "7h", "10c", "3s", "6h"]);
    RenderPairOfSixes();
  }

  // ---------------------------------------------------------------------
  // 2, 4, 5, 7, 9: the 2 and the 5 are the only tail

  /** With single values 2, 4, 5, 7, 9 the only tail over a body summing to a
      multiple of ten is the 2 and the 5 (body 4 + 7 + 9 = 20). */
  lemma {:induction false} OnlyTwoFiveTail(cards: seq<Card>, b: seq<nat>, t1: nat, t2: nat)
    requires IsSplit(cards, b, t1, t2)
    requires cards[0].values == [2] && cards[1].values == [4] && cards[2].values == [5]
    requires cards[3].values == [7] && cards[4].values == [9]
    ensures t1 == 0 && t2 == 2 && b[0] == 2 && b[2] == 5
  {
    assert b[0] in cards[0].values && b[1] in cards[1].values && b[2] in cards[2].values;
    assert b[3] in cards[3].values && b[4] in cards[4].values;
  }

  /** Those values, with no Ace among the 2 and the 5, make Niu 7. */
  lemma {:induction false} NiuSevenSearch(cards: seq<Card>)
    requires |cards| == 5
    requires cards[0].values == [2] && cards[1].values == [4] && cards[2].values == [5]
    requires cards[3].values == [7] && cards[4].values == [9]
    requires cards[0].rank == "2" && cards[2].rank == "5"
    ensures Search(cards) == Niu(7)
  {
    var a: seq<nat> := [2, 4, 5, 7, 9];
    assert IsAssignment(cards, a) by {
      forall i | 0 <= i < 5 ensures a[i] in cards[i].values {
        assert i == 0 || i == 1 || i == 2 || i == 3 || i == 4;
      }
    }
    assert SplitScores(cards, a, 0, 2, Niu(7));
    forall x | Achievable(cards, x) ensures x == Niu(7) {
      var b: seq<nat>, t1: nat, t2: nat :| SplitScores(cards, b, t1, t2, x);
      OnlyTwoFiveTail(cards, b, t1, t2);
    }
    SearchFindsUnique(cards, Niu(7));
  }

  /** 2, 4, 5, 7, 9 on any five codes equal to these. */
  lemma {:induction false} NiuSevenHand(codes: seq<string>)
    requires |codes| == 5
    requires codes[0] == "2c" && codes[1] == "4d" && codes[2] == "5h" && codes[3] == "7s" && codes[4] == "9c"
    ensures Evaluate(codes) == Niu(7)
  {
    var cards := NiuSevenCards(codes);
    NotSpecial(cards, 2, 2);
    EvaluateDecoded(codes, cards);
    NiuSevenSearch(cards);
  }

  /** The codes 2c, 4d, 5h, 7s, 9c decode to single values 2, 4, 5, 7, 9. */
  lemma {:induction false} NiuSevenCards(codes: seq<string>) returns (cards: seq<Card>)
    requires |codes| == 5
    requires codes[0] == "2c" && codes[1] == "4d" && codes[2] == "5h" && codes[3] == "7s" && codes[4] == "9c"
    ensures DecodeAll(codes) == Some(cards) && |cards| == 5
    ensures cards[0].values == [2] && cards[1].values == [4] && cards[2].values == [5]
    ensures cards[3].values == [7] && cards[4].values == [9]
    ensures cards[0].rank == "2" && cards[2].rank == "5" && !cards[2].isFace
  {
    DecodeDigit('2', 'c');
    DecodeDigit('4', 'd');
    DecodeDigit('5', 'h');
    DecodeDigit('7', 's');
    DecodeDigit('9', 'c');
    cards := DecodeAll(codes).value;
  }

  /** A Niu 7 is reported as "Niu 7 (牛7)" with multiplier 1. */
  lemma RenderNiuSeven()
    ensures Render(Niu(7)) == Evaluation("Niu 7 (牛7)", 1, (0, 255, 0))
  {
    assert ShowNat(7) == "7";
  }

  /** 2, 4, 5, 7, 9 is not a No Niu: the body 4 + 7 + 9 leaves the tail 2 + 5. */
  lemma NiuSevenExample()
    ensures Evaluate(["2c", "4d", "5h", "7s", "9c"]) == Niu(7)
    ensures Render(Niu(7)) == Evaluation("Niu 7 (牛7)", 1, (0, 255, 0))
  {
    NiuSevenHand(["2c", "4d", "5h", "7s", "9c"]);
    RenderNiuSeven();
  }

  // ---------------------------------------------------------------------
  // K, Q, 2, 4, 5: no body sums to a multiple of ten

  /** With single values 10, 10, 2, 4, 5 (total 31) no two cards sum to 1
      modulo 10, so no body sums to a multiple of ten. */
  lemma {:induction false} NoSplitOfKingQueenTwoFourFive(cards: seq<Card>, b: seq<nat>, t1: nat, t2: nat)
    requires |cards| == 5
    requires cards[0].values == [10] && cards[1].values == [10] && cards[2].values == [2]
    requires cards[3].values == [4] && cards[4].values == [5]
    ensures !IsSplit(cards, b, t1, t2)
  {
    if IsAssignment(cards, b) {
      assert b[0] in cards[0].values && b[1] in cards[1].values && b[2] in cards[2].values;
      assert b[3] in cards[3].values && b[4] in cards[4].values;
    }
  }

  /** K, Q, 2, 4, 5 on any five codes equal to these is a No Niu. */
  lemma {:induction false} NoNiuHand(codes: seq<string>)
    requires |codes| == 5
    requires codes[0] == "Kh" && codes[1] == "Qd" && codes[2] == "2c" && codes[3] == "4s" && codes[4] == "5h"
    ensures Evaluate(codes) == NoNiu
  {
    var cards := NoNiuCards(codes);
    NotSpecial(cards, 2, 0);
    EvaluateDecoded(codes, cards);
    forall x | true ensures !Achievable(cards, x) {
      forall b: seq<nat>, t1: nat, t2: nat ensures !IsSplit(cards, b, t1, t2) {
        NoSplitOfKingQueenTwoFourFive(cards, b, t1, t2);
      }
    }
    SearchFindsNothing(cards);
  }

  /** The codes Kh, Qd, 2c, 4s, 5h decode to single values 10, 10, 2, 4, 5. */
  lemma {:induction false} NoNiuCards(codes: seq<string>) returns (cards: seq<Card>)
    requires |codes| == 5
    requires codes[0] == "Kh" && codes[1] == "Qd" && codes[2] == "2c" && codes[3] == "4s" && codes[4] == "5h"
    ensures DecodeAll(codes) == Some(cards) && |cards| == 5
    ensures cards[0].values == [10] && cards[1].values == [10] && cards[2].values == [2]
    ensures cards[3].values == [4] && cards[4].values == [5]
    ensures cards[0].rank == "k" && !cards[2].isFace
  {
    DecodeLettered('K', 'h');
    DecodeLettered('Q', 'd');
    DecodeDigit('2', 'c');
    DecodeDigit('4', 's');
    DecodeDigit('5', 'h');
    cards := DecodeAll(codes).value;
  }

  /** K, Q, 2, 4, 5: no decomposition, reported as "No Niu (无牛)". */
  lemma NoNiuExample()
    ensures Evaluate(["Kh", "Qd", "2c", "4s", "5h"]) == NoNiu
    ensures Render(NoNiu) == Evaluation("No Niu (无牛)", 1, (128, 128, 128))
  {
    NoNiuHand(["Kh", "Qd", "2c", "4s", "5h"]);
  }

  // ---------------------------------------------------------------------
  // K, Q, J, K, Q: Five Dukes, before any search

  /** Five face cards on any five codes equal to these. */
  lemma {:induction false} FiveDukesHand(codes: seq<string>)
    requires |codes| == 5
    requires codes[0] == "Kh" && codes[1] == "Qd" && codes[2] == "Jc" && codes[3] == "Ks" && codes[4] == "Qh"
    ensures Evaluate(codes) == FiveDukes
  {
    var cards := FiveDukesCards(codes);
    assert forall i :: 0 <= i < 5 ==> cards[i].isFace by {
      forall i | 0 <= i < 5 ensures cards[i].isFace {
        assert i == 0 || i == 1 || i == 2 || i == 3 || i == 4;
      }
    }
    EvaluateClassify(codes, cards);
  }

  /** The codes Kh, Qd, Jc, Ks, Qh decode to five face cards. */
  lemma {:induction false} FiveDukesCards(codes: seq<string>) returns (cards: seq<Card>)
    requires |codes| == 5
    requires codes[0] == "Kh" && codes[1] == "Qd" && codes[2] == "Jc" && codes[3] == "Ks" && codes[4] == "Qh"
    ensures DecodeAll(codes) == Some(cards) && |cards| == 5
    ensures cards[0].isFace && cards[1].isFace && cards[2].isFace && cards[3].isFace && cards[4].isFace
  {
    DecodeLettered('K', 'h');
    DecodeLettered('Q', 'd');
    DecodeLettered('J', 'c');
    DecodeLettered('K', 's');
    DecodeLettered('Q', 'h');
    cards := DecodeAll(codes).value;
  }

  /** K, Q, J, K, Q: Five Dukes, multiplier 7. */
  lemma FiveDukesExample()
    ensures Evaluate(["Kh", "Qd", "Jc", "Ks", "Qh"]) == FiveDukes
    ensures Render(FiveDukes) == Evaluation("FIVE DUKES! (五公)", 7, (255, 215, 0))
  {
    FiveDukesHand(["Kh", "Qd", "Jc", "Ks", "Qh"]);
  }

  // ---------------------------------------------------------------------
  // A, 2, 3, A, 2: Five Small, the 3 counted as 3

  /** Ranks a, 2, 3, a, 2 whose first values sum to 9 are Five Small. */
  lemma {:induction false} FiveSmallClassify(cards: seq<Card>)
    requires |cards| == 5 && !cards[0].isFace
    requires cards[0].rank == "a" && cards[1].rank == "2" && cards[2].rank == "3"
    requires cards[3].rank == "a" && cards[4].rank == "2"
    requires cards[0].values == [1] && cards[1].values == [2] && cards[2].values == [3, 6]
    requires cards[3].values == [1] && cards[4].values == [2]
    ensures Classify(cards) == FiveSmall
  {
    assert AllSmallRanks(cards) by {
      forall i | 0 <= i < 5 ensures cards[i].rank in ["a", "2", "3", "4"] {
        assert i == 0 || i == 1 || i == 2 || i == 3 || i == 4;
      }
    }
    FirstValueSumFive(cards);
    assert FirstValues(cards) == [1, 2, 3, 1, 2];
  }

  /** A, 2, 3, A, 2 on any five codes equal to these. */
  lemma {:induction false} FiveSmallHand(codes: seq<string>)
    requires |codes| == 5
    requires codes[0] == "As" && codes[1] == "2h" && codes[2] == "3d" && codes[3] == "Ac" && codes[4] == "2s"
    ensures Evaluate(codes) == FiveSmall
  {
    var cards := FiveSmallCards(codes);
    FiveSmallClassify(cards);
    EvaluateClassify(codes, cards);
  }

  /** The codes As, 2h, 3d, Ac, 2s decode to ranks a, 2, 3, a, 2. */
  lemma {:induction false} FiveSmallCards(codes: seq<string>) returns (cards: seq<Card>)
    requires |codes| == 5
    requires codes[0] == "As" && codes[1] == "2h" && codes[2] == "3d" && codes[3] == "Ac" && codes[4] == "2s"
    ensures DecodeAll(codes) == Some(cards) && |cards| == 5 && !cards[0].isFace
    ensures cards[0].rank == "a" && cards[1].rank == "2" && cards[2].rank == "3"
    ensures cards[3].rank == "a" && cards[4].rank == "2"
    ensures cards[0].values == [1] && cards[1].values == [2] && cards[2].values == [3, 6]
    ensures cards[3].values == [1] && cards[4].values == [2]
  {
    DecodeLettered('A', 's');
    DecodeDigit('2', 'h');
    DecodeDigit('3', 'd');
    DecodeLettered('A', 'c');
    DecodeDigit('2', 's');
    cards := DecodeAll(codes).value;
  }

  /** A, 2, 3, A, 2: Five Small, multiplier 6, although A + 2 + 3 + A + 2 also
      has a Niu decomposition. */
  lemma FiveSmallExample()
    ensures Evaluate(["As", "2h", "3d", "Ac", "2s"]) == FiveSmall
    ensures Render(FiveSmall) == Evaluation("FIVE SMALL! (五小)", 6, (0, 255, 255))
  {
    FiveSmallHand(["As", "2h", "3d", "Ac", "2s"]);
  }
}
