/** The outcomes of the evaluator, each stated directly on the five codes: the
    shape guard, the decode failure, Five Dukes, Five Small, and otherwise the
    best achievable tail. */
module Outcomes {
  import opened Text
  import opened Cards
  import opened Niu
  import opened NiuProperties
  import opened Reorder

  /** The rank a non-empty code stands for: the lower-cased code without its
      final (suit) character. */
  function RankOf(code: string): string
    requires code != []
  {
    Lower(code)[..|code| - 1]
  }

  predicate IsSmallRank(rank: string) {
    rank == "a" || rank == "2" || rank == "3" || rank == "4"
  }

  /** What a Five Small rank counts for in the Five Small sum: its face value
      (a 3 counts as 3 there, never as 6). */
  function SmallValue(rank: string): nat {
    if rank == "a" then 1 else if rank == "2" then 2 else if rank == "3" then 3 else if rank == "4" then 4 else 0
  }

  /** The Five Small sum of five non-empty codes. */
  function SmallSum(codes: seq<string>): nat
    requires |codes| == 5 && forall i :: 0 <= i < 5 ==> codes[i] != []
  {
    SmallValue(RankOf(codes[0])) + SmallValue(RankOf(codes[1])) + SmallValue(RankOf(codes[2]))
      + SmallValue(RankOf(codes[3])) + SmallValue(RankOf(codes[4]))
  }

  /** The decoded rank is the rank of the code. */
  lemma CardRank(code: string)
    requires code != []
    ensures DecodeCard(code).card.rank == RankOf(code)
  {
    var c := DecodeCard(code).card;
    assert Lower(code) == c.rank + [c.suit];
    assert Lower(code)[..|code| - 1] == c.rank;
  }

  /** A small rank is no face card and counts first for its face value. */
  lemma SmallRankCard(code: string)
    requires code != [] && IsSmallRank(RankOf(code))
    ensures !DecodeCard(code).card.isFace
    ensures DecodeCard(code).card.values[0] == SmallValue(RankOf(code))
  {
    CardRank(code);
    var rank := RankOf(code);
    if rank == "2" {
      assert DigitsValue(rank) == 10 * DigitsValue([]) + 2 by {
        assert rank[..0] == [];
      }
    } else if rank == "4" {
      assert DigitsValue(rank) == 10 * DigitsValue([]) + 4 by {
        assert rank[..0] == [];
      }
    }
  }

  /** Decoded cards are classified as one of the specials or a search result. */
  lemma ClassifyOutcomes(cards: seq<Card>)
    requires |cards| == 5 && HasValues(cards)
    ensures Classify(cards) == FiveDukes || Classify(cards) == FiveSmall || IsRanked(Classify(cards))
  {
  }

  /** Only a list of five codes gets past the shape guard. */
  lemma EvaluateWaiting(codes: seq<string>)
    ensures Evaluate(codes) == Waiting <==> |codes| != 5
  {
    if |codes| == 5 {
      var decoded := DecodeAll(codes);
      if decoded.Some? {
        EvaluateClassify(codes, decoded.value);
        ClassifyOutcomes(decoded.value);
      }
    }
  }

  /** Five codes fail to decode exactly when one of them is empty. */
  lemma EvaluateDecodeError(codes: seq<string>)
    ensures Evaluate(codes) == DecodeError <==> |codes| == 5 && exists i :: 0 <= i < 5 && codes[i] == []
  {
    if |codes| == 5 {
      var decoded := DecodeAll(codes);
      if decoded.Some? {
        EvaluateClassify(codes, decoded.value);
        ClassifyOutcomes(decoded.value);
      }
    }
  }

  /** Five Dukes is reported exactly for five codes whose ranks are all j, q or k. */
  lemma {:induction false} EvaluateFiveDukes(codes: seq<string>)
    ensures Evaluate(codes) == FiveDukes <==>
      |codes| == 5 && forall i :: 0 <= i < 5 ==> codes[i] != [] && IsFaceRank(RankOf(codes[i]))
  {
    if |codes| == 5 {
      var decoded := DecodeAll(codes);
      if decoded.None? {
        var k :| 0 <= k < 5 && codes[k] == [];
      } else {
        EvaluateClassify(codes, decoded.value);
        ClassifyFiveDukes(decoded.value);
        FaceRanksOfCodes(codes, decoded.value);
      }
    }
  }

  /** Five codes that decode are classified after decoding. */
  lemma EvaluateClassify(codes: seq<string>, cards: seq<Card>)
    requires |codes| == 5 && DecodeAll(codes) == Some(cards)
    ensures |cards| == 5 && HasValues(cards) && Evaluate(codes) == Classify(cards)
  {
  }

  /** Classification reports Five Dukes exactly for five face cards. */
  lemma ClassifyFiveDukes(cards: seq<Card>)
    requires |cards| == 5 && HasValues(cards)
    ensures Classify(cards) == FiveDukes <==> AllFace(cards)
  {
    ClassifyOutcomes(cards);
  }

  /** The decoded cards are all face cards exactly when the codes all have
      face ranks. */
  lemma {:induction false} FaceRanksOfCodes(codes: seq<string>, cards: seq<Card>)
    requires |codes| == 5 && DecodeAll(codes) == Some(cards)
    ensures forall i :: 0 <= i < 5 ==> codes[i] != []
    ensures AllFace(cards) <==> forall i :: 0 <= i < 5 ==> IsFaceRank(RankOf(codes[i]))
  {
    forall i | 0 <= i < 5 ensures codes[i] != [] && cards[i].rank == RankOf(codes[i]) {
      CardRank(codes[i]);
    }
  }

  /** The decoded cards have Five Small ranks exactly when the codes do. */
  lemma {:induction false} SmallRanksOfCodes(codes: seq<string>, cards: seq<Card>)
    requires |codes| == 5 && DecodeAll(codes) == Some(cards)
    ensures forall i :: 0 <= i < 5 ==> codes[i] != []
    ensures AllSmallRanks(cards) <==> forall i :: 0 <= i < 5 ==> IsSmallRank(RankOf(codes[i]))
  {
    forall i | 0 <= i < 5 ensures codes[i] != [] && cards[i].rank == RankOf(codes[i]) {
      CardRank(codes[i]);
    }
  }

  /** Cards with Five Small ranks are not all face cards, and their first
      values sum to the Five Small sum of the codes. */
  lemma {:induction false} SmallSumOfCodes(codes: seq<string>, cards: seq<Card>)
    requires |codes| == 5 && DecodeAll(codes) == Some(cards)
    requires forall i :: 0 <= i < 5 ==> codes[i] != [] && IsSmallRank(RankOf(codes[i]))
    ensures !AllFace(cards) && FirstValueSum(cards) == SmallSum(codes)
  {
    forall i | 0 <= i < 5 ensures !cards[i].isFace && cards[i].values[0] == SmallValue(RankOf(codes[i])) {
      SmallRankCard(codes[i]);
    }
    FirstValueSumFive(cards);
  }

  /** Cards with Five Small ranks that are not all face cards are classified
      Five Small exactly when their first values sum to at most 10. */
  lemma ClassifySmall(cards: seq<Card>)
    requires |cards| == 5 && HasValues(cards)
    requires AllSmallRanks(cards) ==> !AllFace(cards)
    ensures Classify(cards) == FiveSmall <==> IsFiveSmall(cards)
  {
    ClassifyOutcomes(cards);
  }

  /** Decoded cards are classified Five Small exactly when their codes have
      Five Small ranks summing to at most 10. */
  lemma {:induction false} ClassifyFiveSmall(codes: seq<string>, cards: seq<Card>)
    requires |codes| == 5 && DecodeAll(codes) == Some(cards)
    ensures |cards| == 5 && HasValues(cards) && forall i :: 0 <= i < 5 ==> codes[i] != []
    ensures Classify(cards) == FiveSmall <==>
      (forall i :: 0 <= i < 5 ==> IsSmallRank(RankOf(codes[i]))) && SmallSum(codes) <= 10
  {
    SmallRanksOfCodes(codes, cards);
    if AllSmallRanks(cards) {
      SmallSumOfCodes(codes, cards);
    }
    ClassifySmall(cards);
  }

  /** Five Small is reported exactly for five codes whose ranks are all a, 2,
      3 or 4 and whose face values sum to at most 10; Five Dukes never gets
      in its way, since no such hand is all face cards. */
  lemma {:induction false} EvaluateFiveSmall(codes: seq<string>)
    ensures Evaluate(codes) == FiveSmall <==>
      && |codes| == 5
      && (forall i :: 0 <= i < 5 ==> codes[i] != [] && IsSmallRank(RankOf(codes[i])))
      && SmallSum(codes) <= 10
  {
    if |codes| == 5 {
      var decoded := DecodeAll(codes);
      if decoded.None? {
        var k :| 0 <= k < 5 && codes[k] == [];
      } else {
        ClassifyFiveSmall(codes, decoded.value);
      }
    }
  }

  /** Past the guards, the reported outcome is the best achievable one, and
      no other outcome is. */
  lemma {:induction false} EvaluateSearch(codes: seq<string>)
    requires |codes| == 5 && DecodeAll(codes).Some?
    requires !AllFace(DecodeAll(codes).value) && !IsFiveSmall(DecodeAll(codes).value)
    ensures IsBestAchievable(DecodeAll(codes).value, Evaluate(codes))
    ensures forall h :: IsBestAchievable(DecodeAll(codes).value, h) ==> h == Evaluate(codes)
  {
    var cards := DecodeAll(codes).value;
    SearchIsBest(cards);
    DecodeAllDecoded(codes);
    forall h | IsBestAchievable(cards, h) ensures h == Evaluate(codes) {
      BestIsUnique(cards, h, Search(cards));
    }
  }

  /** Every candidate value of every card is at most `bound`. */
  ghost predicate ValuesAtMost(cards: seq<Card>, bound: nat) {
    forall i, v :: 0 <= i < |cards| && v in cards[i].values ==> v <= bound
  }

  /** Unless a card is worth more than 200, nothing outscores Ngau Tonku. */
  lemma {:induction false} AchievableAtMostNgauTonku(cards: seq<Card>, x: Hand)
    requires Achievable(cards, x) && ValuesAtMost(cards, 200)
    ensures Score(x) <= Score(NgauTonku)
  {
    var a: seq<nat>, t1: nat, t2: nat :| SplitScores(cards, a, t1, t2, x);
    assert a[t1] in cards[t1].values;
  }

  /** An achievable outcome that no achievable outcome outscores is what the
      search reports for a decoded hand. */
  lemma {:induction false} SearchFindsBest(cards: seq<Card>, h: Hand)
    requires |cards| == 5 && IsDecoded(cards) && Achievable(cards, h)
    requires forall x :: Achievable(cards, x) ==> Score(x) <= Score(h)
    ensures Search(cards) == h
  {
    assert IsTailHand(h) by {
      var a: seq<nat>, t1: nat, t2: nat :| SplitScores(cards, a, t1, t2, h);
    }
    assert IsBestAchievable(cards, h);
    SearchIsBest(cards);
    BestIsUnique(cards, Search(cards), h);
  }

  /** An achievable outcome that outscores every other achievable outcome is
      what the search reports, whether or not the cards were decoded. */
  lemma {:induction false} SearchFindsUnique(cards: seq<Card>, h: Hand)
    requires |cards| == 5 && Achievable(cards, h)
    requires forall x :: Achievable(cards, x) && x != h ==> Score(x) < Score(h)
    ensures Search(cards) == h
  {
    SearchIsBest(cards);
  }

  /** When no decomposition exists, the search reports No Niu. */
  lemma {:induction false} SearchFindsNothing(cards: seq<Card>)
    requires |cards| == 5 && forall x :: !Achievable(cards, x)
    ensures Search(cards) == NoNiu
  {
    SearchIsBest(cards);
  }

  /** A decoded hand with a Ngau Tonku decomposition and no card worth more
      than 200 is a Ngau Tonku. */
  lemma {:induction false} NgauTonkuWins(cards: seq<Card>)
    requires |cards| == 5 && IsDecoded(cards) && ValuesAtMost(cards, 200)
    requires Achievable(cards, NgauTonku)
    ensures Search(cards) == NgauTonku
  {
    forall x | Achievable(cards, x) ensures Score(x) <= Score(NgauTonku) {
      AchievableAtMostNgauTonku(cards, x);
    }
    SearchFindsBest(cards, NgauTonku);
  }

  /** Below 200 points per card, every outcome but Ngau Tonku scores less than it. */
  lemma {:induction false} AchievableBelowNgauTonku(cards: seq<Card>, x: Hand)
    requires Achievable(cards, x) && ValuesAtMost(cards, 199) && x != NgauTonku
    ensures Score(x) < Score(NgauTonku)
  {
    var a: seq<nat>, t1: nat, t2: nat :| SplitScores(cards, a, t1, t2, x);
    assert a[t1] in cards[t1].values;
  }

  /** Any five cards, none worth 200 or more, with a Ngau Tonku decomposition
      are a Ngau Tonku. */
  lemma {:induction false} NgauTonkuWinsOutright(cards: seq<Card>)
    requires |cards| == 5 && ValuesAtMost(cards, 199)
    requires Achievable(cards, NgauTonku)
    ensures Search(cards) == NgauTonku
  {
    forall x | Achievable(cards, x) && x != NgauTonku ensures Score(x) < Score(NgauTonku) {
      AchievableBelowNgauTonku(cards, x);
    }
    SearchFindsUnique(cards, NgauTonku);
  }
}
