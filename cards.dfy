/** The card decoder, `get_card_info` in logic.py: a card code is lower-cased,
    its last character is the suit, everything before it is the rank, and the
    rank decides the candidate point values and whether the card is a face card. */
module Cards {
  import opened Text

  /** A decoded card. `values` lists the points the card may count for, in the
      order the evaluator tries them; `code` is the code exactly as given. */
  datatype Card = Card(code: string, rank: string, suit: char, values: seq<nat>, isFace: bool)

  /** Decoding either yields a card or fails the way `code[-1]` fails on an
      empty code (an IndexError). */
  datatype Decoded = Decoded(card: Card) | IndexError

  predicate IsFaceRank(rank: string) {
    rank == "j" || rank == "q" || rank == "k"
  }

  /** Ranks with an entry of their own in the rank table. */
  predicate IsTableRank(rank: string) {
    IsFaceRank(rank) || rank == "a" || rank == "3" || rank == "6"
  }

  /** `get_card_info`. */
  function DecodeCard(cardCode: string): (r: Decoded)
    ensures r.IndexError? <==> cardCode == []
    ensures r.Decoded? ==>
      var c := r.card;
      && c.code == cardCode
      && Lower(cardCode) == c.rank + [c.suit]
      && c.suit == Lower(cardCode)[|cardCode| - 1]
      && |c.values| >= 1
      && (c.isFace <==> IsFaceRank(c.rank))
      && (IsFaceRank(c.rank) ==> c.values == [10])
      && (c.rank == "a" ==> c.values == [1])
      && (c.rank == "3" ==> c.values == [3, 6])
      && (c.rank == "6" ==> c.values == [6, 3])
      && (!IsTableRank(c.rank) && c.rank != [] && AllDigits(c.rank) ==> c.values == [DigitsValue(c.rank)])
      && (!IsTableRank(c.rank) && (c.rank == [] || !AllDigits(c.rank)) ==> c.values == [0])
  {
    if cardCode == [] then IndexError
    else
      var code := Lower(cardCode);
      var suit := code[|code| - 1];
      var rank := code[..|code| - 1];
      assert code == rank + [suit];
      var values :=
        if IsFaceRank(rank) then [10]
        else if rank == "a" then [1]
        else if rank == "3" then [3, 6]
        else if rank == "6" then [6, 3]
        else match ParseDecimal(rank)
          case Some(n) => [n]
          case None => [0];
      Decoded(Card(cardCode, rank, suit, values, IsFaceRank(rank)))
  }

  /** Decoding ignores letter case: only the kept `code` differs. */
  lemma DecodeIgnoresCase(cardCode: string)
    requires cardCode != []
    ensures DecodeCard(Lower(cardCode)).Decoded?
    ensures DecodeCard(Lower(cardCode)).card == DecodeCard(cardCode).card.(code := Lower(cardCode))
  {
    LowerIdempotent(cardCode);
  }

  /** The candidate values of a numbered rank: 3 and 6 may stand for each
      other, every other number stands for itself. */
  function NumberValues(n: nat): seq<nat> {
    if n == 3 then [3, 6] else if n == 6 then [6, 3] else [n]
  }

  /** A numbered card, its number printed in decimal and followed by any suit,
      has that number as its rank, the number's candidate values, and is not
      a face card. */
  lemma DecodeNumbered(n: nat, suit: char)
    ensures DecodeCard(ShowNat(n) + [suit])
      == Decoded(Card(ShowNat(n) + [suit], ShowNat(n), LowerChar(suit), NumberValues(n), false))
  {
    var s := ShowNat(n) + [suit];
    LowerSplit(s);
    assert s[..|s| - 1] == ShowNat(n);
    LowerDigits(ShowNat(n));
    ParseShowNat(n);
    NumberRank(n);
    assert DecodeCard(s).card.rank == ShowNat(n);
  }

  /** A printed number is no letter rank, and it is the rank 3 or 6 only for
      those two numbers. */
  lemma NumberRank(n: nat)
    ensures !IsFaceRank(ShowNat(n)) && ShowNat(n) != "a"
    ensures ShowNat(n) == "3" <==> n == 3
    ensures ShowNat(n) == "6" <==> n == 6
  {
    var rank := ShowNat(n);
    assert IsDigit(rank[0]);
    ParseShowNat(n);
    assert DigitsValue("3") == 10 * DigitsValue([]) + 3 by {
      assert "3"[..0] == [];
    }
    assert DigitsValue("6") == 10 * DigitsValue([]) + 6 by {
      assert "6"[..0] == [];
    }
  }

  /** A two-character code whose first character is an Ace or a face letter,
      in either case, decodes to that letter's rank and values. */
  lemma DecodeLettered(letter: char, suit: char)
    requires LowerChar(letter) == 'a' || LowerChar(letter) == 'j' || LowerChar(letter) == 'q' || LowerChar(letter) == 'k'
    ensures DecodeCard([letter, suit]) == Decoded(Card([letter, suit], [LowerChar(letter)], LowerChar(suit),
      if LowerChar(letter) == 'a' then [1] else [10], LowerChar(letter) != 'a'))
  {
    var code := [letter, suit];
    assert Lower(code) == [LowerChar(letter), LowerChar(suit)];
    assert Lower(code)[..1] == [LowerChar(letter)];
  }

  /** A one-digit rank from 1 to 9 with a lower-case suit: the digit is the
      rank, the number's candidate values are the values, and it is no face card. */
  lemma DecodeDigit(digit: char, suit: char)
    requires '1' <= digit <= '9' && !IsUpper(suit)
    ensures DecodeCard([digit, suit])
      == Decoded(Card([digit, suit], [digit], suit, NumberValues(digit as int - '0' as int), false))
  {
    var rank := [digit];
    assert Lower([digit, suit]) == [digit, suit];
    assert [digit, suit][..1] == rank;
    assert DigitsValue(rank) == 10 * DigitsValue([]) + (digit as int - '0' as int) by {
      assert rank[..0] == [];
    }
  }

  /** A ten with a lower-case suit is worth 10 and is no face card. */
  lemma DecodeTen(suit: char)
    requires !IsUpper(suit)
    ensures DecodeCard(['1', '0', suit]) == Decoded(Card(['1', '0', suit], "10", suit, [10], false))
  {
    var code := ['1', '0', suit];
    assert Lower(code) == code;
    assert code[..2] == "10" && "10"[..1] == "1";
    assert DigitsValue("10") == 10;
  }

  /** A code whose rank is not in the table and is not a number decodes to the
      single value 0 instead of failing. */
  lemma DecodeUnknownRank(cardCode: string)
    requires cardCode != []
    requires var rank := Lower(cardCode)[..|cardCode| - 1];
      !IsTableRank(rank) && (rank == [] || exists i :: 0 <= i < |rank| && !IsDigit(rank[i]))
    ensures DecodeCard(cardCode).card.values == [0] && !DecodeCard(cardCode).card.isFace
  {
  }
}
