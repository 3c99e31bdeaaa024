/** The hand evaluator, `calculate_niu` in logic.py: the shape guard, decoding,
    the two five-card specials (Five Dukes before Five Small), and the search
    over every value assignment and every 3-card body, keeping the first
    best-scoring tail. `Evaluate` is the specification, `CalculateNiu` the
    imperative search proved equal to it. */
module Niu {
  import opened Text
  import opened Cards
  import opened Itertools

  type Rgb = (int, int, int)

  /** What `calculate_niu` returns: text, payout multiplier, display colour. */
  datatype Evaluation = Evaluation(text: string, multiplier: int, color: Rgb)

  /** Every outcome `calculate_niu` can report. */
  datatype Hand =
    | Waiting          // the input is not five card codes
    | DecodeError      // decoding a code raised
    | FiveDukes        // five face cards
    | FiveSmall        // five cards from A, 2, 3, 4 worth at most 10 in all
    | NgauTonku        // the tail holds a spade Ace and a face card
    | DoubleOx(pair: nat)
    | SuperNiu         // the tail is worth a multiple of ten
    | Niu(point: nat)  // the tail is worth `point` modulo ten
    | NoNiu            // no three cards sum to a multiple of ten

  /** The outcomes a body/tail decomposition can score. */
  predicate IsTailHand(h: Hand) {
    h.NgauTonku? || h.DoubleOx? || h.SuperNiu? || h.Niu?
  }

  /** The outcomes the running best of the search can hold. */
  predicate IsRanked(h: Hand) {
    IsTailHand(h) || h.NoNiu?
  }

  /** Multiplier of a pair tail under the house rules modelled here. */
  const PairMultiplier := 2

  /** The internal score the search maximises; No Niu is the initial -1. */
  function Score(h: Hand): (r: int)
    requires IsRanked(h)
    ensures r < 0 <==> h.NoNiu?
    ensures IsTailHand(h) ==> r >= 10
  {
    match h
    case NgauTonku => 500
    case DoubleOx(v) => 300 + v
    case SuperNiu => 100
    case Niu(p) => 10 + p
    case NoNiu => -1
  }

  /** The (text, multiplier, colour) triple reported for each outcome. */
  function Render(h: Hand): Evaluation {
    match h
    case Waiting => Evaluation("Waiting...", 0, (200, 200, 200))
    case DecodeError => Evaluation("Error: string index out of range", 0, (255, 0, 0))
    case FiveDukes => Evaluation("FIVE DUKES! (五公)", 7, (255, 215, 0))
    case FiveSmall => Evaluation("FIVE SMALL! (五小)", 6, (0, 255, 255))
    case NgauTonku => Evaluation("Ngau Tonku! (黑杰)", 5, (138, 43, 226))
    case DoubleOx(v) => Evaluation("Double Ox " + ShowNat(v) + " (对子牛)", PairMultiplier, (255, 215, 0))
    case SuperNiu => Evaluation("SUPER NIU! (牛牛)", 1, (255, 0, 0))
    case Niu(p) => Evaluation("Niu " + ShowNat(p) + " (牛" + ShowNat(p) + ")", 1, (0, 255, 0))
    case NoNiu => Evaluation("No Niu (无牛)", 1, (128, 128, 128))
  }

  predicate IsSpadeAce(c: Card) {
    c.rank == "a" && c.suit == 's'
  }

  /** The outcome of a tail of two cards holding the values `v4` and `v5`. */
  function TailHand(c4: Card, v4: nat, c5: Card, v5: nat): (h: Hand)
    ensures IsTailHand(h)
    ensures h.NgauTonku? <==> (IsSpadeAce(c4) || IsSpadeAce(c5)) && (c4.isFace || c5.isFace)
    ensures h.DoubleOx? <==> !h.NgauTonku? && v4 == v5
    ensures h.DoubleOx? ==> h.pair == v4
    ensures h.SuperNiu? <==> !h.NgauTonku? && v4 != v5 && (v4 + v5) % 10 == 0
    ensures h.Niu? ==> 1 <= h.point <= 9 && h.point == (v4 + v5) % 10
  {
    var isSpadeA := IsSpadeAce(c4) || IsSpadeAce(c5);
    var hasFace := c4.isFace || c5.isFace;
    if isSpadeA && hasFace then NgauTonku
    else if v4 == v5 then DoubleOx(v4)
    else
      var niuPoint := (v4 + v5) % 10;
      if niuPoint == 0 then SuperNiu else Niu(niuPoint)
  }

  /** One entry of the list comprehension that collects the positions not in
      body `c`. */
  function Keep(i: nat, c: (nat, nat, nat)): seq<nat> {
    if i == c.0 || i == c.1 || i == c.2 then [] else [i]
  }

  /** The positions 0..4 outside body `c`, in increasing order (the tail). */
  function Remaining(c: (nat, nat, nat)): (t: seq<nat>)
    requires c.0 < c.1 < c.2 < 5
    ensures |t| == 2 && t[0] < t[1] < 5
    ensures forall i :: 0 <= i < 2 ==> t[i] != c.0 && t[i] != c.1 && t[i] != c.2
  {
    Keep(0, c) + Keep(1, c) + Keep(2, c) + Keep(3, c) + Keep(4, c)
  }

  /** Combination `n` of assignment `a` is a body: its three values sum to
      a multiple of ten. */
  predicate IsBody(a: seq<nat>, n: nat)
    requires |a| == 5 && n < 10
  {
    CombinationAt(n);
    var c := Combinations[n];
    (a[c.0] + a[c.1] + a[c.2]) % 10 == 0
  }

  /** The tail positions left by combination `n`. */
  function TailOf(n: nat): (t: seq<nat>)
    requires n < 10
    ensures |t| == 2 && t[0] < t[1] < 5
  {
    CombinationAt(n);
    Remaining(Combinations[n])
  }

  /** The tail outcome when combination `n` of assignment `a` is the body. */
  function BodyHand(cards: seq<Card>, a: seq<nat>, n: nat): (h: Hand)
    requires |cards| == 5 && |a| == 5 && n < 10
    ensures IsTailHand(h)
  {
    var t := TailOf(n);
    TailHand(cards[t[0]], a[t[0]], cards[t[1]], a[t[1]])
  }

  /** The outcomes found under assignment `a` over the first `n` combinations,
      in enumeration order. */
  function FoundIn(cards: seq<Card>, a: seq<nat>, n: nat): (hs: seq<Hand>)
    requires |cards| == 5 && |a| == 5 && n <= 10
    ensures forall h :: h in hs ==> IsTailHand(h)
  {
    if n == 0 then []
    else FoundIn(cards, a, n - 1) + (if IsBody(a, n - 1) then [BodyHand(cards, a, n - 1)] else [])
  }

  /** The outcomes found under the assignments of `assigns`, in enumeration order. */
  function Found(cards: seq<Card>, assigns: seq<seq<nat>>): (hs: seq<Hand>)
    requires |cards| == 5 && forall a :: a in assigns ==> |a| == 5
    ensures forall h :: h in hs ==> IsTailHand(h)
  {
    if assigns == [] then []
    else Found(cards, assigns[..|assigns| - 1]) + FoundIn(cards, assigns[|assigns| - 1], 10)
  }

  /** The running-best update: a later outcome replaces the best only when it
      scores strictly more. */
  function Better(best: Hand, h: Hand): (r: Hand)
    requires IsRanked(best) && IsRanked(h)
    ensures r == best || r == h
    ensures Score(r) >= Score(best) && Score(r) >= Score(h)
    ensures Score(h) <= Score(best) ==> r == best
  {
    if Score(h) > Score(best) then h else best
  }

  /** The running best after visiting `hs` in order, starting from `start`
      (the search starts from No Niu). */
  function BestFrom(start: Hand, hs: seq<Hand>): (b: Hand)
    requires IsRanked(start)
    requires forall h :: h in hs ==> IsTailHand(h)
    ensures IsRanked(b)
  {
    if hs == [] then start else Better(BestFrom(start, hs[..|hs| - 1]), hs[|hs| - 1])
  }

  lemma BestFromSnoc(start: Hand, hs: seq<Hand>, h: Hand)
    requires IsRanked(start)
    requires forall x :: x in hs ==> IsTailHand(x)
    requires IsTailHand(h)
    ensures BestFrom(start, hs + [h]) == Better(BestFrom(start, hs), h)
  {
    assert (hs + [h])[..|hs|] == hs;
  }

  /** Visiting `xs` then `ys` is visiting `ys` from the best of `xs`. */
  lemma {:induction false} BestFromConcat(start: Hand, xs: seq<Hand>, ys: seq<Hand>)
    requires IsRanked(start)
    requires forall x :: x in xs ==> IsTailHand(x)
    requires forall y :: y in ys ==> IsTailHand(y)
    ensures BestFrom(start, xs + ys) == BestFrom(BestFrom(start, xs), ys)
  {
    if ys == [] {
      assert xs + ys == xs;
    } else {
      var ys' := ys[..|ys| - 1];
      BestFromConcat(start, xs, ys');
      assert (xs + ys)[..|xs + ys| - 1] == xs + ys';
    }
  }

  /** `[get_card_info(c) for c in codes]`: None when one of them raises. */
  function DecodeAll(codes: seq<string>): (r: Option<seq<Card>>)
    ensures r.None? <==> exists i :: 0 <= i < |codes| && codes[i] == []
    ensures r.Some? ==> |r.value| == |codes|
    ensures r.Some? ==> forall i :: 0 <= i < |codes| ==> DecodeCard(codes[i]) == Decoded(r.value[i])
  {
    if exists i :: 0 <= i < |codes| && codes[i] == [] then None
    else Some(seq(|codes|, i requires 0 <= i < |codes| && codes[i] != [] => DecodeCard(codes[i]).card))
  }

  predicate AllFace(cards: seq<Card>) {
    forall i :: 0 <= i < |cards| ==> cards[i].isFace
  }

  predicate AllSmallRanks(cards: seq<Card>) {
    forall i :: 0 <= i < |cards| ==> cards[i].rank in ["a", "2", "3", "4"]
  }

  predicate HasValues(cards: seq<Card>) {
    forall i :: 0 <= i < |cards| ==> |cards[i].values| > 0
  }

  /** The sum of every card's first candidate value. */
  function FirstValueSum(cards: seq<Card>): nat
    requires HasValues(cards)
  {
    if cards == [] then 0 else cards[0].values[0] + FirstValueSum(cards[1..])
  }

  predicate IsFiveSmall(cards: seq<Card>)
    requires HasValues(cards)
  {
    AllSmallRanks(cards) && FirstValueSum(cards) <= 10
  }

  /** The candidate-value lists of the cards (`possibilities`). */
  function ValueLists(cards: seq<Card>): (lists: seq<seq<nat>>)
    ensures |lists| == |cards|
    ensures forall i :: 0 <= i < |cards| ==> lists[i] == cards[i].values
  {
    seq(|cards|, i requires 0 <= i < |cards| => cards[i].values)
  }

  /** Every value assignment of the cards, in `itertools.product` order. */
  function Assignments(cards: seq<Card>): (assigns: seq<seq<nat>>)
    ensures forall a :: a in assigns ==> |a| == |cards|
  {
    ProductLengths(ValueLists(cards));
    Product(ValueLists(cards))
  }

  /** The body/tail search: the running best over every assignment of the
      product and every combination. */
  function Search(cards: seq<Card>): (h: Hand)
    requires |cards| == 5
    ensures IsRanked(h)
  {
    BestFrom(NoNiu, Found(cards, Assignments(cards)))
  }

  /** The outcome of five decoded cards: the specials first, then the search. */
  function Classify(cards: seq<Card>): Hand
    requires |cards| == 5 && HasValues(cards)
  {
    if AllFace(cards) then FiveDukes
    else if IsFiveSmall(cards) then FiveSmall
    else Search(cards)
  }

  /** The outcome `calculate_niu` reports for `codes`. */
  function Evaluate(codes: seq<string>): Hand {
    if |codes| != 5 then Waiting
    else match DecodeAll(codes)
      case None => DecodeError
      case Some(cards) => Classify(cards)
  }

  /** `calculate_niu`, with the search written as explicit loops over the
      index of the assignment in the product and the index of the combination. */
  method CalculateNiu(codes: seq<string>) returns (e: Evaluation)
    ensures e == Render(Evaluate(codes))
  {
    if |codes| != 5 {
      return Render(Waiting);
    }
    var decoded := DecodeAll(codes);
    if decoded.None? {
      return Render(DecodeError);
    }
    var cards := decoded.value;
    if AllFace(cards) {
      return Render(FiveDukes);
    }
    if IsFiveSmall(cards) {
      return Render(FiveSmall);
    }
    var best := SearchBest(cards);
    return Render(best);
  }

  /** The search part of `calculate_niu`: build `possibilities`, then walk the
      product by index and the combinations by index, keeping the running best. */
  method SearchBest(cards: seq<Card>) returns (best: Hand)
    requires |cards| == 5
    ensures best == Search(cards)
  {
    var possibilities: seq<seq<nat>> := [];
    for i := 0 to 5
      invariant |possibilities| == i
      invariant forall j :: 0 <= j < i ==> possibilities[j] == cards[j].values
    {
      possibilities := possibilities + [cards[i].values];
    }
    assert possibilities == ValueLists(cards);
    ghost var assigns := Assignments(cards);

    best := NoNiu;
    var total := ProductSize(possibilities);
    var k := 0;
    while k < total
      invariant 0 <= k <= total
      invariant best == BestFrom(NoNiu, Found(cards, assigns[..k]))
    {
      var assignment := TupleAt(possibilities, k);
      ProductAt(possibilities, k);
      FoundPrefix(cards, assigns, k);
      BestFromConcat(NoNiu, Found(cards, assigns[..k]), FoundIn(cards, assignment, 10));
      best := ScanBodies(cards, assignment, best);
      k := k + 1;
    }
    assert assigns[..k] == assigns;
  }

  /** One more assignment: its outcomes follow those of the earlier ones. */
  lemma FoundPrefix(cards: seq<Card>, assigns: seq<seq<nat>>, k: nat)
    requires |cards| == 5 && forall a :: a in assigns ==> |a| == 5
    requires k < |assigns|
    ensures Found(cards, assigns[..k + 1]) == Found(cards, assigns[..k]) + FoundIn(cards, assigns[k], 10)
  {
    assert assigns[..k + 1][..k] == assigns[..k];
  }

  /** One more combination: a body adds its tail outcome, a non-body adds nothing. */
  lemma FoundInStep(cards: seq<Card>, a: seq<nat>, n: nat)
    requires |cards| == 5 && |a| == 5 && n < 10
    ensures IsBody(a, n) ==> FoundIn(cards, a, n + 1) == FoundIn(cards, a, n) + [BodyHand(cards, a, n)]
    ensures !IsBody(a, n) ==> FoundIn(cards, a, n + 1) == FoundIn(cards, a, n)
  {
  }

  /** One more combination: a body is weighed against the running best, a
      non-body leaves it alone. */
  lemma ScanStep(cards: seq<Card>, a: seq<nat>, n: nat, start: Hand)
    requires |cards| == 5 && |a| == 5 && n < 10 && IsRanked(start)
    ensures IsBody(a, n) ==>
      BestFrom(start, FoundIn(cards, a, n + 1)) == Better(BestFrom(start, FoundIn(cards, a, n)), BodyHand(cards, a, n))
    ensures !IsBody(a, n) ==> BestFrom(start, FoundIn(cards, a, n + 1)) == BestFrom(start, FoundIn(cards, a, n))
  {
    FoundInStep(cards, a, n);
    if IsBody(a, n) {
      BestFromSnoc(start, FoundIn(cards, a, n), BodyHand(cards, a, n));
    }
  }

  /** The inner loop of the search: try every combination of `assignment`
      as the body, updating the running best `best`. */
  method ScanBodies(cards: seq<Card>, assignment: seq<nat>, best: Hand) returns (b: Hand)
    requires |cards| == 5 && |assignment| == 5 && IsRanked(best)
    ensures b == BestFrom(best, FoundIn(cards, assignment, 10))
  {
    b := best;
    var n := 0;
    while n < 10
      invariant 0 <= n <= 10
      invariant b == BestFrom(best, FoundIn(cards, assignment, n))
    {
      CombinationAt(n);
      ScanStep(cards, assignment, n, best);
      var combo := Combinations[n];
      BodyAt(cards, assignment, n, combo);
      if (assignment[combo.0] + assignment[combo.1] + assignment[combo.2]) % 10 == 0 {
        var rest := Remaining(combo);
        var current := TailHand(cards[rest[0]], assignment[rest[0]], cards[rest[1]], assignment[rest[1]]);
        assert current == BodyHand(cards, assignment, n);
        if Score(current) > Score(b) {
          b := current;
        }
        assert b == BestFrom(best, FoundIn(cards, assignment, n + 1));
      }
      n := n + 1;
    }
  }

  /** Combination `n` is the triple `combo`: it is a body when its values sum
      to a multiple of ten, and then its tail is what Remaining leaves. */
  lemma BodyAt(cards: seq<Card>, a: seq<nat>, n: nat, combo: (nat, nat, nat))
    requires |cards| == 5 && |a| == 5 && n < 10 && combo == Combinations[n]
    ensures combo.0 < combo.1 < combo.2 < 5
    ensures IsBody(a, n) <==> (a[combo.0] + a[combo.1] + a[combo.2]) % 10 == 0
    ensures BodyHand(cards, a, n) == TailHand(cards[Remaining(combo)[0]], a[Remaining(combo)[0]],
      cards[Remaining(combo)[1]], a[Remaining(combo)[1]])
  {
    CombinationAt(n);
  }
}
