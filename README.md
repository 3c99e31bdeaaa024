# Bull Bull hand evaluator

A Dafny model of `logic.py`, the hand evaluator of a Bull Bull (Niu Niu, 斗牛)
card game with house rules. It has two parts.

- **The card decoder `get_card_info`.**
  - A card code such as `As`, `10h` or `Kc` is lower-cased.
  - Its last character is the suit and the rest is the rank.
  - The rank decides the point values the card may count for: J/Q/K count 10 and are face cards, an Ace counts 1, a 3 counts 3 or 6, a 6 counts 6 or 3, any other number counts its value, and anything else counts 0.
- **The evaluator `calculate_niu`.**
  - It answers "Waiting..." unless it gets exactly five codes, and an error text when a code cannot be decoded.
  - It reports Five Dukes (五公) when all five cards are face cards, then Five Small (五小) when all ranks are A/2/3/4 summing to at most 10.
  - Otherwise it searches every choice of values (each 3 and 6 either way) and every 3-of-5 body whose values sum to a multiple of ten.
  - It scores the remaining two-card tail: Ngau Tonku (黑杰, spade Ace plus a face card) 500, a pair 300 + value, Super Niu 100, Niu n 10 + n.
  - It reports the best tail found, or No Niu.

## Modules

- `Text` (text.dfy): ASCII lower-casing, decimal parsing and decimal printing.
  These stand in for `str.lower`, `int(...)` and the `{n}` in an f-string.
- `Itertools` (itertools.dfy): the Cartesian product in the order `itertools.product` yields it, with the last list varying fastest.
  It also holds the table of 3-element subsets of five positions in the order `itertools.combinations` yields them.
  For both, the lemmas prove order, membership and completeness.
- `Cards` (cards.dfy): `DecodeCard`, the model of `get_card_info`.
- `Niu` (niu.dfy): the evaluator, in three layers.
  - The outcomes of the search are the datatype `Hand`; `Score` ranks them and `Render` gives each one's (text, multiplier, colour).
  - A pure specification: `Search` is the running best, with a strict `>`, over the outcomes found in enumeration order; `Evaluate` adds the guards.
  - The imperative `CalculateNiu`: it builds `possibilities`, then walks the product by index and the combinations by index, and keeps the running best in a variable. It is proved to return `Render(Evaluate(codes))`.
- `NiuProperties` (properties.dfy): an independent reference definition of what the search should find.
  - `Achievable(cards, h)`: some choice of values and some tail whose body sums to a multiple of ten scores `h`.
  - The search reports the best achievable outcome (`SearchIsBest`).
  - Two different outcomes tie in score only for Ngau Tonku against a pair of 200s. A decoded hand cannot offer both, so the best outcome is unique (`BestIsUnique`).
- `Reorder` (reorder.dfy): reordering the five codes does not change the outcome (`EvaluatePermutation`).
  This matters because web_app.py passes the codes in the order `list(set(...))` happens to produce.
  `BestIsUnique` and `EvaluatePermutation` hold for the program only on unsigned ranks, the only ranks web_app.py's `display_mapping` lets through (web_app.py:27-76). With signed ranks, `int("-200")` gives -200, and a pair of them scores 100, the same as Super Niu. The strict `>` at logic.py:140 then keeps whichever comes first, so `-200s, -200h, 2c, 8d, 10c` and `2c, 8d, 10c, -200s, -200h` get different outcomes.
- `Outcomes` (outcomes.dfy): each outcome of `Evaluate` characterised directly on the input codes.
- `Examples` (examples.dfy): the two hands tried at the bottom of logic.py, plus one hand each for Niu 7, No Niu, Five Dukes and Five Small.

## Model

| member | source | states |
|---|---|---|
| Text.Lower | logic.py:9 | lower-casing keeps the length, maps every character through ASCII lower-casing and leaves no capital |
| Text.LowerIdempotent | logic.py:9 | lower-casing twice is lower-casing once |
| Text.ParseDecimal | logic.py:31-34 | a rank parses exactly when it is a non-empty string of decimal digits |
| Text.ShowNat | logic.py:119 | the printed number is a non-empty digit string without a leading zero (unless it is 0) |
| Text.ParseShowNat | logic.py:119 | printing a number and parsing it back gives the number |
| Itertools.Product | logic.py:79 | the product has as many tuples as the product of the list lengths |
| Itertools.TupleAt | logic.py:79 | the k-th tuple takes one element from each list |
| Itertools.ProductAt | logic.py:79 | the k-th tuple of the product is the mixed-radix decoding of k, last list fastest |
| Itertools.Encode | logic.py:79 | every choice has an index in the product, and decoding that index gives the choice back |
| Itertools.ProductMembers | logic.py:79 | a tuple is in the product exactly when it picks one element from each list |
| Itertools.ProductLengths | logic.py:79 | every tuple of the product has one entry per list |
| Itertools.CombinationAt | logic.py:84 | the table has 10 entries, each an increasing triple of positions below 5 |
| Itertools.CombinationsOrdered | logic.py:84 | the entries come in strictly increasing lexicographic order |
| Itertools.CombinationsComplete | logic.py:84 | every increasing triple of positions below 5 is in the table |
| Cards.DecodeCard | logic.py:4-42 | an empty code fails; otherwise the code is kept as given, the lower-cased code is rank + suit, values is never empty, the card is a face card exactly for j/q/k, and the values follow the rank table (j/q/k 10, a 1, 3 gives 3 or 6, 6 gives 6 or 3, a digit string its value, anything else 0) |
| Cards.DecodeIgnoresCase | logic.py:9 | a code and its lower-cased form decode to the same card, except for the kept code |
| Cards.DecodeNumbered | logic.py:26-32 | a printed number followed by a suit has that number as rank, values 3/6 or 6/3 for the numbers 3 and 6 and the number itself otherwise, and is no face card |
| Cards.NumberRank | logic.py:21-29 | a printed number is never a letter rank, and is rank 3 or 6 only for those numbers |
| Cards.DecodeDigit | logic.py:9-32 | a digit 1-9 followed by a lower-case suit has the digit as rank, the number's values (3 or 6 for a 3, 6 or 3 for a 6), and is no face card |
| Cards.DecodeTen | logic.py:9-32 | a 10 followed by a lower-case suit has the two-character rank 10, counts 10 and is no face card |
| Cards.DecodeLettered | logic.py:21-25 | an Ace or a face letter, in either case, with a suit decodes to values 1 or 10, and only the face letters are face cards |
| Cards.DecodeUnknownRank | logic.py:30-34 | a rank that is neither in the table nor a number counts 0 and is no face card |
| Niu.Score | logic.py:76-134 | No Niu (the initial -1) is the only negative score, and every tail outcome scores at least 10 |
| NiuProperties.ScoreRanking | logic.py:110-134 | No Niu < Niu 1..9 (by point) < Super Niu < every pair (by value), and a pair is below Ngau Tonku exactly when its value is below 200 |
| Niu.Render | logic.py:50-137 | definition, no contract of its own: the text, multiplier and colour of each outcome (its partner is NiuProperties.RenderInjective) |
| NiuProperties.RenderInjective | logic.py:50-137 | two outcomes with the same (text, multiplier, colour) are the same outcome |
| Niu.IsSpadeAce | logic.py:105-106 | definition, no contract of its own: the rank is a and the suit is s |
| Niu.Better | logic.py:140-141 | the update keeps the old best or takes the new outcome, scores at least as much as both, and keeps the old best when the new one does not score more |
| Niu.IsBody | logic.py:89 | definition, no contract of its own: the three values of combination n sum to a multiple of ten (tied to the loop's test by Niu.BodyAt) |
| Niu.AllFace | logic.py:62 | definition, no contract of its own: every card is a face card (characterised on the codes by Outcomes.EvaluateFiveDukes) |
| Niu.FirstValueSum | logic.py:67 | definition, no contract of its own: the sum of every card's first value (kept by a swap: Reorder.FirstValueSumSwap) |
| Niu.IsFiveSmall | logic.py:66-68 | definition, no contract of its own: every rank is a/2/3/4 and the first values sum to at most 10 (characterised on the codes by Outcomes.EvaluateFiveSmall) |
| Niu.Classify | logic.py:62-69 | definition, no contract of its own: Five Dukes, else Five Small, else the search (characterised by Outcomes.ClassifyOutcomes) |
| Niu.Evaluate | logic.py:50-69 | definition, no contract of its own: the guards, then Classify; CalculateNiu is proved to return its rendering, and the Outcomes lemmas characterise each outcome on the codes |
| Niu.TailHand | logic.py:104-137 | a spade Ace with a face card is Ngau Tonku; otherwise equal values are a pair of that value; otherwise a tail sum that is 0 mod 10 is Super Niu, and any other is Niu with that point (1..9) |
| Niu.Remaining | logic.py:91 | the tail is the two positions not in the body, in increasing order |
| Niu.TailOf | logic.py:91 | combination n leaves two increasing tail positions |
| Niu.BodyHand | logic.py:89-137 | the outcome of a body is a tail outcome |
| Niu.FoundIn | logic.py:84-137 | everything found under one assignment is a tail outcome |
| Niu.Found | logic.py:79-137 | everything found over the product is a tail outcome |
| Niu.BestFrom | logic.py:140-141 | the running best is always a ranked outcome |
| Niu.BestFromSnoc | logic.py:140-141 | one more outcome updates the running best by one strict comparison |
| Niu.BestFromConcat | logic.py:79-141 | running over two stretches is running over the second from the best of the first |
| Niu.DecodeAll | logic.py:54-57 | decoding fails exactly when some code is empty; otherwise card i is the decoding of code i |
| Niu.ValueLists | logic.py:72-74 | `possibilities` holds each card's candidate values, position by position |
| Niu.Assignments | logic.py:79 | every assignment has one value per card |
| Niu.Search | logic.py:72-143 | the search reports a ranked outcome (the best one: see NiuProperties.SearchIsBest) |
| Niu.CalculateNiu | logic.py:44-143 | the method returns exactly the rendering of the specified outcome |
| Niu.SearchBest | logic.py:72-143 | the nested loops with their running best compute the specified search |
| Niu.ScanBodies | logic.py:84-141 | the inner loop folds the running best over the outcomes of one assignment |
| Niu.ScanStep | logic.py:89-141 | a body updates the running best by a strict comparison, and any other combination leaves it alone |
| Niu.BodyAt | logic.py:85-96 | the loop's own sum test and tail positions are those of the specification |
| NiuProperties.BestFromIsMax | logic.py:140-141 | the running best is the start or one of the outcomes, and scores at least as much as each of them |
| NiuProperties.BestFromIsFirst | logic.py:140 | the running best is the first outcome reaching the top score: ties keep the earlier outcome |
| NiuProperties.BodyIsSplit | logic.py:85-96 | a combination is a body exactly when the body and its two tail positions form a decomposition, and its outcome is the tail outcome of those positions |
| NiuProperties.EveryTailPair | logic.py:84-91 | every pair of tail positions is left by some combination |
| NiuProperties.AssignmentIsChoice | logic.py:72-79 | a choice of one candidate value per card is exactly a choice from the value lists of the product |
| NiuProperties.FoundIsSplit | logic.py:79-137 | every outcome the search finds is achievable |
| NiuProperties.SplitIsFound | logic.py:79-137 | every decomposition's outcome is found by the search |
| NiuProperties.FoundIsAchievable | logic.py:79-137 | an outcome is found by the search exactly when it is achievable |
| NiuProperties.AchievableIsFound | logic.py:79-137 | every achievable outcome is found by the search |
| NiuProperties.SearchIsBest | logic.py:76-143 | the search reports No Niu exactly when nothing is achievable, and otherwise an achievable outcome that no achievable outcome outscores |
| NiuProperties.SearchBounds | logic.py:139-141 | when some outcome is achievable, the result is not No Niu and scores at least as much as that outcome |
| NiuProperties.ScoreCollision | logic.py:109-134 | two different tail outcomes score the same only for Ngau Tonku and a pair of 200s |
| NiuProperties.DecodedCardFacts | logic.py:21-34 | a decoded face card counts 10, a spade Ace counts 1 and is no face card, and only a 3 or 6 has two values |
| NiuProperties.NoScoreTie | logic.py:104-121 | no decoded hand can offer both Ngau Tonku and a pair of 200s |
| NiuProperties.BestIsUnique | logic.py:139-143 | a decoded hand has one best achievable outcome |
| NiuProperties.SearchDependsOnlyOnAchievable | logic.py:76-143 | two hands with the same achievable outcomes get the same search result |
| Reorder.TailHandSymmetric | logic.py:104-137 | the tail outcome does not depend on the order of the two tail cards |
| Reorder.AchievableSwap | logic.py:79-137 | swapping two cards keeps the achievable outcomes |
| Reorder.DecodeAllSwap | logic.py:55 | swapping two codes swaps the decoded cards |
| Reorder.FirstValueSumSwap | logic.py:67 | swapping two cards keeps the Five Small sum |
| Reorder.SpecialsSwap | logic.py:62-69 | swapping two cards keeps the Five Dukes and Five Small tests |
| Reorder.SearchSwap | logic.py:72-143 | swapping two decoded cards keeps the search result |
| Reorder.EvaluateSwap | logic.py:50-143 | swapping two codes keeps the outcome |
| Reorder.EvaluatePermutation | logic.py:50-143 | any reordering of the codes keeps the outcome |
| Outcomes.EvaluateWaiting | logic.py:50-51 | the outcome is Waiting exactly when there are not five codes |
| Outcomes.EvaluateDecodeError | logic.py:54-57 | the outcome is the decode error exactly when one of five codes is empty |
| Outcomes.EvaluateFiveDukes | logic.py:62-63 | the outcome is Five Dukes exactly when all five codes have rank j, q or k |
| Outcomes.EvaluateFiveSmall | logic.py:66-69 | the outcome is Five Small exactly when all five ranks are a/2/3/4 with face values summing to at most 10 |
| Outcomes.EvaluateSearch | logic.py:72-143 | past the guards the outcome is the best achievable one, and it is the only best achievable one |
| Outcomes.CardRank | logic.py:12-15 | the decoded rank is the lower-cased code without its last character |
| Outcomes.SmallRankCard | logic.py:66-67 | a card of rank a/2/3/4 is no face card and its first value is its face value |
| Outcomes.ClassifyOutcomes | logic.py:62-143 | decoded cards are Five Dukes, Five Small or a ranked search outcome |
| Outcomes.SearchFindsBest | logic.py:139-143 | a decoded hand's achievable outcome that nothing outscores is the result |
| Outcomes.SearchFindsUnique | logic.py:139-143 | an achievable outcome that outscores every other achievable outcome is the result |
| Outcomes.SearchFindsNothing | logic.py:76 | with nothing achievable the result is No Niu |
| Outcomes.AchievableAtMostNgauTonku | logic.py:110-118 | unless a card is worth more than 200, nothing outscores Ngau Tonku |
| Outcomes.NgauTonkuWins | logic.py:104-113 | a decoded hand with a Ngau Tonku decomposition and no card above 200 is Ngau Tonku |
| Outcomes.NgauTonkuWinsOutright | logic.py:104-113 | any hand with a Ngau Tonku decomposition and no card worth 200 or more is Ngau Tonku |
| Examples.NgauTonkuExample | logic.py:147-148 | three tens, the spade Ace and a King give "Ngau Tonku! (黑杰)", 5, (138, 43, 226) |
| Examples.DoubleOxExample | logic.py:149-150 | 3, 7, 10, 3, 6 gives a pair of sixes, "Double Ox 6 (对子牛)", 2, (255, 215, 0) |
| Examples.NiuSevenExample | logic.py:84-137 | 2, 4, 5, 7, 9 gives Niu 7: body 4 + 7 + 9, tail 2 + 5 |
| Examples.NoNiuExample | logic.py:76 | K, Q, 2, 4, 5 has no body and gives "No Niu (无牛)", 1, (128, 128, 128) |
| Examples.FiveDukesExample | logic.py:62-63 | K, Q, J, K, Q gives "FIVE DUKES! (五公)", 7, (255, 215, 0) |
| Examples.FiveSmallExample | logic.py:66-69 | A, 2, 3, A, 2 gives "FIVE SMALL! (五小)", 6, (0, 255, 255) |

## Notes on the code

- The result is only (text, multiplier, colour) (logic.py:143). The cards of the body and the tail are not returned.
- The pair multiplier is 2 (logic.py:120). It is the named constant `Niu.PairMultiplier`.
- The hand 2, 4, 5, 7, 9 has the body 4 + 7 + 9 = 20 and gives Niu 7 (`Examples.NiuSevenExample`).
- Ngau Tonku and a pair of 200s both score 500 (logic.py:110, 118), so the score alone does not name the outcome. No decoded hand offers both (`NiuProperties.NoScoreTie`), so the best outcome is still unique (`NiuProperties.BestIsUnique`).

## Left out

- Lower: lower-cases ASCII capitals only. Python's `str.lower` also folds non-ASCII letters; those are left unchanged here.
- ParseDecimal: accepts only non-empty strings of ASCII digits. Python's `int` also accepts surrounding whitespace, a `+` or `-` sign, underscores between digits and non-ASCII digits. Such a rank decodes to 0 here instead of its value, and a negative value cannot arise. Because negative values cannot arise, the uniqueness of the best outcome and the order independence proved here do not carry over to signed ranks (see `Reorder` above). Python's `int` also refuses a string of more than 4300 digits (the default integer string conversion limit); line 33 catches that error, so such a rank decodes to 0 in the code, while `DigitsValue` here gives its value.
- DecodeCard: the input is a string, so `str(card_code)` is the identity. The only failure modelled is `code[-1]` on an empty code.
- Niu.Render: the error text is fixed to "Error: string index out of range", the message of the `IndexError` that an empty code raises. No other exception can occur for string input.
- Niu.Evaluate: the `isinstance(..., list)` test is replaced by the `seq<string>` parameter type.
- Niu.ValueLists: `possibilities` holds only the values. The card each value belongs to is found by position, which is what the tuples of (card, value) pairs give in the code.
- Niu.SearchBest: walks the product by index (`Itertools.TupleAt`) instead of drawing tuples from a lazy iterator. The order of the tuples is the same.
- Niu.Search: its own contract only says that the result is ranked. Its meaning is stated by `NiuProperties.SearchIsBest` and `NiuProperties.BestIsUnique`.
- The printing of the two test hands under `__main__` is left out. Their outcomes are stated as lemmas in `Examples`.
- web_app.py is not part of this model: image capture, object detection, de-duplication and page layout.
