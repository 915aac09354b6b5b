# Texas Hold'em rules engine, modelled and proved in Dafny

This project models the poker logic of `pkr-tab-stat.py`, a Streamlit table
for Texas Hold'em. It covers the following parts.

- **The deck.** 52 cards written as a rank token and a suit symbol. There is
  a riffle shuffle driven by a random-number generator, a burn card, a seat
  order that starts left of the dealer, and dealing of two hole cards per
  player, the flop, the turn and the river.
- **The five-card evaluator.** `evaluate_5` gives each hand a score: a
  category from 0 (high card) to 8 (straight flush) followed by tiebreak
  ranks. `best_of_seven` keeps the best score over every five-card subset of
  seven cards.
- **The showdown resolver.** It finds the players who hold the best score and
  the five cards each of them plays.
- **The exact river enumeration.** It counts how many opponent hole pairs
  beat the hero's hand, tie it, or lose to it, and groups the winning pairs
  by category.
- **The legend.** Its ids 1..10 run from the royal flush down to the high
  card. The model gives the ids a score falls under and the ids some
  opponent pair could still make on a complete board.
- **Worked showdowns.** A royal flush on the board splits the pot among all
  players, and A♣ A♦ against A♥ 7♦ 2♠ 9♣ K♦ makes trip aces with king and
  nine kickers.

## How the model is built

- **Scores.** The source's scores are Python tuples compared with Python's
  built-in tuple and list ordering. Here a score is a datatype with one
  constructor per category and the same fields. `Scores.Cmp` is Python's
  lexicographic comparison, written out on those fields, and it is proved
  to be a strict total order.
- **Loops.** The loops of the shuffle, the deal, the freq count, the subset
  scans, the resolver, the enumeration and the legend scan are methods with
  loop invariants. Each method is proved against a specification function:
  `Score5`, `BestScore`, `WinnersOf`, `CountBeating`, `ClassWins`, `AllIds`
  or `Riffle`. Two short scans are recursive functions instead:
  `Evaluator.IsFlush` for the suit loop of `is_flush`
  (pkr-tab-stat.py:191-193) and `Straights.ScanRuns` for the window loop of
  `is_straight` (pkr-tab-stat.py:200-203). Both only compute a value, and
  their lemmas state what they find.
- **Cards and the deck.** A card is a datatype with a rank value and a suit.
  The source's string form `rank + suit` is `Cards.Label`, and
  `Cards.ParseCard` reads it back. The deck, which the source changes in
  place, is the class `Dealing.Deck`.
- **Randomness.** The generator is the class `Dealing.Rng`: an arbitrary
  stream of raw values and a position in it. `randint(lo, hi)` returns
  `lo + raw(pos) % (hi - lo + 1)`. Every property of the shuffle is proved
  for every stream, so nothing depends on Python's Mersenne Twister.
- **The seat count.** `NUM_PLAYERS` is a session value in the source. Here it
  is a parameter.

Three behaviours of the source at the edges of the deck:

- `riffle_shuffle` (pkr-tab-stat.py:150-161) runs on a deck of any size,
  even one with fewer than two cards, and `Dealing.RiffleShuffle` accepts
  every deck.
- Dealing more cards than the deck holds fails inside `deck.pop(0)`
  (pkr-tab-stat.py:174, 180-182) with Python's `IndexError`. The model
  requires enough cards instead.
- `burn` (pkr-tab-stat.py:163-165) on an empty deck does nothing, and
  `Dealing.Deck.Burn` leaves an empty deck alone.

## Model

| member | source | states |
|---|---|---|
| Cards.RankValue | pkr-tab-stat.py:138-141 | A rank token has a value exactly when it is one of the thirteen tokens; the value lies in 2..14 and indexes the token in RANKS |
| Cards.SuitAt | pkr-tab-stat.py:139 | The suit at position i of the suit string is the one whose position is i |
| Cards.LabelRoundTrip | pkr-tab-stat.py:147-148 | Reading back the rank-plus-suit string of any card gives that card |
| Cards.LabelInjective | pkr-tab-stat.py:147-148 | Two cards have the same string exactly when they are the same card |
| Cards.ParseCard | pkr-tab-stat.py:186-192 | A string parses only if it has at least two characters and its last one (`c[-1]`) is one of the four suit symbols, and then the card it gives has that string as its label, so parsing inverts Label |
| Cards.DeckIndex | pkr-tab-stat.py:147-148 | Every card sits at some position of make_deck |
| Cards.MakeDeckIsFullDeck | pkr-tab-stat.py:147-148 | make_deck holds no card twice and holds every card |
| Dealing.Rng.RandInt | pkr-tab-stat.py:152 | randint(lo, hi) returns a value in lo..hi, the stream's draw at the current position, and advances the position by one |
| Dealing.Take | pkr-tab-stat.py:153 | deck[:cut] keeps min(cut, length) cards |
| Dealing.Drop | pkr-tab-stat.py:153 | deck[cut:] keeps the cards after the cut, none when the cut passes the end |
| Dealing.InterleaveHalves | pkr-tab-stat.py:154-158 | The while loop builds exactly the interleaving Interleave defines and consumes the same draws |
| Dealing.DealTurn | pkr-tab-stat.py:156-158 | One turn takes 1..3 cards from each half, the halves shrink, and what is dealt plus the rest of the interleaving is unchanged |
| Dealing.InterleaveIsPermutation | pkr-tab-stat.py:154-159 | The interleaving is a permutation of the two halves together |
| Dealing.RotateIsPermutation | pkr-tab-stat.py:160-161 | Moving the bottom k cards to the top is a permutation of the deck |
| Dealing.OnePass | pkr-tab-stat.py:151-161 | One pass (cut, interleave, rotate) leaves the deck and generator as Pass defines |
| Dealing.PassIsPermutation | pkr-tab-stat.py:152-161 | One pass of the shuffle is a permutation of the deck |
| Dealing.RiffleShuffle | pkr-tab-stat.py:150-161 | The method leaves the deck and generator exactly as `times` passes of Riffle define |
| Dealing.RiffleIsPermutation | pkr-tab-stat.py:150-161 | For every random stream and number of passes, the shuffled deck is a permutation of the original with the same length |
| Dealing.Deck.Burn | pkr-tab-stat.py:163-165 | burn drops the top card when there is one and leaves an empty deck alone |
| Dealing.Deck.Pop | pkr-tab-stat.py:174 | pop(0) returns the top card and removes exactly it |
| Dealing.SeatOrder | pkr-tab-stat.py:167-168 | seat_order has one entry per player, each a valid seat |
| Dealing.SeatOrderIsPermutation | pkr-tab-stat.py:167-168 | The seat order lists every seat exactly once and starts left of the dealer, at (dealer + 1) mod players |
| Dealing.DealRound | pkr-tab-stat.py:173-176 | One round gives the k-th seat in order the k-th card from the top and takes exactly those cards off |
| Dealing.DealHoleCards | pkr-tab-stat.py:170-177 | The k-th seat in order gets deck cards k and n + k, and 2n cards leave the deck |
| Dealing.HoleCardsAreDistinct | pkr-tab-stat.py:170-177 | From a deck with no repeats, every player has two different cards, no two players share a card, and no hole card remains in the deck |
| Dealing.DealBoard | pkr-tab-stat.py:179-183 | The flop is cards 1..3, the turn is card 5 and the river card 7 (0, 4 and 6 are burnt), and eight cards leave the deck |
| Dealing.BoardCardsAreDistinct | pkr-tab-stat.py:179-183 | The five board cards are distinct and none of them stays in the deck |
| Dealing.DistinctByMultiset | pkr-tab-stat.py:150-161 | A reordering of a deck with no repeated card has no repeated card |
| Dealing.ShuffledDeckIsFullDeck | pkr-tab-stat.py:147-161 | For every random stream and number of passes, the shuffled fresh deck has 52 cards, none twice, and every card |
| Dealing.HoleCardsOfDeal | pkr-tab-stat.py:170-177 | The hole cards of all players together are exactly the top 2n cards of the deck |
| Dealing.BoardDealCards | pkr-tab-stat.py:179-183 | The deck before deal_board is exactly the three burnt cards, the five board cards and the cards left |
| Dealing.DealConservesCards | pkr-tab-stat.py:170-183 | Across the hole-card deal and the board deal, the deck is exactly the hole cards, the burnt cards, the board and what stays, so no card is lost or made up |
| Evaluator.CardVals | pkr-tab-stat.py:186-187 | card_vals is the rank values sorted in descending order: the same multiset, descending |
| RankSeqs.SortDesc | pkr-tab-stat.py:187 | sorted(..., reverse=True) gives a descending permutation of its input |
| RankSeqs.InsertSorts | pkr-tab-stat.py:187 | Inserting into a descending list keeps it descending and adds exactly the one value |
| Evaluator.OfSuitFacts | pkr-tab-stat.py:219 | The cards of one suit are no more than the hand, and are the whole hand exactly when all cards have that suit |
| Evaluator.FlushOfFive | pkr-tab-stat.py:189-194 | is_flush on five cards reports a suit exactly when all five share one, and then the cards of that suit are the whole hand |
| Evaluator.FreqOfCounts | pkr-tab-stat.py:209-211 | The freq loop counts every value of the hand exactly by its multiplicity |
| Evaluator.HavingFacts | pkr-tab-stat.py:230-231 | `[v for v, c in groups if c == k]` holds exactly the values with count k, in descending order |
| Evaluator.Groups | pkr-tab-stat.py:212-213 | The groups by count (fours, threes, pairs) hold exactly the values of each multiplicity, each list descending |
| Evaluator.TwoPairOf | pkr-tab-stat.py:244-248 | Two pair takes the two highest pairs and a kicker that is in the hand and not one of the pairs |
| Evaluator.Evaluate5 | pkr-tab-stat.py:206-255 | The method with its freq loop computes Score5, the branch chain of evaluate_5 |
| Straights.StraightIsHighestRun | pkr-tab-stat.py:196-204 | is_straight finds a run of five consecutive ranks (the ace also counting as 1) exactly when one exists, and reports the highest top, in 5..14 |
| Straights.ScanRunsFindsHighestWindow | pkr-tab-stat.py:200-203 | The scan over windows of five returns the first window spanning 4, which is the highest such window |
| Straights.WithWheelMembers | pkr-tab-stat.py:197-199 | sorted(set(vals)) with the wheel's 1 appended is strictly descending and holds the ranks present, plus 1 when an ace is |
| HandRanking.Evaluate5Category | pkr-tab-stat.py:206-255 | The category of evaluate_5 equals the reference ranking of the hand, stated by counts, flush and straight and not by the code's branches |
| HandRanking.BranchCategory | pkr-tab-stat.py:218-255 | The category follows the branch order: straight flush, quads, full house, flush, straight, trips, two pair, pair, high card |
| HandRanking.GroupsAnswerCounts | pkr-tab-stat.py:224-250 | The tests `4 in counts`, `3 in counts`, `2 in counts` and `len(pairs) >= 2` hold exactly when the hand has such groups of ranks |
| HandRanking.StraightAnswersRuns | pkr-tab-stat.py:216 | is_straight on card_vals answers exactly whether the hand contains five consecutive ranks |
| HandRanking.StraightTop | pkr-tab-stat.py:220-237 | A straight or straight flush score carries the highest run's top, in 5..14 |
| HandRanking.QuadsMeaning | pkr-tab-stat.py:224-227 | Four of a kind: the hand is four of the quad rank and one kicker of another rank |
| HandRanking.FullHouseMeaning | pkr-tab-stat.py:229-232 | Full house: the hand is three of the trips rank and two of a different pair rank |
| HandRanking.AllRanksMeaning | pkr-tab-stat.py:234-235 | Flush and high-card scores list all five ranks in descending order |
| HandRanking.TripsMeaning | pkr-tab-stat.py:239-242 | Trips: the hand is three of the trips rank and two kickers of other, different ranks, in descending order |
| HandRanking.TwoPairMeaning | pkr-tab-stat.py:244-248 | Two pair: the higher pair first, then the lower, and a kicker of a third rank |
| HandRanking.OnePairMeaning | pkr-tab-stat.py:250-253 | One pair: the hand is the pair and three distinct kickers in descending order |
| RankingFacts.RunOfFive | pkr-tab-stat.py:196-237 | Five consecutive ranks from 6-high up score Straight(top), or StraightFlush(top) when suited |
| RankingFacts.WheelIsFiveHigh | pkr-tab-stat.py:198-199 | A-2-3-4-5 scores as a straight (or straight flush) with top 5 |
| RankingFacts.WheelBelowSixHigh | pkr-tab-stat.py:196-204 | The wheel loses to the six-high straight |
| RankingFacts.StraightBeatsLowerCategories | pkr-tab-stat.py:206 | Any straight beats every trips, two pair, pair and high-card score |
| RankingFacts.RoyalIsMaximum | pkr-tab-stat.py:206 | The royal flush is beaten by no score and beats every other one |
| RankingFacts.RoyalFlushIsBest | pkr-tab-stat.py:206-255 | No five-card hand beats the royal flush |
| RankingFacts.RoyalFlushExample | pkr-tab-stat.py:218-222 | A-K-Q-J-10 of spades scores StraightFlush(14) |
| RankingFacts.TwosOverFivesNoRun | pkr-tab-stat.py:196-204 | Ranks 2 2 2 5 5 hold no five consecutive ranks |
| RankingFacts.TwosOverFives | pkr-tab-stat.py:229-232 | Three twos and two fives score FullHouse(2, 5), whatever their suits |
| RankingFacts.FullHouseExample | pkr-tab-stat.py:229-232 | That score for a concrete hand |
| Scores.KeyInjective | pkr-tab-stat.py:261 | Different scores have different tuples |
| Scores.CmpIsTotalOrder | pkr-tab-stat.py:261 | Python's comparison of scores is antisymmetric, transitive, and equal only for equal scores |
| Scores.CategoryDecides | pkr-tab-stat.py:206 | A higher category always beats a lower one |
| Scores.TopDecides | pkr-tab-stat.py:222 | Between two straights, or two straight flushes, the higher top wins |
| Scores.BeatsIsStrictTotalOrder | pkr-tab-stat.py:261 | `>` on scores is irreflexive, transitive and total on distinct scores |
| Scores.FirstMaxIndexIsFirstMaximum | pkr-tab-stat.py:259-262 | The scan keeping a new value only when strictly greater ends at the first maximum: nothing beats it and it beats everything before it |
| Scores.ScanBestIsMax | pkr-tab-stat.py:258-262 | `best` after i steps is None for i = 0 and otherwise the maximum of the first i values |
| Combinations.CombosFromExact | pkr-tab-stat.py:259 | combinations(range(n), k) lists exactly the strictly increasing k-tuples of positions |
| Combinations.CombosAreCombos | pkr-tab-stat.py:259 | The same, from position 0 |
| Combinations.CombosCount | pkr-tab-stat.py:259 | There are C(n, k) of them, and n(n-1)/2 pairs |
| Combinations.SevenCardSubsets | pkr-tab-stat.py:259 | Seven cards have 21 five-card subsets |
| BestHand.Hands5Exact | pkr-tab-stat.py:259 | The subsets scanned are exactly the five-card selections of the seven cards, in order |
| BestHand.Hands5NonEmpty | pkr-tab-stat.py:257-263 | There is a subset exactly when there are at least five cards, so the source returns None only below five |
| BestHand.BestOfSeven | pkr-tab-stat.py:257-263 | The loop returns BestScore: None below five cards, otherwise the first maximal subset score |
| BestHand.BestIsMaximum | pkr-tab-stat.py:257-263 | The best score is that of the returned combo, and no five-card subset scores higher |
| BestHand.NoSubsetBeatsBest | pkr-tab-stat.py:257-263 | No subset's score beats the best |
| BestHand.BestComboIsFirst | pkr-tab-stat.py:269-270 | The returned combo is the first maximal one: the best score beats every subset listed before it |
| BestHand.BestOfSevenWithCombo | pkr-tab-stat.py:265-271 | The loop returns the best score and the combo it first came from |
| BestHand.BestComboFromHand | pkr-tab-stat.py:265-271 | The returned combo is five of the given cards |
| BestHand.FiveCardHand | pkr-tab-stat.py:257-263 | On exactly five cards best_of_seven is evaluate_5 |
| Resolver.IndicesOf | pkr-tab-stat.py:510 | The positions holding a score: exactly those, each once, in increasing order |
| Resolver.WinnersAreUnbeaten | pkr-tab-stat.py:502-510 | A player wins exactly when no player's score beats theirs; the winners are in seat order, and there is at least one whenever there is a player |
| Resolver.WinnersSplitThePot | pkr-tab-stat.py:508-510 | Every winner holds the maximum score; a player wins exactly when holding the same score, and every non-winner is beaten by the winners |
| Resolver.ScoreHands | pkr-tab-stat.py:503-509 | The loop collects every player's score and combo in seat order, and ends with the maximum score as best |
| Resolver.PickWinners | pkr-tab-stat.py:510-512 | The two comprehensions give WinnersOf and the combos at those positions |
| Resolver.WinnerDetails | pkr-tab-stat.py:502-513 | The winners are WinnersOf the players' scores, each with their own best five cards |
| Showdowns.RoyalBoardScore | pkr-tab-stat.py:218-222 | A♦ K♦ Q♦ J♦ 10♦ scores the royal flush |
| Showdowns.PlaysTheBoard | pkr-tab-stat.py:265-271 | With that board, any player's best five cards score the royal flush, whatever they hold |
| Showdowns.RoyalBoardSplitsPot | pkr-tab-stat.py:502-513 | With that board every player, in seat order, is a winner and shares the pot |
| Showdowns.NothingBeatsTripAces | pkr-tab-stat.py:206-255 | Five cards with ranks from A A A K 9 7 2 and no flush score no better than trip aces with K 9 kickers |
| Showdowns.TripAces | pkr-tab-stat.py:257-271 | A♣ A♦ in the hole with A♥ 7♦ 2♠ 9♣ K♦ on the board score (3, 14, [13, 9]): trip aces with king and nine kickers |
| Equity.Unseen | pkr-tab-stat.py:579-581 | The remaining cards are exactly the cards not in the hero's hand or the board |
| Equity.UnseenSize | pkr-tab-stat.py:579-581 | The remaining cards are distinct and number 52 minus the distinct used cards |
| Equity.SevenKnownLeaveFortyFive | pkr-tab-stat.py:579-581 | Seven distinct known cards leave 45 |
| Equity.PairsOfFacts | pkr-tab-stat.py:583-584 | The pairs are n(n-1)/2 pairs of two different remaining cards, every pair of positions i < j among them |
| Equity.FortyFiveCardsMakeNineHundredNinetyPairs | pkr-tab-stat.py:583-584 | M = 990 on the river |
| Equity.OutcomesPartition | pkr-tab-stat.py:588-596 | Every pair either beats, ties or loses to the hero, so W + T + losses = M |
| Equity.ClassesCoverWins | pkr-tab-stat.py:590-593 | The wins by class add up to W |
| Equity.ExactEnumeration | pkr-tab-stat.py:577-596 | The hero's score is best_of_seven; M is the pair count; W and T count the pairs whose score beats and ties it; wins_by_class maps each class with wins to exactly those pairs, in order |
| Equity.CountOutcomes | pkr-tab-stat.py:588-596 | The loop's W, T and class map are exactly CountBeating, CountTying and ClassWins over all pairs |
| Equity.Record | pkr-tab-stat.py:590-595 | One step: W grows when the pair wins, T when it ties, and the winning pair is appended under its class |
| Equity.CountedStep | pkr-tab-stat.py:588-596 | One turn keeps W, T and the class map exact for the pairs seen so far |
| Equity.ClassMapGrow | pkr-tab-stat.py:586-593 | The defaultdict append keeps the class map exact when a pair is added |
| Legend.LegendIds | pkr-tab-stat.py:419-441 | Every score has exactly one id in 1..10, and the id is 1 exactly for the ace-high straight flush |
| Legend.LegendIdsFollowRanking | pkr-tab-stat.py:419-441 | The id names the score's category, and a better score never gets a higher id |
| Legend.SortedIds | pkr-tab-stat.py:454-455 | sorted(found) lists exactly the ids found, ascending |
| Legend.AllIdsMeaning | pkr-tab-stat.py:443-452 | An id is possible exactly when some pair of two different remaining cards makes a hand under it |
| Legend.RoyalPossible | pkr-tab-stat.py:443-452 | Id 1 is possible exactly when some pair of remaining cards completes a royal flush |
| Legend.TenIdsAreAll | pkr-tab-stat.py:453-454 | Once ten ids are found, no other id can turn up |
| Legend.LegendPossiblesOnRiver | pkr-tab-stat.py:443-455 | The result, with or without the early return, is the sorted set of ids that some pair of cards not on the board makes with it; only the board is taken out of the deck (pkr-tab-stat.py:445) |
| Legend.ScanRow | pkr-tab-stat.py:449-454 | The inner loop adds row a's ids, stopping only when all possible ids are found |
| Legend.Visit | pkr-tab-stat.py:450-452 | One pair's ids join found |

## Left out

- The Streamlit interface, the HTML and CSS, and the rendering of tables, cards and charts. These are I/O and presentation.
- The Monte Carlo equity estimate and the analytic approximation for more opponents. They use floating point and repeated random sampling.
- The session flow: new_hand, progress_step, dealer rotation and the stage machine. These are interface state.
- describe_score, HAND_NAMES, the Romanian labels and legend_lines. They produce display text, so Resolver.WinnerDetails returns the winners and their combos but not the descriptions.
- Cards.ParseCard returns None for a string whose rank token is not one of the thirteen. The source looks the token up with `RANK_VAL[c[:-1]]` (pkr-tab-stat.py:187) and raises KeyError instead; that exception is not modelled. The cards the source evaluates are drawn from make_deck (pkr-tab-stat.py:444, 475, 579), whose tokens are all known.
- Dealing.Rng.RandInt: Python's Mersenne Twister is not modelled. The generator is an arbitrary stream of raw values, and every proof holds for every stream.
- Dealing.SeatOrder: NUM_PLAYERS is passed as a parameter instead of being read from the session.
- Dealing.Deck.Pop and its callers: when the deck is too short, the source fails inside `pop(0)`. The model requires enough cards instead of modelling that exception.
- BestHand.BestOfSevenWithCombo requires at least five cards. Below five, the source's loop never runs and `list(best_combo)` fails with a TypeError on `list(None)` (pkr-tab-stat.py:271); that exception is not modelled.
- Resolver.WinnerDetails and Resolver.HandScore require every hand plus the board to have at least five cards (Resolver.Playable). Otherwise the source fails inside best_of_seven_with_combo as above; that exception is not modelled.
- Legend.LegendPossiblesOnRiver and Equity.ExactEnumeration require a board of at least three cards, so that best_of_seven is defined for every pair. The source passes five.
- In several loops the body is a call to a helper method with the same effect, so that each proof stays small. These helpers are Dealing.OnePass, Dealing.DealTurn, Legend.ScanRow, Legend.Visit, Resolver.ScanHand, Resolver.PickWinners, Equity.Record, Equity.ScorePair and BestHand.ScoreSubset.
