/** Whole showdowns worked through the resolver: a royal flush on the board
    splits the pot among every player, and two aces in the hole with a third
    on the board make trip aces with king and nine kickers. */
module Showdowns {

  import opened Cards
  import opened Scores
  import opened RankSeqs
  import opened Straights
  import opened Evaluator
  import opened HandRanking
  import opened RankingFacts
  import opened Combinations
  import opened BestHand
  import opened Resolver

  /** A♦ K♦ Q♦ J♦ 10♦. */
  const RoyalBoard: seq<Card> :=
    [Card(14, Diamonds), Card(13, Diamonds), Card(12, Diamonds), Card(11, Diamonds), Card(10, Diamonds)]

  /** The board alone is the royal flush. */
  lemma RoyalBoardScore()
    ensures Score5(RoyalBoard) == StraightFlush(14)
  {
    var board := [Card(14, Diamonds), Card(13, Diamonds), Card(12, Diamonds), Card(11, Diamonds), Card(10, Diamonds)];
    assert Ranks(board) == [14, 13, 12, 11, 10];
    assert AllOfSuit(board, Diamonds);
    RunOfFive(board, 14);
  }

  /** Whatever a player holds, with a royal flush on the board their best
      five cards score the royal flush. */
  lemma PlaysTheBoard(h: seq<Card>)
    ensures HandScore(h, RoyalBoard) == StraightFlush(14)
  {
    var cards := h + RoyalBoard;
    var k := |h|;
    var c := [k, k + 1, k + 2, k + 3, k + 4];
    assert IsCombo(c, 0, |cards|, 5);
    assert Pick(cards, c) == RoyalBoard;
    RoyalBoardScore();
    BestIsMaximum(cards);
    var best := BestScore(cards).value;
    StraightTop(BestCombo(cards));
    RoyalIsMaximum(best);
  }

  /** The positions holding a score that every position holds: all of
      them, in order. */
  lemma {:induction false} IndicesOfAllEqual(scored: seq<Score>, s: Score)
    requires forall i :: 0 <= i < |scored| ==> scored[i] == s
    ensures |IndicesOf(scored, s)| == |scored|
    ensures forall j :: 0 <= j < |scored| ==> IndicesOf(scored, s)[j] == j
  {
    if |scored| > 0 {
      IndicesOfAllEqual(scored[..|scored| - 1], s);
    }
  }

  /** With A♦ K♦ Q♦ J♦ 10♦ on the board every player plays the board, so
      every player, in seat order, shares the pot. */
  lemma RoyalBoardSplitsPot(hands: seq<seq<Card>>)
    ensures Playable(hands, RoyalBoard)
    ensures var w := WinnersOf(ScoresOfHands(hands, RoyalBoard));
      |w| == |hands| && forall j :: 0 <= j < |hands| ==> w[j] == j
  {
    var scored := ScoresOfHands(hands, RoyalBoard);
    forall i | 0 <= i < |hands| ensures scored[i] == StraightFlush(14) {
      PlaysTheBoard(hands[i]);
    }
    if |hands| > 0 {
      assert MaxOf(scored, Beats) == StraightFlush(14);
    }
    IndicesOfAllEqual(scored, StraightFlush(14));
  }

  /** A♣ A♦ in the hole. */
  const AcesHole: seq<Card> := [Card(14, Clubs), Card(14, Diamonds)]

  /** A♥ 7♦ 2♠ 9♣ K♦ on the board. */
  const AcesBoard: seq<Card> :=
    [Card(14, Hearts), Card(7, Diamonds), Card(2, Spades), Card(9, Clubs), Card(13, Diamonds)]

  /** The ranks of the seven cards. */
  function AcesRanks(): multiset<int>
  {
    multiset{14, 14, 14, 13, 9, 7, 2}
  }

  /** Ranks drawn from A A A K 9 7 2 leave no run of five: every window of
      five values misses one of its top three. */
  lemma NoRunFromAces(h: seq<Card>)
    requires multiset(Ranks(h)) <= AcesRanks()
    ensures !StraightHand(h)
  {
    var r := Ranks(h);
    var m := AcesRanks();
    forall v | Present(r, v) ensures v in {1, 2, 7, 9, 13, 14} {
      assert v in r ==> m[v] > 0;
    }
    forall t ensures !HasRun(r, t) {
      assert !Present(r, t) || !Present(r, t - 1) || !Present(r, t - 2);
    }
  }

  /** Ranks drawn from A A A K 9 7 2 repeat only the ace, and at most
      three times: no quads, no full house, no two pair. */
  lemma OnlyAcesRepeat(h: seq<Card>)
    requires multiset(Ranks(h)) <= AcesRanks()
    ensures forall v :: Count(h, v) >= 2 ==> v == 14
    ensures Count(h, 14) <= 3
    ensures !OfAKind(h, 4) && !TwoPairs(h) && !(OfAKind(h, 3) && OfAKind(h, 2))
  {
    var m := AcesRanks();
    forall v | Count(h, v) >= 2 ensures v == 14 {
      assert Count(h, v) <= m[v];
    }
    assert Count(h, 14) <= m[14];
  }

  /** Five cards with ranks drawn from A A A K 9 7 2 and not all of one
      suit score at most trip aces with king and nine kickers. */
  lemma NothingBeatsTripAces(h: seq<Card>)
    requires |h| == 5 && multiset(Ranks(h)) <= AcesRanks() && !FlushHand(h)
    ensures !Beats(Score5(h), ThreeOfAKind(14, [13, 9]))
  {
    AtMostTrips(h);
    TripsMeaning(h);
    var s := Score5(h);
    if s.ThreeOfAKind? {
      TripsAndKickersFromAces(multiset(Ranks(h)), s.trips, s.kickers);
      KickersBelowKingNine(s.kickers);
    }
    BelowTripAces(s);
  }

  /** Without a flush, ranks drawn from A A A K 9 7 2 make three of a kind
      at best. */
  lemma AtMostTrips(h: seq<Card>)
    requires |h| == 5 && multiset(Ranks(h)) <= AcesRanks() && !FlushHand(h)
    ensures Category(Score5(h)) <= 3
  {
    NoRunFromAces(h);
    OnlyAcesRepeat(h);
    Evaluate5Category(h);
  }

  /** A score of category at most three, and if three of a kind then trip
      aces with kickers at most K 9, does not beat trip aces over K 9. */
  lemma BelowTripAces(s: Score)
    requires Category(s) <= 3
    requires s.ThreeOfAKind? ==> s.trips == 14 && LexCmp(s.kickers, [13, 9]) <= 0
    ensures !Beats(s, ThreeOfAKind(14, [13, 9]))
  {
    var best := ThreeOfAKind(14, [13, 9]);
    if Category(s) < 3 {
      CategoryDecides(best, s);
      CmpAntisymmetric(s, best);
    } else {
      assert Key(s) == [[3], [14], s.kickers];
      assert Key(s)[1..] == [[14], s.kickers] && Key(best)[1..] == [[14], [13, 9]];
      assert Key(s)[1..][1..] == [s.kickers] && Key(best)[1..][1..] == [[13, 9]];
    }
  }

  /** Only the ace occurs three times among A A A K 9 7 2; the other
      values occur once. */
  lemma TripsAndKickersFromAces(r: multiset<int>, t: int, ks: seq<int>)
    requires r <= AcesRanks()
    requires |ks| == 2 && t !in ks
    requires r == multiset{t, t, t} + multiset(ks)
    ensures t == 14 && ks[0] in {13, 9, 7, 2} && ks[1] in {13, 9, 7, 2}
  {
    var m := AcesRanks();
    assert r[t] >= 3 && r[t] <= m[t];
    assert r[ks[0]] > 0 && r[ks[0]] <= m[ks[0]];
    assert r[ks[1]] > 0 && r[ks[1]] <= m[ks[1]];
  }

  /** Two different values from K 9 7 2, highest first, are at most K 9. */
  lemma KickersBelowKingNine(ks: seq<int>)
    requires |ks| == 2 && ks[0] > ks[1] && ks[0] in {13, 9, 7, 2} && ks[1] in {13, 9, 7, 2}
    ensures LexCmp(ks, [13, 9]) <= 0
  {
    if ks[0] == 13 {
      var rest := ks[1..];
      assert rest == [ks[1]] && rest[1..] == [] && [13, 9][1..] == [9] && [9][1..] == [];
      assert LexCmp(rest, [9]) <= 0;
    }
  }

  /** Trip aces with a king and a nine, not all of one suit, score trip aces
      with king and nine kickers. */
  lemma TripAcesKingNine(h: seq<Card>)
    requires |h| == 5 && multiset(Ranks(h)) == multiset{14, 14, 14, 13, 9} && !FlushHand(h)
    ensures Score5(h) == ThreeOfAKind(14, [13, 9])
  {
    assert multiset(Ranks(h)) <= AcesRanks();
    assert Count(h, 14) == 3;
    AtMostTrips(h);
    Evaluate5Category(h);
    TripsMeaning(h);
    var s := Score5(h);
    TripsAndKickersFromAces(multiset(Ranks(h)), s.trips, s.kickers);
    KingNineKickers(s.kickers);
  }

  /** Two values, highest first, that make K and 9 are [13, 9]. */
  lemma KingNineKickers(ks: seq<int>)
    requires |ks| == 2 && StrictDesc(ks) && multiset{14, 14, 14} + multiset(ks) == multiset{14, 14, 14, 13, 9}
    ensures ks == [13, 9]
  {
    var k := multiset(ks);
    assert k == multiset{13, 9};
    assert ks[0] in k && ks[1] in k;
  }

  /** The seven cards with trip aces at positions 0, 1, 2 (the aces),
      5 (9♣) and 6 (K♦). */
  lemma TripAcesFive(cards: seq<Card>)
    requires cards == AcesHole + AcesBoard
    ensures IsCombo([0, 1, 2, 5, 6], 0, |cards|, 5)
    ensures Score5(Pick(cards, [0, 1, 2, 5, 6])) == ThreeOfAKind(14, [13, 9])
  {
    var top := [Card(14, Clubs), Card(14, Diamonds), Card(14, Hearts), Card(9, Clubs), Card(13, Diamonds)];
    assert IsCombo([0, 1, 2, 5, 6], 0, |cards|, 5);
    assert Pick(cards, [0, 1, 2, 5, 6]) == top;
    TopFive();
    TripAcesKingNine(top);
  }

  /** A♣ A♦ A♥ 9♣ K♦: ranks A A A K 9, clubs and diamonds. */
  lemma TopFive()
    ensures var top := [Card(14, Clubs), Card(14, Diamonds), Card(14, Hearts), Card(9, Clubs), Card(13, Diamonds)];
      multiset(Ranks(top)) == multiset{14, 14, 14, 13, 9} && !FlushHand(top)
  {
    var top := [Card(14, Clubs), Card(14, Diamonds), Card(14, Hearts), Card(9, Clubs), Card(13, Diamonds)];
    assert Ranks(top) == [14, 14, 14, 9, 13];
    forall s ensures !AllOfSuit(top, s) {
      assert top[0] in top && top[1] in top;
    }
  }

  /** No five of the seven cards are of one suit: clubs are at positions
      0 and 5, diamonds at 1, 3 and 6, the heart at 2 and the spade at 4. */
  lemma NoFlushAmongAces(cards: seq<Card>, c: seq<nat>)
    requires cards == AcesHole + AcesBoard && IsCombo(c, 0, |cards|, 5)
    ensures !FlushHand(Pick(cards, c))
  {
    var h := Pick(cards, c);
    forall s ensures !AllOfSuit(h, s) {
      assert h[0] in h && h[1] in h && h[2] in h && h[3] in h && h[4] in h;
      assert c[0] < c[1] < c[2] < c[3] < c[4];
    }
  }

  /** The ranks of five of the seven cards are drawn from A A A K 9 7 2. */
  lemma AcesSubsetRanks(cards: seq<Card>, c: seq<nat>)
    requires cards == AcesHole + AcesBoard && IsCombo(c, 0, |cards|, 5)
    ensures multiset(Ranks(Pick(cards, c))) <= AcesRanks()
  {
    var r := Ranks(cards);
    assert r == [14, 14, 14, 7, 2, 9, 13];
    assert Ranks(Pick(cards, c)) == Pick(r, c);
    PickIsSubMultiset(r, c);
  }

  /** Trip aces over K 9 is among the seven cards' five-card scores, so
      the best score is at least that. */
  lemma TripAcesReached(cards: seq<Card>)
    requires cards == AcesHole + AcesBoard
    ensures BestScore(cards).Some? && !Beats(ThreeOfAKind(14, [13, 9]), BestScore(cards).value)
  {
    TripAcesFive(cards);
    BestIsMaximum(cards);
  }

  /** The best five of the seven cards score no more than trip aces over
      K 9. */
  lemma TripAcesNotBeaten(cards: seq<Card>)
    requires cards == AcesHole + AcesBoard
    ensures BestScore(cards).Some? && !Beats(BestScore(cards).value, ThreeOfAKind(14, [13, 9]))
  {
    BestIsMaximum(cards);
    var k := BestIndex(cards);
    ScanEnd(cards, k);
    SubsetAt(cards, k);
    var c := Combos(|cards|, 5)[k];
    NoFlushAmongAces(cards, c);
    AcesSubsetRanks(cards, c);
    NothingBeatsTripAces(Pick(cards, c));
  }

  /** A♣ A♦ against A♥ 7♦ 2♠ 9♣ K♦: the best five cards are trip aces
      with king and nine kickers, (3, 14, [13, 9]). */
  lemma TripAces()
    ensures HandScore(AcesHole, AcesBoard) == ThreeOfAKind(14, [13, 9])
  {
    var cards := AcesHole + AcesBoard;
    TripAcesReached(cards);
    TripAcesNotBeaten(cards);
    NeitherBeatsIsEqual(BestScore(cards).value, ThreeOfAKind(14, [13, 9]));
  }

  /** Two scores neither of which beats the other are the same score. */
  lemma NeitherBeatsIsEqual(a: Score, b: Score)
    requires !Beats(a, b) && !Beats(b, a)
    ensures a == b
  {
    CmpAntisymmetric(a, b);
  }
}
