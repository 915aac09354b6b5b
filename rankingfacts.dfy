/** Consequences of the evaluator's rules: how straights are topped (the
    wheel A-2-3-4-5 plays as 5-high), why the royal flush is the best five
    cards there are, and the scores of the standard example hands. */
module RankingFacts {

  import opened Cards
  import opened Scores
  import opened RankSeqs
  import opened Straights
  import opened Evaluator
  import opened HandRanking

  /** Five different rank values make no pair, trips or quads. */
  lemma SinglesOnly(cards: seq<Card>)
    requires forall v :: Count(cards, v) <= 1
    ensures !OfAKind(cards, 2) && !OfAKind(cards, 3) && !OfAKind(cards, 4) && !TwoPairs(cards)
  {
  }

  /** The ranks t, t-1, .., t-4 for a top t of 6 or more. */
  function RunRanks(t: int): multiset<int>
  {
    multiset{t, t - 1, t - 2, t - 3, t - 4}
  }

  /** Ranks t, .., t-4 hold a run with top t and no higher one, and no
      value twice. */
  lemma RunRanksFacts(cards: seq<Card>, t: int)
    requires 6 <= t <= 14 && multiset(Ranks(cards)) == RunRanks(t)
    ensures HasRun(Ranks(cards), t) && StraightHand(cards)
    ensures forall u :: HasRun(Ranks(cards), u) ==> u <= t
    ensures forall v :: Count(cards, v) <= 1
  {
    var r := Ranks(cards);
    RunMembers(r, t);
    RunTop(r, t);
    forall v ensures Count(cards, v) <= 1 {
      assert Count(cards, v) == RunRanks(t)[v];
    }
  }

  lemma RunMembers(r: seq<int>, t: int)
    requires multiset(r) == RunRanks(t)
    ensures forall v :: v in r <==> t - 4 <= v <= t
  {
    forall v ensures v in r <==> t - 4 <= v <= t {
      assert v in r <==> v in multiset(r);
    }
  }

  lemma RunTop(r: seq<int>, t: int)
    requires t >= 6 && forall v :: v in r <==> t - 4 <= v <= t
    ensures HasRun(r, t)
    ensures forall u :: HasRun(r, u) ==> u <= t
  {
    forall u | HasRun(r, u) ensures u <= t {
      assert Present(r, u);
    }
  }

  /** Five cards of consecutive ranks up to t (6 <= t <= 14) score as a
      straight, or a straight flush if they share a suit, with top t. */
  lemma RunOfFive(cards: seq<Card>, t: int)
    requires |cards| == 5 && 6 <= t <= 14 && multiset(Ranks(cards)) == RunRanks(t)
    ensures Score5(cards) == if FlushHand(cards) then StraightFlush(t) else Straight(t)
  {
    RunRanksFacts(cards, t);
    SinglesOnly(cards);
    Evaluate5Category(cards);
    StraightTop(cards);
  }

  /** A-5-4-3-2 holds a run with top 5 (the ace playing 1) and no higher
      one, and no value twice. */
  lemma WheelRanksFacts(cards: seq<Card>)
    requires multiset(Ranks(cards)) == multiset{14, 5, 4, 3, 2}
    ensures HasRun(Ranks(cards), 5) && StraightHand(cards)
    ensures forall u :: HasRun(Ranks(cards), u) ==> u <= 5
    ensures forall v :: Count(cards, v) <= 1
  {
    var r := Ranks(cards);
    assert forall v :: v in r <==> v == 14 || 2 <= v <= 5 by {
      forall v ensures v in r <==> v == 14 || 2 <= v <= 5 {
        assert v in r <==> v in multiset(r);
      }
    }
    assert HasRun(r, 5);
    forall u | HasRun(r, u) ensures u <= 5 {
      assert Present(r, u) && Present(r, u - 1);
    }
  }

  /** The wheel: an ace with 2, 3, 4 and 5 scores as a straight (or a
      straight flush) with top 5, the ace playing low. */
  lemma WheelIsFiveHigh(cards: seq<Card>)
    requires |cards| == 5 && multiset(Ranks(cards)) == multiset{14, 5, 4, 3, 2}
    ensures Score5(cards) == if FlushHand(cards) then StraightFlush(5) else Straight(5)
  {
    WheelRanksFacts(cards);
    SinglesOnly(cards);
    Evaluate5Category(cards);
    StraightTop(cards);
  }

  /** The wheel sits strictly below the 6-high straight. */
  lemma WheelBelowSixHigh(wheel: seq<Card>, six: seq<Card>)
    requires |wheel| == 5 && multiset(Ranks(wheel)) == multiset{14, 5, 4, 3, 2} && !FlushHand(wheel)
    requires |six| == 5 && multiset(Ranks(six)) == RunRanks(6) && !FlushHand(six)
    ensures Score5(wheel) == Straight(5) && Score5(six) == Straight(6)
    ensures Beats(Score5(six), Score5(wheel))
  {
    WheelIsFiveHigh(wheel);
    RunOfFive(six, 6);
    TopDecides(Straight(6), Straight(5));
  }

  /** Every straight, the wheel included, beats every score of a lower
      category: three of a kind, two pair, one pair and high card. */
  lemma StraightBeatsLowerCategories(top: int, s: Score)
    requires Category(s) < 4
    ensures Beats(Straight(top), s)
  {
    CategoryDecides(Straight(top), s);
  }

  /** Among scores whose straight flushes top out at the ace, nothing beats
      the royal flush and it beats everything else. */
  lemma RoyalIsMaximum(s: Score)
    requires s.StraightFlush? ==> s.top <= 14
    ensures !Beats(s, StraightFlush(14))
    ensures s != StraightFlush(14) ==> Beats(StraightFlush(14), s)
  {
    var royal := StraightFlush(14);
    CmpAntisymmetric(s, royal);
    if s.StraightFlush? {
      TopDecides(s, royal);
      TopDecides(royal, s);
    } else {
      CategoryDecides(royal, s);
    }
  }

  /** No five cards beat the royal flush (the straight flush with top 14),
      and every five cards scoring differently are beaten by it. */
  lemma RoyalFlushIsBest(cards: seq<Card>)
    requires |cards| == 5
    ensures !Beats(Score5(cards), StraightFlush(14))
    ensures Score5(cards) != StraightFlush(14) ==> Beats(StraightFlush(14), Score5(cards))
  {
    StraightTop(cards);
    RoyalIsMaximum(Score5(cards));
  }

  /** A♠ K♠ Q♠ J♠ 10♠ is a straight flush with top ace: the royal flush. */
  lemma RoyalFlushExample()
    ensures Score5([Card(14, Spades), Card(13, Spades), Card(12, Spades), Card(11, Spades), Card(10, Spades)])
      == StraightFlush(14)
  {
    var cards := [Card(14, Spades), Card(13, Spades), Card(12, Spades), Card(11, Spades), Card(10, Spades)];
    assert Ranks(cards) == [14, 13, 12, 11, 10];
    assert AllOfSuit(cards, Spades);
    RunOfFive(cards, 14);
  }

  /** The counts of 2, 2, 2, 5, 5. */
  lemma TwosOverFivesCounts(cards: seq<Card>)
    requires multiset(Ranks(cards)) == multiset{2, 2, 2, 5, 5}
    ensures OfAKind(cards, 3) && OfAKind(cards, 2) && !OfAKind(cards, 4)
  {
    var m := multiset{2, 2, 2, 5, 5};
    assert Count(cards, 2) == 3 && Count(cards, 5) == 2;
    assert forall v :: Count(cards, v) == m[v];
  }

  /** Three of one value and two of another that make 2, 2, 2, 5, 5. */
  lemma FullHouseFields(t: int, p: int)
    requires t != p && multiset{t, t, t, p, p} == multiset{2, 2, 2, 5, 5}
    ensures t == 2 && p == 5
  {
    var f := multiset{t, t, t, p, p};
    assert f[t] >= 3 && f[p] >= 2;
  }

  /** Only 2 and 5 occur in 2, 2, 2, 5, 5: no run of five. */
  lemma TwosOverFivesNoRun(cards: seq<Card>)
    requires multiset(Ranks(cards)) == multiset{2, 2, 2, 5, 5}
    ensures !StraightHand(cards)
  {
    var r := Ranks(cards);
    var m := multiset{2, 2, 2, 5, 5};
    forall v | Present(r, v) ensures v == 2 || v == 5 {
      assert m[14] == 0;
      assert v in r ==> m[v] > 0;
    }
    forall t ensures !HasRun(r, t) {
      assert !Present(r, t) || !Present(r, t - 1);
    }
  }

  /** Three twos and two fives are a full house, twos over fives:
      (6, 2, 5), whatever their suits. */
  lemma TwosOverFives(cards: seq<Card>)
    requires |cards| == 5 && multiset(Ranks(cards)) == multiset{2, 2, 2, 5, 5}
    ensures Score5(cards) == FullHouse(2, 5)
  {
    TwosOverFivesCounts(cards);
    TwosOverFivesNoRun(cards);
    assert CategoryOf(cards) == 6;
    Evaluate5Category(cards);
    var s := Score5(cards);
    assert s.FullHouse?;
    FullHouseMeaning(cards);
    FullHouseFields(s.trips, s.pair);
  }

  /** 2♣ 2♦ 2♥ 5♠ 5♣ scores (6, 2, 5). */
  lemma FullHouseExample()
    ensures Score5([Card(2, Clubs), Card(2, Diamonds), Card(2, Hearts), Card(5, Spades), Card(5, Clubs)])
      == FullHouse(2, 5)
  {
    var cards := [Card(2, Clubs), Card(2, Diamonds), Card(2, Hearts), Card(5, Spades), Card(5, Clubs)];
    assert Ranks(cards) == [2, 2, 2, 5, 5];
    TwosOverFives(cards);
  }
}
