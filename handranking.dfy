/** What evaluate_5 computes, stated on the hand itself: which category it
    reports (the categories are tried strongest first) and what each
    category's tiebreak fields are, in terms of the multiset of the hand's
    rank values and its suits. */
module HandRanking {

  import opened Options
  import opened Cards
  import opened Scores
  import opened RankSeqs
  import opened Straights
  import opened Evaluator

  /** How many cards of the hand have rank value v. */
  ghost function Count(cards: seq<Card>, v: int): nat
  {
    multiset(Ranks(cards))[v]
  }

  /** All cards share one suit. */
  ghost predicate FlushHand(cards: seq<Card>)
  {
    exists s :: AllOfSuit(cards, s)
  }

  /** The ranks hold five consecutive values, the ace playing high or low. */
  ghost predicate StraightHand(cards: seq<Card>)
  {
    exists t :: HasRun(Ranks(cards), t)
  }

  /** Some rank value occurs exactly k times. */
  ghost predicate OfAKind(cards: seq<Card>, k: nat)
  {
    exists v :: Count(cards, v) == k
  }

  /** Two different rank values occur exactly twice each. */
  ghost predicate TwoPairs(cards: seq<Card>)
  {
    exists v, w :: v != w && Count(cards, v) == 2 && Count(cards, w) == 2
  }

  /** The category of a hand by the rules of poker, strongest test first. */
  ghost function CategoryOf(cards: seq<Card>): int
  {
    if FlushHand(cards) && StraightHand(cards) then 8
    else if OfAKind(cards, 4) then 7
    else if OfAKind(cards, 3) && OfAKind(cards, 2) then 6
    else if FlushHand(cards) then 5
    else if StraightHand(cards) then 4
    else if OfAKind(cards, 3) then 3
    else if TwoPairs(cards) then 2
    else if OfAKind(cards, 2) then 1
    else 0
  }

  /** The intermediate values of evaluate_5 and what each of them is. */
  lemma Pieces(cards: seq<Card>)
    returns (vals: seq<int>, flush: bool, sf: Option<int>, st: Option<int>, g: Grouping)
    requires |cards| == 5
    ensures vals == CardVals(cards) && |vals| == 5 && GroupedBy(vals, g)
    ensures flush <==> FlushHand(cards)
    ensures st == IsStraight(vals)
    ensures sf == if flush then st else None
    ensures Score5(cards) == Branches(vals, flush, sf, st, g)
  {
    vals := CardVals(cards);
    g := Groups(vals, FreqOf(vals));
    var fl := IsFlush(cards);
    FlushOfFive(cards);
    flush := fl.Some?;
    st := IsStraight(vals);
    if flush {
      assert OfSuit(cards, fl.value) == cards;
    }
    sf := if flush then st else None;
  }

  /** The value lists of the grouping answer the questions CategoryOf
      asks about counts. */
  lemma GroupsAnswerCounts(cards: seq<Card>, vals: seq<int>, g: Grouping)
    requires |cards| == 5 && vals == CardVals(cards) && GroupedBy(vals, g)
    ensures |g.fours| > 0 <==> OfAKind(cards, 4)
    ensures |g.threes| > 0 <==> OfAKind(cards, 3)
    ensures |g.pairs| > 0 <==> OfAKind(cards, 2)
    ensures |g.pairs| >= 2 <==> TwoPairs(cards)
  {
    GroupAnswers(cards, vals, g.fours, 4);
    GroupAnswers(cards, vals, g.threes, 3);
    GroupAnswers(cards, vals, g.pairs, 2);
    PairsAnswer(cards, vals, g.pairs);
  }

  /** A list holding exactly the values of count k is non-empty exactly
      when some rank occurs k times. */
  lemma GroupAnswers(cards: seq<Card>, vals: seq<int>, grp: seq<int>, k: nat)
    requires vals == CardVals(cards) && k > 0
    requires forall v :: v in grp <==> v in vals && multiset(vals)[v] == k
    ensures |grp| > 0 <==> OfAKind(cards, k)
  {
    assert forall v :: Count(cards, v) == multiset(vals)[v];
    if |grp| > 0 {
      assert grp[0] in grp;
      assert Count(cards, grp[0]) == k;
    }
    if OfAKind(cards, k) {
      var v :| Count(cards, v) == k;
      assert v in vals && v in grp;
    }
  }

  /** A list of the values of count two, without repeats, has two entries
      exactly when two ranks are paired. */
  lemma PairsAnswer(cards: seq<Card>, vals: seq<int>, pairs: seq<int>)
    requires vals == CardVals(cards) && StrictDesc(pairs)
    requires forall v :: v in pairs <==> v in vals && multiset(vals)[v] == 2
    ensures |pairs| >= 2 <==> TwoPairs(cards)
  {
    assert forall v :: Count(cards, v) == multiset(vals)[v];
    if |pairs| >= 2 {
      assert pairs[0] in pairs && pairs[1] in pairs;
    }
    if TwoPairs(cards) {
      var v, w :| v != w && Count(cards, v) == 2 && Count(cards, w) == 2;
      assert v in pairs && w in pairs;
    }
  }

  /** is_straight of the sorted values answers StraightHand. */
  lemma StraightAnswersRuns(cards: seq<Card>)
    ensures IsStraight(CardVals(cards)).Some? <==> StraightHand(cards)
  {
    HasRunSameMembers(CardVals(cards), Ranks(cards));
    StraightIsHighestRun(CardVals(cards));
  }

  /** evaluate_5 reports the category the rules of poker give the hand,
      testing straight flush, four of a kind, full house, flush, straight,
      three of a kind, two pair and one pair in that order. */
  lemma Evaluate5Category(cards: seq<Card>)
    requires |cards| == 5
    ensures Category(Score5(cards)) == CategoryOf(cards)
  {
    var vals, flush, sf, st, g := Pieces(cards);
    BranchCategory(vals, flush, sf, st, g);
    GroupsAnswerCounts(cards, vals, g);
    StraightAnswersRuns(cards);
  }

  /** The category each branch reports. */
  lemma BranchCategory(vals: seq<int>, flush: bool, sf: Option<int>, st: Option<int>, g: Grouping)
    requires |vals| == 5 && GroupedBy(vals, g)
    ensures Category(Branches(vals, flush, sf, st, g)) ==
      if sf.Some? then 8
      else if |g.fours| > 0 then 7
      else if |g.threes| > 0 && |g.pairs| > 0 then 6
      else if flush then 5
      else if st.Some? then 4
      else if |g.threes| > 0 then 3
      else if |g.pairs| >= 2 then 2
      else if |g.pairs| > 0 then 1
      else 0
  {
  }

  /** Straights and straight flushes carry the top of the highest run of
      five consecutive ranks, the wheel A-2-3-4-5 having top 5. */
  lemma StraightTop(cards: seq<Card>)
    requires |cards| == 5
    ensures var s := Score5(cards);
      s.Straight? || s.StraightFlush? ==>
        5 <= s.top <= 14 && HasRun(Ranks(cards), s.top) &&
        forall t :: HasRun(Ranks(cards), t) ==> t <= s.top
  {
    var vals, flush, sf, st, g := Pieces(cards);
    HasRunSameMembers(vals, Ranks(cards));
    StraightIsHighestRun(vals);
  }

  /** The facts about evaluate_5's intermediate values that its
      category branches rely on. */
  ghost predicate Shaped(vals: seq<int>, g: Grouping)
  {
    |vals| == 5 && Desc(vals) && GroupedBy(vals, g)
  }

  lemma QuadsBranch(vals: seq<int>, flush: bool, sf: Option<int>, st: Option<int>, g: Grouping)
    requires Shaped(vals, g)
    ensures var s := Branches(vals, flush, sf, st, g);
      s.FourOfAKind? ==>
        s.quad != s.kicker && multiset(vals) == multiset{s.quad, s.quad, s.quad, s.quad, s.kicker}
  {
    var s := Branches(vals, flush, sf, st, g);
    if sf.None? && |g.fours| > 0 {
      var q := g.fours[0];
      assert q in g.fours;
      var others := Without(vals, q);
      WithoutSize(vals, q);
      assert s == FourOfAKind(q, MaxElem(others));
      QuadsCounts(vals, q);
    } else {
      assert !s.FourOfAKind?;
    }
  }

  /** Four of q leave one other value, the kicker. */
  lemma QuadsCounts(vals: seq<int>, q: int)
    requires |vals| == 5 && multiset(vals)[q] == 4
    ensures |Without(vals, q)| == 1
    ensures var k := MaxElem(Without(vals, q));
      q != k && multiset(vals) == multiset{q, q, q, q, k}
  {
    var others := Without(vals, q);
    WithoutSize(vals, q);
    assert others[0] in others;
    var k := others[0];
    assert MaxElem(others) == k;
    assert multiset(others) == multiset{k};
    assert multiset(vals) == multiset{q, q, q, q, k} by {
      forall v ensures multiset(vals)[v] == multiset{q, q, q, q, k}[v] {
        if v == q {
          assert multiset{q, q, q, q, k}[v] == 4;
        } else {
          assert multiset(others)[v] == multiset(vals)[v];
        }
      }
    }
  }

  /** Four of a kind: four cards of the quad rank, and the fifth card's
      rank as kicker. */
  lemma QuadsMeaning(cards: seq<Card>)
    requires |cards| == 5
    ensures var s := Score5(cards);
      s.FourOfAKind? ==>
        s.quad != s.kicker &&
        multiset(Ranks(cards)) == multiset{s.quad, s.quad, s.quad, s.quad, s.kicker}
  {
    var vals, flush, sf, st, g := Pieces(cards);
    QuadsBranch(vals, flush, sf, st, g);
  }

  lemma FullHouseBranch(vals: seq<int>, flush: bool, sf: Option<int>, st: Option<int>, g: Grouping)
    requires Shaped(vals, g)
    ensures var s := Branches(vals, flush, sf, st, g);
      s.FullHouse? ==>
        s.trips != s.pair && multiset(vals) == multiset{s.trips, s.trips, s.trips, s.pair, s.pair}
  {
    var s := Branches(vals, flush, sf, st, g);
    if sf.None? && |g.fours| == 0 && |g.threes| > 0 && |g.pairs| > 0 {
      var t, p := g.threes[0], g.pairs[0];
      assert s == FullHouse(t, p);
      assert t in g.threes && p in g.pairs;
      FullHouseCounts(vals, t, p);
    } else {
      assert !s.FullHouse?;
    }
  }

  /** Three of one value and two of another make up five values. */
  lemma FullHouseCounts(vals: seq<int>, t: int, p: int)
    requires |vals| == 5 && multiset(vals)[t] == 3 && multiset(vals)[p] == 2
    ensures t != p && multiset(vals) == multiset{t, t, t, p, p}
  {
    SubmultisetSize(multiset{t, t, t, p, p}, multiset(vals));
  }

  /** Full house: three cards of the trips rank and two of the pair rank. */
  lemma FullHouseMeaning(cards: seq<Card>)
    requires |cards| == 5
    ensures var s := Score5(cards);
      s.FullHouse? ==>
        s.trips != s.pair &&
        multiset(Ranks(cards)) == multiset{s.trips, s.trips, s.trips, s.pair, s.pair}
  {
    var vals, flush, sf, st, g := Pieces(cards);
    FullHouseBranch(vals, flush, sf, st, g);
  }

  /** Flush and high card carry all five rank values, highest first. */
  lemma AllRanksMeaning(cards: seq<Card>)
    requires |cards| == 5
    ensures var s := Score5(cards);
      s.Flush? || s.HighCard? ==>
        Desc(s.ranks) && multiset(s.ranks) == multiset(Ranks(cards))
  {
    var vals, flush, sf, st, g := Pieces(cards);
    AllRanksBranch(vals, flush, sf, st, g);
  }

  lemma AllRanksBranch(vals: seq<int>, flush: bool, sf: Option<int>, st: Option<int>, g: Grouping)
    requires Shaped(vals, g)
    ensures var s := Branches(vals, flush, sf, st, g);
      s.Flush? || s.HighCard? ==> Desc(s.ranks) && multiset(s.ranks) == multiset(vals)
  {
    var s := Branches(vals, flush, sf, st, g);
    if s.Flush? {
      assert s == Flush(SortDesc(vals));
    } else if s.HighCard? {
      assert s == HighCard(vals);
    }
  }

  lemma TripsBranch(vals: seq<int>, flush: bool, sf: Option<int>, st: Option<int>, g: Grouping)
    requires Shaped(vals, g)
    ensures var s := Branches(vals, flush, sf, st, g);
      s.ThreeOfAKind? ==>
        |s.kickers| == 2 && StrictDesc(s.kickers) && s.trips !in s.kickers &&
        multiset(vals) == multiset{s.trips, s.trips, s.trips} + multiset(s.kickers)
  {
    var s := Branches(vals, flush, sf, st, g);
    if sf.None? && |g.fours| == 0 && |g.threes| > 0 && |g.pairs| == 0 && !flush && st.None? {
      var t := g.threes[0];
      assert s == ThreeOfAKind(t, Take(Without(vals, t), 2));
      assert t in g.threes;
      TripsKickers(vals, t);
    } else {
      assert !s.ThreeOfAKind?;
    }
  }

  /** With three of t and no pair, the other two values differ and, highest
      first, are what is left of the hand. */
  lemma TripsKickers(vals: seq<int>, t: int)
    requires |vals| == 5 && Desc(vals) && multiset(vals)[t] == 3
    requires forall v :: v in vals ==> multiset(vals)[v] != 2
    ensures var ks := Take(Without(vals, t), 2);
      |ks| == 2 && StrictDesc(ks) && t !in ks &&
      multiset(vals) == multiset{t, t, t} + multiset(ks)
  {
    var others := Without(vals, t);
    WithoutSize(vals, t);
    WithoutDesc(vals, t);
    assert |others| == 2 && Take(others, 2) == others;
    assert others[0] in others && others[1] in others;
    if others[0] == others[1] {
      TwoIndices(others, 0, 1);
      assert false;
    }
    assert StrictDesc(others);
    SplitOff(vals, t);
  }

  /** Three of a kind: the trips rank, then the two other ranks, which
      differ, highest first. */
  lemma TripsMeaning(cards: seq<Card>)
    requires |cards| == 5
    ensures var s := Score5(cards);
      s.ThreeOfAKind? ==>
        |s.kickers| == 2 && StrictDesc(s.kickers) && s.trips !in s.kickers &&
        multiset(Ranks(cards)) == multiset{s.trips, s.trips, s.trips} + multiset(s.kickers)
  {
    var vals, flush, sf, st, g := Pieces(cards);
    TripsBranch(vals, flush, sf, st, g);
  }

  lemma TwoPairBranch(vals: seq<int>, flush: bool, sf: Option<int>, st: Option<int>, g: Grouping)
    requires Shaped(vals, g)
    ensures var s := Branches(vals, flush, sf, st, g);
      s.TwoPair? ==>
        |s.pairs| == 2 && s.pairs[0] > s.pairs[1] && s.kicker !in s.pairs &&
        multiset(vals) == multiset{s.pairs[0], s.pairs[0], s.pairs[1], s.pairs[1], s.kicker}
  {
    var s := Branches(vals, flush, sf, st, g);
    if sf.None? && |g.fours| == 0 && |g.threes| == 0 && !flush && st.None? && |g.pairs| >= 2 {
      assert s == TwoPairOf(vals, g.pairs);
      var p, q := g.pairs[0], g.pairs[1];
      assert p in g.pairs && q in g.pairs;
      assert s.pairs == [p, q];
      TwoPairCounts(vals, p, q, s.kicker);
    } else {
      assert !s.TwoPair?;
    }
  }

  /** Two of p, two of q and a fifth value k make up five values. */
  lemma TwoPairCounts(vals: seq<int>, p: int, q: int, k: int)
    requires |vals| == 5 && p != q && k != p && k != q && k in vals
    requires multiset(vals)[p] == 2 && multiset(vals)[q] == 2
    ensures multiset(vals) == multiset{p, p, q, q, k}
  {
    SubmultisetSize(multiset{p, p, q, q, k}, multiset(vals));
  }

  /** Two pair: the two pair ranks, higher first, then the fifth card's
      rank. */
  lemma TwoPairMeaning(cards: seq<Card>)
    requires |cards| == 5
    ensures var s := Score5(cards);
      s.TwoPair? ==>
        |s.pairs| == 2 && s.pairs[0] > s.pairs[1] && s.kicker !in s.pairs &&
        multiset(Ranks(cards)) == multiset{s.pairs[0], s.pairs[0], s.pairs[1], s.pairs[1], s.kicker}
  {
    var vals, flush, sf, st, g := Pieces(cards);
    TwoPairBranch(vals, flush, sf, st, g);
  }

  /** With exactly one pair and nothing bigger, the other three values
      occur once each. */
  lemma PairLeavesSingles(vals: seq<int>, g: Grouping, p: int)
    requires Shaped(vals, g) && g.pairs == [p] && |g.threes| == 0 && |g.fours| == 0
    ensures forall v :: multiset(Without(vals, p))[v] <= 1
  {
    assert p in g.pairs;
    var others := Without(vals, p);
    forall v ensures multiset(others)[v] <= 1 {
      if multiset(others)[v] >= 2 {
        if multiset(vals)[v] >= 4 {
          SubmultisetSize(multiset{p, p, v, v, v, v}, multiset(vals));
        }
        assert false;
      }
    }
  }

  lemma OnePairBranch(vals: seq<int>, flush: bool, sf: Option<int>, st: Option<int>, g: Grouping)
    requires Shaped(vals, g)
    ensures var s := Branches(vals, flush, sf, st, g);
      s.OnePair? ==>
        |s.kickers| == 3 && StrictDesc(s.kickers) && s.pair !in s.kickers &&
        multiset(vals) == multiset{s.pair, s.pair} + multiset(s.kickers)
  {
    var s := Branches(vals, flush, sf, st, g);
    if sf.None? && |g.fours| == 0 && |g.threes| == 0 && !flush && st.None? && |g.pairs| == 1 {
      var p := g.pairs[0];
      assert s == OnePair(p, Take(Without(vals, p), 3));
      assert p in g.pairs;
      assert |g.pairs| == 1 && |g.threes| == 0 && |g.fours| == 0;
      assert g.pairs == [p];
      var others := Without(vals, p);
      WithoutSize(vals, p);
      assert Take(others, 3) == others;
      PairLeavesSingles(vals, g, p);
      WithoutDesc(vals, p);
      NoRepeatsStrict(others);
      SplitOff(vals, p);
    } else {
      assert !s.OnePair?;
    }
  }

  /** One pair: the pair rank, then the three other ranks, which all
      differ, highest first. */
  lemma OnePairMeaning(cards: seq<Card>)
    requires |cards| == 5
    ensures var s := Score5(cards);
      s.OnePair? ==>
        |s.kickers| == 3 && StrictDesc(s.kickers) && s.pair !in s.kickers &&
        multiset(Ranks(cards)) == multiset{s.pair, s.pair} + multiset(s.kickers)
  {
    var vals, flush, sf, st, g := Pieces(cards);
    OnePairBranch(vals, flush, sf, st, g);
  }
}
