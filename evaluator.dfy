/** The five-card evaluator: card_vals, is_flush and evaluate_5. */
module Evaluator {

  import opened Options
  import opened Cards
  import opened Scores
  import opened RankSeqs
  import opened Straights

  /** The rank values of the cards, in card order. */
  function Ranks(cards: seq<Card>): (r: seq<int>)
    ensures |r| == |cards| && forall i :: 0 <= i < |cards| ==> r[i] == cards[i].rank
    ensures IsRanks(r)
  {
    seq(|cards|, i requires 0 <= i < |cards| => cards[i].rank as int)
  }

  /** card_vals: the rank values, highest first. */
  function CardVals(cards: seq<Card>): (r: seq<int>)
    ensures Desc(r) && multiset(r) == multiset(Ranks(cards)) && |r| == |cards|
    ensures IsRanks(r) && forall v :: v in r <==> v in Ranks(cards)
  {
    var r := SortDesc(Ranks(cards));
    assert |r| == |multiset(r)|;
    assert forall v :: v in r <==> v in multiset(r);
    r
  }

  /** All the cards have suit s. */
  predicate AllOfSuit(cards: seq<Card>, s: Suit)
  {
    forall c :: c in cards ==> c.suit == s
  }

  /** [c for c in cards if c[-1] == s]. */
  function OfSuit(cards: seq<Card>, s: Suit): seq<Card>
  {
    if |cards| == 0 then []
    else if cards[0].suit == s then [cards[0]] + OfSuit(cards[1..], s)
    else OfSuit(cards[1..], s)
  }

  /** The cards of suit s, in order: all of them exactly when every card
      has suit s. */
  lemma {:induction false} OfSuitFacts(cards: seq<Card>, s: Suit)
    ensures |OfSuit(cards, s)| <= |cards|
    ensures |OfSuit(cards, s)| == |cards| <==> AllOfSuit(cards, s)
    ensures AllOfSuit(cards, s) ==> OfSuit(cards, s) == cards
  {
    if |cards| > 0 {
      OfSuitFacts(cards[1..], s);
      assert cards == [cards[0]] + cards[1..];
      assert forall c :: c in cards[1..] ==> c in cards;
    }
  }

  /** is_flush: the first suit, in the order of the suit string, that five
      of the cards have. */
  function IsFlush(cards: seq<Card>): Option<Suit>
  {
    if |OfSuit(cards, Clubs)| == 5 then Some(Clubs)
    else if |OfSuit(cards, Diamonds)| == 5 then Some(Diamonds)
    else if |OfSuit(cards, Hearts)| == 5 then Some(Hearts)
    else if |OfSuit(cards, Spades)| == 5 then Some(Spades)
    else None
  }

  /** On five cards is_flush reports a suit exactly when all five cards
      have one suit, and then it reports that suit. */
  lemma FlushOfFive(cards: seq<Card>)
    requires |cards| == 5
    ensures IsFlush(cards).Some? <==> exists s :: AllOfSuit(cards, s)
    ensures IsFlush(cards).Some? ==> OfSuit(cards, IsFlush(cards).value) == cards
  {
    OfSuitFacts(cards, Clubs);
    OfSuitFacts(cards, Diamonds);
    OfSuitFacts(cards, Hearts);
    OfSuitFacts(cards, Spades);
    if s :| AllOfSuit(cards, s) {
      assert s == Clubs || s == Diamonds || s == Hearts || s == Spades;
    }
  }

  /** The freq dict of evaluate_5, built as its loop builds it: one
      increment of freq.get(v, 0) per value, in list order. */
  function FreqOf(vals: seq<int>): map<int, nat>
  {
    if |vals| == 0 then map[]
    else
      var f := FreqOf(vals[..|vals| - 1]);
      var v := vals[|vals| - 1];
      f[v := (if v in f then f[v] else 0) + 1]
  }

  /** The dict counts every value of the list, and holds nothing else. */
  lemma {:induction false} FreqOfCounts(vals: seq<int>)
    ensures forall v :: v in FreqOf(vals) <==> v in vals
    ensures forall v :: v in FreqOf(vals) ==> FreqOf(vals)[v] == multiset(vals)[v]
  {
    if |vals| > 0 {
      var init := vals[..|vals| - 1];
      assert vals == init + [vals[|vals| - 1]];
      FreqOfCounts(init);
    }
  }

  /** [v for v, c in groups if c == k], where groups lists the distinct
      values ordered by (count, value) descending. Filtering that list on
      one count keeps the values of that count highest first, which is
      the same as filtering the distinct values, highest first (u). */
  function Having(u: seq<int>, freq: map<int, nat>, k: nat): seq<int>
    requires forall i :: 0 <= i < |u| ==> u[i] in freq
  {
    if |u| == 0 then []
    else
      var t := Having(u[1..], freq, k);
      if freq[u[0]] == k then [u[0]] + t else t
  }

  lemma {:induction false} HavingFacts(u: seq<int>, freq: map<int, nat>, k: nat)
    requires forall i :: 0 <= i < |u| ==> u[i] in freq
    ensures forall v :: v in Having(u, freq, k) <==> v in u && freq[v] == k
    ensures StrictDesc(u) ==> StrictDesc(Having(u, freq, k))
  {
    if |u| > 0 {
      assert u == [u[0]] + u[1..];
      HavingFacts(u[1..], freq, k);
      var t := Having(u[1..], freq, k);
      if StrictDesc(u) {
        forall i | 0 <= i < |t| ensures t[i] < u[0] {
          assert t[i] in t;
          assert t[i] in u[1..];
        }
      }
    }
  }

  /** The values that occur four, three and two times. */
  datatype Grouping = Grouping(fours: seq<int>, threes: seq<int>, pairs: seq<int>)

  /** Each list of g holds exactly the values of vals with its count,
      highest first. */
  ghost predicate GroupedBy(vals: seq<int>, g: Grouping)
  {
    && StrictDesc(g.fours) && StrictDesc(g.threes) && StrictDesc(g.pairs)
    && (forall v :: v in g.fours <==> v in vals && multiset(vals)[v] == 4)
    && (forall v :: v in g.threes <==> v in vals && multiset(vals)[v] == 3)
    && (forall v :: v in g.pairs <==> v in vals && multiset(vals)[v] == 2)
  }

  /** The value lists evaluate_5 reads off its groups. */
  function Groups(vals: seq<int>, freq: map<int, nat>): (g: Grouping)
    requires freq == FreqOf(vals)
    ensures GroupedBy(vals, g)
  {
    var u := DistinctDesc(vals);
    FreqOfCounts(vals);
    HavingFacts(u, freq, 4);
    HavingFacts(u, freq, 3);
    HavingFacts(u, freq, 2);
    Grouping(Having(u, freq, 4), Having(u, freq, 3), Having(u, freq, 2))
  }

  /** evaluate_5 after its counting loop: is_flush, is_straight of the
      flush suit's values and of all values, then the category branches. */
  function Classify(cards: seq<Card>, vals: seq<int>, freq: map<int, nat>): Score
    requires |vals| == 5 && freq == FreqOf(vals)
  {
    var g := Groups(vals, freq);
    var fl := IsFlush(cards);
    var sf := if fl.Some? then IsStraight(CardVals(OfSuit(cards, fl.value))) else None;
    Branches(vals, fl.Some?, sf, IsStraight(vals), g)
  }

  /** The category branches of evaluate_5, in the source's order. The
      arguments are the sorted values, whether there is a flush, the
      straight within the flush suit, the straight, and the values of
      count four, three and two. */
  function Branches(vals: seq<int>, flush: bool, sf: Option<int>, st: Option<int>, g: Grouping): Score
    requires |vals| == 5 && StrictDesc(g.pairs)
    requires forall v :: v in g.pairs ==> multiset(vals)[v] == 2
  {
    if sf.Some? then StraightFlush(sf.value)
    else if |g.fours| > 0 then
      var others := Without(vals, g.fours[0]);
      FourOfAKind(g.fours[0], if |others| > 0 then MaxElem(others) else 0)
    else if |g.threes| > 0 && |g.pairs| > 0 then FullHouse(g.threes[0], g.pairs[0])
    else if flush then Flush(SortDesc(vals))
    else if st.Some? then Straight(st.value)
    else if |g.threes| > 0 then ThreeOfAKind(g.threes[0], Take(Without(vals, g.threes[0]), 2))
    else if |g.pairs| >= 2 then TwoPairOf(vals, g.pairs)
    else if |g.pairs| > 0 then OnePair(g.pairs[0], Take(Without(vals, g.pairs[0]), 3))
    else HighCard(vals)
  }

  /** The two-pair branch: the two highest pairs, then the first value of
      the hand outside them. */
  function TwoPairOf(vals: seq<int>, pairs: seq<int>): (s: Score)
    requires |vals| == 5 && |pairs| >= 2 && StrictDesc(pairs)
    requires forall v :: v in pairs ==> multiset(vals)[v] == 2
    ensures s.TwoPair? && s.pairs == [pairs[0], pairs[1]]
    ensures s.kicker in vals && s.kicker !in s.pairs
  {
    var top2 := pairs[..2];
    assert pairs[0] in pairs && pairs[1] in pairs;
    TwoPairLeavesKicker(vals, pairs[0], pairs[1]);
    assert top2 == [pairs[0], pairs[1]];
    var rest := WithoutAll(vals, top2);
    assert rest[0] in rest;
    TwoPair(top2, rest[0])
  }

  /** Two values that occur twice each among five leave a fifth value. */
  lemma TwoPairLeavesKicker(vals: seq<int>, p: int, q: int)
    requires |vals| == 5 && p != q && multiset(vals)[p] == 2 && multiset(vals)[q] == 2
    ensures |WithoutAll(vals, [p, q])| > 0
  {
    if forall x :: x in vals ==> x == p || x == q {
      TwoValues(vals, p, q);
    } else {
      var x :| x in vals && x != p && x != q;
      assert x in WithoutAll(vals, [p, q]);
    }
  }

  /** evaluate_5 for a five-card hand. */
  function Score5(cards: seq<Card>): Score
    requires |cards| == 5
  {
    var vals := CardVals(cards);
    Classify(cards, vals, FreqOf(vals))
  }

  /** evaluate_5: the freq dict counted in a loop, then the category
      branches. */
  method Evaluate5(cards: seq<Card>) returns (s: Score)
    requires |cards| == 5
    ensures s == Score5(cards)
  {
    var vals := CardVals(cards);
    var freq: map<int, nat> := map[];
    for i := 0 to |vals|
      invariant freq == FreqOf(vals[..i])
    {
      var v := vals[i];
      assert vals[..i + 1][..i] == vals[..i];
      freq := freq[v := (if v in freq then freq[v] else 0) + 1];
    }
    assert vals[..|vals|] == vals;
    s := Classify(cards, vals, freq);
  }
}
