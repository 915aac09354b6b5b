/** best_of_seven and best_of_seven_with_combo: the best five-card score
    among all five-card subsets of a hand, found by a scan over
    combinations(cards, 5) that keeps the first strictly better score. */
module BestHand {

  import opened Options
  import opened Cards
  import opened Scores
  import opened Evaluator
  import opened Combinations

  /** The elements at the positions c, in the order of c. */
  function Pick<T>(xs: seq<T>, c: seq<nat>): (r: seq<T>)
    requires forall i :: 0 <= i < |c| ==> c[i] < |xs|
    ensures |r| == |c| && forall i :: 0 <= i < |c| ==> r[i] == xs[c[i]]
  {
    seq(|c|, i requires 0 <= i < |c| => xs[c[i]])
  }

  /** combinations(cards, 5): the five-card subsets, in the order
      itertools yields them. */
  function Hands5(cards: seq<Card>): (hs: seq<seq<Card>>)
    ensures |hs| == |Combos(|cards|, 5)|
    ensures forall i :: 0 <= i < |hs| ==> |hs[i]| == 5
  {
    var cs := Combos(|cards|, 5);
    CombosAreCombos(|cards|, 5);
    assert forall i :: 0 <= i < |cs| ==> IsCombo(cs[i], 0, |cards|, 5);
    seq(|cs|, i requires 0 <= i < |cs| => Pick(cards, cs[i]))
  }

  /** The subsets are exactly the cards at strictly increasing positions:
      entry i is picked by the i-th combination of positions, and every
      choice of five positions appears. */
  lemma Hands5Exact(cards: seq<Card>)
    ensures forall i :: 0 <= i < |Hands5(cards)| ==>
      IsCombo(Combos(|cards|, 5)[i], 0, |cards|, 5) && Hands5(cards)[i] == Pick(cards, Combos(|cards|, 5)[i])
    ensures forall c :: IsCombo(c, 0, |cards|, 5) ==> exists i :: 0 <= i < |Hands5(cards)| && Combos(|cards|, 5)[i] == c
  {
    var cs := Combos(|cards|, 5);
    CombosAreCombos(|cards|, 5);
    forall c | IsCombo(c, 0, |cards|, 5)
      ensures exists i :: 0 <= i < |Hands5(cards)| && cs[i] == c
    {
      assert c in cs;
    }
  }

  /** There is a subset to score exactly when there are five cards. */
  lemma Hands5NonEmpty(cards: seq<Card>)
    ensures |Hands5(cards)| > 0 <==> |cards| >= 5
  {
    CombosCount(|cards|, 5);
    ChoosePositive(|cards|, 5);
  }

  /** The scores of the subsets, in order. */
  function SubsetScores(cards: seq<Card>): (ss: seq<Score>)
    ensures |ss| == |Hands5(cards)|
  {
    ScoresOf(Hands5(cards))
  }

  /** evaluate_5 of each hand, in order. */
  function ScoresOf(hs: seq<seq<Card>>): (ss: seq<Score>)
    requires forall i :: 0 <= i < |hs| ==> |hs[i]| == 5
    ensures |ss| == |hs|
  {
    MapSeq(Score5, hs)
  }

  /** [f(x) for x in xs]. */
  function MapSeq<A, B>(f: A --> B, xs: seq<A>): (ys: seq<B>)
    requires forall i :: 0 <= i < |xs| ==> f.requires(xs[i])
    ensures |ys| == |xs|
  {
    if |xs| == 0 then []
    else MapSeq(f, xs[..|xs| - 1]) + [f(xs[|xs| - 1])]
  }

  lemma {:induction false} MapSeqAt<A, B>(f: A --> B, xs: seq<A>, i: nat)
    requires forall i :: 0 <= i < |xs| ==> f.requires(xs[i])
    requires i < |xs|
    ensures MapSeq(f, xs)[i] == f(xs[i])
  {
    var init := xs[..|xs| - 1];
    if i < |xs| - 1 {
      MapSeqAt(f, init, i);
      assert init[i] == xs[i];
    }
  }

  lemma ScoresOfAt(hs: seq<seq<Card>>, i: nat)
    requires forall i :: 0 <= i < |hs| ==> |hs[i]| == 5
    requires i < |hs|
    ensures ScoresOf(hs)[i] == Score5(hs[i])
  {
    MapSeqAt(Score5, hs, i);
  }

  /** best_of_seven: None when there is no five-card subset, otherwise the
      score the scan ends with. */
  function BestScore(cards: seq<Card>): Option<Score>
  {
    Hands5NonEmpty(cards);
    if |cards| < 5 then None else Some(MaxOf(SubsetScores(cards), Beats))
  }

  /** The position, in combinations order, of the subset the scan keeps. */
  function BestIndex(cards: seq<Card>): (k: nat)
    requires |cards| >= 5
    ensures k < |Hands5(cards)|
  {
    Hands5NonEmpty(cards);
    FirstMaxIndex(SubsetScores(cards), Beats)
  }

  /** best_of_seven_with_combo's combo: the first subset of best score. */
  function BestCombo(cards: seq<Card>): (combo: seq<Card>)
    requires |cards| >= 5
    ensures |combo| == 5
  {
    Hands5(cards)[BestIndex(cards)]
  }

  /** The best score is the score of one five-card subset, and no five
      cards at distinct positions of the hand score higher. */
  lemma BestIsMaximum(cards: seq<Card>)
    requires |cards| >= 5
    ensures BestScore(cards).Some?
    ensures BestScore(cards).value == Score5(BestCombo(cards))
    ensures forall c :: IsCombo(c, 0, |cards|, 5) ==> !Beats(Score5(Pick(cards, c)), BestScore(cards).value)
  {
    ScanEnd(cards, BestIndex(cards));
    NoSubsetBeatsBest(cards);
    Hands5Exact(cards);
    forall c | IsCombo(c, 0, |cards|, 5)
      ensures !Beats(Score5(Pick(cards, c)), BestScore(cards).value)
    {
      var i :| 0 <= i < |Hands5(cards)| && Combos(|cards|, 5)[i] == c;
      SubsetAt(cards, i);
    }
  }

  /** No subset's score beats the best score. */
  lemma NoSubsetBeatsBest(cards: seq<Card>)
    requires |cards| >= 5
    ensures forall i :: 0 <= i < |SubsetScores(cards)| ==> !Beats(SubsetScores(cards)[i], BestScore(cards).value)
  {
    Hands5NonEmpty(cards);
    BeatsIsStrictTotalOrder();
    FirstMaxIndexIsFirstMaximum(SubsetScores(cards), Beats);
  }

  /** The combo kept is the first subset, in combinations order, with the
      best score: every subset before it scores strictly lower. */
  lemma BestComboIsFirst(cards: seq<Card>)
    requires |cards| >= 5
    ensures forall i :: 0 <= i < BestIndex(cards) ==> Beats(BestScore(cards).value, SubsetScores(cards)[i])
  {
    var ss := SubsetScores(cards);
    Hands5NonEmpty(cards);
    BeatsIsStrictTotalOrder();
    FirstMaxIndexIsFirstMaximum(ss, Beats);
  }

  /** Cards at strictly increasing positions are drawn from the hand
      without reuse. */
  lemma {:induction false} PickIsSubMultiset<T>(xs: seq<T>, c: seq<nat>)
    requires forall i :: 0 <= i < |c| ==> c[i] < |xs|
    requires forall i, j :: 0 <= i < j < |c| ==> c[i] < c[j]
    ensures multiset(Pick(xs, c)) <= multiset(xs)
    decreases |c|
  {
    if |c| > 0 {
      var last := c[|c| - 1];
      var init := c[..|c| - 1];
      var lower := xs[..last];
      assert forall i :: 0 <= i < |init| ==> init[i] < last;
      PickIsSubMultiset(lower, init);
      assert Pick(xs, c) == Pick(lower, init) + [xs[last]];
      assert xs == lower + xs[last..];
      assert xs[last..] == [xs[last]] + xs[last + 1..];
    }
  }

  /** The combo reported is five of the hand's cards. */
  lemma BestComboFromHand(cards: seq<Card>)
    requires |cards| >= 5
    ensures multiset(BestCombo(cards)) <= multiset(cards)
  {
    Hands5Exact(cards);
    var c := Combos(|cards|, 5)[BestIndex(cards)];
    PickIsSubMultiset(cards, c);
  }

  /** With exactly five cards there is one subset, the hand itself. */
  lemma FiveCardHand(cards: seq<Card>)
    requires |cards| == 5
    ensures BestScore(cards) == Some(Score5(cards))
  {
    var c := [0, 1, 2, 3, 4];
    assert IsCombo(c, 0, |cards|, 5);
    assert Pick(cards, c) == cards;
    BestIsMaximum(cards);
    var cs := Combos(|cards|, 5);
    Hands5Exact(cards);
    OnlyCombo(cs[BestIndex(cards)]);
  }

  /** Five strictly increasing positions below five are 0, 1, 2, 3, 4. */
  lemma OnlyCombo(c: seq<nat>)
    requires IsCombo(c, 0, 5, 5)
    ensures c == [0, 1, 2, 3, 4]
  {
    assert c[0] < c[1] < c[2] < c[3] < c[4];
  }

  /** Subset i is picked by the i-th combination and scored by
      evaluate_5. */
  lemma SubsetAt(cards: seq<Card>, i: nat)
    requires i < |Hands5(cards)|
    ensures IsCombo(Combos(|cards|, 5)[i], 0, |cards|, 5)
    ensures Hands5(cards)[i] == Pick(cards, Combos(|cards|, 5)[i])
    ensures SubsetScores(cards)[i] == Score5(Pick(cards, Combos(|cards|, 5)[i]))
  {
    Hands5Exact(cards);
    ScoresOfAt(Hands5(cards), i);
  }

  /** best_of_seven, as the source's loop computes it. */
  method BestOfSeven(cards: seq<Card>) returns (best: Option<Score>)
    ensures best == BestScore(cards)
  {
    var n := |Combos(|cards|, 5)|;
    ghost var ss := SubsetScores(cards);
    best := None;
    for i := 0 to n
      invariant best == if i == 0 then None else Some(MaxOf(ss[..i], Beats))
    {
      var score, _ := ScoreSubset(cards, i);
      ScanStep(ss, i, best, Beats);
      if best.None? || Beats(score, best.value) {
        best := Some(score);
      }
    }
    Hands5NonEmpty(cards);
    assert ss[..n] == ss;
  }

  /** best_of_seven_with_combo: the same scan, also keeping the subset. The
      source fails on fewer than five cards (list(None)). */
  method BestOfSevenWithCombo(cards: seq<Card>) returns (best: Score, combo: seq<Card>)
    requires |cards| >= 5
    ensures Some(best) == BestScore(cards) && combo == BestCombo(cards)
  {
    var n := |Combos(|cards|, 5)|;
    ghost var ss := SubsetScores(cards);
    Hands5NonEmpty(cards);
    best, combo := ScoreSubset(cards, 0);
    MaxOfStep(ss, 0, Beats);
    for i := 1 to n
      invariant best == MaxOf(ss[..i], Beats)
      invariant combo == Hands5(cards)[FirstMaxIndex(ss[..i], Beats)]
    {
      var score, hand := ScoreSubset(cards, i);
      MaxOfStep(ss, i, Beats);
      if Beats(score, best) {
        best, combo := score, hand;
      }
    }
    assert ss[..n] == ss;
  }

  /** One step of the scans: the i-th subset and its evaluate_5 score. */
  method ScoreSubset(cards: seq<Card>, i: nat) returns (score: Score, hand: seq<Card>)
    requires i < |Combos(|cards|, 5)|
    ensures hand == Hands5(cards)[i] && score == SubsetScores(cards)[i]
  {
    SubsetAt(cards, i);
    hand := Pick(cards, Combos(|cards|, 5)[i]);
    score := Evaluate5(hand);
  }

  /** What the combo scan ends with: the first best subset and its score. */
  lemma ScanEnd(cards: seq<Card>, k: nat)
    requires |cards| >= 5 && k == BestIndex(cards)
    ensures Some(SubsetScores(cards)[k]) == BestScore(cards)
    ensures Hands5(cards)[k] == BestCombo(cards)
    ensures SubsetScores(cards)[k] == Score5(BestCombo(cards))
  {
    ScoresOfAt(Hands5(cards), k);
  }
}
