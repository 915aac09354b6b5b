/** winner_details_with_combos: every player's best score over their hole
    cards plus the board, and the players who share the highest one (the
    split pot), each with the five cards they play. */
module Resolver {

  import opened Options
  import opened Cards
  import opened Scores
  import opened Evaluator
  import opened BestHand

  /** The best score of hand h with the board. */
  function HandScore(h: seq<Card>, board: seq<Card>): Score
    requires |h| + |board| >= 5
  {
    BestScore(h + board).value
  }

  /** Every hand can make five cards with the board (the source fails
      otherwise). */
  predicate Playable(hands: seq<seq<Card>>, board: seq<Card>)
  {
    forall i :: 0 <= i < |hands| ==> |hands[i]| + |board| >= 5
  }

  /** The players' scores, in seat order. */
  function ScoresOfHands(hands: seq<seq<Card>>, board: seq<Card>): (ss: seq<Score>)
    requires Playable(hands, board)
    ensures |ss| == |hands|
  {
    seq(|hands|, i requires 0 <= i < |hands| => HandScore(hands[i], board))
  }

  /** The five cards each player plays, in seat order. */
  function CombosOfHands(hands: seq<seq<Card>>, board: seq<Card>): (cs: seq<seq<Card>>)
    requires Playable(hands, board)
    ensures |cs| == |hands|
  {
    seq(|hands|, i requires 0 <= i < |hands| => BestCombo(hands[i] + board))
  }

  /** [i for i, s in enumerate(scored) if s == best]. */
  function IndicesOf(scored: seq<Score>, best: Score): (r: seq<nat>)
    ensures forall j :: 0 <= j < |r| ==> r[j] < |scored| && scored[r[j]] == best
    ensures forall i :: 0 <= i < |scored| && scored[i] == best ==> i in r
    ensures forall j, k :: 0 <= j < k < |r| ==> r[j] < r[k]
  {
    if |scored| == 0 then []
    else
      var r := IndicesOf(scored[..|scored| - 1], best);
      if scored[|scored| - 1] == best then r + [|scored| - 1] else r
  }

  /** The winners: no one when there are no players, otherwise the
      positions holding the score the scan ends with. */
  function WinnersOf(scored: seq<Score>): seq<nat>
  {
    if |scored| == 0 then [] else IndicesOf(scored, MaxOf(scored, Beats))
  }

  /** A player wins exactly when no other player's score beats theirs: the
      winners are the undominated players, listed in seat order, and there
      is at least one whenever there is a player. */
  lemma WinnersAreUnbeaten(scored: seq<Score>)
    ensures forall i :: i in WinnersOf(scored) <==>
      (0 <= i < |scored| && forall j :: 0 <= j < |scored| ==> !Beats(scored[j], scored[i]))
    ensures forall j, k :: 0 <= j < k < |WinnersOf(scored)| ==> WinnersOf(scored)[j] < WinnersOf(scored)[k]
    ensures |scored| > 0 ==> |WinnersOf(scored)| > 0
  {
    if |scored| > 0 {
      var m := FirstMaxIndex(scored, Beats);
      BeatsIsStrictTotalOrder();
      FirstMaxIndexIsFirstMaximum(scored, Beats);
      forall i | 0 <= i < |scored| && forall j :: 0 <= j < |scored| ==> !Beats(scored[j], scored[i])
        ensures scored[i] == scored[m]
      {
        assert !Beats(scored[i], scored[m]) && !Beats(scored[m], scored[i]);
      }
      assert m in WinnersOf(scored);
    }
  }

  /** Every winner holds the same score, and every other player a strictly
      lower one. */
  lemma WinnersSplitThePot(scored: seq<Score>, w: nat, i: nat)
    requires w in WinnersOf(scored) && i < |scored|
    ensures scored[w] == MaxOf(scored, Beats)
    ensures i in WinnersOf(scored) <==> scored[i] == scored[w]
    ensures i !in WinnersOf(scored) ==> Beats(scored[w], scored[i])
  {
    WinnersAreUnbeaten(scored);
    BeatsIsStrictTotalOrder();
    FirstMaxIndexIsFirstMaximum(scored, Beats);
  }

  /** winner_details_with_combos without the descriptions: the winners and
      the five cards each of them plays. */
  method WinnerDetails(hands: seq<seq<Card>>, board: seq<Card>) returns (winners: seq<nat>, winnerCombos: seq<seq<Card>>)
    requires Playable(hands, board)
    ensures winners == WinnersOf(ScoresOfHands(hands, board))
    ensures |winnerCombos| == |winners|
    ensures forall j :: 0 <= j < |winners| ==>
              winners[j] < |hands| && winnerCombos[j] == CombosOfHands(hands, board)[winners[j]]
  {
    var scored, combos, best := ScoreHands(hands, board);
    winners, winnerCombos := PickWinners(scored, combos, best);
  }

  /** The two comprehensions after the loop: the positions holding the best
      score, and the combos at those positions. */
  method PickWinners(scored: seq<Score>, combos: seq<seq<Card>>, best: Option<Score>) returns (winners: seq<nat>, winnerCombos: seq<seq<Card>>)
    requires |combos| == |scored|
    requires best == if |scored| == 0 then None else Some(MaxOf(scored, Beats))
    ensures winners == WinnersOf(scored)
    ensures |winnerCombos| == |winners|
    ensures forall j :: 0 <= j < |winners| ==> winners[j] < |scored| && winnerCombos[j] == combos[winners[j]]
  {
    if best.None? {
      winners := [];
    } else {
      winners := IndicesOf(scored, best.value);
    }
    winnerCombos := seq(|winners|, j requires 0 <= j < |winners| => combos[winners[j]]);
  }

  /** The loop of winner_details_with_combos: every player's score and
      combo, and the best score so far kept as in best_of_seven. */
  method ScoreHands(hands: seq<seq<Card>>, board: seq<Card>) returns (scored: seq<Score>, combos: seq<seq<Card>>, best: Option<Score>)
    requires Playable(hands, board)
    ensures scored == ScoresOfHands(hands, board) && combos == CombosOfHands(hands, board)
    ensures best == if |scored| == 0 then None else Some(MaxOf(scored, Beats))
  {
    ghost var all, allCombos := ScoresOfHands(hands, board), CombosOfHands(hands, board);
    scored, combos, best := [], [], None;
    for i := 0 to |hands|
      invariant Scanned(all, allCombos, i, scored, combos, best)
    {
      scored, combos, best := ScanHand(hands, board, all, allCombos, i, scored, combos, best);
    }
    ScannedAll(all, allCombos, scored, combos, best);
  }

  /** What the loop has after the first i players, given every player's
      score and combo. */
  ghost predicate Scanned(all: seq<Score>, allCombos: seq<seq<Card>>, i: nat, scored: seq<Score>, combos: seq<seq<Card>>, best: Option<Score>)
  {
    && i <= |all| == |allCombos|
    && scored == all[..i]
    && combos == allCombos[..i]
    && best == ScanBest(all, i, Beats)
  }

  /** After the last player the loop has every score and combo. */
  lemma ScannedAll(all: seq<Score>, allCombos: seq<seq<Card>>, scored: seq<Score>, combos: seq<seq<Card>>, best: Option<Score>)
    requires Scanned(all, allCombos, |all|, scored, combos, best)
    ensures scored == all && combos == allCombos
    ensures best == if |scored| == 0 then None else Some(MaxOf(scored, Beats))
  {
    ScanBestIsMax(all, |all|, Beats);
    assert all[..|all|] == all;
    assert allCombos[..|all|] == allCombos;
  }

  /** One turn of the loop: player i's score and combo are appended, and
      the best so far is replaced only by a strictly better score. */
  method ScanHand(hands: seq<seq<Card>>, board: seq<Card>, ghost all: seq<Score>, ghost allCombos: seq<seq<Card>>, i: nat,
                  scored: seq<Score>, combos: seq<seq<Card>>, best: Option<Score>)
    returns (scored': seq<Score>, combos': seq<seq<Card>>, best': Option<Score>)
    requires Playable(hands, board) && i < |hands|
    requires all == ScoresOfHands(hands, board) && allCombos == CombosOfHands(hands, board)
    requires Scanned(all, allCombos, i, scored, combos, best)
    ensures Scanned(all, allCombos, i + 1, scored', combos', best')
  {
    var s, combo := ScoreHand(hands, board, i);
    PrefixStep(all, i, scored, s);
    PrefixStep(allCombos, i, combos, combo);
    scored' := scored + [s];
    combos' := combos + [combo];
    best' := if best.None? || Beats(s, best.value) then Some(s) else best;
  }

  /** One turn of the loop: best_of_seven_with_combo on hand i and the
      board. */
  method ScoreHand(hands: seq<seq<Card>>, board: seq<Card>, i: nat) returns (s: Score, combo: seq<Card>)
    requires Playable(hands, board) && i < |hands|
    ensures s == ScoresOfHands(hands, board)[i] && combo == CombosOfHands(hands, board)[i]
  {
    s, combo := BestOfSevenWithCombo(hands[i] + board);
  }
}
