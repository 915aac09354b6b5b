/** The legend of hand categories: ids 1..10 from the royal flush down to
    the high card, the ids a score falls under, and which ids some opponent
    hole pair could still make on a complete board. */
module Legend {

  import opened Cards
  import opened Scores
  import opened BestHand
  import opened Equity

  /** score_to_legend_ids: the straight flush with top 14 is the royal flush
      (1), any other straight flush is 2, and categories 7 down to 0 are 3
      to 10. */
  function LegendIds(s: Score): (ids: set<int>)
    ensures exists id :: ids == {id}
    ensures forall id :: id in ids ==> 1 <= id <= 10
    ensures 1 in ids <==> s == StraightFlush(14)
  {
    var cls := Category(s);
    if cls == 8 then {if s.top == 14 then 1 else 2}
    else if cls == 7 then {3}
    else if cls == 6 then {4}
    else if cls == 5 then {5}
    else if cls == 4 then {6}
    else if cls == 3 then {7}
    else if cls == 2 then {8}
    else if cls == 1 then {9}
    else {10}
  }

  /** The category a legend id stands for. */
  function LegendCategory(id: int): int
  {
    if id <= 2 then 8 else 10 - id
  }

  /** Every id of a score stands for the score's category, and a lower id is
      never a worse hand: when one score beats another (straight flushes
      topping out at the ace), its id is at most the other's. */
  lemma LegendIdsFollowRanking(a: Score, b: Score)
    requires a.StraightFlush? ==> a.top <= 14
    requires b.StraightFlush? ==> b.top <= 14
    ensures forall id :: id in LegendIds(a) ==> LegendCategory(id) == Category(a)
    ensures forall i, j :: i in LegendIds(a) && j in LegendIds(b) && Beats(a, b) ==> i <= j
  {
    if Beats(a, b) {
      if Category(a) < Category(b) {
        CategoryDecides(b, a);
        CmpAntisymmetric(a, b);
      } else if Category(a) == 8 && Category(b) == 8 {
        TopDecides(a, b);
      }
    }
  }

  /** sorted() of a set of legend ids: the ids from lo to 10 that are in the
      set, ascending. */
  function SortedFrom(ids: set<int>, lo: int): (r: seq<int>)
    requires 1 <= lo
    ensures forall x :: x in r <==> x in ids && lo <= x <= 10
    ensures forall j, k :: 0 <= j < k < |r| ==> r[j] < r[k]
    decreases 11 - lo
  {
    if lo > 10 then []
    else
      var rest := SortedFrom(ids, lo + 1);
      assert forall k :: 0 <= k < |rest| ==> rest[k] in rest;
      (if lo in ids then [lo] else []) + rest
  }

  /** sorted(ids) for ids in 1..10: those ids, each once, ascending. */
  function SortedIds(ids: set<int>): (r: seq<int>)
    requires forall id :: id in ids ==> 1 <= id <= 10
    ensures forall x :: x in r <==> x in ids
    ensures forall j, k :: 0 <= j < k < |r| ==> r[j] < r[k]
  {
    SortedFrom(ids, 1)
  }

  /** best_of_seven(board5 + [rem[a], rem[b]]). */
  function PairScore(rem: seq<Card>, board: seq<Card>, a: nat, b: nat): Score
    requires a < |rem| && b < |rem| && |board| >= 3
  {
    BestScore(board + [rem[a], rem[b]]).value
  }

  /** The ids of that hand. */
  function PairIds(rem: seq<Card>, board: seq<Card>, a: nat, b: nat): set<int>
    requires a < |rem| && b < |rem| && |board| >= 3
  {
    LegendIds(PairScore(rem, board, a, b))
  }

  /** The ids of the pairs (x, y), x < y, that the nested loops visit before
      (a, b): earlier rows, then row a up to b. */
  ghost function FoundBefore(rem: seq<Card>, board: seq<Card>, a: nat, b: nat): set<int>
    requires |board| >= 3
  {
    set x, y, id | 0 <= x < y < |rem| && (x < a || (x == a && y < b)) && id in PairIds(rem, board, x, y) :: id
  }

  /** The ids some opponent pair among rem makes with the board. */
  ghost function AllIds(rem: seq<Card>, board: seq<Card>): set<int>
    requires |board| >= 3
  {
    FoundBefore(rem, board, |rem|, 0)
  }

  /** An id is possible exactly when some pair of two different positions
      of the remaining cards makes a hand under it; all of them lie in
      1..10. */
  lemma AllIdsMeaning(rem: seq<Card>, board: seq<Card>)
    requires |board| >= 3
    ensures forall id :: id in AllIds(rem, board) <==>
              exists x, y :: 0 <= x < y < |rem| && id in PairIds(rem, board, x, y)
    ensures forall id :: id in AllIds(rem, board) ==> 1 <= id <= 10
  {
  }

  /** The royal flush is possible exactly when some pair completes one. */
  lemma RoyalPossible(rem: seq<Card>, board: seq<Card>)
    requires |board| >= 3
    ensures 1 in AllIds(rem, board) <==>
              exists x, y :: 0 <= x < y < |rem| && PairScore(rem, board, x, y) == StraightFlush(14)
  {
    AllIdsMeaning(rem, board);
    if 1 in AllIds(rem, board) {
      var x, y :| 0 <= x < y < |rem| && 1 in PairIds(rem, board, x, y);
      assert PairScore(rem, board, x, y) == StraightFlush(14);
    }
    if exists x, y :: 0 <= x < y < |rem| && PairScore(rem, board, x, y) == StraightFlush(14) {
      var x, y :| 0 <= x < y < |rem| && PairScore(rem, board, x, y) == StraightFlush(14);
      assert 1 in PairIds(rem, board, x, y);
    }
  }

  /** found after the inner loop visits (a, b). */
  lemma FoundStep(rem: seq<Card>, board: seq<Card>, a: nat, b: nat)
    requires |board| >= 3 && a < b < |rem|
    ensures FoundBefore(rem, board, a, b + 1) == FoundBefore(rem, board, a, b) + PairIds(rem, board, a, b)
  {
    var lhs := FoundBefore(rem, board, a, b + 1);
    var rhs := FoundBefore(rem, board, a, b) + PairIds(rem, board, a, b);
    forall id | id in lhs ensures id in rhs {
      var x, y :| 0 <= x < y < |rem| && (x < a || (x == a && y < b + 1)) && id in PairIds(rem, board, x, y);
      if !(x == a && y == b) {
        assert id in FoundBefore(rem, board, a, b);
      }
    }
  }

  /** Row a is done: found is what row a + 1 starts with. */
  lemma RowDone(rem: seq<Card>, board: seq<Card>, a: nat)
    requires |board| >= 3 && a < |rem|
    ensures FoundBefore(rem, board, a, |rem|) == FoundBefore(rem, board, a + 1, a + 2)
  {
  }

  /** After the last row every pair has been visited. */
  lemma LastRow(rem: seq<Card>, board: seq<Card>)
    requires |board| >= 3
    ensures FoundBefore(rem, board, |rem|, |rem| + 1) == AllIds(rem, board)
  {
  }

  /** What has been found is possible. */
  lemma FoundIsPossible(rem: seq<Card>, board: seq<Card>, a: nat, b: nat)
    requires |board| >= 3
    ensures FoundBefore(rem, board, a, b) <= AllIds(rem, board)
  {
  }

  /** Ten ids out of 1..10 are all of them. */
  lemma TenIdsAreAll(found: set<int>, all: set<int>)
    requires found <= all
    requires forall id :: id in all ==> 1 <= id <= 10
    requires |found| == 10
    ensures found == all
  {
    var ten := {1, 2, 3, 4, 5, 6, 7, 8, 9, 10};
    forall id | id in all ensures id in ten {
      assert id == 1 || id == 2 || id == 3 || id == 4 || id == 5 || id == 6 || id == 7 || id == 8 || id == 9 || id == 10;
    }
    assert |ten| == 10;
    assert |all| <= 10 by {
      SubsetSize(all, ten);
    }
    SubsetSize(found, all);
    if found != all {
      var id :| id in all && id !in found;
      assert found <= all - {id};
      SubsetSize(found, all - {id});
    }
  }

  /** Once ten ids have been found, nothing is left to find. */
  lemma Saturated(rem: seq<Card>, board: seq<Card>, a: nat, b: nat, found: set<int>)
    requires |board| >= 3
    requires found == FoundBefore(rem, board, a, b) && |found| == 10
    ensures found == AllIds(rem, board)
  {
    AllIdsMeaning(rem, board);
    FoundIsPossible(rem, board, a, b);
    TenIdsAreAll(found, AllIds(rem, board));
  }

  /** A subset is no larger than its superset. */
  lemma SubsetSize(a: set<int>, b: set<int>)
    requires a <= b
    ensures |a| <= |b|
  {
    assert b == a + (b - a);
  }

  /** legend_possibles_on_river: the sorted ids that some pair of cards not
      on the board makes with it, stopping early once all ten have
      turned up (the source's board has five cards; three or more keep
      best_of_seven defined). */
  method LegendPossiblesOnRiver(board5: seq<Card>) returns (r: seq<int>)
    requires |board5| >= 3
    ensures forall id :: id in AllIds(Unseen(board5), board5) ==> 1 <= id <= 10
    ensures r == SortedIds(AllIds(Unseen(board5), board5))
  {
    var remaining := Unseen(board5);
    AllIdsMeaning(remaining, board5);
    var found: set<int> := {};
    var n := |remaining|;
    for a := 0 to n
      invariant found == FoundBefore(remaining, board5, a, a + 1)
    {
      var full;
      found, full := ScanRow(remaining, board5, a, found);
      if full {
        return SortedIds(found);
      }
    }
    LastRow(remaining, board5);
    r := SortedIds(found);
  }

  /** The inner loop for row a: the pairs (a, b), b > a, in order, adding
      their ids to found; full when all ten have turned up, at which point
      the source returns at once. */
  method ScanRow(rem: seq<Card>, board: seq<Card>, a: nat, found0: set<int>) returns (found: set<int>, full: bool)
    requires |board| >= 3 && a < |rem|
    requires found0 == FoundBefore(rem, board, a, a + 1)
    ensures full ==> found == AllIds(rem, board)
    ensures !full ==> found == FoundBefore(rem, board, a + 1, a + 2)
  {
    found := found0;
    for b := a + 1 to |rem|
      invariant found == FoundBefore(rem, board, a, b)
    {
      found := Visit(rem, board, a, b, found);
      if |found| == 10 {
        Saturated(rem, board, a, b + 1, found);
        return found, true;
      }
    }
    RowDone(rem, board, a);
    full := false;
  }

  /** One turn of the inner loop: the ids of pair (a, b) join found. */
  method Visit(rem: seq<Card>, board: seq<Card>, a: nat, b: nat, found0: set<int>) returns (found: set<int>)
    requires |board| >= 3 && a < b < |rem|
    requires found0 == FoundBefore(rem, board, a, b)
    ensures found == FoundBefore(rem, board, a, b + 1)
  {
    var ids := ScoreIds(rem, board, a, b);
    FoundStep(rem, board, a, b);
    found := found0 + ids;
  }

  /** The ids of one pair: score_to_legend_ids(best_of_seven(board5 +
      hole)) for the pair at positions a and b. */
  method ScoreIds(rem: seq<Card>, board: seq<Card>, a: nat, b: nat) returns (ids: set<int>)
    requires a < |rem| && b < |rem| && |board| >= 3
    ensures ids == PairIds(rem, board, a, b)
  {
    var hand := board + [rem[a], rem[b]];
    var sc := BestOfSeven(hand);
    Hands5NonEmpty(hand);
    ids := LegendIds(sc.value);
  }
}
