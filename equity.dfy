/** The exact single-opponent enumeration at the river: every two-card hand
    an opponent could hold among the unseen cards is scored with the board
    and compared with the hero's score, counting the opponent's wins (W)
    and ties (T) over all M such hands, and listing the winning hands by
    the category they make. */
module Equity {

  import opened Options
  import opened Cards
  import opened Scores
  import opened Evaluator
  import opened Combinations
  import opened BestHand

  /** [c for c in deck if c not in used], deck in make_deck order. */
  function FilterOut(deck: seq<Card>, used: seq<Card>): (r: seq<Card>)
    ensures forall c :: c in r <==> c in deck && c !in used
  {
    if |deck| == 0 then []
    else (if deck[0] in used then [] else [deck[0]]) + FilterOut(deck[1..], used)
  }

  /** The unseen cards: the deck without the known ones. */
  function Unseen(used: seq<Card>): (r: seq<Card>)
    ensures forall c :: c in r <==> c !in used
  {
    MakeDeckIsFullDeck();
    FilterOut(MakeDeck(), used)
  }

  lemma {:induction false} FilterOutDistinct(deck: seq<Card>, used: seq<Card>)
    requires Distinct(deck)
    ensures Distinct(FilterOut(deck, used))
  {
    if |deck| > 0 {
      var t := FilterOut(deck[1..], used);
      FilterOutDistinct(deck[1..], used);
      forall j | 0 <= j < |deck| - 1 ensures deck[1..][j] != deck[0] {
        assert deck[1..][j] == deck[j + 1];
      }
      assert deck[0] !in deck[1..];
    }
  }

  /** A list without repeats has as many elements as its set. */
  lemma {:induction false} DistinctSetSize(s: seq<Card>)
    requires Distinct(s)
    ensures |set c | c in s| == |s|
  {
    if |s| > 0 {
      var t := s[1..];
      DistinctSetSize(t);
      assert (set c | c in s) == (set c | c in t) + {s[0]};
      forall j | 0 <= j < |t| ensures t[j] != s[0] {
        assert t[j] == s[j + 1];
      }
      assert s[0] !in t;
    }
  }

  /** The unseen cards are distinct, and there are 52 less the number of
      different known cards. */
  lemma UnseenSize(used: seq<Card>)
    ensures Distinct(Unseen(used))
    ensures |Unseen(used)| == 52 - |set c | c in used|
  {
    var r := Unseen(used);
    MakeDeckIsFullDeck();
    FilterOutDistinct(MakeDeck(), used);
    DistinctSetSize(MakeDeck());
    DistinctSetSize(r);
    var all := set c | c in MakeDeck();
    var u := set c | c in used;
    assert (set c | c in r) == all - u;
    assert u <= all;
    assert all == (all - u) + u && (all - u) * u == {};
  }

  /** With seven different known cards there are 45 unseen cards. */
  lemma SevenKnownLeaveFortyFive(used: seq<Card>)
    requires |used| == 7 && Distinct(used)
    ensures |Unseen(used)| == 45
  {
    UnseenSize(used);
    DistinctSetSize(used);
  }

  /** list(combinations(remaining, 2)): the unordered pairs, in order. */
  function PairsOf(rem: seq<Card>): (ps: seq<(Card, Card)>)
    ensures |ps| == |Combos(|rem|, 2)|
  {
    var cs := Combos(|rem|, 2);
    CombosAreCombos(|rem|, 2);
    assert forall i :: 0 <= i < |cs| ==> IsCombo(cs[i], 0, |rem|, 2);
    seq(|cs|, i requires 0 <= i < |cs| => (rem[cs[i][0]], rem[cs[i][1]]))
  }

  /** There are M = n(n-1)/2 pairs, and each is two different cards of the
      list at positions i < j; every such choice of positions is listed. */
  lemma PairsOfFacts(rem: seq<Card>)
    requires Distinct(rem)
    ensures |PairsOf(rem)| == |rem| * (|rem| - 1) / 2
    ensures forall k :: 0 <= k < |PairsOf(rem)| ==>
      PairsOf(rem)[k].0 != PairsOf(rem)[k].1 && PairsOf(rem)[k].0 in rem && PairsOf(rem)[k].1 in rem
    ensures forall i, j :: 0 <= i < j < |rem| ==> (rem[i], rem[j]) in PairsOf(rem)
  {
    var cs := Combos(|rem|, 2);
    var ps := PairsOf(rem);
    CombosCount(|rem|, 2);
    CombosAreCombos(|rem|, 2);
    forall k | 0 <= k < |ps| ensures ps[k].0 != ps[k].1 && ps[k].0 in rem && ps[k].1 in rem {
      assert IsCombo(cs[k], 0, |rem|, 2);
      assert ps[k] == (rem[cs[k][0]], rem[cs[k][1]]);
    }
    forall i, j | 0 <= i < j < |rem| ensures (rem[i], rem[j]) in ps {
      assert IsCombo([i, j], 0, |rem|, 2);
      var k :| 0 <= k < |cs| && cs[k] == [i, j];
      assert ps[k] == (rem[i], rem[j]);
    }
  }

  /** With 45 unseen cards the opponent has 990 possible hands. */
  lemma FortyFiveCardsMakeNineHundredNinetyPairs(rem: seq<Card>)
    requires |rem| == 45 && Distinct(rem)
    ensures |PairsOf(rem)| == 990
  {
    PairsOfFacts(rem);
  }

  /** best_of_seven([a, b] + board5) for the opponent's pair. */
  function OppScore(p: (Card, Card), board: seq<Card>): Score
    requires |board| >= 3
  {
    BestScore([p.0, p.1] + board).value
  }

  /** The opponent's score for every pair, in order. */
  function OppScores(ps: seq<(Card, Card)>, board: seq<Card>): (ss: seq<Score>)
    requires |board| >= 3
    ensures |ss| == |ps|
  {
    seq(|ps|, i requires 0 <= i < |ps| => OppScore(ps[i], board))
  }

  /** How many of the scores beat the hero's. */
  function CountBeating(ss: seq<Score>, hero: Score): nat
  {
    if |ss| == 0 then 0
    else CountBeating(ss[..|ss| - 1], hero) + (if Beats(ss[|ss| - 1], hero) then 1 else 0)
  }

  /** How many of the scores equal the hero's. */
  function CountTying(ss: seq<Score>, hero: Score): nat
  {
    if |ss| == 0 then 0
    else CountTying(ss[..|ss| - 1], hero) + (if ss[|ss| - 1] == hero then 1 else 0)
  }

  /** How many of the scores the hero's beats. */
  function CountBeaten(ss: seq<Score>, hero: Score): nat
  {
    if |ss| == 0 then 0
    else CountBeaten(ss[..|ss| - 1], hero) + (if Beats(hero, ss[|ss| - 1]) then 1 else 0)
  }

  /** Each opponent hand wins, ties or loses, exactly one of the three:
      W + T + (losses) = M, so W + T <= M. */
  lemma {:induction false} OutcomesPartition(ss: seq<Score>, hero: Score)
    ensures CountBeating(ss, hero) + CountTying(ss, hero) + CountBeaten(ss, hero) == |ss|
    ensures CountBeating(ss, hero) + CountTying(ss, hero) <= |ss|
  {
    if |ss| > 0 {
      var last := ss[|ss| - 1];
      OutcomesPartition(ss[..|ss| - 1], hero);
      CmpAntisymmetric(last, hero);
    }
  }

  /** wins_by_class[cls]: the pairs, in order, whose score beats the hero's
      and has category cls. */
  function ClassWins(ps: seq<(Card, Card)>, ss: seq<Score>, hero: Score, cls: int): seq<(Card, Card)>
    requires |ss| == |ps|
  {
    if |ps| == 0 then []
    else
      var n := |ps| - 1;
      ClassWins(ps[..n], ss[..n], hero, cls)
        + (if Beats(ss[n], hero) && Category(ss[n]) == cls then [ps[n]] else [])
  }

  /** The wins of classes 0..k-1 taken together. */
  function WinsBelow(ps: seq<(Card, Card)>, ss: seq<Score>, hero: Score, k: int): nat
    requires |ss| == |ps|
    decreases k
  {
    if k <= 0 then 0 else WinsBelow(ps, ss, hero, k - 1) + |ClassWins(ps, ss, hero, k - 1)|
  }

  /** One more pair adds one win to exactly its own class. */
  lemma {:induction false} WinsBelowStep(ps: seq<(Card, Card)>, ss: seq<Score>, hero: Score, k: int)
    requires |ss| == |ps| > 0
    ensures WinsBelow(ps, ss, hero, k)
      == WinsBelow(ps[..|ps| - 1], ss[..|ps| - 1], hero, k)
         + (if Beats(ss[|ps| - 1], hero) && Category(ss[|ps| - 1]) < k then 1 else 0)
    decreases k
  {
    if k > 0 {
      WinsBelowStep(ps, ss, hero, k - 1);
    }
  }

  /** The lists of wins_by_class together hold W pairs: every win is listed
      under exactly one category. */
  lemma {:induction false} ClassesCoverWins(ps: seq<(Card, Card)>, ss: seq<Score>, hero: Score)
    requires |ss| == |ps|
    ensures WinsBelow(ps, ss, hero, 9) == CountBeating(ss, hero)
  {
    if |ps| > 0 {
      var n := |ps| - 1;
      ClassesCoverWins(ps[..n], ss[..n], hero);
      WinsBelowStep(ps, ss, hero, 9);
    }
  }

  /** The enumeration's results: the hero's score, W, T, M and the winning
      pairs by category. */
  datatype Tally = Tally(hero: Score, wins: nat, ties: nat, pairs: nat, winsByClass: map<int, seq<(Card, Card)>>)

  /** The class map holds exactly the non-empty class lists, like the
      defaultdict after the loop. */
  ghost predicate ClassMap(m: map<int, seq<(Card, Card)>>, ps: seq<(Card, Card)>, ss: seq<Score>, hero: Score)
    requires |ss| == |ps|
  {
    forall cls :: (cls in m <==> |ClassWins(ps, ss, hero, cls)| > 0)
                  && (cls in m ==> m[cls] == ClassWins(ps, ss, hero, cls))
  }

  /** wins_by_class[category(s)].append(p) when s beats the hero's score. */
  function ClassAppend(m: map<int, seq<(Card, Card)>>, s: Score, hero: Score, p: (Card, Card)): map<int, seq<(Card, Card)>>
  {
    if Beats(s, hero) then
      var cls := Category(s);
      m[cls := (if cls in m then m[cls] else []) + [p]]
    else m
  }

  /** The enumeration at the river for the hero's hole cards and the board
      (the source's board always has five cards; it needs at least three so
      that every hand has five). */
  method ExactEnumeration(heroHole: seq<Card>, board: seq<Card>) returns (t: Tally)
    requires |heroHole| + |board| >= 5 && |board| >= 3
    ensures Some(t.hero) == BestScore(heroHole + board)
    ensures t.pairs == |PairsOf(Unseen(heroHole + board))|
    ensures t.wins == CountBeating(OppScores(PairsOf(Unseen(heroHole + board)), board), t.hero)
    ensures t.ties == CountTying(OppScores(PairsOf(Unseen(heroHole + board)), board), t.hero)
    ensures ClassMap(t.winsByClass, PairsOf(Unseen(heroHole + board)),
                     OppScores(PairsOf(Unseen(heroHole + board)), board), t.hero)
  {
    var heroScore := BestOfSeven(heroHole + board);
    Hands5NonEmpty(heroHole + board);
    var hero := heroScore.value;
    var remaining := Unseen(heroHole + board);
    var allPairs := PairsOf(remaining);
    var wins, ties, winsByClass := CountOutcomes(allPairs, board, hero);
    t := Tally(hero, wins, ties, |allPairs|, winsByClass);
  }

  /** The loop over the opponent's pairs: W, T and the winning pairs by
      category against the hero's score. */
  method CountOutcomes(allPairs: seq<(Card, Card)>, board: seq<Card>, hero: Score)
    returns (wins: nat, ties: nat, winsByClass: map<int, seq<(Card, Card)>>)
    requires |board| >= 3
    ensures wins == CountBeating(OppScores(allPairs, board), hero)
    ensures ties == CountTying(OppScores(allPairs, board), hero)
    ensures ClassMap(winsByClass, allPairs, OppScores(allPairs, board), hero)
  {
    ghost var ss := OppScores(allPairs, board);
    var m := |allPairs|;
    wins, ties, winsByClass := 0, 0, map[];
    for i := 0 to m
      invariant Counted(allPairs, ss, hero, i, wins, ties, winsByClass)
    {
      var sc := ScorePair(allPairs, board, i);
      CountedStep(allPairs, ss, hero, i, wins, ties, winsByClass);
      wins, ties, winsByClass := Record(sc, hero, allPairs[i], wins, ties, winsByClass);
    }
    assert allPairs[..m] == allPairs && ss[..m] == ss;
  }

  /** The rest of one turn: a win is counted and listed under its
      category, otherwise a tie is counted. */
  method Record(sc: Score, hero: Score, p: (Card, Card), wins: nat, ties: nat, winsByClass: map<int, seq<(Card, Card)>>)
    returns (wins': nat, ties': nat, winsByClass': map<int, seq<(Card, Card)>>)
    ensures wins' == wins + (if Beats(sc, hero) then 1 else 0)
    ensures ties' == ties + (if sc == hero then 1 else 0)
    ensures winsByClass' == ClassAppend(winsByClass, sc, hero, p)
  {
    CmpAntisymmetric(sc, hero);
    wins', ties', winsByClass' := wins, ties, winsByClass;
    var (a, b) := p;
    if Beats(sc, hero) {
      wins' := wins + 1;
      var cls := Category(sc);
      winsByClass' := winsByClass[cls := (if cls in winsByClass then winsByClass[cls] else []) + [(a, b)]];
    } else if sc == hero {
      ties' := ties + 1;
    }
  }

  /** One turn of the loop: best_of_seven([a, b] + board5) for pair i. */
  method ScorePair(ps: seq<(Card, Card)>, board: seq<Card>, i: nat) returns (sc: Score)
    requires |board| >= 3 && i < |ps|
    ensures sc == OppScores(ps, board)[i]
  {
    var best := BestOfSeven([ps[i].0, ps[i].1] + board);
    Hands5NonEmpty([ps[i].0, ps[i].1] + board);
    sc := best.value;
  }

  /** The loop's invariant after i pairs: W, T and the class map count
      exactly the first i pairs. */
  ghost predicate Counted(ps: seq<(Card, Card)>, ss: seq<Score>, hero: Score, i: nat,
                          wins: nat, ties: nat, m: map<int, seq<(Card, Card)>>)
    requires |ss| == |ps| && i <= |ps|
  {
    && wins == CountBeating(ss[..i], hero)
    && ties == CountTying(ss[..i], hero)
    && ClassMap(m, ps[..i], ss[..i], hero)
  }

  /** One turn keeps the invariant. */
  lemma CountedStep(ps: seq<(Card, Card)>, ss: seq<Score>, hero: Score, i: nat,
                    wins: nat, ties: nat, m: map<int, seq<(Card, Card)>>)
    requires |ss| == |ps| && i < |ps|
    requires Counted(ps, ss, hero, i, wins, ties, m)
    ensures Counted(ps, ss, hero, i + 1, wins + (if Beats(ss[i], hero) then 1 else 0),
                    ties + (if ss[i] == hero then 1 else 0), ClassAppend(m, ss[i], hero, ps[i]))
  {
    CountStep(ps, ss, hero, i);
    ClassMapStep(m, ps, ss, hero, i);
  }

  /** The defaultdict append keeps the class map exact. */
  lemma ClassMapStep(m: map<int, seq<(Card, Card)>>, ps: seq<(Card, Card)>, ss: seq<Score>, hero: Score, i: nat)
    requires |ss| == |ps| && i < |ps|
    requires ClassMap(m, ps[..i], ss[..i], hero)
    ensures ClassMap(ClassAppend(m, ss[i], hero, ps[i]), ps[..i + 1], ss[..i + 1], hero)
  {
    assert ps[..i + 1] == ps[..i] + [ps[i]];
    assert ss[..i + 1] == ss[..i] + [ss[i]];
    ClassMapGrow(m, ps[..i], ss[..i], hero, ps[i], ss[i]);
  }

  /** Appending pair p with score s to the pairs keeps the class map
      exact. */
  lemma ClassMapGrow(m: map<int, seq<(Card, Card)>>, ps: seq<(Card, Card)>, ss: seq<Score>, hero: Score, p: (Card, Card), s: Score)
    requires |ss| == |ps| && ClassMap(m, ps, ss, hero)
    ensures ClassMap(ClassAppend(m, s, hero, p), ps + [p], ss + [s], hero)
  {
    forall cls
      ensures (cls in ClassAppend(m, s, hero, p) <==> |ClassWins(ps + [p], ss + [s], hero, cls)| > 0)
      ensures (cls in ClassAppend(m, s, hero, p) ==> ClassAppend(m, s, hero, p)[cls] == ClassWins(ps + [p], ss + [s], hero, cls))
    {
      ClassEntryGrow(m, ps, ss, hero, p, s, cls);
    }
  }

  /** The same for the entry of one class. */
  lemma ClassEntryGrow(m: map<int, seq<(Card, Card)>>, ps: seq<(Card, Card)>, ss: seq<Score>, hero: Score, p: (Card, Card), s: Score, cls: int)
    requires |ss| == |ps|
    requires cls in m <==> |ClassWins(ps, ss, hero, cls)| > 0
    requires cls in m ==> m[cls] == ClassWins(ps, ss, hero, cls)
    ensures cls in ClassAppend(m, s, hero, p) <==> |ClassWins(ps + [p], ss + [s], hero, cls)| > 0
    ensures cls in ClassAppend(m, s, hero, p) ==> ClassAppend(m, s, hero, p)[cls] == ClassWins(ps + [p], ss + [s], hero, cls)
  {
    assert (ps + [p])[..|ps|] == ps;
    assert (ss + [s])[..|ss|] == ss;
  }

  /** How the counts and the class lists grow by one pair. */
  lemma CountStep(ps: seq<(Card, Card)>, ss: seq<Score>, hero: Score, i: nat)
    requires |ss| == |ps| && i < |ps|
    ensures CountBeating(ss[..i + 1], hero) == CountBeating(ss[..i], hero) + (if Beats(ss[i], hero) then 1 else 0)
    ensures CountTying(ss[..i + 1], hero) == CountTying(ss[..i], hero) + (if ss[i] == hero then 1 else 0)
    ensures forall cls ::
              ClassWins(ps[..i + 1], ss[..i + 1], hero, cls)
              == ClassWins(ps[..i], ss[..i], hero, cls) + (if Beats(ss[i], hero) && Category(ss[i]) == cls then [ps[i]] else [])
  {
    assert ss[..i + 1][..i] == ss[..i];
    assert ps[..i + 1][..i] == ps[..i];
  }
}
