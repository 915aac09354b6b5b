/** Hand scores and their order.

    The source scores a five-card hand as a Python tuple whose first field is
    the category (0 = high card .. 8 = straight flush) and whose remaining
    fields are tiebreak ranks, some of them lists; scores are compared with
    Python's built-in lexicographic tuple and list comparison. Here a score is
    one constructor per category carrying the same fields, and the comparison
    is that of Key(s): the tuple with every integer field written as a
    one-element list, compared lexicographically, each element itself compared
    lexicographically (a proper prefix is smaller, as in Python). */
module Scores {

  import opened Options

  datatype Score =
    | HighCard(ranks: seq<int>)                  // (0, vals)
    | OnePair(pair: int, kickers: seq<int>)      // (1, pair, kickers)
    | TwoPair(pairs: seq<int>, kicker: int)      // (2, top2, kicker)
    | ThreeOfAKind(trips: int, kickers: seq<int>) // (3, trips, kickers)
    | Straight(top: int)                         // (4, top)
    | Flush(ranks: seq<int>)                     // (5, vals)
    | FullHouse(trips: int, pair: int)           // (6, trips, pair)
    | FourOfAKind(quad: int, kicker: int)        // (7, four, kicker)
    | StraightFlush(top: int)                    // (8, top)

  /** The first field of the source's tuple. */
  function Category(s: Score): (c: int)
    ensures 0 <= c <= 8
    ensures c == 8 <==> s.StraightFlush?
    ensures c == 7 <==> s.FourOfAKind?
    ensures c == 6 <==> s.FullHouse?
    ensures c == 5 <==> s.Flush?
    ensures c == 4 <==> s.Straight?
    ensures c == 3 <==> s.ThreeOfAKind?
    ensures c == 2 <==> s.TwoPair?
    ensures c == 1 <==> s.OnePair?
    ensures c == 0 <==> s.HighCard?
  {
    match s
    case HighCard(_) => 0
    case OnePair(_, _) => 1
    case TwoPair(_, _) => 2
    case ThreeOfAKind(_, _) => 3
    case Straight(_) => 4
    case Flush(_) => 5
    case FullHouse(_, _) => 6
    case FourOfAKind(_, _) => 7
    case StraightFlush(_) => 8
  }

  /** The source's tuple, integers as one-element lists. */
  function Key(s: Score): (k: seq<seq<int>>)
    ensures |k| >= 2 && k[0] == [Category(s)]
  {
    match s
    case HighCard(r) => [[0], r]
    case OnePair(p, ks) => [[1], [p], ks]
    case TwoPair(ps, k) => [[2], ps, [k]]
    case ThreeOfAKind(t, ks) => [[3], [t], ks]
    case Straight(t) => [[4], [t]]
    case Flush(r) => [[5], r]
    case FullHouse(t, p) => [[6], [t], [p]]
    case FourOfAKind(q, k) => [[7], [q], [k]]
    case StraightFlush(t) => [[8], [t]]
  }

  lemma KeyInjective(a: Score, b: Score)
    requires Key(a) == Key(b)
    ensures a == b
  {
    assert Key(a)[0] == Key(b)[0];
    assert Key(a)[1] == Key(b)[1];
    if |Key(a)| == 3 {
      assert Key(a)[2] == Key(b)[2];
    }
  }

  /** Python's comparison of two integer lists: -1, 0 or 1. */
  function LexCmp(x: seq<int>, y: seq<int>): (c: int)
    ensures -1 <= c <= 1
  {
    if |x| == 0 && |y| == 0 then 0
    else if |x| == 0 then -1
    else if |y| == 0 then 1
    else if x[0] < y[0] then -1
    else if x[0] > y[0] then 1
    else LexCmp(x[1..], y[1..])
  }

  lemma {:induction false} LexCmpAntisymmetric(x: seq<int>, y: seq<int>)
    ensures LexCmp(x, y) == -LexCmp(y, x)
    ensures LexCmp(x, y) == 0 <==> x == y
  {
    if |x| > 0 && |y| > 0 && x[0] == y[0] {
      LexCmpAntisymmetric(x[1..], y[1..]);
      if x[1..] == y[1..] {
        assert x == [x[0]] + x[1..] && y == [y[0]] + y[1..];
      }
    }
  }

  lemma {:induction false} LexCmpTransitive(x: seq<int>, y: seq<int>, z: seq<int>)
    requires LexCmp(x, y) <= 0 && LexCmp(y, z) <= 0
    ensures LexCmp(x, z) <= 0
  {
    if |x| > 0 && |y| > 0 && |z| > 0 && x[0] == y[0] == z[0] {
      LexCmpTransitive(x[1..], y[1..], z[1..]);
    }
  }

  /** Python's comparison of two tuples whose fields are integer lists. */
  function KeyCmp(x: seq<seq<int>>, y: seq<seq<int>>): (c: int)
    ensures -1 <= c <= 1
  {
    if |x| == 0 && |y| == 0 then 0
    else if |x| == 0 then -1
    else if |y| == 0 then 1
    else if LexCmp(x[0], y[0]) != 0 then LexCmp(x[0], y[0])
    else KeyCmp(x[1..], y[1..])
  }

  lemma {:induction false} KeyCmpAntisymmetric(x: seq<seq<int>>, y: seq<seq<int>>)
    ensures KeyCmp(x, y) == -KeyCmp(y, x)
    ensures KeyCmp(x, y) == 0 <==> x == y
  {
    if |x| > 0 && |y| > 0 {
      LexCmpAntisymmetric(x[0], y[0]);
      if LexCmp(x[0], y[0]) == 0 {
        KeyCmpAntisymmetric(x[1..], y[1..]);
        if x[1..] == y[1..] {
          assert x == [x[0]] + x[1..] && y == [y[0]] + y[1..];
        }
      }
    }
  }

  lemma {:induction false} KeyCmpTransitive(x: seq<seq<int>>, y: seq<seq<int>>, z: seq<seq<int>>)
    requires KeyCmp(x, y) <= 0 && KeyCmp(y, z) <= 0
    ensures KeyCmp(x, z) <= 0
  {
    if |x| > 0 && |y| > 0 && |z| > 0 {
      LexCmpAntisymmetric(x[0], y[0]);
      LexCmpAntisymmetric(y[0], z[0]);
      LexCmpAntisymmetric(x[0], z[0]);
      LexCmpTransitive(x[0], y[0], z[0]);
      if LexCmp(x[0], y[0]) == 0 && LexCmp(y[0], z[0]) == 0 {
        KeyCmpTransitive(x[1..], y[1..], z[1..]);
      }
    }
  }

  /** Comparison of two scores: negative when a is weaker than b. */
  function Cmp(a: Score, b: Score): int
  {
    KeyCmp(Key(a), Key(b))
  }

  /** The source's `a > b` on scores. */
  predicate Beats(a: Score, b: Score)
  {
    Cmp(a, b) > 0
  }

  /** Cmp is antisymmetric and its zero is score equality: the split-pot
      condition is exactly `==`. */
  lemma CmpAntisymmetric(a: Score, b: Score)
    ensures Cmp(a, b) == -Cmp(b, a)
    ensures Cmp(a, b) == 0 <==> a == b
  {
    var ka, kb := Key(a), Key(b);
    KeyCmpAntisymmetric(ka, kb);
    if ka == kb { KeyInjective(a, b); }
  }

  lemma CmpTransitive(a: Score, b: Score, c: Score)
    requires Cmp(a, b) <= 0 && Cmp(b, c) <= 0
    ensures Cmp(a, c) <= 0
  {
    KeyCmpTransitive(Key(a), Key(b), Key(c));
  }

  /** Together: Cmp is a total order on scores, and `Beats` is its strict
      part. */
  lemma CmpIsTotalOrder(a: Score, b: Score, c: Score)
    ensures Cmp(a, b) == -Cmp(b, a)
    ensures Cmp(a, b) == 0 <==> a == b
    ensures Cmp(a, b) <= 0 && Cmp(b, c) <= 0 ==> Cmp(a, c) <= 0
    ensures Cmp(a, b) < 0 && Cmp(b, c) <= 0 ==> Cmp(a, c) < 0
    ensures Cmp(a, b) <= 0 && Cmp(b, c) < 0 ==> Cmp(a, c) < 0
  {
    CmpAntisymmetric(a, b);
    CmpAntisymmetric(b, c);
    CmpAntisymmetric(a, c);
    if Cmp(a, b) <= 0 && Cmp(b, c) <= 0 {
      CmpTransitive(a, b, c);
      if Cmp(a, c) == 0 {
        // then a == c, so Cmp(a, b) <= 0 <= -Cmp(b, c) forces both to be 0
        assert Cmp(b, a) <= 0;
        CmpTransitive(b, c, a);
        CmpTransitive(c, a, b);
      }
    }
  }

  /** The category is compared first: a higher category always wins,
      whatever the tiebreaks. */
  lemma CategoryDecides(a: Score, b: Score)
    requires Category(a) > Category(b)
    ensures Beats(a, b)
  {
    assert Key(a)[0] == [Category(a)] && Key(b)[0] == [Category(b)];
    assert LexCmp([Category(a)], [Category(b)]) == 1;
  }

  /** Within one category with a single top rank (straights, straight
      flushes), the higher top wins. */
  lemma TopDecides(a: Score, b: Score)
    requires (a.Straight? && b.Straight?) || (a.StraightFlush? && b.StraightFlush?)
    ensures Beats(a, b) <==> a.top > b.top
  {
    var ka, kb := Key(a), Key(b);
    assert ka == [[Category(a)], [a.top]] && kb == [[Category(a)], [b.top]];
    assert LexCmp(ka[0], kb[0]) == 0;
    assert ka[1..] == [[a.top]] && kb[1..] == [[b.top]];
    var c := LexCmp([a.top], [b.top]);
    assert c == 0 ==> LexCmp([a.top][1..], [b.top][1..]) == 0;
    assert KeyCmp(ka[1..], kb[1..]) == c by {
      assert ka[1..][1..] == [] && kb[1..][1..] == [];
    }
  }

  /** `beats` is the strict part of a total order. */
  ghost predicate StrictTotalOrder<T(!new)>(beats: (T, T) -> bool)
  {
    && (forall a, b :: beats(a, b) ==> !beats(b, a))
    && (forall a, b, c :: beats(a, b) && beats(b, c) ==> beats(a, c))
    && (forall a, b :: a != b ==> beats(a, b) || beats(b, a))
  }

  lemma BeatsIsStrictTotalOrder()
    ensures StrictTotalOrder(Beats)
  {
    forall a, b ensures Beats(a, b) ==> !Beats(b, a) {
      CmpAntisymmetric(a, b);
    }
    forall a, b, c | Beats(a, b) && Beats(b, c) ensures Beats(a, c) {
      CmpIsTotalOrder(c, b, a);
      CmpAntisymmetric(a, c);
      CmpAntisymmetric(a, b);
      CmpAntisymmetric(b, c);
    }
    forall a, b | a != b ensures Beats(a, b) || Beats(b, a) {
      CmpAntisymmetric(a, b);
    }
  }

  /** The index of the first maximum: a left-to-right scan that replaces the
      best so far only on a strictly better element, as the source's loops do
      with `score > best`. */
  function FirstMaxIndex<T>(xs: seq<T>, beats: (T, T) -> bool): (k: nat)
    requires |xs| > 0
    ensures k < |xs|
    decreases |xs|
  {
    if |xs| == 1 then 0
    else
      var k := FirstMaxIndex(xs[..|xs| - 1], beats);
      if beats(xs[|xs| - 1], xs[k]) then |xs| - 1 else k
  }

  /** The element such a scan ends with. */
  function MaxOf<T>(xs: seq<T>, beats: (T, T) -> bool): T
    requires |xs| > 0
  {
    xs[FirstMaxIndex(xs, beats)]
  }

  /** Nothing in xs beats xs[k], and xs[k] beats everything before it. */
  ghost predicate IsFirstMax<T>(xs: seq<T>, k: nat, beats: (T, T) -> bool)
  {
    && k < |xs|
    && (forall j :: 0 <= j < |xs| ==> !beats(xs[j], xs[k]))
    && (forall j :: 0 <= j < k ==> beats(xs[k], xs[j]))
  }

  /** The scan finds the first maximum. */
  lemma {:induction false} FirstMaxIndexIsFirstMaximum<T(!new)>(xs: seq<T>, beats: (T, T) -> bool)
    requires |xs| > 0 && StrictTotalOrder(beats)
    ensures IsFirstMax(xs, FirstMaxIndex(xs, beats), beats)
  {
    var n := |xs|;
    if n > 1 {
      var init := xs[..n - 1];
      FirstMaxIndexIsFirstMaximum(init, beats);
      var k := FirstMaxIndex(init, beats);
      assert forall j :: 0 <= j < n - 1 ==> init[j] == xs[j];
    }
  }

  /** The first maximum is unique: any index with that property is the
      scan's. */
  lemma FirstMaxIsUnique<T(!new)>(xs: seq<T>, k: nat, beats: (T, T) -> bool)
    requires |xs| > 0 && StrictTotalOrder(beats)
    requires IsFirstMax(xs, k, beats)
    ensures k == FirstMaxIndex(xs, beats)
  {
    FirstMaxIndexIsFirstMaximum(xs, beats);
  }

  /** The scan over one element keeps it; one more step replaces the kept
      element exactly when the new one beats it. */
  lemma MaxOfStep<T>(xs: seq<T>, i: nat, beats: (T, T) -> bool)
    requires i < |xs|
    ensures i == 0 ==> FirstMaxIndex(xs[..i + 1], beats) == 0 && MaxOf(xs[..i + 1], beats) == xs[0]
    ensures i > 0 ==>
              FirstMaxIndex(xs[..i + 1], beats)
              == if beats(xs[i], MaxOf(xs[..i], beats)) then i else FirstMaxIndex(xs[..i], beats)
    ensures i > 0 ==>
              MaxOf(xs[..i + 1], beats)
              == if beats(xs[i], MaxOf(xs[..i], beats)) then xs[i] else MaxOf(xs[..i], beats)
  {
    assert xs[..i + 1][..i] == xs[..i];
  }

  /** The scans of the source, which start from None: after element i the
      kept element is the maximum of the first i + 1. */
  lemma ScanStep<T>(xs: seq<T>, i: nat, best: Option<T>, beats: (T, T) -> bool)
    requires i < |xs|
    requires best == if i == 0 then None else Some(MaxOf(xs[..i], beats))
    ensures (if best.None? || beats(xs[i], best.value) then Some(xs[i]) else best)
            == Some(MaxOf(xs[..i + 1], beats))
  {
    MaxOfStep(xs, i, beats);
  }

  /** The source's scan `if best is None or x > best: best = x` over the
      first i elements. */
  function ScanBest<T>(xs: seq<T>, i: nat, beats: (T, T) -> bool): Option<T>
    requires i <= |xs|
  {
    if i == 0 then None
    else
      var b := ScanBest(xs, i - 1, beats);
      if b.None? || beats(xs[i - 1], b.value) then Some(xs[i - 1]) else b
  }

  /** The scan keeps the maximum of the elements seen. */
  lemma {:induction false} ScanBestIsMax<T>(xs: seq<T>, i: nat, beats: (T, T) -> bool)
    requires i <= |xs|
    ensures ScanBest(xs, i, beats) == if i == 0 then None else Some(MaxOf(xs[..i], beats))
  {
    if i > 0 {
      ScanBestIsMax(xs, i - 1, beats);
      ScanStep(xs, i - 1, ScanBest(xs, i - 1, beats), beats);
    }
  }

  /** Appending element i to the first i elements gives the first i + 1. */
  lemma PrefixStep<T>(xs: seq<T>, i: nat, ys: seq<T>, y: T)
    requires i < |xs| && ys == xs[..i] && y == xs[i]
    ensures ys + [y] == xs[..i + 1]
  {
  }
}
