/** itertools.combinations over positions: the k-element index tuples of
    range(n), in the order Python yields them (lexicographic). The
    evaluator draws five cards out of seven with it, and the enumeration of
    opponent hands draws two cards out of the unseen ones. */
module Combinations {

  /** Puts x in front of each tuple. */
  function Prepend(x: nat, cs: seq<seq<nat>>): (r: seq<seq<nat>>)
    ensures |r| == |cs| && forall i :: 0 <= i < |cs| ==> r[i] == [x] + cs[i]
  {
    seq(|cs|, i requires 0 <= i < |cs| => [x] + cs[i])
  }

  /** The k-tuples of positions lo..n-1, in order: first those starting at
      lo, then those starting later. */
  function CombosFrom(lo: nat, n: nat, k: nat): seq<seq<nat>>
    decreases n - lo
  {
    if k == 0 then [[]]
    else if lo >= n then []
    else Prepend(lo, CombosFrom(lo + 1, n, k - 1)) + CombosFrom(lo + 1, n, k)
  }

  /** combinations(range(n), k). */
  function Combos(n: nat, k: nat): seq<seq<nat>>
  {
    CombosFrom(0, n, k)
  }

  /** c is a strictly increasing k-tuple of positions lo..n-1. */
  ghost predicate IsCombo(c: seq<nat>, lo: nat, n: nat, k: nat)
  {
    && |c| == k
    && (forall i :: 0 <= i < |c| ==> lo <= c[i] < n)
    && (forall i, j :: 0 <= i < j < |c| ==> c[i] < c[j])
  }

  /** The tuples listed are exactly the increasing k-tuples of lo..n-1:
      every k-subset of the positions is listed, and nothing else. */
  lemma {:induction false} CombosFromExact(lo: nat, n: nat, k: nat)
    ensures forall c :: c in CombosFrom(lo, n, k) <==> IsCombo(c, lo, n, k)
    decreases n - lo, 2
  {
    if k == 0 {
      assert forall c :: IsCombo(c, lo, n, k) ==> c == [];
    } else if lo >= n {
      forall c | |c| == k ensures !IsCombo(c, lo, n, k) {
        assert !(lo <= c[0] < n);
      }
    } else {
      forall c ensures c in CombosFrom(lo, n, k) <==> IsCombo(c, lo, n, k) {
        CombosFromStep(lo, n, k, c);
      }
    }
  }

  /** One tuple: it is listed exactly when it is a combination. */
  lemma CombosFromStep(lo: nat, n: nat, k: nat, c: seq<nat>)
    requires k > 0 && lo < n
    ensures c in CombosFrom(lo, n, k) <==> IsCombo(c, lo, n, k)
    decreases n - lo, 1
  {
    if c in CombosFrom(lo, n, k) {
      ListedIsCombo(lo, n, k, c);
    }
    if IsCombo(c, lo, n, k) {
      ComboIsListed(lo, n, k, c);
    }
  }

  /** A listed tuple is lo in front of a (k-1)-tuple of lo+1..n-1, or a
      k-tuple of lo+1..n-1: a combination either way. */
  lemma ListedIsCombo(lo: nat, n: nat, k: nat, c: seq<nat>)
    requires k > 0 && lo < n
    requires c in CombosFrom(lo, n, k)
    ensures IsCombo(c, lo, n, k)
    decreases n - lo, 0
  {
    var first := CombosFrom(lo + 1, n, k - 1);
    if c in Prepend(lo, first) {
      CombosFromExact(lo + 1, n, k - 1);
      var i :| 0 <= i < |first| && Prepend(lo, first)[i] == c;
      assert c == [lo] + first[i];
      assert IsCombo(first[i], lo + 1, n, k - 1);
    } else {
      CombosFromExact(lo + 1, n, k);
    }
  }

  /** A combination starting at lo is found among the tuples lo is put in
      front of; one starting later, among the rest. */
  lemma ComboIsListed(lo: nat, n: nat, k: nat, c: seq<nat>)
    requires k > 0 && lo < n
    requires IsCombo(c, lo, n, k)
    ensures c in CombosFrom(lo, n, k)
    decreases n - lo, 0
  {
    var first := CombosFrom(lo + 1, n, k - 1);
    if c[0] == lo {
      CombosFromExact(lo + 1, n, k - 1);
      var d := c[1..];
      assert IsCombo(d, lo + 1, n, k - 1) by {
        forall i | 0 <= i < |d| ensures lo + 1 <= d[i] {
          assert c[0] < c[i + 1];
        }
      }
      var i :| 0 <= i < |first| && first[i] == d;
      assert Prepend(lo, first)[i] == c;
    } else {
      CombosFromExact(lo + 1, n, k);
      assert IsCombo(c, lo + 1, n, k) by {
        forall i | 0 <= i < |c| ensures lo + 1 <= c[i] {
          assert i == 0 || c[0] < c[i];
        }
      }
    }
  }

  /** Every listed tuple is a strictly increasing k-tuple below n. */
  lemma CombosAreCombos(n: nat, k: nat)
    ensures forall c :: c in Combos(n, k) <==> IsCombo(c, 0, n, k)
  {
    CombosFromExact(0, n, k);
  }

  /** The binomial coefficient, by Pascal's rule. */
  function Choose(m: nat, k: nat): nat
  {
    if k == 0 then 1
    else if m == 0 then 0
    else Choose(m - 1, k - 1) + Choose(m - 1, k)
  }

  /** There are C(n - lo, k) of them. */
  lemma {:induction false} CombosFromCount(lo: nat, n: nat, k: nat)
    requires lo <= n
    ensures |CombosFrom(lo, n, k)| == Choose(n - lo, k)
    decreases n - lo
  {
    if k > 0 && lo < n {
      CombosFromCount(lo + 1, n, k - 1);
      CombosFromCount(lo + 1, n, k);
    }
  }

  /** C(m, k) is positive exactly when k <= m. */
  lemma {:induction false} ChoosePositive(m: nat, k: nat)
    ensures Choose(m, k) > 0 <==> k <= m
  {
    if k > 0 && m > 0 {
      ChoosePositive(m - 1, k - 1);
      ChoosePositive(m - 1, k);
    }
  }

  /** C(m, 1) = m. */
  lemma {:induction false} ChooseOne(m: nat)
    ensures Choose(m, 1) == m
  {
    if m > 0 {
      ChooseOne(m - 1);
    }
  }

  /** C(m, 2) = m(m-1)/2, the number of unordered pairs. */
  lemma {:induction false} ChooseTwo(m: nat)
    ensures Choose(m, 2) == m * (m - 1) / 2
  {
    if m > 0 {
      ChooseTwo(m - 1);
      ChooseOne(m - 1);
      assert (m - 1) * (m - 2) / 2 + (m - 1) == m * (m - 1) / 2 by {
        assert (m - 1) * (m - 2) + 2 * (m - 1) == m * (m - 1);
      }
    }
  }

  /** combinations(range(n), k) has C(n, k) entries, n(n-1)/2 of them
      for pairs. */
  lemma CombosCount(n: nat, k: nat)
    ensures |Combos(n, k)| == Choose(n, k)
    ensures |Combos(n, 2)| == n * (n - 1) / 2
  {
    CombosFromCount(0, n, k);
    CombosFromCount(0, n, 2);
    ChooseTwo(n);
  }

  /** Seven cards hold 21 five-card hands. */
  lemma SevenCardSubsets(n: nat)
    requires n == 7
    ensures |Combos(n, 5)| == 21
  {
    CombosCount(n, 5);
    SevenChooseFive(n);
  }

  lemma SevenChooseFive(n: nat)
    requires n == 7
    ensures Choose(n, 5) == 21
  {
    assert Choose(1, 1) == 1 && Choose(2, 2) == 1 && Choose(3, 3) == 1 && Choose(4, 4) == 1 && Choose(5, 5) == 1;
    assert Choose(1, 2) == 0 && Choose(2, 3) == 0;
    assert Choose(2, 1) == 2 && Choose(3, 1) == 3 && Choose(3, 2) == 3;
    assert Choose(4, 2) == 6 && Choose(4, 3) == 4;
    assert Choose(5, 3) == 10 && Choose(5, 4) == 5;
    assert Choose(6, 4) == 15 && Choose(6, 5) == 6;
  }
}
