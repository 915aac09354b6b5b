/** is_straight: the top of the highest run of five consecutive rank values,
    the ace playing high (14) or low (1). */
module Straights {

  import opened Options
  import opened RankSeqs

  /** The distinct values, highest first, with 1 appended when an ace is
      present, so that the ace also plays low (the wheel A-2-3-4-5). */
  function WithWheel(u: seq<int>): seq<int>
  {
    if 14 in u then u + [1] else u
  }

  /** The loop of is_straight: the first window of five entries whose ends
      differ by four. */
  function ScanRuns(u: seq<int>, i: nat): Option<int>
    decreases |u| - i
  {
    if i + 5 > |u| then None
    else if u[i] - u[i + 4] == 4 then Some(u[i])
    else ScanRuns(u, i + 1)
  }

  /** is_straight: (True, top) as Some(top), (False, 0) as None. */
  function IsStraight(vals: seq<int>): Option<int>
  {
    ScanRuns(WithWheel(DistinctDesc(vals)), 0)
  }

  /** Value v is available, an ace also counting as 1. */
  ghost predicate Present(vals: seq<int>, v: int)
  {
    v in vals || (v == 1 && 14 in vals)
  }

  /** t, t-1, .., t-4 are all available: a straight with top t. */
  ghost predicate HasRun(vals: seq<int>, t: int)
  {
    forall v :: t - 4 <= v <= t ==> Present(vals, v)
  }

  /** Runs depend only on which values occur. */
  lemma HasRunSameMembers(a: seq<int>, b: seq<int>)
    requires forall v :: v in a <==> v in b
    ensures forall t :: HasRun(a, t) <==> HasRun(b, t)
  {
    assert forall v :: Present(a, v) <==> Present(b, v);
  }

  ghost predicate WindowAt(u: seq<int>, w: int)
  {
    0 <= w && w + 5 <= |u| && u[w] - u[w + 4] == 4
  }

  lemma {:induction false} Gap(u: seq<int>, i: int, j: int)
    requires StrictDesc(u) && 0 <= i <= j < |u|
    ensures u[i] - u[j] >= j - i
    decreases j - i
  {
    if i < j {
      Gap(u, i, j - 1);
    }
  }

  /** A window whose ends differ by four holds five consecutive values. */
  lemma WindowIsRun(u: seq<int>, w: int)
    requires StrictDesc(u) && WindowAt(u, w)
    ensures forall i :: w <= i < w + 5 ==> u[i] == u[w] - (i - w)
  {
    forall i | w <= i < w + 5 ensures u[i] == u[w] - (i - w) {
      Gap(u, w, i);
      Gap(u, i, w + 4);
    }
  }

  /** Five consecutive values of a strictly decreasing list sit next to each
      other, starting at the position of the top one. */
  lemma RunIsWindow(u: seq<int>, t: int) returns (w: int)
    requires StrictDesc(u)
    requires forall v :: t - 4 <= v <= t ==> v in u
    ensures WindowAt(u, w) && u[w] == t
  {
    assert t in u && t - 1 in u && t - 2 in u && t - 3 in u && t - 4 in u;
    var j0 :| 0 <= j0 < |u| && u[j0] == t;
    var j1 :| 0 <= j1 < |u| && u[j1] == t - 1;
    var j2 :| 0 <= j2 < |u| && u[j2] == t - 2;
    var j3 :| 0 <= j3 < |u| && u[j3] == t - 3;
    var j4 :| 0 <= j4 < |u| && u[j4] == t - 4;
    assert j0 < j1 < j2 < j3 < j4;
    Gap(u, j0, j4);
    w := j0;
  }

  lemma {:induction false} ScanRunsFindsHighestWindow(u: seq<int>, i: nat)
    requires StrictDesc(u)
    ensures ScanRuns(u, i).Some? ==> exists w :: i <= w && WindowAt(u, w) && u[w] == ScanRuns(u, i).value
    ensures ScanRuns(u, i).Some? ==> forall w :: i <= w && WindowAt(u, w) ==> u[w] <= ScanRuns(u, i).value
    ensures ScanRuns(u, i).None? ==> forall w :: i <= w ==> !WindowAt(u, w)
    decreases |u| - i
  {
    if i + 5 <= |u| && u[i] - u[i + 4] != 4 {
      ScanRunsFindsHighestWindow(u, i + 1);
    }
  }

  lemma WithWheelMembers(vals: seq<int>)
    requires IsRanks(vals)
    ensures StrictDesc(WithWheel(DistinctDesc(vals)))
    ensures forall v :: v in WithWheel(DistinctDesc(vals)) <==> Present(vals, v)
  {
    var u := DistinctDesc(vals);
    if 14 in u {
      assert forall i :: 0 <= i < |u| ==> u[i] in vals;
    }
  }

  /** is_straight returns the top of the highest straight among the values,
      the ace playing high or low, and reports none exactly when there is
      no five-long run. */
  lemma StraightIsHighestRun(vals: seq<int>)
    requires IsRanks(vals)
    ensures IsStraight(vals).Some? ==> HasRun(vals, IsStraight(vals).value)
    ensures IsStraight(vals).Some? ==> 5 <= IsStraight(vals).value <= 14
    ensures IsStraight(vals).Some? ==> forall t :: HasRun(vals, t) ==> t <= IsStraight(vals).value
    ensures IsStraight(vals).None? <==> forall t :: !HasRun(vals, t)
  {
    var u := WithWheel(DistinctDesc(vals));
    WithWheelMembers(vals);
    ScanRunsFindsHighestWindow(u, 0);
    if IsStraight(vals).Some? {
      var w :| 0 <= w && WindowAt(u, w) && u[w] == IsStraight(vals).value;
      WindowIsRun(u, w);
      forall v | u[w] - 4 <= v <= u[w] ensures Present(vals, v) {
        assert u[w + (u[w] - v)] == v;
      }
      assert u[w + 4] == u[w] - 4 && u[w + 4] in u && u[w] in u;
      assert HasRun(vals, IsStraight(vals).value);
    }
    forall t | HasRun(vals, t)
      ensures IsStraight(vals).Some? && t <= IsStraight(vals).value
    {
      var w := RunIsWindow(u, t);
    }
  }
}
