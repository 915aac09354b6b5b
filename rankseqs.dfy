/** Operations on lists of rank values that the evaluator uses: Python's
    sorted(..., reverse=True), sorted(set(...), reverse=True), list
    comprehensions that drop values, slicing with [:n], and max. */
module RankSeqs {

  /** Non-increasing. */
  predicate Desc(s: seq<int>)
  {
    forall i, j :: 0 <= i < j < |s| ==> s[i] >= s[j]
  }

  /** Every value is a rank value 2..14. */
  predicate IsRanks(vals: seq<int>)
  {
    forall v :: v in vals ==> 2 <= v <= 14
  }

  /** Strictly decreasing, so without repeats. */
  predicate StrictDesc(s: seq<int>)
  {
    forall i, j :: 0 <= i < j < |s| ==> s[i] > s[j]
  }

  /** Insertion of x into a non-increasing list, before the first entry
      below it. */
  function Insert(x: int, s: seq<int>): seq<int>
  {
    if |s| == 0 then [x]
    else if x >= s[0] then [x] + s
    else [s[0]] + Insert(x, s[1..])
  }

  /** Every entry of s is at most m. */
  predicate AtMost(s: seq<int>, m: int)
  {
    forall i :: 0 <= i < |s| ==> s[i] <= m
  }

  lemma {:induction false} InsertBounded(x: int, s: seq<int>, m: int)
    requires AtMost(s, m) && x <= m
    ensures AtMost(Insert(x, s), m)
  {
    if |s| > 0 && x < s[0] {
      InsertBounded(x, s[1..], m);
    }
  }

  /** Insertion keeps the list non-increasing and adds x to it. */
  lemma {:induction false} InsertSorts(x: int, s: seq<int>)
    requires Desc(s)
    ensures Desc(Insert(x, s)) && multiset(Insert(x, s)) == multiset(s) + multiset{x}
  {
    InsertAdds(x, s);
    if |s| > 0 && x < s[0] {
      var t := Insert(x, s[1..]);
      InsertSorts(x, s[1..]);
      InsertBounded(x, s[1..], s[0]);
      var r := [s[0]] + t;
      assert Insert(x, s) == r;
      assert forall i :: 0 < i < |r| ==> r[i] == t[i - 1];
    }
  }

  lemma {:induction false} InsertAdds(x: int, s: seq<int>)
    ensures multiset(Insert(x, s)) == multiset(s) + multiset{x}
  {
    if |s| > 0 {
      assert s == [s[0]] + s[1..];
      if x < s[0] {
        InsertAdds(x, s[1..]);
      }
    }
  }

  /** sorted(s, reverse=True). */
  function SortDesc(s: seq<int>): (r: seq<int>)
    ensures Desc(r) && multiset(r) == multiset(s)
  {
    if |s| == 0 then []
    else
      assert s == [s[0]] + s[1..];
      var t := SortDesc(s[1..]);
      InsertSorts(s[0], t);
      Insert(s[0], t)
  }

  /** Drops adjacent repeats. */
  function Dedup(s: seq<int>): (r: seq<int>)
    requires Desc(s)
    ensures StrictDesc(r)
    ensures forall v :: v in r <==> v in s
    ensures |r| > 0 ==> |s| > 0 && r[0] == s[0]
  {
    if |s| <= 1 then s
    else
      var t := Dedup(s[1..]);
      if s[0] == s[1] then t else [s[0]] + t
  }

  /** sorted(set(s), reverse=True): the distinct values, highest first. */
  function DistinctDesc(s: seq<int>): (r: seq<int>)
    ensures StrictDesc(r)
    ensures forall v :: v in r <==> v in s
  {
    var d := SortDesc(s);
    assert forall v :: v in d <==> v in multiset(d);
    Dedup(d)
  }

  /** [v for v in s if v != x]. */
  function Without(s: seq<int>, x: int): (r: seq<int>)
    ensures multiset(r) == multiset(s)[x := 0]
    ensures forall v :: v in r <==> v in s && v != x
  {
    if |s| == 0 then []
    else
      assert s == [s[0]] + s[1..];
      var t := Without(s[1..], x);
      if s[0] == x then t else [s[0]] + t
  }

  /** Dropping values keeps a non-increasing list non-increasing. */
  lemma {:induction false} WithoutDesc(s: seq<int>, x: int)
    requires Desc(s)
    ensures Desc(Without(s, x))
  {
    if |s| > 0 {
      var t := Without(s[1..], x);
      WithoutDesc(s[1..], x);
      if s[0] != x {
        forall i | 0 <= i < |t| ensures t[i] <= s[0] {
          assert t[i] in s[1..];
        }
        var r := [s[0]] + t;
        assert forall i :: 0 < i < |r| ==> r[i] == t[i - 1];
      }
    }
  }

  /** Dropping x removes exactly its occurrences. */
  lemma {:induction false} WithoutSize(s: seq<int>, x: int)
    ensures |Without(s, x)| + multiset(s)[x] == |s|
  {
    if |s| > 0 {
      assert s == [s[0]] + s[1..];
      WithoutSize(s[1..], x);
    }
  }

  /** A list is its value x, as many times as it occurs, and the rest. */
  lemma SplitOff(s: seq<int>, x: int)
    ensures multiset(s)[x] == 2 ==> multiset(s) == multiset{x, x} + multiset(Without(s, x))
    ensures multiset(s)[x] == 3 ==> multiset(s) == multiset{x, x, x} + multiset(Without(s, x))
    ensures multiset(s)[x] == 4 ==> multiset(s) == multiset{x, x, x, x} + multiset(Without(s, x))
  {
    var m, r := multiset(s), multiset(Without(s, x));
    assert forall v :: v != x ==> m[v] == r[v];
    assert r[x] == 0;
  }

  /** [v for v in s if v not in xs]. */
  function WithoutAll(s: seq<int>, xs: seq<int>): (r: seq<int>)
    ensures forall v :: v in r <==> v in s && v !in xs
    ensures forall v :: v !in xs ==> multiset(r)[v] == multiset(s)[v]
  {
    if |s| == 0 then []
    else
      assert s == [s[0]] + s[1..];
      var t := WithoutAll(s[1..], xs);
      if s[0] in xs then t else [s[0]] + t
  }

  /** s[:n]. */
  function Take(s: seq<int>, n: nat): (r: seq<int>)
    ensures |r| == if n < |s| then n else |s|
    ensures r == s[..|r|]
  {
    s[..if n < |s| then n else |s|]
  }

  /** max(s). */
  function MaxElem(s: seq<int>): (m: int)
    requires |s| > 0
    ensures m in s && forall v :: v in s ==> v <= m
  {
    if |s| == 1 then s[0]
    else
      var t := MaxElem(s[1..]);
      assert s == [s[0]] + s[1..];
      if s[0] >= t then s[0] else t
  }

  /** A sub-multiset is no larger, and one of the same size is the whole. */
  lemma SubmultisetSize<T>(l: multiset<T>, m: multiset<T>)
    requires l <= m
    ensures |l| <= |m|
    ensures |l| == |m| ==> l == m
  {
    assert m == l + (m - l);
    if |l| == |m| {
      assert |m - l| == 0;
    }
  }

  /** Two equal entries make a value occur at least twice. */
  lemma TwoIndices<T>(s: seq<T>, i: int, j: int)
    requires 0 <= i < j < |s| && s[i] == s[j]
    ensures multiset(s)[s[i]] >= 2
  {
    assert s == s[..j] + s[j..];
    assert s[i] in s[..j];
    assert s[j..][0] == s[j];
    assert s[j] in s[j..];
  }

  /** A non-increasing list in which no value repeats is strictly decreasing. */
  lemma NoRepeatsStrict(s: seq<int>)
    requires Desc(s) && forall v :: multiset(s)[v] <= 1
    ensures StrictDesc(s)
  {
    forall i, j | 0 <= i < j < |s| ensures s[i] > s[j] {
      if s[i] == s[j] {
        TwoIndices(s, i, j);
      }
    }
  }

  /** The elements of a list partitioned between two values. */
  lemma {:induction false} TwoValues(s: seq<int>, a: int, b: int)
    requires a != b && forall x :: x in s ==> x == a || x == b
    ensures |s| == multiset(s)[a] + multiset(s)[b]
  {
    if |s| > 0 {
      assert s == [s[0]] + s[1..];
      assert forall x :: x in s[1..] ==> x in s;
      assert multiset(s) == multiset{s[0]} + multiset(s[1..]);
      assert s[0] in s;
      if s[0] == a {
        assert multiset{s[0]}[a] == 1 && multiset{s[0]}[b] == 0;
      } else {
        assert multiset{s[0]}[a] == 0 && multiset{s[0]}[b] == 1;
      }
      TwoValues(s[1..], a, b);
    }
  }
}
