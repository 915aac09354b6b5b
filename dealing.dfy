/** Shuffling and dealing: the riffle shuffle driven by a random-number
    generator, burning the top card, the seat order from the dealer's left,
    and dealing two hole cards per player and the flop, turn and river. The
    deck is a list the source changes in place; its top is index 0. */
module Dealing {

  import opened Cards
  import RankSeqs

  /** rng.randint(lo, hi) for the draw at position pos of a stream of raw
      values: always within lo..hi. */
  function Draw(raw: nat -> nat, pos: nat, lo: int, hi: int): (x: int)
    requires lo <= hi
    ensures lo <= x <= hi
  {
    lo + raw(pos) % (hi - lo + 1)
  }

  /** The random-number generator: a fixed stream of raw values and the
      position of the next draw. Which values a seeded generator yields is
      not modelled; every stream is allowed. */
  class Rng {
    const raw: nat -> nat
    var pos: nat

    constructor (raw: nat -> nat)
      ensures this.raw == raw && pos == 0
    {
      this.raw := raw;
      pos := 0;
    }

    /** randint(lo, hi): the next draw, lo and hi included. */
    method RandInt(lo: int, hi: int) returns (x: int)
      requires lo <= hi
      modifies this
      ensures x == Draw(raw, old(pos), lo, hi) && pos == old(pos) + 1
    {
      x := Draw(raw, pos, lo, hi);
      pos := pos + 1;
    }
  }

  /** s[:n] for n >= 0: the whole list when it is shorter. */
  function Take<T>(s: seq<T>, n: nat): (r: seq<T>)
    ensures |r| == if n < |s| then n else |s|
  {
    s[..if n < |s| then n else |s|]
  }

  /** s[n:] for n >= 0: empty when the list is shorter. */
  function Drop<T>(s: seq<T>, n: nat): (r: seq<T>)
    ensures |r| == if n < |s| then |s| - n else 0
  {
    s[if n < |s| then n else |s|..]
  }

  /** The while loop of the shuffle: while either half has cards, up to 1..3
      cards from the left half, then up to 1..3 from the right; the result
      and the position after the last draw. */
  function Interleave(left: seq<Card>, right: seq<Card>, raw: nat -> nat, pos: nat): (seq<Card>, nat)
    decreases |left| + |right|, 1
  {
    if |left| == 0 && |right| == 0 then ([], pos) else Deal(left, right, raw, pos)
  }

  /** One turn of that loop and the turns after it. */
  function Deal(left: seq<Card>, right: seq<Card>, raw: nat -> nat, pos: nat): (seq<Card>, nat)
    requires |left| > 0 || |right| > 0
    decreases |left| + |right|, 0
  {
    var tl := Draw(raw, pos, 1, 3);
    var tr := Draw(raw, pos + 1, 1, 3);
    var rest := Interleave(Drop(left, tl), Drop(right, tr), raw, pos + 2);
    (Take(left, tl) + Take(right, tr) + rest.0, rest.1)
  }

  /** deck[-k:] + deck[:-k] for k >= 1: the bottom k cards moved to the top;
      the deck is unchanged when k reaches its length. */
  function Rotate(d: seq<Card>, k: nat): (r: seq<Card>)
    requires k >= 1
  {
    var j := if k < |d| then |d| - k else 0;
    d[j..] + d[..j]
  }

  /** One pass of riffle_shuffle: cut the deck at 18..34, interleave the
      halves, then move the bottom 5..15 cards to the top. */
  function Pass(d: seq<Card>, raw: nat -> nat, pos: nat): (seq<Card>, nat)
  {
    var cut := Draw(raw, pos, 18, 34);
    var inter := Interleave(Take(d, cut), Drop(d, cut), raw, pos + 1);
    var k := Draw(raw, inter.1, 5, 15);
    (Rotate(inter.0, k), inter.1 + 1)
  }

  /** riffle_shuffle(deck, rng, times): times passes one after the other,
      and the position of the generator afterwards. */
  function Riffle(d: seq<Card>, raw: nat -> nat, pos: nat, times: nat): (seq<Card>, nat)
  {
    if times == 0 then (d, pos)
    else
      var prev := Riffle(d, raw, pos, times - 1);
      Pass(prev.0, raw, prev.1)
  }

  /** The interleaving takes every card of both halves once. */
  lemma {:induction false} InterleaveIsPermutation(left: seq<Card>, right: seq<Card>, raw: nat -> nat, pos: nat)
    ensures multiset(Interleave(left, right, raw, pos).0) == multiset(left) + multiset(right)
    decreases |left| + |right|
  {
    if |left| > 0 || |right| > 0 {
      var tl := Draw(raw, pos, 1, 3);
      var tr := Draw(raw, pos + 1, 1, 3);
      InterleaveIsPermutation(Drop(left, tl), Drop(right, tr), raw, pos + 2);
      assert left == Take(left, tl) + Drop(left, tl);
      assert right == Take(right, tr) + Drop(right, tr);
    }
  }

  /** Moving the bottom cards to the top keeps every card. */
  lemma RotateIsPermutation(d: seq<Card>, k: nat)
    requires k >= 1
    ensures multiset(Rotate(d, k)) == multiset(d)
  {
    var j := if k < |d| then |d| - k else 0;
    assert d == d[..j] + d[j..];
  }

  /** One pass keeps every card. */
  lemma PassIsPermutation(d: seq<Card>, raw: nat -> nat, pos: nat)
    ensures multiset(Pass(d, raw, pos).0) == multiset(d)
  {
    var cut := Draw(raw, pos, 18, 34);
    var left, right := Take(d, cut), Drop(d, cut);
    InterleaveIsPermutation(left, right, raw, pos + 1);
    assert d == left + right;
    var inter := Interleave(left, right, raw, pos + 1);
    RotateIsPermutation(inter.0, Draw(raw, inter.1, 5, 15));
  }

  /** The shuffle reorders the deck: the same cards, each as often as
      before, whatever the generator yields. */
  lemma {:induction false} RiffleIsPermutation(d: seq<Card>, raw: nat -> nat, pos: nat, times: nat)
    ensures multiset(Riffle(d, raw, pos, times).0) == multiset(d)
    ensures |Riffle(d, raw, pos, times).0| == |d|
  {
    var r := Riffle(d, raw, pos, times).0;
    if times > 0 {
      RiffleIsPermutation(d, raw, pos, times - 1);
      var prev := Riffle(d, raw, pos, times - 1);
      PassIsPermutation(prev.0, raw, prev.1);
    }
    assert |r| == |multiset(r)| && |d| == |multiset(d)|;
  }

  /** The deck: a list of cards, top first, changed in place. */
  class Deck {
    var cards: seq<Card>

    constructor (cards: seq<Card>)
      ensures this.cards == cards
    {
      this.cards := cards;
    }

    /** burn: drops the top card when there is one. */
    method Burn()
      modifies this
      ensures cards == if |old(cards)| > 0 then old(cards)[1..] else old(cards)
    {
      if |cards| > 0 {
        cards := cards[1..];
      }
    }

    /** deck.pop(0): removes and returns the top card (the source fails on
        an empty deck). */
    method Pop() returns (c: Card)
      requires |cards| > 0
      modifies this
      ensures c == old(cards)[0] && cards == old(cards)[1..]
    {
      c := cards[0];
      cards := cards[1..];
    }
  }

  /** riffle_shuffle, as the source's loop computes it. */
  method RiffleShuffle(deck: Deck, rng: Rng, times: nat)
    modifies deck, rng
    ensures (deck.cards, rng.pos) == Riffle(old(deck.cards), rng.raw, old(rng.pos), times)
  {
    ghost var d0, p0 := deck.cards, rng.pos;
    for t := 0 to times
      invariant (deck.cards, rng.pos) == Riffle(d0, rng.raw, p0, t)
    {
      OnePass(deck, rng);
    }
  }

  /** One turn of the for loop: cut, interleave, move the bottom cards up. */
  method OnePass(deck: Deck, rng: Rng)
    modifies deck, rng
    ensures (deck.cards, rng.pos) == Pass(old(deck.cards), rng.raw, old(rng.pos))
  {
    var cut := rng.RandInt(18, 34);
    var left, right := Take(deck.cards, cut), Drop(deck.cards, cut);
    var inter := InterleaveHalves(left, right, rng);
    deck.cards := inter;
    var k := rng.RandInt(5, 15);
    deck.cards := Rotate(deck.cards, k);
  }

  /** The while loop of riffle_shuffle. */
  method InterleaveHalves(left: seq<Card>, right: seq<Card>, rng: Rng) returns (inter: seq<Card>)
    modifies rng
    ensures (inter, rng.pos) == Interleave(left, right, rng.raw, old(rng.pos))
  {
    ghost var whole := Interleave(left, right, rng.raw, rng.pos);
    var l, r := left, right;
    inter := [];
    while |l| > 0 || |r| > 0
      invariant inter + Interleave(l, r, rng.raw, rng.pos).0 == whole.0
      invariant Interleave(l, r, rng.raw, rng.pos).1 == whole.1
      decreases |l| + |r|
    {
      inter, l, r := DealTurn(inter, l, r, rng);
    }
    assert inter == whole.0;
  }

  /** One turn of the while loop: up to tl cards from the left half, then
      up to tr from the right; what is dealt and what is left to deal make
      up the same interleaving. */
  method DealTurn(acc: seq<Card>, left: seq<Card>, right: seq<Card>, rng: Rng) returns (acc': seq<Card>, left': seq<Card>, right': seq<Card>)
    requires |left| > 0 || |right| > 0
    modifies rng
    ensures |left'| + |right'| < |left| + |right|
    ensures acc' + Interleave(left', right', rng.raw, rng.pos).0 == acc + Interleave(left, right, rng.raw, old(rng.pos)).0
    ensures Interleave(left', right', rng.raw, rng.pos).1 == Interleave(left, right, rng.raw, old(rng.pos)).1
  {
    var tl := rng.RandInt(1, 3);
    var tr := rng.RandInt(1, 3);
    acc' := acc + Take(left, tl) + Take(right, tr);
    left', right' := Drop(left, tl), Drop(right, tr);
    assert acc' + Interleave(left', right', rng.raw, rng.pos).0 == acc + (Take(left, tl) + Take(right, tr) + Interleave(left', right', rng.raw, rng.pos).0);
  }


  /** seat_order(dealer_pos): the players from the dealer's left around the
      table, numPlayers of them (Python's % on a positive modulus is the
      Euclidean one, so a dealer position of -1 works as in the source). */
  function SeatOrder(dealer: int, numPlayers: nat): (order: seq<nat>)
    requires numPlayers >= 1
    ensures |order| == numPlayers
    ensures forall i :: 0 <= i < numPlayers ==> order[i] < numPlayers
  {
    seq(numPlayers, i requires 0 <= i < numPlayers => (dealer + 1 + i) % numPlayers)
  }

  /** A positive multiple of n is at least n. */
  lemma MulAtLeast(m: int, n: int)
    requires n >= 1 && m >= 1
    ensures m * n >= n
  {
    var k := m - 1;
    assert m * n == k * n + n;
  }

  /** The quotient and remainder of y are q and r when y = q n + r with
      0 <= r < n. */
  lemma DivMod(y: int, q: int, r: int, n: int)
    requires n >= 1 && 0 <= r < n && y == q * n + r
    ensures y % n == r && y / n == q
  {
    var q', r' := y / n, y % n;
    assert y == q' * n + r';
    assert (q - q') * n == r' - r;
    if q > q' {
      MulAtLeast(q - q', n);
    } else if q < q' {
      MulAtLeast(q' - q, n);
    }
  }

  /** (a + i) % n for 0 <= i < n: the remainder of a moved i places on,
      wrapping once past n. */
  lemma ModAdd(a: int, i: int, n: int)
    requires n >= 1 && 0 <= i < n
    ensures (a + i) % n == if a % n + i < n then a % n + i else a % n + i - n
  {
    var q, s := a / n, a % n;
    assert a == q * n + s;
    if s + i < n {
      DivMod(a + i, q, s + i, n);
    } else {
      assert (q + 1) * n == q * n + n;
      DivMod(a + i, q + 1, s + i - n, n);
    }
  }

  /** The seat position of player p: how many places after the player on
      the dealer's left p sits. */
  function SeatOf(dealer: int, numPlayers: nat, p: nat): (k: nat)
    requires numPlayers >= 1 && p < numPlayers
    ensures k < numPlayers
  {
    var first := (dealer + 1) % numPlayers;
    if p >= first then p - first else p - first + numPlayers
  }

  /** Every player appears exactly once in the seat order, the first being
      the one after the dealer; player p sits at SeatOf(p). */
  lemma SeatOrderIsPermutation(dealer: int, numPlayers: nat)
    requires numPlayers >= 1
    ensures forall i, j :: 0 <= i < j < numPlayers ==> SeatOrder(dealer, numPlayers)[i] != SeatOrder(dealer, numPlayers)[j]
    ensures forall p :: 0 <= p < numPlayers ==> SeatOrder(dealer, numPlayers)[SeatOf(dealer, numPlayers, p)] == p
    ensures SeatOrder(dealer, numPlayers)[0] == (dealer + 1) % numPlayers
  {
    var n := numPlayers;
    var order := SeatOrder(dealer, n);
    var first := (dealer + 1) % n;
    forall i | 0 <= i < n ensures order[i] == if first + i < n then first + i else first + i - n {
      ModAdd(dealer + 1, i, n);
    }
  }

  /** deal_hole_cards: two rounds in seat order, one card per player per
      round, from the top of the deck. The player at seat position k gets
      the k-th card and the (n + k)-th; the deck loses 2n cards. The source
      fails when the deck runs out. */
  method DealHoleCards(deck: Deck, numPlayers: nat, dealer: int) returns (hands: seq<seq<Card>>)
    requires numPlayers >= 1 && |deck.cards| >= 2 * numPlayers
    modifies deck
    ensures |hands| == numPlayers
    ensures forall k :: 0 <= k < numPlayers ==>
              hands[SeatOrder(dealer, numPlayers)[k]] == [old(deck.cards)[k], old(deck.cards)[numPlayers + k]]
    ensures deck.cards == old(deck.cards)[2 * numPlayers..]
  {
    var n := numPlayers;
    ghost var d0 := deck.cards;
    hands := seq(n, _ => []);
    var order := SeatOrder(dealer, n);
    SeatOrderIsPermutation(dealer, n);
    hands := DealRound(deck, hands, order);
    hands := DealRound(deck, hands, order);
    assert d0[n..][n..] == d0[2 * n..];
  }

  /** One round: `for p in order: hands[p].append(deck.pop(0))`. */
  method DealRound(deck: Deck, hands: seq<seq<Card>>, order: seq<nat>) returns (dealt: seq<seq<Card>>)
    requires forall k :: 0 <= k < |order| ==> order[k] < |hands|
    requires forall i, j :: 0 <= i < j < |order| ==> order[i] != order[j]
    requires |deck.cards| >= |order|
    modifies deck
    ensures |dealt| == |hands|
    ensures forall k :: 0 <= k < |order| ==> dealt[order[k]] == hands[order[k]] + [old(deck.cards)[k]]
    ensures deck.cards == old(deck.cards)[|order|..]
  {
    ghost var d0 := deck.cards;
    dealt := hands;
    for j := 0 to |order|
      invariant |dealt| == |hands| && deck.cards == d0[j..]
      invariant forall k :: 0 <= k < j ==> dealt[order[k]] == hands[order[k]] + [d0[k]]
      invariant forall k :: j <= k < |order| ==> dealt[order[k]] == hands[order[k]]
    {
      var p := order[j];
      var c := deck.Pop();
      dealt := dealt[p := dealt[p] + [c]];
    }
  }

  /** The hole cards come from 2n different positions at the top of the
      deck: from a deck without repeats, no card is dealt twice and none
      of them is left in the deck. */
  lemma HoleCardsAreDistinct(d: seq<Card>, n: nat, dealer: int, hands: seq<seq<Card>>)
    requires n >= 1 && |d| >= 2 * n && Distinct(d) && |hands| == n
    requires forall k :: 0 <= k < n ==> hands[SeatOrder(dealer, n)[k]] == [d[k], d[n + k]]
    ensures forall p :: 0 <= p < n ==> |hands[p]| == 2 && hands[p][0] != hands[p][1]
    ensures forall p, q, i, j :: 0 <= p < q < n && 0 <= i < 2 && 0 <= j < 2 ==> hands[p][i] != hands[q][j]
    ensures forall p, i :: 0 <= p < n && 0 <= i < 2 ==> hands[p][i] !in d[2 * n..]
  {
    SeatOrderIsPermutation(dealer, n);
    var order := SeatOrder(dealer, n);
    forall p | 0 <= p < n ensures hands[p] == [d[SeatOf(dealer, n, p)], d[n + SeatOf(dealer, n, p)]] {
      assert order[SeatOf(dealer, n, p)] == p;
    }
    forall p, i | 0 <= p < n && 0 <= i < 2 ensures hands[p][i] !in d[2 * n..] {
      var k := SeatOf(dealer, n, p);
      forall m | 2 * n <= m < |d| ensures d[m] != hands[p][i] {
        assert hands[p][i] == d[if i == 0 then k else n + k];
      }
    }
    forall p, q, i, j | 0 <= p < q < n && 0 <= i < 2 && 0 <= j < 2 ensures hands[p][i] != hands[q][j] {
      var k, l := SeatOf(dealer, n, p), SeatOf(dealer, n, q);
      assert k != l;
      assert hands[p][i] == d[if i == 0 then k else n + k];
      assert hands[q][j] == d[if j == 0 then l else n + l];
    }
  }

  /** deal_board: burn, flop of three, burn, turn, burn, river (the source
      fails on a deck of fewer than eight cards, which is when a pop meets
      an empty deck). */
  method DealBoard(deck: Deck) returns (flop: seq<Card>, turn: Card, river: Card)
    requires |deck.cards| >= 8
    modifies deck
    ensures flop == old(deck.cards)[1..4] && turn == old(deck.cards)[5] && river == old(deck.cards)[7]
    ensures deck.cards == old(deck.cards)[8..]
  {
    ghost var d0 := deck.cards;
    deck.Burn();
    flop := [];
    for i := 0 to 3
      invariant flop == d0[1..1 + i] && deck.cards == d0[1 + i..]
    {
      var c := deck.Pop();
      flop := flop + [c];
    }
    deck.Burn();
    turn := deck.Pop();
    deck.Burn();
    river := deck.Pop();
  }

  /** The board comes from five different positions of the deck: with no
      repeats in the deck, the five board cards differ from each other and
      from the cards left in the deck. */
  lemma BoardCardsAreDistinct(d: seq<Card>)
    requires |d| >= 8 && Distinct(d)
    ensures Distinct(d[1..4] + [d[5], d[7]])
    ensures forall c :: c in d[1..4] + [d[5], d[7]] ==> c !in d[8..]
  {
    var b := d[1..4] + [d[5], d[7]];
    var at := [1, 2, 3, 5, 7];
    assert forall i :: 0 <= i < 5 ==> b[i] == d[at[i]];
    forall c | c in b ensures c !in d[8..] {
      var i :| 0 <= i < 5 && b[i] == c;
      forall m | 8 <= m < |d| ensures d[m] != c {
        assert at[i] < m;
      }
    }
  }

  /** A card occurs at most once in a deck without repeats. */
  lemma {:induction false} DistinctOnce(d: seq<Card>, x: Card)
    requires Distinct(d)
    ensures multiset(d)[x] <= 1
  {
    if |d| > 0 {
      var t := d[1..];
      assert d == [d[0]] + t;
      forall i, j | 0 <= i < j < |t| ensures t[i] != t[j] {
        assert t[i] == d[i + 1] && t[j] == d[j + 1];
      }
      DistinctOnce(t, x);
      if x == d[0] {
        forall j | 0 <= j < |t| ensures t[j] != x {
          assert t[j] == d[j + 1];
        }
        assert x !in t;
      }
    }
  }

  /** A rearrangement of a deck without repeats has no repeats. */
  lemma DistinctByMultiset(d: seq<Card>, e: seq<Card>)
    requires Distinct(d) && multiset(d) == multiset(e)
    ensures Distinct(e)
  {
    forall i, j | 0 <= i < j < |e| ensures e[i] != e[j] {
      DistinctOnce(d, e[i]);
      if e[i] == e[j] {
        RankSeqs.TwoIndices(e, i, j);
        assert false;
      }
    }
  }

  /** The deck the game deals from, make_deck after any number of riffle
      passes under any random stream, holds all 52 cards, each once; so
      HoleCardsAreDistinct and BoardCardsAreDistinct apply to it. */
  lemma ShuffledDeckIsFullDeck(raw: nat -> nat, pos: nat, times: nat)
    ensures |Riffle(MakeDeck(), raw, pos, times).0| == 52
    ensures Distinct(Riffle(MakeDeck(), raw, pos, times).0)
    ensures forall c: Card :: c in Riffle(MakeDeck(), raw, pos, times).0
  {
    var d := Riffle(MakeDeck(), raw, pos, times).0;
    MakeDeckIsFullDeck();
    RiffleIsPermutation(MakeDeck(), raw, pos, times);
    DistinctByMultiset(MakeDeck(), d);
    forall c: Card ensures c in d {
      assert c in MakeDeck();
      assert multiset(d)[c] == multiset(MakeDeck())[c] > 0;
    }
  }

  /** All the hole cards together, player by player. */
  ghost function HoleCards(hands: seq<seq<Card>>): multiset<Card>
  {
    if |hands| == 0 then multiset{}
    else HoleCards(hands[..|hands| - 1]) + multiset(hands[|hands| - 1])
  }

  /** The hole cards of two groups of players are those of each group. */
  lemma {:induction false} HoleCardsAppend(a: seq<seq<Card>>, b: seq<seq<Card>>)
    ensures HoleCards(a + b) == HoleCards(a) + HoleCards(b)
    decreases |b|
  {
    if |b| == 0 {
      assert a + b == a;
    } else {
      var b' := b[..|b| - 1];
      assert (a + b)[..|a + b| - 1] == a + b';
      HoleCardsAppend(a, b');
    }
  }

  /** Pairs up two equally long runs of cards: the k-th pair holds the
      k-th card of each. */
  function Pairs(a: seq<Card>, b: seq<Card>): (ps: seq<seq<Card>>)
    requires |a| == |b|
    ensures |ps| == |a| && forall k :: 0 <= k < |a| ==> ps[k] == [a[k], b[k]]
  {
    seq(|a|, k requires 0 <= k < |a| => [a[k], b[k]])
  }

  /** Pairing up two runs of cards keeps every card of both. */
  lemma {:induction false} PairsCards(a: seq<Card>, b: seq<Card>)
    requires |a| == |b|
    ensures HoleCards(Pairs(a, b)) == multiset(a) + multiset(b)
    decreases |a|
  {
    if |a| > 0 {
      var a', b' := a[..|a| - 1], b[..|b| - 1];
      PairsCards(a', b');
      PairsSnoc(a, b);
      LastSnoc(a);
      LastSnoc(b);
      Regroup(multiset(a'), multiset(b'), a[|a| - 1], b[|b| - 1]);
    }
  }

  /** The last pair holds the last card of each run. */
  lemma PairsSnoc(a: seq<Card>, b: seq<Card>)
    requires |a| == |b| > 0
    ensures HoleCards(Pairs(a, b))
            == HoleCards(Pairs(a[..|a| - 1], b[..|b| - 1])) + multiset([a[|a| - 1], b[|b| - 1]])
  {
    var a', b' := a[..|a| - 1], b[..|b| - 1];
    assert Pairs(a, b) == Pairs(a', b') + [[a[|a| - 1], b[|b| - 1]]];
    HoleCardsSnoc(Pairs(a', b'), [a[|a| - 1], b[|b| - 1]]);
  }

  /** A run of cards is its cards but the last, and the last. */
  lemma LastSnoc(s: seq<Card>)
    requires |s| > 0
    ensures multiset(s) == multiset(s[..|s| - 1]) + multiset{s[|s| - 1]}
  {
    assert s == s[..|s| - 1] + [s[|s| - 1]];
  }

  /** The hands in seat order: seat position k holds cards k and n + k. */
  function SeatHands(d: seq<Card>, n: nat): (hs: seq<seq<Card>>)
    requires 2 * n <= |d|
    ensures |hs| == n && forall k :: 0 <= k < n ==> hs[k] == [d[k], d[n + k]]
  {
    seq(n, k requires 0 <= k < n => [d[k], d[n + k]])
  }

  /** Seat order pairs card k with card n + k. */
  lemma SeatHandsArePairs(d: seq<Card>, n: nat)
    requires 2 * n <= |d|
    ensures SeatHands(d, n) == Pairs(d[..n], d[n..2 * n])
  {
  }

  /** Adding two cards to two piles one by one adds both to their union. */
  lemma Regroup(a: multiset<Card>, b: multiset<Card>, x: Card, y: Card)
    ensures (a + b) + multiset([x, y]) == (a + multiset{x}) + (b + multiset{y})
  {
    assert multiset([x, y]) == multiset{x} + multiset{y};
  }

  /** One more player adds that player's cards. */
  lemma HoleCardsSnoc(hands: seq<seq<Card>>, h: seq<Card>)
    ensures HoleCards(hands + [h]) == HoleCards(hands) + multiset(h)
  {
    assert (hands + [h])[..|hands|] == hands;
  }

  /** Players in seat order are the players in table order, rotated so
      that the one on the dealer's left comes first. */
  lemma HandsAreRotatedSeatHands(d: seq<Card>, n: nat, dealer: int, hands: seq<seq<Card>>)
    requires n >= 1 && |d| >= 2 * n && |hands| == n
    requires forall k :: 0 <= k < n ==> hands[SeatOrder(dealer, n)[k]] == [d[k], d[n + k]]
    ensures var m := n - (dealer + 1) % n;
      hands == SeatHands(d, n)[m..] + SeatHands(d, n)[..m]
  {
    SeatOrderIsPermutation(dealer, n);
    var sh := SeatHands(d, n);
    var m := n - (dealer + 1) % n;
    var rot := sh[m..] + sh[..m];
    forall p | 0 <= p < n ensures hands[p] == rot[p] {
      assert SeatOrder(dealer, n)[SeatOf(dealer, n, p)] == p;
    }
  }

  /** The hole cards dealt to n players are the first 2n cards of the deck. */
  lemma HoleCardsOfDeal(d: seq<Card>, n: nat, dealer: int, hands: seq<seq<Card>>)
    requires n >= 1 && |d| >= 2 * n && |hands| == n
    requires forall k :: 0 <= k < n ==> hands[SeatOrder(dealer, n)[k]] == [d[k], d[n + k]]
    ensures HoleCards(hands) == multiset(d[..2 * n])
  {
    var sh := SeatHands(d, n);
    HandsAreRotatedSeatHands(d, n, dealer, hands);
    RotationKeepsCards(sh, n - (dealer + 1) % n);
    SeatHandsCards(d, n);
  }

  /** Rotating the players keeps their cards. */
  lemma RotationKeepsCards(hands: seq<seq<Card>>, m: nat)
    requires m <= |hands|
    ensures HoleCards(hands[m..] + hands[..m]) == HoleCards(hands)
  {
    HoleCardsAppend(hands[m..], hands[..m]);
    HoleCardsAppend(hands[..m], hands[m..]);
    assert hands[..m] + hands[m..] == hands;
  }

  /** The seat-order hands hold exactly the first 2n cards. */
  lemma SeatHandsCards(d: seq<Card>, n: nat)
    requires 2 * n <= |d|
    ensures HoleCards(SeatHands(d, n)) == multiset(d[..2 * n])
  {
    SeatHandsArePairs(d, n);
    PairsCards(d[..n], d[n..2 * n]);
    assert d[..2 * n] == d[..n] + d[n..2 * n];
  }

  /** What deal_board takes from the deck: burns at 0, 4 and 6, the board
      at 1-3, 5 and 7, and the rest stays. */
  lemma BoardDealCards(e: seq<Card>)
    requires |e| >= 8
    ensures multiset(e) == multiset{e[0], e[4], e[6]} + multiset(e[1..4] + [e[5], e[7]])
                           + multiset(e[8..])
  {
    BoardDealPieces(e);
    FlopTurnRiver(e[1..4], e[5], e[7]);
    RegroupBoard(multiset{e[0]}, multiset(e[1..4]), multiset{e[4]}, multiset{e[5]},
                 multiset{e[6]}, multiset{e[7]}, multiset(e[8..]));
    ThreeCards(e[0], e[4], e[6]);
  }

  /** Burns together, board together. */
  lemma RegroupBoard(b0: multiset<Card>, f: multiset<Card>, b1: multiset<Card>, t: multiset<Card>,
                     b2: multiset<Card>, r: multiset<Card>, rest: multiset<Card>)
    ensures b0 + f + b1 + t + b2 + r + rest == (b0 + b1 + b2) + (f + t + r) + rest
  {
  }

  /** Three burnt cards, one by one. */
  lemma ThreeCards(a: Card, b: Card, c: Card)
    ensures multiset{a, b, c} == multiset{a} + multiset{b} + multiset{c}
  {
  }

  /** The board is the flop, then the turn, then the river. */
  lemma FlopTurnRiver(flop: seq<Card>, turn: Card, river: Card)
    ensures multiset(flop + [turn, river]) == multiset(flop) + multiset{turn} + multiset{river}
  {
    assert flop + [turn, river] == flop + [turn] + [river];
  }

  /** The first eight cards one by one, then the rest. */
  lemma BoardDealPieces(e: seq<Card>)
    requires |e| >= 8
    ensures multiset(e) == multiset{e[0]} + multiset(e[1..4]) + multiset{e[4]} + multiset{e[5]}
                           + multiset{e[6]} + multiset{e[7]} + multiset(e[8..])
  {
    assert e == [e[0]] + e[1..4] + [e[4]] + [e[5]] + [e[6]] + [e[7]] + e[8..];
  }

  /** deal_hole_cards then deal_board lose no card and make none up: the
      hole cards, the three burnt cards, the board and the cards left in
      the deck are together exactly the deck that was dealt from. */
  lemma DealConservesCards(d: seq<Card>, n: nat, dealer: int, hands: seq<seq<Card>>)
    requires n >= 1 && |d| >= 2 * n + 8 && |hands| == n
    requires forall k :: 0 <= k < n ==> hands[SeatOrder(dealer, n)[k]] == [d[k], d[n + k]]
    ensures multiset(d) == HoleCards(hands)
                           + multiset{d[2 * n], d[2 * n + 4], d[2 * n + 6]}
                           + multiset(d[2 * n + 1..2 * n + 4] + [d[2 * n + 5], d[2 * n + 7]])
                           + multiset(d[2 * n + 8..])
  {
    HoleCardsOfDeal(d, n, dealer, hands);
    DeckPieces(d, n, HoleCards(hands));
  }

  /** The deck is its first 2n cards, then the burns, the board and the
      rest. */
  lemma DeckPieces(d: seq<Card>, n: nat, hole: multiset<Card>)
    requires |d| >= 2 * n + 8 && hole == multiset(d[..2 * n])
    ensures multiset(d) == hole
                           + multiset{d[2 * n], d[2 * n + 4], d[2 * n + 6]}
                           + multiset(d[2 * n + 1..2 * n + 4] + [d[2 * n + 5], d[2 * n + 7]])
                           + multiset(d[2 * n + 8..])
  {
    var e := d[2 * n..];
    SplitKeepsCards(d, 2 * n);
    BoardDealCards(e);
    BoardDealShift(d, 2 * n, e);
    assert multiset(d) == hole + multiset(e);
  }

  /** The cards after position k, read from k on. */
  lemma BoardDealShift(d: seq<Card>, k: nat, e: seq<Card>)
    requires |d| >= k + 8 && e == d[k..]
    ensures multiset{e[0], e[4], e[6]} == multiset{d[k], d[k + 4], d[k + 6]}
    ensures multiset(e[1..4] + [e[5], e[7]]) == multiset(d[k + 1..k + 4] + [d[k + 5], d[k + 7]])
    ensures multiset(e[8..]) == multiset(d[k + 8..])
  {
    assert e[1..4] + [e[5], e[7]] == d[k + 1..k + 4] + [d[k + 5], d[k + 7]];
    assert e[8..] == d[k + 8..];
  }

  /** A deck is its first k cards and the rest. */
  lemma SplitKeepsCards(d: seq<Card>, k: nat)
    requires k <= |d|
    ensures multiset(d) == multiset(d[..k]) + multiset(d[k..])
  {
    assert d == d[..k] + d[k..];
  }
}
