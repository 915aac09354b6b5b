/** Cards and the canonical 52-card deck.

    A card of the source is the string "rank token + suit symbol" ("10♣",
    "A♠"). The model keeps a card as the pair (rank value, suit); Label
    and ParseCard are the two directions of the string encoding, and
    their round trip shows that string equality and pair equality agree. */
module Cards {

  import opened Options

  /** The suits in the order of the source's suit string "♣♦♥♠". */
  datatype Suit = Clubs | Diamonds | Hearts | Spades

  /** Rank values: 2..10, then J = 11, Q = 12, K = 13, A = 14. */
  type Rank = r: int | 2 <= r <= 14 witness 2

  datatype Card = Card(rank: Rank, suit: Suit)

  /** The rank tokens, weakest first. */
  const RANKS: seq<string> := ["2", "3", "4", "5", "6", "7", "8", "9", "10", "J", "Q", "K", "A"]

  /** The suit symbols, in suit order. */
  const SUITS: seq<char> := ['\U{2663}', '\U{2666}', '\U{2665}', '\U{2660}']

  /** Suit i of the suit string. */
  function SuitAt(i: int): (s: Suit)
    requires 0 <= i < 4
    ensures SuitIndex(s) == i
  {
    if i == 0 then Clubs else if i == 1 then Diamonds else if i == 2 then Hearts else Spades
  }

  /** Position of a suit in the suit string. */
  function SuitIndex(s: Suit): (i: int)
    ensures 0 <= i < 4
  {
    match s
    case Clubs => 0
    case Diamonds => 1
    case Hearts => 2
    case Spades => 3
  }

  /** The source's RANK_VAL table: token RANKS[i] has value i + 2
      (a lookup of a token outside the table is the source's KeyError). */
  function RankValue(token: string): (r: Option<int>)
    ensures r.Some? ==> 2 <= r.value <= 14 && RANKS[r.value - 2] == token
    ensures r.None? ==> token !in RANKS
  {
    IndexFrom(token, 0)
  }

  function IndexFrom(token: string, i: nat): (r: Option<int>)
    requires i <= |RANKS|
    ensures r.Some? ==> i + 2 <= r.value <= 14 && RANKS[r.value - 2] == token
    ensures r.None? ==> forall j :: i <= j < |RANKS| ==> RANKS[j] != token
    decreases |RANKS| - i
  {
    if i == |RANKS| then None
    else if RANKS[i] == token then Some(i + 2)
    else IndexFrom(token, i + 1)
  }

  lemma RanksDistinct()
    ensures Distinct(RANKS)
  {
  }

  /** The string the source uses for a card. */
  function Label(c: Card): string
  {
    RANKS[c.rank - 2] + [SUITS[SuitIndex(c.suit)]]
  }

  /** Reads a card string back: the rank token is everything but the last
      character (the source's c[:-1]), the suit is the last (c[-1]). A
      string that parses is the label of the card it gives, so with
      LabelRoundTrip the two directions are inverse. */
  function ParseCard(s: string): (r: Option<Card>)
    ensures r.Some? ==> |s| >= 2 && s[|s| - 1] in SUITS
    ensures r.Some? ==> Label(r.value) == s
  {
    if |s| < 2 || s[|s| - 1] !in SUITS then None
    else
      var v := RankValue(s[..|s| - 1]);
      if v.None? || !(2 <= v.value <= 14) then None
      else
        var sym := s[|s| - 1];
        assert sym == SUITS[0] || sym == SUITS[1] || sym == SUITS[2] || sym == SUITS[3];
        assert s == s[..|s| - 1] + [sym];
        Some(Card(v.value, SuitAt(SymbolIndex(sym))))
  }

  /** SUITS.index(sym) for a suit symbol. */
  function SymbolIndex(sym: char): (i: int)
    ensures 0 <= i < 4
  {
    if sym == SUITS[0] then 0 else if sym == SUITS[1] then 1 else if sym == SUITS[2] then 2 else 3
  }

  /** A suit's symbol reads back as the suit. */
  lemma SymbolRoundTrip(su: Suit)
    ensures SuitAt(SymbolIndex(SUITS[SuitIndex(su)])) == su
  {
  }

  /** The string encoding is faithful: every card reads back as itself, so
      two cards have the same label exactly when they are the same card. */
  lemma LabelRoundTrip(c: Card)
    ensures ParseCard(Label(c)) == Some(c)
  {
    var t := RANKS[c.rank - 2];
    var s := Label(c);
    assert s[..|s| - 1] == t;
    IndexFromFinds(t, 0, c.rank - 2);
    assert s[|s| - 1] == SUITS[SuitIndex(c.suit)];
    SymbolRoundTrip(c.suit);
  }

  /** The lookup from position i finds a token at its own position k. */
  lemma {:induction false} IndexFromFinds(token: string, i: nat, k: nat)
    requires i <= k < |RANKS| && RANKS[k] == token
    ensures IndexFrom(token, i) == Some(k + 2)
    decreases k - i
  {
    RanksDistinct();
    if i < k {
      assert RANKS[i] != RANKS[k];
      IndexFromFinds(token, i + 1, k);
    }
  }

  lemma LabelInjective(a: Card, b: Card)
    ensures Label(a) == Label(b) <==> a == b
  {
    LabelRoundTrip(a);
    LabelRoundTrip(b);
  }

  /** make_deck: every rank token with every suit, rank-major. */
  function MakeDeck(): (deck: seq<Card>)
    ensures |deck| == 52
    ensures forall i :: 0 <= i < 52 ==> deck[i] == Card(i / 4 + 2, SuitAt(i % 4))
  {
    seq(52, i requires 0 <= i < 52 => Card(i / 4 + 2, SuitAt(i % 4)))
  }

  /** Position of a card in the canonical deck. */
  function DeckIndex(c: Card): (i: int)
    ensures 0 <= i < 52 && MakeDeck()[i] == c
  {
    4 * (c.rank - 2) + SuitIndex(c.suit)
  }

  predicate Distinct<T(==)>(s: seq<T>)
  {
    forall i, j :: 0 <= i < j < |s| ==> s[i] != s[j]
  }

  /** The deck holds 52 pairwise-distinct cards and every (rank, suit)
      combination, so each exactly once. */
  lemma MakeDeckIsFullDeck()
    ensures Distinct(MakeDeck())
    ensures forall c: Card :: c in MakeDeck()
  {
    var d := MakeDeck();
    forall i, j | 0 <= i < j < 52 ensures d[i] != d[j] {
    }
    forall c: Card ensures c in d {
      var k := DeckIndex(c);
    }
  }
}
