/** Cards, their blackjack values, the 52-card deck and the Fisher–Yates shuffle. */
module Cards {
  import opened Random

  datatype Suit = Spades | Hearts | Clubs | Diamonds

  /** Numeral ranks carry their pip count. */
  type Pip = n: int | 2 <= n <= 10 witness 2

  datatype Rank = Ace | Num(pips: Pip) | Jack | Queen | King

  /** A card; only the face-down flag ever changes after creation. */
  datatype Card = Card(suit: Suit, rank: Rank, faceDown: bool)

  /** The suit table, in deck-building order. */
  const Suits: seq<Suit> := [Spades, Hearts, Clubs, Diamonds]

  /** The rank table, in deck-building order. */
  const Ranks: seq<Rank> :=
    [Ace, Num(2), Num(3), Num(4), Num(5), Num(6), Num(7), Num(8), Num(9), Num(10), Jack, Queen, King]

  /** A freshly made card is face up. */
  function NewCard(suit: Suit, rank: Rank): (c: Card)
    ensures c.suit == suit && c.rank == rank && !c.faceDown
  {
    Card(suit, rank, false)
  }

  predicate IsAce(c: Card) {
    c.rank == Ace
  }

  predicate IsTenValue(c: Card) {
    c.rank == Num(10) || c.rank == Jack || c.rank == Queen || c.rank == King
  }

  /** The nominal value of a card; an Ace counts 11 here and the hand evaluator
      reinterprets it. */
  function Value(c: Card): (v: int)
    ensures 2 <= v <= 11
    ensures v == 11 <==> IsAce(c)
    ensures v == 10 <==> IsTenValue(c)
    ensures c.rank.Num? ==> v == c.rank.pips
  {
    match c.rank
    case Ace => 11
    case Jack => 10
    case Queen => 10
    case King => 10
    case Num(n) => n
  }

  /** Turns the card over. */
  function Flip(c: Card): (r: Card)
    ensures r.faceDown != c.faceDown
    ensures r.suit == c.suit && r.rank == c.rank
  {
    c.(faceDown := !c.faceDown)
  }

  function Reveal(c: Card): (r: Card)
    ensures !r.faceDown
    ensures r.suit == c.suit && r.rank == c.rank
  {
    c.(faceDown := false)
  }

  function Hide(c: Card): (r: Card)
    ensures r.faceDown
    ensures r.suit == c.suit && r.rank == c.rank
  {
    c.(faceDown := true)
  }

  lemma FlipTwice(c: Card)
    ensures Flip(Flip(c)) == c
  {
  }

  /** Revealing forgets whether the card was hidden: the card's identity is its
      suit and rank. */
  lemma RevealForgetsHide(c: Card)
    ensures Reveal(Hide(c)) == Reveal(c)
    ensures Reveal(Flip(c)) == Reveal(c)
    ensures !c.faceDown ==> Reveal(c) == c
  {
  }

  /** One 52-card deck, suit by suit and within a suit rank by rank. */
  function MakeDeck(): (deck: seq<Card>)
    ensures |deck| == 52
  {
    seq(52, i requires 0 <= i < 52 => NewCard(Suits[i / 13], Ranks[i % 13]))
  }

  /** Position of a suit in the suit table. */
  function SuitIndex(s: Suit): (k: nat)
    ensures k < |Suits| && Suits[k] == s
  {
    match s
    case Spades => 0
    case Hearts => 1
    case Clubs => 2
    case Diamonds => 3
  }

  /** Position of a rank in the rank table. */
  function RankIndex(r: Rank): (k: nat)
    ensures k < |Ranks| && Ranks[k] == r
  {
    match r
    case Ace => 0
    case Num(n) =>
      assert Ranks[n - 1] == Num(n) by {
        if n == 2 {} else if n == 3 {} else if n == 4 {} else if n == 5 {}
        else if n == 6 {} else if n == 7 {} else if n == 8 {} else if n == 9 {}
        else {}
      }
      n - 1
    case Jack => 10
    case Queen => 11
    case King => 12
  }

  lemma SuitsDistinct(a: nat, b: nat)
    requires a < |Suits| && b < |Suits| && Suits[a] == Suits[b]
    ensures a == b
  {
  }

  lemma RanksDistinct(a: nat, b: nat)
    requires a < |Ranks| && b < |Ranks| && Ranks[a] == Ranks[b]
    ensures a == b
  {
    assert RankIndex(Ranks[a]) == a by {
      if a == 0 {} else if a == 1 {} else if a == 2 {} else if a == 3 {}
      else if a == 4 {} else if a == 5 {} else if a == 6 {} else if a == 7 {}
      else if a == 8 {} else if a == 9 {} else if a == 10 {} else if a == 11 {}
      else {}
    }
    assert RankIndex(Ranks[b]) == b by {
      if b == 0 {} else if b == 1 {} else if b == 2 {} else if b == 3 {}
      else if b == 4 {} else if b == 5 {} else if b == 6 {} else if b == 7 {}
      else if b == 8 {} else if b == 9 {} else if b == 10 {} else if b == 11 {}
      else {}
    }
  }

  ghost predicate Distinct(s: seq<Card>) {
    forall i, j :: 0 <= i < j < |s| ==> s[i] != s[j]
  }

  /** In a sequence without repeats every element occurs exactly once. */
  lemma {:induction false} DistinctCount(s: seq<Card>, x: Card)
    requires Distinct(s)
    ensures multiset(s)[x] == if x in s then 1 else 0
  {
    if |s| > 0 {
      var init := s[..|s| - 1];
      assert s == init + [s[|s| - 1]];
      assert Distinct(init);
      DistinctCount(init, x);
      assert s[|s| - 1] !in init by {
        forall k | 0 <= k < |init|
          ensures init[k] != s[|s| - 1]
        {
          assert init[k] == s[k];
        }
      }
    }
  }

  /** The deck holds every (suit, rank) pair exactly once, all face up. */
  lemma DeckComplete()
    ensures |MakeDeck()| == 52
    ensures forall s: Suit, r: Rank :: multiset(MakeDeck())[NewCard(s, r)] == 1
    ensures forall c :: c in MakeDeck() ==> !c.faceDown
  {
    var deck := MakeDeck();
    forall i, j | 0 <= i < j < |deck|
      ensures deck[i] != deck[j]
    {
      if deck[i] == deck[j] {
        SuitsDistinct(i / 13, j / 13);
        RanksDistinct(i % 13, j % 13);
        assert false;
      }
    }
    assert Distinct(deck);
    forall s: Suit, r: Rank
      ensures multiset(deck)[NewCard(s, r)] == 1
    {
      var k := SuitIndex(s) * 13 + RankIndex(r);
      assert k / 13 == SuitIndex(s) && k % 13 == RankIndex(r);
      assert deck[k] == NewCard(s, r);
      DistinctCount(deck, NewCard(s, r));
    }
  }

  /** The result of a shuffle and the position reached in the random stream. */
  datatype Shuffled = Shuffled(cards: seq<Card>, cursor: nat)

  /** Exchanges the cards at positions `i` and `j`. */
  function Swap(s: seq<Card>, i: nat, j: nat): (r: seq<Card>)
    requires i < |s| && j < |s|
    ensures |r| == |s| && multiset(r) == multiset(s)
    ensures r[i] == s[j] && r[j] == s[i]
    ensures forall k :: 0 <= k < |s| && k != i && k != j ==> r[k] == s[k]
  {
    s[i := s[j]][j := s[i]]
  }

  /** Fisher–Yates steps for positions `i`, `i`-1, ..., 1: each position is
      exchanged with one picked uniformly among positions 0..it. */
  function ShuffleFrom(s: seq<Card>, i: nat, rand: Source, cursor: nat): (r: Shuffled)
    requires i < |s|
    ensures |r.cards| == |s| && multiset(r.cards) == multiset(s)
    ensures r.cursor == cursor + i
    decreases i
  {
    if i == 0 then Shuffled(s, cursor)
    else ShuffleFrom(Swap(s, i, Pick(rand(cursor), i + 1)), i - 1, rand, cursor + 1)
  }

  /** The Fisher–Yates shuffle; it consumes one random value per position
      above 0, starting at `cursor`. */
  function Shuffle(deck: seq<Card>, rand: Source, cursor: nat): (r: Shuffled)
    ensures |r.cards| == |deck| && multiset(r.cards) == multiset(deck)
    ensures r.cursor == cursor + (if |deck| == 0 then 0 else |deck| - 1)
  {
    if |deck| == 0 then Shuffled(deck, cursor)
    else ShuffleFrom(deck, |deck| - 1, rand, cursor)
  }

  /** A shuffle only moves cards: membership is unchanged. */
  lemma ShuffleKeepsMembers(deck: seq<Card>, rand: Source, cursor: nat, c: Card)
    ensures c in Shuffle(deck, rand, cursor).cards <==> c in deck
  {
    var r := Shuffle(deck, rand, cursor);
    assert c in multiset(r.cards) <==> c in multiset(deck);
  }
}
