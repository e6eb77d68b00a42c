/** The multi-deck shoe: construction, shuffle, draw from the end with a lazy
    reshuffle, the discard pile and the reshuffle threshold. */
module Shoes {
  import opened Random
  import opened Cards
  import opened Results

  const DefaultDecks: nat := 6
  const DefaultThreshold: real := 0.25

  /** `cards` is the shoe, drawn from its end; `cursor` counts the Math.random
      calls consumed so far, so the next shuffle starts at `rand(cursor)`. */
  datatype Shoe = Shoe(cards: seq<Card>, discard: seq<Card>, decks: nat, threshold: real, cursor: nat)

  /** A drawn card and the shoe after the draw. */
  datatype Drawn = Drawn(card: Card, shoe: Shoe)

  /** `n` decks one after the other, as the shoe is filled before shuffling. */
  function Decks(n: nat): (r: seq<Card>)
    ensures |r| == 52 * n
  {
    if n == 0 then [] else Decks(n - 1) + MakeDeck()
  }

  /** `n` decks hold every (suit, rank) pair `n` times, all face up. */
  lemma {:induction false} DecksComposition(n: nat)
    ensures forall s: Suit, r: Rank :: multiset(Decks(n))[NewCard(s, r)] == n
    ensures forall c :: c in Decks(n) ==> !c.faceDown
  {
    DeckComplete();
    if n > 0 {
      DecksComposition(n - 1);
      assert multiset(Decks(n)) == multiset(Decks(n - 1)) + multiset(MakeDeck());
    }
  }

  /** Shoe and discard pile together. */
  function Pool(s: Shoe): multiset<Card> {
    multiset(s.cards) + multiset(s.discard)
  }

  /** Every card in shoe and discard pile is face up. */
  ghost predicate FaceUp(s: Shoe) {
    forall c :: c in Pool(s) ==> !c.faceDown
  }

  /** Fisher–Yates over the shoe. */
  function ShuffleShoe(s: Shoe, rand: Source): (r: Shoe)
    ensures |r.cards| == |s.cards| && multiset(r.cards) == multiset(s.cards)
    ensures r.discard == s.discard && r.decks == s.decks && r.threshold == s.threshold
    ensures Pool(r) == Pool(s)
  {
    var shuffled := Shuffle(s.cards, rand, s.cursor);
    s.(cards := shuffled.cards, cursor := shuffled.cursor)
  }

  /** Refills the shoe with `decks` fresh decks, empties the discard pile and
      shuffles. */
  function InitializeShoe(s: Shoe, rand: Source): (r: Shoe)
    ensures r.discard == [] && |r.cards| == 52 * s.decks
    ensures multiset(r.cards) == multiset(Decks(s.decks))
    ensures forall suit: Suit, rank: Rank :: multiset(r.cards)[NewCard(suit, rank)] == s.decks
    ensures FaceUp(r)
    ensures r.decks == s.decks && r.threshold == s.threshold
  {
    DecksComposition(s.decks);
    ShuffleShoe(s.(cards := Decks(s.decks), discard := []), rand)
  }

  /** A new shoe of `decks` decks with the default 25% threshold. */
  function NewShoe(decks: nat, rand: Source, cursor: nat): (r: Shoe)
    ensures r.decks == decks && r.threshold == DefaultThreshold
    ensures r.discard == [] && multiset(r.cards) == multiset(Decks(decks)) && FaceUp(r)
  {
    InitializeShoe(Shoe([], [], decks, DefaultThreshold, cursor), rand)
  }

  /** The fraction of the full shoe still in it is at most the threshold. With
      no decks the JS quotient is NaN or Infinity and the comparison is false. */
  predicate NeedsReshuffle(s: Shoe) {
    s.decks > 0 && (|s.cards| as real) / ((52 * s.decks) as real) <= s.threshold
  }

  /** The fraction test is a card-count test. */
  lemma NeedsReshuffleCount(s: Shoe)
    ensures NeedsReshuffle(s) <==> s.decks > 0 && (|s.cards| as real) <= s.threshold * ((52 * s.decks) as real)
  {
    if s.decks > 0 {
      var total := (52 * s.decks) as real;
      var left := |s.cards| as real;
      assert left / total * total == left;
      if left / total <= s.threshold {
        assert left <= s.threshold * total;
      }
      if left <= s.threshold * total {
        assert left / total <= s.threshold * total / total;
      }
    }
  }

  /** With one deck and the default threshold, a reshuffle is due once at most
      13 cards remain. */
  lemma OneDeckReshufflesAt13(s: Shoe)
    requires s.decks == 1 && s.threshold == DefaultThreshold
    ensures NeedsReshuffle(s) <==> |s.cards| <= 13
  {
    NeedsReshuffleCount(s);
  }

  /** Merges the discard pile back into the shoe and shuffles everything. */
  function ReshuffleShoe(s: Shoe, rand: Source): (r: Shoe)
    ensures Pool(r) == Pool(s) && r.discard == []
    ensures |r.cards| == |s.cards| + |s.discard|
    ensures r.decks == s.decks && r.threshold == s.threshold
    ensures |s.cards| + |s.discard| == 0 ==> r == s
  {
    ShuffleShoe(s.(cards := s.cards + s.discard, discard := []), rand)
  }

  /** The card the shoe deals next when no reshuffle comes first: its last. */
  function Top(s: Shoe): Card
    requires |s.cards| > 0
  {
    s.cards[|s.cards| - 1]
  }

  /** The shoe once its last card is dealt. */
  function Rest(s: Shoe): (r: Shoe)
    requires |s.cards| > 0
    ensures |r.cards| == |s.cards| - 1
  {
    s.(cards := s.cards[..|s.cards| - 1])
  }

  /** Draws the last card of the shoe, reshuffling first when the threshold is
      reached. Fails only when no card is left even then; the reshuffle done
      before that failure changed nothing. */
  function Draw(s: Shoe, rand: Source): (r: Result<Drawn>)
    ensures r.Err? <==> |s.cards| == 0 && (|s.discard| == 0 || !NeedsReshuffle(s))
    ensures r.Err? ==> r.error == EmptyShoe
    ensures r.Err? && NeedsReshuffle(s) ==> ReshuffleShoe(s, rand) == s
    ensures r.Ok? ==> Pool(s) == Pool(r.value.shoe) + multiset{r.value.card}
    ensures r.Ok? ==> |r.value.shoe.cards| + |r.value.shoe.discard| + 1 == |s.cards| + |s.discard|
    ensures r.Ok? ==> r.value.shoe.decks == s.decks && r.value.shoe.threshold == s.threshold
    ensures r.Ok? && !NeedsReshuffle(s) ==>
      r.value.card == Top(s) && r.value.shoe == Rest(s)
    ensures r.Ok? && NeedsReshuffle(s) ==>
      && |ReshuffleShoe(s, rand).cards| > 0
      && r.value.card == Top(ReshuffleShoe(s, rand)) && r.value.shoe == Rest(ReshuffleShoe(s, rand))
    ensures r.Ok? && NeedsReshuffle(s) ==> r.value.shoe.discard == []
    ensures r.Ok? && FaceUp(s) ==> FaceUp(r.value.shoe) && !r.value.card.faceDown
  {
    var pre := if NeedsReshuffle(s) then ReshuffleShoe(s, rand) else s;
    if |pre.cards| == 0 then Err(EmptyShoe) else Ok(Pop(pre))
  }

  /** Takes the last card off a shoe that holds one. */
  function Pop(p: Shoe): (d: Drawn)
    requires |p.cards| > 0
    ensures d.card == Top(p) && d.shoe == Rest(p)
    ensures Pool(p) == Pool(d.shoe) + multiset{d.card}
    ensures FaceUp(p) ==> FaceUp(d.shoe) && !d.card.faceDown
  {
    var d := Drawn(Top(p), Rest(p));
    PopLast(p);
    FaceUpShrinks(p, d.shoe, d.card);
    d
  }

  /** Popping the last card moves it out of the pool. */
  lemma PopLast(p: Shoe)
    requires |p.cards| > 0
    ensures Pool(p) == Pool(p.(cards := p.cards[..|p.cards| - 1])) + multiset{p.cards[|p.cards| - 1]}
  {
    var last := |p.cards| - 1;
    assert p.cards == p.cards[..last] + [p.cards[last]];
  }

  /** Fewer cards in the shoe can only bring the reshuffle closer: a shoe
      cut down to a prefix that needs no reshuffle did not need one either. */
  lemma ReshuffleMonotone(s: Shoe, k: nat)
    requires k <= |s.cards|
    ensures !NeedsReshuffle(s.(cards := s.cards[..k])) ==> !NeedsReshuffle(s)
  {
    NeedsReshuffleCount(s);
    NeedsReshuffleCount(s.(cards := s.cards[..k]));
  }

  /** A shoe that still needs no reshuffle after three more cards are dealt
      needs none before any of them. */
  lemma NoReshuffleInDeal(s: Shoe)
    requires |s.cards| >= 4 && !NeedsReshuffle(s.(cards := s.cards[..|s.cards| - 3]))
    ensures !NeedsReshuffle(s) && !NeedsReshuffle(Rest(s)) && !NeedsReshuffle(Rest(Rest(s)))
    ensures !NeedsReshuffle(Rest(Rest(Rest(s))))
  {
    var n := |s.cards|;
    ReshuffleMonotone(s, n - 3);
    var s1 := Rest(s);
    assert s1.(cards := s1.cards[..n - 3]) == s.(cards := s.cards[..n - 3]);
    ReshuffleMonotone(s1, n - 3);
    var s2 := Rest(s1);
    assert s2.(cards := s2.cards[..n - 3]) == s.(cards := s.cards[..n - 3]);
    ReshuffleMonotone(s2, n - 3);
    assert Rest(s2) == s.(cards := s.cards[..n - 3]);
  }

  /** Taking a card out of a face-up pool leaves a face-up pool. */
  lemma FaceUpShrinks(a: Shoe, b: Shoe, c: Card)
    requires Pool(a) == Pool(b) + multiset{c}
    ensures FaceUp(a) ==> FaceUp(b) && !c.faceDown
  {
    if FaceUp(a) {
      assert c in Pool(a);
      forall d | d in Pool(b)
        ensures !d.faceDown
      {
        assert d in Pool(a);
      }
    }
  }

  function DiscardCard(s: Shoe, c: Card): (r: Shoe)
    ensures r.cards == s.cards && r.discard == s.discard + [c]
    ensures Pool(r) == Pool(s) + multiset{c}
    ensures r.decks == s.decks && r.threshold == s.threshold && r.cursor == s.cursor
  {
    s.(discard := s.discard + [c])
  }

  /** Discards the cards of a hand one by one, in order. */
  function DiscardHand(s: Shoe, hand: seq<Card>): (r: Shoe)
    ensures r.cards == s.cards && r.discard == s.discard + hand
    ensures Pool(r) == Pool(s) + multiset(hand)
    ensures r.decks == s.decks && r.threshold == s.threshold && r.cursor == s.cursor
  {
    if |hand| == 0 then s
    else
      var init := hand[..|hand| - 1];
      assert hand == init + [hand[|hand| - 1]];
      DiscardCard(DiscardHand(s, init), hand[|hand| - 1])
  }

  /** Accepts a threshold in [0, 1]; anything else is refused and the shoe
      keeps its threshold. */
  function SetReshuffleThreshold(s: Shoe, t: real): (r: Result<Shoe>)
    ensures r.Err? <==> t < 0.0 || t > 1.0
    ensures r.Err? ==> r.error == InvalidThreshold
    ensures r.Ok? ==> r.value.threshold == t && r.value.cards == s.cards && r.value.discard == s.discard
  {
    if t < 0.0 || t > 1.0 then Err(InvalidThreshold) else Ok(s.(threshold := t))
  }

  /** Shoe, discard pile and the cards given out account for the decks the
      shoe was filled with. */
  ghost predicate Accounts(s: Shoe, out: multiset<Card>) {
    Pool(s) + out == multiset(Decks(s.decks))
  }

  /** A fresh shoe accounts for everything with nothing given out; each draw
      moves one card out of the shoe, each discard moves one back in. */
  lemma AccountsKept(s: Shoe, rand: Source, out: multiset<Card>, c: Card)
    ensures Accounts(InitializeShoe(s, rand), multiset{})
    ensures Accounts(s, out) && Draw(s, rand).Ok? ==>
      Accounts(Draw(s, rand).value.shoe, out + multiset{Draw(s, rand).value.card})
    ensures Accounts(s, out) && c in out ==> Accounts(DiscardCard(s, c), out - multiset{c})
    ensures Accounts(s, out) ==> Accounts(ReshuffleShoe(s, rand), out)
  {
    DrawAccounts(s, rand, out);
    DiscardAccounts(s, out, c);
  }

  lemma DrawAccounts(s: Shoe, rand: Source, out: multiset<Card>)
    ensures Accounts(s, out) && Draw(s, rand).Ok? ==>
      Accounts(Draw(s, rand).value.shoe, out + multiset{Draw(s, rand).value.card})
  {
    if Accounts(s, out) && Draw(s, rand).Ok? {
      var d := Draw(s, rand).value;
      assert Pool(s) == Pool(d.shoe) + multiset{d.card} && d.shoe.decks == s.decks;
    }
  }

  lemma DiscardAccounts(s: Shoe, out: multiset<Card>, c: Card)
    ensures Accounts(s, out) && c in out ==> Accounts(DiscardCard(s, c), out - multiset{c})
  {
    if Accounts(s, out) && c in out {
      assert Pool(DiscardCard(s, c)) + (out - multiset{c}) == Pool(s) + out;
    }
  }
}
