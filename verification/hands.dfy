/** The hand evaluator (soft-Ace totals, bust, blackjack, soft and pair
    predicates, the face-up total) and the registry of hands. */
module Hands {
  import opened Cards
  import opened Results

  /** A hand is its cards in deal order; adding a card appends it. */
  type Hand = seq<Card>

  /** What a card counts when every Ace counts 1. */
  function HardPoints(c: Card): (p: int)
    ensures 1 <= p <= 10
    ensures p == 1 <==> IsAce(c)
  {
    if IsAce(c) then 1 else Value(c)
  }

  /** The first pass of the best-total computation: Aces as 1. */
  function HardTotal(h: Hand): (t: int)
    ensures t >= |h|
  {
    if |h| == 0 then 0 else HardTotal(h[..|h| - 1]) + HardPoints(h[|h| - 1])
  }

  function AceCount(h: Hand): (n: nat)
    ensures n <= |h|
  {
    if |h| == 0 then 0 else AceCount(h[..|h| - 1]) + (if IsAce(h[|h| - 1]) then 1 else 0)
  }

  /** The second pass: while an Ace is left and 10 more stays within 21,
      count one more Ace as 11. Because every Ace already counts 1, at most
      one Ace is ever promoted. */
  function Promote(total: int, aces: nat): (r: int)
    requires aces <= total
    ensures r == total + (if aces > 0 && total + 10 <= 21 then 10 else 0)
    decreases aces
  {
    if aces > 0 && total + 10 <= 21 then Promote(total + 10, aces - 1) else total
  }

  /** The best total: the hard total, plus 10 when an Ace can count 11
      without passing 21. */
  function BestTotal(h: Hand): (t: int)
    ensures t == HardTotal(h) || t == HardTotal(h) + 10
    ensures t == HardTotal(h) + 10 <==> AceCount(h) > 0 && HardTotal(h) + 10 <= 21
  {
    Promote(HardTotal(h), AceCount(h))
  }

  predicate IsBusted(h: Hand) {
    BestTotal(h) > 21
  }

  /** Two cards, one of them an Ace and one of them ten-valued. */
  predicate IsBlackjack(h: Hand) {
    && |h| == 2
    && (exists c :: c in h && IsAce(c))
    && (exists c :: c in h && IsTenValue(c))
  }

  /** Some Ace can count 11 without busting. */
  predicate IsSoft(h: Hand) {
    AceCount(h) > 0 && HardTotal(h) + 10 <= 21
  }

  predicate IsSoft17(h: Hand) {
    IsSoft(h) && BestTotal(h) == 17
  }

  /** Two cards of equal rank; suits may differ. */
  predicate IsPair(h: Hand) {
    |h| == 2 && h[0].rank == h[1].rank
  }

  predicate CanSplit(h: Hand) {
    IsPair(h)
  }

  /** Turns every face-down card face up. */
  function RevealHoleCard(h: Hand): (r: Hand)
    ensures |r| == |h|
    ensures forall i :: 0 <= i < |h| ==> !r[i].faceDown && r[i].suit == h[i].suit && r[i].rank == h[i].rank
  {
    seq(|h|, i requires 0 <= i < |h| => if h[i].faceDown then Reveal(h[i]) else h[i])
  }

  /** The face-up cards of a hand, in order. */
  function FaceUpCards(h: Hand): (r: Hand)
    ensures |r| <= |h|
    ensures forall c :: c in r ==> c in h && !c.faceDown
    ensures (forall i :: 0 <= i < |h| ==> !h[i].faceDown) ==> r == h
  {
    if |h| == 0 then []
    else
      var init := h[..|h| - 1];
      assert forall c :: c in init ==> c in h;
      FaceUpCards(init) + (if h[|h| - 1].faceDown then [] else [h[|h| - 1]])
  }

  /** Hard total over the face-up cards only. */
  function VisibleHard(h: Hand): (t: int)
    ensures t == HardTotal(FaceUpCards(h))
  {
    if |h| == 0 then 0
    else
      var c := h[|h| - 1];
      var up := FaceUpCards(h[..|h| - 1]);
      assert c.faceDown ==> FaceUpCards(h) == up;
      assert !c.faceDown ==> (up + [c])[..|up|] == up;
      VisibleHard(h[..|h| - 1]) + (if c.faceDown then 0 else HardPoints(c))
  }

  /** Ace count over the face-up cards only. */
  function VisibleAces(h: Hand): (n: nat)
    ensures n == AceCount(FaceUpCards(h))
  {
    if |h| == 0 then 0
    else
      var c := h[|h| - 1];
      var up := FaceUpCards(h[..|h| - 1]);
      assert c.faceDown ==> FaceUpCards(h) == up;
      assert !c.faceDown ==> (up + [c])[..|up|] == up;
      VisibleAces(h[..|h| - 1]) + (if !c.faceDown && IsAce(c) then 1 else 0)
  }

  /** The total the dealer shows: the same promotion, on face-up cards only. */
  function VisibleTotal(h: Hand): (t: int)
    ensures t == BestTotal(FaceUpCards(h))
    ensures (forall i :: 0 <= i < |h| ==> !h[i].faceDown) ==> t == BestTotal(h)
  {
    Promote(VisibleHard(h), VisibleAces(h))
  }

  // ----- The reference definition of "best total" -----

  /** The total when the Aces marked in `high` count 11 and all others 1. */
  function CountAs(h: Hand, high: seq<bool>): int
    requires |high| == |h|
  {
    if |h| == 0 then 0
    else
      var c := h[|h| - 1];
      CountAs(h[..|h| - 1], high[..|h| - 1])
        + (if IsAce(c) then (if high[|h| - 1] then 11 else 1) else Value(c))
  }

  /** The number of Aces `high` counts as 11. */
  function Elevens(h: Hand, high: seq<bool>): nat
    requires |high| == |h|
  {
    if |h| == 0 then 0
    else Elevens(h[..|h| - 1], high[..|h| - 1]) + (if IsAce(h[|h| - 1]) && high[|h| - 1] then 1 else 0)
  }

  lemma {:induction false} CountAsSplits(h: Hand, high: seq<bool>)
    requires |high| == |h|
    ensures CountAs(h, high) == HardTotal(h) + 10 * Elevens(h, high)
    ensures Elevens(h, high) <= AceCount(h)
  {
    if |h| > 0 {
      CountAsSplits(h[..|h| - 1], high[..|h| - 1]);
    }
  }

  /** A choice that counts exactly `k` Aces as 11, for k at most 1. */
  function Choose(h: Hand, k: nat): (high: seq<bool>)
    requires k <= 1 && k <= AceCount(h)
    ensures |high| == |h| && Elevens(h, high) == k
  {
    if |h| == 0 then []
    else
      var c := h[|h| - 1];
      var pick := k == 1 && IsAce(c);
      var rest := Choose(h[..|h| - 1], if pick then 0 else k);
      assert (rest + [pick])[..|h| - 1] == rest;
      rest + [pick]
  }

  /** Any choice that stays within 21 reaches at most the best total, and when
      the best total busts no choice reaches less. */
  lemma {:induction false} NoChoiceBeatsBest(h: Hand, high: seq<bool>)
    requires |high| == |h|
    ensures CountAs(h, high) <= 21 ==> CountAs(h, high) <= BestTotal(h)
    ensures BestTotal(h) > 21 ==> BestTotal(h) <= CountAs(h, high)
  {
    CountAsSplits(h, high);
    var e := Elevens(h, high);
    var hard := HardTotal(h);
    assert AceCount(h) <= hard;
    if e >= 2 {
      assert 10 * e >= 20;
    }
  }

  /** The best total is the largest total not above 21 that some choice of
      1 or 11 for each Ace reaches; when every choice busts it is the smallest
      total, the one with all Aces as 1. */
  lemma {:induction false} BestTotalIsOptimal(h: Hand)
    ensures exists high :: |high| == |h| && CountAs(h, high) == BestTotal(h)
    ensures forall high :: |high| == |h| && CountAs(h, high) <= 21 ==> CountAs(h, high) <= BestTotal(h)
    ensures BestTotal(h) > 21 ==> forall high :: |high| == |h| ==> BestTotal(h) <= CountAs(h, high)
  {
    var k := if AceCount(h) > 0 && HardTotal(h) + 10 <= 21 then 1 else 0;
    var best := Choose(h, k);
    CountAsSplits(h, best);
    assert CountAs(h, best) == BestTotal(h);
    forall high | |high| == |h|
      ensures CountAs(h, high) <= 21 ==> CountAs(h, high) <= BestTotal(h)
      ensures BestTotal(h) > 21 ==> BestTotal(h) <= CountAs(h, high)
    {
      NoChoiceBeatsBest(h, high);
    }
  }

  /** Blackjack is one Ace and one ten-valued card, in either order. */
  lemma BlackjackShape(h: Hand)
    ensures IsBlackjack(h) <==>
      |h| == 2 && ((IsAce(h[0]) && IsTenValue(h[1])) || (IsTenValue(h[0]) && IsAce(h[1])))
  {
    if |h| == 2 {
      assert h[0] in h && h[1] in h;
      assert forall c :: c in h ==> c == h[0] || c == h[1];
    }
  }

  /** A blackjack totals 21. */
  lemma BlackjackIs21(h: Hand)
    requires IsBlackjack(h)
    ensures BestTotal(h) == 21
    ensures HardTotal(h) == 11 && AceCount(h) == 1
  {
    BlackjackShape(h);
    var one := h[..1];
    assert one[..0] == [];
    assert HardTotal(one) == HardPoints(h[0]) && AceCount(one) == (if IsAce(h[0]) then 1 else 0);
    assert h[..|h| - 1] == one;
    assert HardTotal(h) == HardPoints(h[0]) + HardPoints(h[1]);
  }

  /** A soft hand's best total counts one Ace as 11; a hard hand's counts none. */
  lemma SoftMeansPromoted(h: Hand)
    ensures IsSoft(h) ==> BestTotal(h) == HardTotal(h) + 10
    ensures !IsSoft(h) ==> BestTotal(h) == HardTotal(h)
    ensures IsSoft(h) ==> BestTotal(h) <= 21
  {
  }

  /** Revealing the hole card changes no total. */
  lemma {:induction false} RevealKeepsTotals(h: Hand)
    ensures HardTotal(RevealHoleCard(h)) == HardTotal(h)
    ensures AceCount(RevealHoleCard(h)) == AceCount(h)
    ensures BestTotal(RevealHoleCard(h)) == BestTotal(h)
  {
    if |h| > 0 {
      var r := RevealHoleCard(h);
      assert r[..|h| - 1] == RevealHoleCard(h[..|h| - 1]);
      RevealKeepsTotals(h[..|h| - 1]);
    }
  }

  /** Every card adds at least 1 to the hard total. */
  lemma AddCardRaisesHard(h: Hand, c: Card)
    ensures HardTotal(h + [c]) == HardTotal(h) + HardPoints(c)
    ensures AceCount(h + [c]) == AceCount(h) + (if IsAce(c) then 1 else 0)
  {
    assert (h + [c])[..|h|] == h;
  }

  // ----- The hand registry -----

  /** Every hand created so far, in creation order. */
  type Registry = seq<Hand>

  /** The two one-card hands a split produces, and the registry after it. */
  datatype Split = Split(registry: Registry, first: Hand, second: Hand)

  /** Registers a new empty hand; it is the last entry. */
  function CreateHand(reg: Registry): (r: Registry)
    ensures |r| == |reg| + 1 && r[..|reg|] == reg && r[|reg|] == []
  {
    reg + [[]]
  }

  /** `indexOf`: the position of the first registered hand equal to `h`, or
      -1 when none is. */
  function IndexOf(reg: Registry, h: Hand): (i: int)
    ensures -1 <= i < |reg|
    ensures i == -1 <==> h !in reg
    ensures i > -1 ==> reg[i] == h && h !in reg[..i]
  {
    if |reg| == 0 then -1
    else if reg[0] == h then 0
    else
      var rest := IndexOf(reg[1..], h);
      assert reg == [reg[0]] + reg[1..];
      if rest == -1 then -1
      else
        assert reg[..rest + 1] == [reg[0]] + reg[1..][..rest];
        rest + 1
  }

  /** Removes a hand from the registry; a hand that is not registered
      changes nothing. */
  function RemoveHand(reg: Registry, hand: Hand): (r: Registry)
    ensures hand in reg ==> |r| == |reg| - 1 && multiset(r) == multiset(reg) - multiset{hand}
    ensures hand !in reg ==> r == reg
  {
    var at := IndexOf(reg, hand);
    if at > -1 then
      assert reg == reg[..at] + [reg[at]] + reg[at + 1..];
      reg[..at] + reg[at + 1..]
    else reg
  }

  /** Removal takes out the first registered copy and keeps the order of
      the others. */
  lemma RemoveKeepsOrder(reg: Registry, hand: Hand)
    requires hand in reg
    ensures var at := IndexOf(reg, hand);
      RemoveHand(reg, hand) == reg[..at] + reg[at + 1..] && hand !in reg[..at]
  {
  }

  /** Registering two hands and then removing the original swaps the
      original for the two new ones; an unregistered original only adds
      them. */
  lemma SplitRegistry(reg: Registry, original: Hand, first: Hand, second: Hand)
    ensures original in reg ==>
      multiset(RemoveHand(reg + [first, second], original)) == multiset(reg) - multiset{original} + multiset{first, second}
    ensures original !in reg && original != first && original != second ==>
      multiset(RemoveHand(reg + [first, second], original)) == multiset(reg) + multiset{first, second}
  {
    var grown := reg + [first, second];
    assert multiset(grown) == multiset(reg) + multiset{first, second};
    if original in reg {
      assert original in grown;
    } else if original != first && original != second {
      assert original !in grown;
    }
  }

  /** Splits a pair into two one-card hands, registering them and removing the
      original. */
  function SplitHand(reg: Registry, original: Hand): (r: Result<Split>)
    ensures r.Err? <==> !CanSplit(original)
    ensures r.Err? ==> r.error == CannotSplit
    ensures r.Ok? ==> r.value.first == [original[0]] && r.value.second == [original[1]]
    ensures r.Ok? ==> r.value.first + r.value.second == original
    ensures r.Ok? && original in reg ==>
      multiset(r.value.registry) == multiset(reg) - multiset{original} + multiset{r.value.first, r.value.second}
    ensures r.Ok? && original !in reg ==>
      multiset(r.value.registry) == multiset(reg) + multiset{r.value.first, r.value.second}
  {
    if !CanSplit(original) then Err(CannotSplit)
    else
      var first := [original[0]];
      var second := [original[1]];
      // createHand twice, then one card into each new hand
      var grown := reg + [first, second];
      SplitRegistry(reg, original, first, second);
      assert first + second == original;
      Ok(Split(RemoveHand(grown, original), first, second))
  }
}
