/** The data of the round state machine: its phases, outcomes and table
    record, the invariant every reachable table keeps, and the pure rules the
    transitions apply (blackjack possibility, hand comparison, payout table,
    available actions, repeat-bet availability). */
module Rounds {
  import opened Cards
  import opened Hands
  import opened Shoes
  import opened Bankroll
  import opened Results

  const MinimumBet: real := 1.0
  const MaximumBet: real := 1000.0
  const DealerStandValue: int := 17

  /** The source's phase enum, plus `RoundComplete`, which the source enters
      after every payout but never declared. */
  datatype Phase =
    | WaitingForBet
    | DealingCards
    | OfferingInsurance
    | CheckingBlackjack
    | PlayerTurn
    | DealerTurn
    | ResolvingBets
    | GameOver
    | RoundComplete

  /** How a round ended, as the payout table distinguishes it. */
  datatype Outcome = Blackjack | Win | Push | Bust | Loss

  /** The player's choices during their turn. */
  datatype Action = Hit | Stand | Double | SplitPair

  /** The action buttons offered to the player. */
  datatype Buttons = Buttons(canHit: bool, canStand: bool, canDouble: bool, canSplit: bool)

  /** Everything the state machine owns. `retired` holds the cards of the
      hands of earlier rounds: the hand registry keeps every hand it created,
      and nothing in a round removes one. */
  datatype Table = Table(
    phase: Phase,
    shoe: Shoe,
    bank: Ledger,
    retired: seq<Card>,
    player: Hand,
    dealer: Hand,
    currentBet: real,
    lastBet: real,
    insuranceBet: real,
    hasInsurance: bool)

  /** What an inbound call leaves behind: the table when the call returns or
      throws, the error thrown (if any), and the outcome banner it asked the
      presentation layer to show (if any). A thrown error keeps the changes
      made before it, as the source does. */
  datatype Reply = Reply(table: Table, raised: Option<Error>, banner: Option<Outcome>) {

    predicate IsFailure() {
      raised.Some?
    }

    function PropagateFailure(): Reply
      requires IsFailure()
    {
      this
    }

    function Extract(): Table {
      table
    }
  }

  function Done(t: Table): Reply {
    Reply(t, None, None)
  }

  function Raised(t: Table, e: Error): Reply {
    Reply(t, Some(e), None)
  }

  /** The table at start-up: a six-deck shoe, a 1000 bankroll, no hands. */
  function NewTable(rand: Random.Source): (t: Table)
    ensures t.shoe.decks == DefaultDecks && t.shoe.threshold == DefaultThreshold && t.shoe.discard == []
  {
    OpenTable(NewShoe(DefaultDecks, rand, 0))
  }

  /** A table around the given shoe with a fresh ledger and no hands. */
  function OpenTable(shoe: Shoe): (t: Table)
    ensures t.phase == WaitingForBet && t.player == [] && t.dealer == [] && t.retired == []
    ensures t.bank.balance == t.bank.initialBalance == DefaultBalance && Zeroed(t.bank)
    ensures t.currentBet == 0.0 && t.lastBet == 0.0 && t.insuranceBet == 0.0 && !t.hasInsurance
    ensures t.shoe == shoe
  {
    var bank := NewLedger(DefaultBalance);
    Table(WaitingForBet, shoe, bank, [], [], [], 0.0, 0.0, 0.0, false)
  }

  /** A table opened around a full face-up shoe keeps the invariant. */
  lemma OpenTableValid(shoe: Shoe)
    requires FaceUp(shoe) && Pool(shoe) == multiset(Decks(shoe.decks))
    ensures Valid(OpenTable(shoe))
  {
    NothingHeld(OpenTable(shoe));
  }

  /** The start-up table keeps the invariant. */
  lemma NewTableValid(rand: Random.Source)
    ensures Valid(NewTable(rand))
  {
    var shoe := NewShoe(DefaultDecks, rand, 0);
    OpenTableValid(shoe);
  }

  // ----- The invariant -----

  /** The cards held in hands, compared by suit and rank: the face-down flag
      of the hole card is cleared. */
  function Held(t: Table): multiset<Card> {
    multiset(RevealHoleCard(t.retired)) + multiset(RevealHoleCard(t.player)) + multiset(RevealHoleCard(t.dealer))
  }

  /** Shoe, discard pile and every card held in a hand make up exactly the
      decks the shoe was built from, and the shoe holds only face-up cards. */
  ghost predicate Conserved(t: Table) {
    Accounted(t.shoe, t.retired, t.player, t.dealer)
  }

  ghost predicate Accounted(shoe: Shoe, retired: seq<Card>, player: Hand, dealer: Hand) {
    && FaceUp(shoe)
    && Pool(shoe) + multiset(RevealHoleCard(retired)) + multiset(RevealHoleCard(player)) + multiset(RevealHoleCard(dealer))
       == multiset(Decks(shoe.decks))
  }

  /** No amount of money on the table is negative. */
  predicate Funded(t: Table) {
    && t.bank.balance >= 0.0 && t.bank.initialBalance >= 0.0
    && t.currentBet >= 0.0 && t.lastBet >= 0.0 && t.insuranceBet >= 0.0
  }

  /** Every card accounted for, no negative money, and every hand played
      counted once as won, lost or pushed. */
  ghost predicate Valid(t: Table) {
    Conserved(t) && Funded(t) && Tallied(t.bank)
  }

  /** A table with no hands is valid as soon as its shoe holds the full
      decks face up and no money is negative. */
  lemma NothingHeld(t: Table)
    requires t.retired == [] && t.player == [] && t.dealer == []
    requires FaceUp(t.shoe) && Pool(t.shoe) == multiset(Decks(t.shoe.decks)) && Funded(t) && Zeroed(t.bank)
    ensures Held(t) == multiset{}
    ensures Valid(t)
  {
    ZeroedIsTallied(t.bank);
    assert RevealHoleCard([]) == [];
  }

  lemma UncoverAppend(h: Hand, c: Card)
    ensures multiset(RevealHoleCard(h + [c])) == multiset(RevealHoleCard(h)) + multiset{Reveal(c)}
  {
    assert RevealHoleCard(h + [c]) == RevealHoleCard(h) + [Reveal(c)];
  }

  lemma UncoverConcat(a: Hand, b: Hand)
    ensures multiset(RevealHoleCard(a + b)) == multiset(RevealHoleCard(a)) + multiset(RevealHoleCard(b))
  {
    assert RevealHoleCard(a + b) == RevealHoleCard(a) + RevealHoleCard(b);
  }

  lemma UncoverTwice(h: Hand)
    ensures RevealHoleCard(RevealHoleCard(h)) == RevealHoleCard(h)
  {
  }

  // ----- Pure rules -----

  /** The dealer's up-card is an Ace or ten-valued. An empty dealer hand, which
      only a table that was never dealt has, shows no possibility. */
  predicate DealerShowsBlackjackPossibility(dealer: Hand) {
    |dealer| > 0 && (IsAce(dealer[0]) || IsTenValue(dealer[0]))
  }

  /** A dealer blackjack always shows: its up-card is an Ace or ten-valued,
      so peeking only when the up-card allows it never misses one. */
  lemma DealerBlackjackShows(dealer: Hand)
    ensures IsBlackjack(dealer) ==> DealerShowsBlackjackPossibility(dealer)
  {
    BlackjackShape(dealer);
  }

  /** The comparison after the dealer's turn. */
  function Compare(playerTotal: int, dealerTotal: int): (o: Outcome)
    ensures o == Win || o == Push || o == Loss
    ensures o == Win <==> dealerTotal > 21 || playerTotal > dealerTotal
    ensures o == Push <==> dealerTotal <= 21 && playerTotal == dealerTotal
    ensures o == Loss <==> dealerTotal <= 21 && playerTotal < dealerTotal
  {
    if dealerTotal > 21 then Win
    else if playerTotal > dealerTotal then Win
    else if playerTotal == dealerTotal then Push
    else Loss
  }

  /** What the payout credits for each outcome: the stake back plus the
      winnings. */
  function Credited(o: Outcome, bet: real): (amount: real)
    ensures bet >= 0.0 ==> amount >= 0.0
    ensures o == Blackjack ==> amount == bet * 2.5
    ensures o == Win ==> amount == bet * 2.0
    ensures o == Push ==> amount == bet
    ensures o == Bust || o == Loss ==> amount == 0.0
  {
    match o
    case Blackjack => bet + bet * 1.5
    case Win => bet * 2.0
    case Push => bet
    case Bust => 0.0
    case Loss => 0.0
  }

  /** The player's gain over the round, the stake debited at the bet counted
      against the credit: 3:2 for blackjack, 1:1 for a win, even for a push,
      the stake lost otherwise. */
  lemma NetGain(o: Outcome, bet: real)
    ensures Credited(o, bet) - bet ==
      (match o
       case Blackjack => bet * 1.5
       case Win => bet
       case Push => 0.0
       case Bust => -bet
       case Loss => -bet)
  {
  }

  /** The buttons recomputed after each step of the player's turn. */
  function AvailableActions(t: Table): (b: Buttons)
    ensures b.canHit == b.canStand == !IsBusted(t.player)
    ensures b.canDouble <==> |t.player| == 2 && t.bank.balance >= t.currentBet && !IsBusted(t.player)
    ensures b.canSplit <==> IsPair(t.player) && t.bank.balance >= t.currentBet
    ensures b.canSplit ==> !IsBusted(t.player)
  {
    var total := BestTotal(t.player);
    var busted := total > 21;
    var affordDouble := t.bank.balance >= t.currentBet;
    var split := |t.player| == 2 && t.player[0].rank == t.player[1].rank && t.bank.balance >= t.currentBet;
    TwoCardsNeverBust(t.player);
    Buttons(!busted, !busted, |t.player| == 2 && affordDouble && !busted, split)
  }

  /** Two cards total at most 20 hard, so no two-card hand is busted. */
  lemma TwoCardsNeverBust(h: Hand)
    ensures |h| == 2 ==> !IsBusted(h)
  {
    if |h| == 2 {
      var one := h[..1];
      assert one[..0] == [];
      assert HardTotal(one) == HardPoints(h[0]);
      assert h[..|h| - 1] == one;
      assert HardTotal(h) == HardPoints(h[0]) + HardPoints(h[1]);
    }
  }

  /** The repeat-bet button: a previous bet exists, betting is open and the
      balance covers it. */
  predicate CanRepeatBet(t: Table) {
    t.lastBet != 0.0 && t.phase == WaitingForBet && t.lastBet <= t.bank.balance
  }

  /** The repeat-bet button as it should be: also within the table limits,
      which a doubled bet can exceed. */
  predicate CanRepeatBetWithinLimits(t: Table) {
    CanRepeatBet(t) && MinimumBet <= t.lastBet <= MaximumBet
  }
}
