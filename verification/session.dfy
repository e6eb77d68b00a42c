/** The page around the state machine: the buttons that call into it, the
    new-game reset, and a whole session of button presses from start-up. */
module Session {
  import opened Random
  import opened Cards
  import opened Results
  import opened Shoes
  import opened Bankroll
  import opened Rounds
  import opened Play

  /** The inbound calls the page can make. `DealButton` carries the amount
      the betting chips have added up to. */
  datatype Input =
    | DealButton(amount: real)
    | Act(action: Action)
    | InsuranceAnswer(take: bool)
    | RepeatBet
    | NewGame

  /** The deal button: with no chips placed it only shows a message;
      otherwise it places the bet and deals. A refused bet raises and the
      deal is not attempted. No phase is checked here. */
  method PressDeal(t: Table, amount: real, rand: Source) returns (r: Reply)
    ensures amount == 0.0 ==> r == Done(t)
    ensures amount != 0.0 && HandleBetting(t, amount).IsFailure() ==> r == HandleBetting(t, amount)
    ensures amount != 0.0 && !HandleBetting(t, amount).IsFailure() && t.phase == WaitingForBet ==>
      && r.table.bank.totalBetsPlaced == t.bank.totalBetsPlaced + amount
      && r.table.retired == t.retired + t.player + t.dealer
      && (!r.IsFailure() ==> |r.table.player| == 2 && |r.table.dealer| == 2)
    ensures amount != 0.0 && !HandleBetting(t, amount).IsFailure() && t.phase == WaitingForBet
            && Funded(t) && !r.IsFailure() ==>
      (r.table.phase == OfferingInsurance <==>
        IsAce(r.table.dealer[0]) && t.bank.balance - amount >= amount / 2.0)
    ensures amount != 0.0 && !HandleBetting(t, amount).IsFailure() && t.phase != WaitingForBet ==>
      r == HandleBetting(t, amount)
    ensures Valid(t) ==> Valid(r.table)
  {
    if amount == 0.0 {
      return Done(t);
    }
    var placed :- HandleBetting(t, amount);
    r := OnDealButtonClick(placed, rand);
  }

  /** The new-game button: a fresh shoe of the same size, no hands in the
      registry, the bankroll back at its initial balance with zeroed
      statistics, and betting open. The bet fields are left as they were. */
  function ResetGame(t: Table, rand: Source): (r: Table)
    ensures r.phase == WaitingForBet && r.retired == [] && r.player == [] && r.dealer == []
    ensures r.shoe.decks == t.shoe.decks && r.shoe.discard == []
    ensures multiset(r.shoe.cards) == multiset(Decks(t.shoe.decks))
    ensures r.bank.balance == r.bank.initialBalance == t.bank.initialBalance && Zeroed(r.bank)
    ensures r.currentBet == t.currentBet && r.lastBet == t.lastBet
    ensures r.insuranceBet == t.insuranceBet && r.hasInsurance == t.hasInsurance
  {
    t.(shoe := InitializeShoe(t.shoe, rand), retired := [], player := [], dealer := [],
       bank := Reset(t.bank, None), phase := WaitingForBet)
  }

  /** A reset repairs everything but the money fields it keeps: from any
      table without negative money it yields a valid one, whatever happened
      to the cards before. */
  lemma ResetGameValid(t: Table, rand: Source)
    ensures Funded(t) ==> Valid(ResetGame(t, rand))
  {
    var r := ResetGame(t, rand);
    if Funded(t) {
      NothingHeld(r);
    }
  }

  /** Resetting twice leaves the money where one reset left it. */
  lemma ResetGameSettles(t: Table, rand: Source)
    ensures ResetGame(ResetGame(t, rand), rand).bank == ResetGame(t, rand).bank
    ensures NetProfit(ResetGame(t, rand).bank) == 0.0
  {
  }

  /** The repeat-bet button as the page enables it: the previous bet must
      exist, betting must be open and the balance must cover it, but the
      table limits are not consulted. A bet of 600 doubled is remembered as
      1200, so the button offers a bet the table then refuses. */
  lemma RepeatButtonOverLimit(s: Shoe)
    ensures var start := OpenTable(s);
      var t := start.(lastBet := 1200.0, bank := start.bank.(balance := 1500.0));
      && CanRepeatBet(t)
      && HandleBetting(t, t.lastBet).raised == Some(AboveTableMaximum)
  {
  }

  /** A settled round remembers the bet as it stood at the end, doubled
      when the player doubled, so a remembered bet can reach twice the
      table maximum. */
  lemma DoubledBetIsRemembered(t: Table)
    requires t.currentBet >= 0.0
    ensures HandlePayout(t, Loss).table.lastBet == t.currentBet
  {
  }

  /** With the limits consulted, the button is enabled exactly when placing
      the remembered bet succeeds in the betting phase. */
  lemma RepeatWithinLimitsSucceeds(t: Table)
    ensures CanRepeatBetWithinLimits(t) <==>
      t.lastBet != 0.0 && t.phase == WaitingForBet && !HandleBetting(t, t.lastBet).IsFailure()
  {
  }

  /** The repeat-bet button with the limits consulted before it is offered:
      pressing it never runs into a table limit. */
  method PressRepeatWithinLimits(t: Table, rand: Source) returns (r: Reply)
    ensures !CanRepeatBetWithinLimits(t) ==> r == Done(t)
    ensures Funded(t) ==> r.raised != Some(BelowTableMinimum) && r.raised != Some(AboveTableMaximum)
    ensures Valid(t) ==> Valid(r.table)
  {
    if CanRepeatBetWithinLimits(t) {
      r := RepeatLastBet(t, rand);
    } else {
      r := Done(t);
    }
  }

  /** One button press. A raised error is shown to the player and the game
      carries on from the table it left. */
  method Step(t: Table, input: Input, rand: Source) returns (r: Reply)
    ensures input.Act? && t.phase != PlayerTurn ==> r == Done(t)
    ensures input.InsuranceAnswer? && t.phase != OfferingInsurance ==> r == Done(t)
    ensures input.RepeatBet? && !CanRepeatBet(t) ==> r == Done(t)
    ensures input.RepeatBet? && CanRepeatBet(t) && t.lastBet > MaximumBet ==> r == Raised(t, AboveTableMaximum)
    ensures input == DealButton(0.0) ==> r == Done(t)
    ensures input == NewGame ==>
      && r.table.phase == WaitingForBet && r.table.player == [] && r.table.dealer == []
      && r.table.bank.balance == t.bank.initialBalance && Zeroed(r.table.bank)
    ensures Valid(t) ==> Valid(r.table)
  {
    match input
    case DealButton(amount) =>
      r := PressDeal(t, amount, rand);
    case Act(action) =>
      r := OnPlayerAction(t, action, rand);
    case InsuranceAnswer(take) =>
      OnInsuranceDecisionValid(t, take);
      r := OnInsuranceDecision(t, take);
    case RepeatBet =>
      r := RepeatLastBet(t, rand);
    case NewGame =>
      ResetGameValid(t, rand);
      r := Done(ResetGame(t, rand));
  }

  /** The table the page opens with. */
  method Start(rand: Source) returns (t: Table)
    ensures t.phase == WaitingForBet && t.bank.balance == DefaultBalance && Zeroed(t.bank)
    ensures t.shoe.decks == DefaultDecks
    ensures Valid(t)
  {
    t := NewTable(rand);
    NewTableValid(rand);
  }

  /** A whole session from start-up. Whatever the buttons pressed and
      whatever the shuffles, every card of the shoe stays accounted for, no
      money goes negative and every hand played is counted once. */
  method Run(inputs: seq<Input>, rand: Source) returns (t: Table)
    ensures Valid(t)
  {
    t := Start(rand);
    for i := 0 to |inputs|
      invariant Valid(t)
    {
      var r := Step(t, inputs[i], rand);
      t := r.table;
    }
  }
}
