/** The round state machine's transitions. Every inbound call and every step
    it chains to takes the table (and the random source the shoe shuffles
    with) to a `Reply`; presentation calls are dropped, and the delays of the
    dealer turn and of the payout banner become plain sequencing.

    The steps that only look at the table are functions. The steps that
    draw cards in sequence, or hand over to the dealer's turn, are methods,
    so that each of them is checked against the contracts of the steps it
    chains to rather than against their bodies. */
module Play {
  import opened Random
  import opened Cards
  import opened Hands
  import opened Shoes
  import opened Bankroll
  import opened Results
  import opened Rounds

  /** The money on the table and its state flags agree. */
  predicate SameMoney(a: Table, b: Table) {
    && a.bank == b.bank && a.currentBet == b.currentBet && a.lastBet == b.lastBet
    && a.insuranceBet == b.insuranceBet && a.hasInsurance == b.hasInsurance
  }

  /** The cards on the table (shoe and hands) agree. */
  predicate SameCards(a: Table, b: Table) {
    a.shoe == b.shoe && a.retired == b.retired && a.player == b.player && a.dealer == b.dealer
  }

  /** Net winnings as the ledger counts them. */
  function Net(l: Ledger): real {
    l.totalWinnings - l.totalLosses
  }

  /** What a completed payout of outcome `o` leaves behind, compared with
      the table `t` it was paid from: the banner, the credit, exactly one
      hand recorded under the right counter, the ledger's net winnings moved
      by the player's net gain, and the round's money cleared. The game goes
      back to betting unless the balance is gone. */
  predicate Settled(t: Table, r: Reply, o: Outcome) {
    && r.raised.None? && r.banner == Some(o)
    && r.table.bank.balance == t.bank.balance + Credited(o, t.currentBet)
    && r.table.bank.handsPlayed == t.bank.handsPlayed + 1
    && r.table.bank.handsWon == t.bank.handsWon + (if o == Blackjack || o == Win then 1 else 0)
    && r.table.bank.handsPushed == t.bank.handsPushed + (if o == Push then 1 else 0)
    && r.table.bank.handsLost == t.bank.handsLost + (if o == Bust || o == Loss then 1 else 0)
    && Net(r.table.bank) == Net(t.bank) + (Credited(o, t.currentBet) - t.currentBet)
    && r.table.bank.totalBetsPlaced == t.bank.totalBetsPlaced
    && r.table.lastBet == t.currentBet && r.table.currentBet == 0.0
    && r.table.insuranceBet == 0.0 && !r.table.hasInsurance
    && r.table.phase == (if r.table.bank.balance > 0.0 then WaitingForBet else RoundComplete)
  }

  // ----- Moving cards -----

  /** The hands of the finished round stay in the hand registry, and the new
      round starts from two empty hands. */
  function Retire(t: Table): (r: Table)
    ensures r.player == [] && r.dealer == [] && r.retired == t.retired + t.player + t.dealer
    ensures r.shoe == t.shoe && r.phase == t.phase && SameMoney(r, t)
    ensures Conserved(t) ==> Conserved(r)
  {
    var r := t.(retired := t.retired + t.player + t.dealer, player := [], dealer := []);
    UncoverConcat(t.retired + t.player, t.dealer);
    UncoverConcat(t.retired, t.player);
    assert RevealHoleCard([]) == [];
    r
  }

  /** Handing out a card drawn from the shoe keeps every card accounted for,
      face down or not. */
  lemma GiveKeepsConserved(t: Table, d: Drawn, hidden: bool)
    requires Pool(t.shoe) == Pool(d.shoe) + multiset{d.card} && d.shoe.decks == t.shoe.decks
    requires FaceUp(t.shoe) ==> FaceUp(d.shoe) && !d.card.faceDown
    ensures Conserved(t) ==>
      Conserved(t.(shoe := d.shoe, dealer := t.dealer + [if hidden then Hide(d.card) else d.card]))
    ensures Conserved(t) ==> Conserved(t.(shoe := d.shoe, player := t.player + [d.card]))
  {
    var c := if hidden then Hide(d.card) else d.card;
    RevealForgetsHide(d.card);
    UncoverAppend(t.dealer, c);
    UncoverAppend(t.player, d.card);
  }

  /** No card can be drawn, even after the reshuffle the draw would do. */
  predicate ShoeExhausted(s: Shoe) {
    |s.cards| == 0 && (|s.discard| == 0 || !NeedsReshuffle(s))
  }

  /** Draws one card into the player's hand. An empty shoe raises and,
      because the reshuffle before that failure changed nothing, leaves the
      table as it was. */
  method DealPlayer(t: Table, rand: Source) returns (r: Reply)
    ensures r.banner.None?
    ensures r.IsFailure() <==> ShoeExhausted(t.shoe)
    ensures r.IsFailure() ==> r.raised == Some(EmptyShoe) && r.table == t
    ensures !r.IsFailure() ==>
      && |r.table.player| == |t.player| + 1 && r.table.player[..|t.player|] == t.player
      && r.table.dealer == t.dealer && r.table.retired == t.retired
      && r.table.phase == t.phase && SameMoney(r.table, t)
    ensures r.table.shoe.decks == t.shoe.decks
    ensures Conserved(t) ==> Conserved(r.table)
    ensures Conserved(t) && !r.IsFailure() ==> !r.table.player[|t.player|].faceDown
    ensures |t.shoe.cards| > 0 && !NeedsReshuffle(t.shoe) ==>
      !r.IsFailure() && r.table.player == t.player + [Top(t.shoe)] && r.table.shoe == Rest(t.shoe)
    ensures Valid(t) ==> Valid(r.table)
  {
    var drawn := Draw(t.shoe, rand);
    if drawn.Err? {
      r := Raised(t, drawn.error);
    } else {
      var d := drawn.value;
      GiveKeepsConserved(t, d, false);
      r := Done(t.(shoe := d.shoe, player := t.player + [d.card]));
    }
  }

  /** Draws one card into the dealer's hand, face down when `hidden`. */
  method DealDealer(t: Table, rand: Source, hidden: bool) returns (r: Reply)
    ensures r.banner.None?
    ensures r.IsFailure() <==> ShoeExhausted(t.shoe)
    ensures r.IsFailure() ==> r.raised == Some(EmptyShoe) && r.table == t
    ensures !r.IsFailure() ==>
      && |r.table.dealer| == |t.dealer| + 1 && r.table.dealer[..|t.dealer|] == t.dealer
      && r.table.player == t.player && r.table.retired == t.retired
      && r.table.phase == t.phase && SameMoney(r.table, t)
    ensures r.table.shoe.decks == t.shoe.decks
    ensures Conserved(t) ==> Conserved(r.table)
    ensures Conserved(t) && !r.IsFailure() ==> r.table.dealer[|t.dealer|].faceDown == hidden
    ensures |t.shoe.cards| > 0 && !NeedsReshuffle(t.shoe) ==>
      && !r.IsFailure() && r.table.shoe == Rest(t.shoe)
      && r.table.dealer == t.dealer + [if hidden then Hide(Top(t.shoe)) else Top(t.shoe)]
    ensures Valid(t) ==> Valid(r.table)
  {
    var drawn := Draw(t.shoe, rand);
    if drawn.Err? {
      r := Raised(t, drawn.error);
    } else {
      var d := drawn.value;
      GiveKeepsConserved(t, d, hidden);
      r := Done(t.(shoe := d.shoe, dealer := t.dealer + [if hidden then Hide(d.card) else d.card]));
    }
  }

  /** Turns the dealer's hole card face up; no total changes. */
  function RevealDealer(t: Table): (r: Table)
    ensures r == t.(dealer := RevealHoleCard(t.dealer))
    ensures |r.dealer| == |t.dealer| && forall i :: 0 <= i < |r.dealer| ==> !r.dealer[i].faceDown
    ensures BestTotal(r.dealer) == BestTotal(t.dealer) && IsBlackjack(r.dealer) == IsBlackjack(t.dealer)
    ensures Conserved(t) ==> Conserved(r)
  {
    RevealKeepsTotals(t.dealer);
    UncoverTwice(t.dealer);
    var r := t.(dealer := RevealHoleCard(t.dealer));
    BlackjackShape(t.dealer);
    BlackjackShape(r.dealer);
    r
  }

  // ----- Moving money -----

  /** Debits the ledger; a refused debit raises and changes nothing. */
  function Debit(t: Table, amount: real): (r: Reply)
    ensures r.banner.None?
    ensures r.IsFailure() <==> !(0.0 < amount <= t.bank.balance)
    ensures r.IsFailure() ==> r.table == t && r.raised == Some(PlaceBet(t.bank, amount).error)
    ensures !r.IsFailure() ==> r.table == t.(bank := r.table.bank)
    ensures !r.IsFailure() ==> r.table.bank.balance == t.bank.balance - amount >= 0.0
    ensures !r.IsFailure() ==> r.table.bank.totalBetsPlaced == t.bank.totalBetsPlaced + amount
    ensures !r.IsFailure() ==> SameStats(r.table.bank, t.bank)
    ensures Valid(t) ==> Valid(r.table)
  {
    match PlaceBet(t.bank, amount)
    case Err(e) => Raised(t, e)
    case Ok(l) => Done(t.(bank := l))
  }

  /** Credits the ledger; only a negative amount is refused. */
  function Credit(t: Table, amount: real): (r: Reply)
    ensures r.banner.None?
    ensures r.IsFailure() <==> amount < 0.0
    ensures r.IsFailure() ==> r.table == t && r.raised == Some(InvalidAmount)
    ensures !r.IsFailure() ==> r.table == t.(bank := r.table.bank)
    ensures !r.IsFailure() ==> r.table.bank.balance == t.bank.balance + amount
    ensures !r.IsFailure() ==> SameStats(r.table.bank, t.bank) && r.table.bank.totalBetsPlaced == t.bank.totalBetsPlaced
  {
    match AddToBankroll(t.bank, amount)
    case Err(e) => Raised(t, e)
    case Ok(l) => Done(t.(bank := l))
  }

  // ----- Betting -----

  /** Places the round's bet. Outside the table limits or above the balance
      it raises and changes nothing. No phase is checked: betting is only
      offered to the player while the table waits for a bet. */
  function HandleBetting(t: Table, amount: real): (r: Reply)
    ensures r.banner.None?
    ensures !r.IsFailure() <==> MinimumBet <= amount <= MaximumBet && amount <= t.bank.balance
    ensures amount < MinimumBet ==> r.raised == Some(BelowTableMinimum)
    ensures MinimumBet <= amount && amount > MaximumBet ==> r.raised == Some(AboveTableMaximum)
    ensures MinimumBet <= amount <= MaximumBet && amount > t.bank.balance ==> r.raised == Some(InsufficientFunds)
    ensures r.IsFailure() ==> r.table == t
    ensures !r.IsFailure() ==>
      && r.table.currentBet == amount
      && r.table.bank.balance == t.bank.balance - amount
      && r.table.bank.totalBetsPlaced == t.bank.totalBetsPlaced + amount
      && SameStats(r.table.bank, t.bank)
      && r.table == t.(currentBet := amount, bank := r.table.bank)
    ensures Valid(t) ==> Valid(r.table)
  {
    if amount < MinimumBet then Raised(t, BelowTableMinimum)
    else if amount > MaximumBet then Raised(t, AboveTableMaximum)
    else if amount > t.bank.balance then Raised(t, InsufficientFunds)
    else Debit(t.(currentBet := amount), amount)
  }

  // ----- Settling -----

  /** Remembers the bet for the repeat-bet button and clears the round's
      money. A table whose balance is gone stays where it is. */
  function HandleRoundComplete(t: Table): (r: Table)
    ensures r.lastBet == t.currentBet && r.currentBet == 0.0 && r.insuranceBet == 0.0 && !r.hasInsurance
    ensures r.phase == (if t.bank.balance > 0.0 then WaitingForBet else t.phase)
    ensures r.bank == t.bank && SameCards(r, t)
    ensures Valid(t) ==> Valid(r)
  {
    var t1 := t.(lastBet := t.currentBet, currentBet := 0.0, insuranceBet := 0.0, hasInsurance := false);
    if t1.bank.balance <= 0.0 then t1 else t1.(phase := WaitingForBet)
  }

  /** Records the hand in the ledger's statistics: a blackjack is a win of
      one and a half bets, a win of one bet, a push counts only as played,
      bust and loss are a loss of the bet. */
  function Record(l: Ledger, o: Outcome, bet: real): (r: Ledger)
    ensures r.handsPlayed == l.handsPlayed + 1
    ensures r.handsWon == l.handsWon + (if o == Blackjack || o == Win then 1 else 0)
    ensures r.handsPushed == l.handsPushed + (if o == Push then 1 else 0)
    ensures r.handsLost == l.handsLost + (if o == Bust || o == Loss then 1 else 0)
    ensures Net(r) == Net(l) + (Credited(o, bet) - bet)
    ensures r.balance == l.balance && r.initialBalance == l.initialBalance
    ensures r.totalBetsPlaced == l.totalBetsPlaced
    ensures Tallied(l) ==> Tallied(r)
  {
    NetGain(o, bet);
    match o
    case Blackjack => RecordWin(l, bet * 1.5)
    case Win => RecordWin(l, bet)
    case Push => RecordPush(l)
    case Bust => RecordLoss(l, bet)
    case Loss => RecordLoss(l, bet)
  }

  /** Pays the outcome, records exactly one hand, shows the banner, then
      completes the round. Bust and loss credit nothing: the stake was
      debited when the bet was placed. */
  function HandlePayout(t: Table, o: Outcome): (r: Reply)
    ensures r.IsFailure() <==> (o == Blackjack || o == Win || o == Push) && t.currentBet < 0.0
    ensures r.IsFailure() ==> r.table == t && r.raised == Some(InvalidAmount)
    ensures !r.IsFailure() ==> Settled(t, r, o)
    ensures SameCards(r.table, t)
    ensures Valid(t) ==> Valid(r.table)
  {
    if o == Bust || o == Loss then
      Complete(t, o, t.currentBet)
    else
      PayAndComplete(t, o)
  }

  /** The payout of an outcome that credits the player: the credit, then the
      rest of the payout on the credited table. */
  function PayAndComplete(t: Table, o: Outcome): (r: Reply)
    requires o == Blackjack || o == Win || o == Push
    ensures r.IsFailure() <==> t.currentBet < 0.0
    ensures r.IsFailure() ==> r.table == t && r.raised == Some(InvalidAmount)
    ensures !r.IsFailure() ==> Settled(t, r, o)
    ensures SameCards(r.table, t)
    ensures Valid(t) ==> Valid(r.table)
  {
    var t1 :- Credit(t, Credited(o, t.currentBet));
    Complete(t1, o, t.currentBet)
  }

  /** The payout after the credit: the hand recorded, the banner shown and
      the round completed. */
  function Complete(t: Table, o: Outcome, bet: real): (r: Reply)
    ensures r.raised.None? && r.banner == Some(o)
    ensures r.table.bank == Record(t.bank, o, bet)
    ensures r.table.lastBet == t.currentBet && r.table.currentBet == 0.0
    ensures r.table.insuranceBet == 0.0 && !r.table.hasInsurance
    ensures r.table.phase == (if t.bank.balance > 0.0 then WaitingForBet else RoundComplete)
    ensures SameCards(r.table, t)
    ensures Valid(t) ==> Valid(r.table)
  {
    Reply(HandleRoundComplete(t.(bank := Record(t.bank, o, bet), phase := RoundComplete)), None, Some(o))
  }

  /** Compares the final totals and pays out. */
  function CompareHands(t: Table): (r: Reply)
    ensures r.IsFailure() ==> t.currentBet < 0.0 && r.table == t
    ensures t.currentBet >= 0.0 ==> !r.IsFailure()
    ensures !r.IsFailure() ==> Settled(t, r, Compare(BestTotal(t.player), BestTotal(t.dealer)))
    ensures SameCards(r.table, t)
    ensures Valid(t) ==> Valid(r.table)
  {
    HandlePayout(t, Compare(BestTotal(t.player), BestTotal(t.dealer)))
  }

  // ----- Insurance -----

  /** Settles the insurance bet: three times the stake back when the dealer
      has blackjack, nothing otherwise (the stake was debited when taken).
      The insurance fields are cleared either way. */
  function ResolveInsurance(t: Table, dealerHasBlackjack: bool): (r: Reply)
    ensures r.banner.None?
    ensures r.IsFailure() <==> dealerHasBlackjack && t.insuranceBet < 0.0
    ensures r.IsFailure() ==> r.table == t
    ensures !r.IsFailure() ==>
      && r.table.bank.balance == t.bank.balance + (if dealerHasBlackjack then t.insuranceBet * 3.0 else 0.0)
      && r.table.insuranceBet == 0.0 && !r.table.hasInsurance
      && SameStats(r.table.bank, t.bank) && r.table.bank.totalBetsPlaced == t.bank.totalBetsPlaced
      && r.table == t.(bank := r.table.bank, insuranceBet := 0.0, hasInsurance := false)
    ensures Valid(t) ==> Valid(r.table)
  {
    var t1 :- if dealerHasBlackjack then Credit(t, t.insuranceBet * 3.0) else Done(t);
    Done(t1.(insuranceBet := 0.0, hasInsurance := false))
  }

  /** What the insurance returns to the balance at the blackjack check. */
  function InsurancePaid(t: Table): real {
    if t.hasInsurance && IsBlackjack(t.dealer) then t.insuranceBet * 3.0 else 0.0
  }

  /** Resolves the insurance bet only when one was taken: an uninsured
      table is left alone; an insured one gets three times the stake back on
      a dealer blackjack, and its insurance is closed either way. */
  function SettleInsurance(t: Table, dealerHasBlackjack: bool): (r: Reply)
    ensures r.banner.None?
    ensures !t.hasInsurance ==> r == Done(t)
    ensures r.IsFailure() <==> t.hasInsurance && dealerHasBlackjack && t.insuranceBet < 0.0
    ensures r.IsFailure() ==> r.table == t && r.raised == Some(InvalidAmount)
    ensures t.hasInsurance && !r.IsFailure() ==>
      && r.table.bank.balance == t.bank.balance + (if dealerHasBlackjack then t.insuranceBet * 3.0 else 0.0)
      && r.table.insuranceBet == 0.0 && !r.table.hasInsurance
      && SameStats(r.table.bank, t.bank) && r.table.bank.totalBetsPlaced == t.bank.totalBetsPlaced
      && SameCards(r.table, t) && r.table.phase == t.phase
      && r.table.currentBet == t.currentBet && r.table.lastBet == t.lastBet
    ensures Valid(t) ==> Valid(r.table)
  {
    if t.hasInsurance then ResolveInsurance(t, dealerHasBlackjack) else Done(t)
  }

  // ----- The blackjack check -----

  /** The outcome of a round decided at the blackjack check. */
  function BlackjackOutcome(t: Table): Outcome {
    if IsBlackjack(t.player) then (if IsBlackjack(t.dealer) then Push else Blackjack) else Loss
  }

  /** The table with the insurance payout credited. */
  function Insured(t: Table): Table {
    t.(bank := t.bank.(balance := t.bank.balance + InsurancePaid(t)))
  }

  /** The immediate-blackjack check after the deal. The dealer's hole card
      is looked at only when the up-card allows a blackjack, and that never
      misses one. Which way the round goes depends on the two blackjack
      flags alone: both is a push, the player's alone pays 3:2, the
      dealer's alone loses, neither hands the turn to the player. */
  function HandleCheckingBlackjack(t: Table): (r: Reply)
    ensures Funded(t) ==> !r.IsFailure()
    ensures Funded(t) && (IsBlackjack(t.player) || IsBlackjack(t.dealer)) ==>
      Settled(Insured(t), r, BlackjackOutcome(t))
    ensures !IsBlackjack(t.player) && !IsBlackjack(t.dealer) ==>
      && r.raised.None? && r.banner.None? && r.table.phase == PlayerTurn
      && r.table.bank == t.bank && r.table.currentBet == t.currentBet && r.table.lastBet == t.lastBet
    ensures r.table.player == t.player && r.table.shoe == t.shoe && r.table.retired == t.retired
    ensures Funded(t) ==>
      r.table.dealer == (if DealerShowsBlackjackPossibility(t.dealer) && (IsBlackjack(t.player) || IsBlackjack(t.dealer))
                         then RevealHoleCard(t.dealer) else t.dealer)
    ensures Valid(t) ==> Valid(r.table)
  {
    DealerBlackjackShows(t.dealer);
    if IsBlackjack(t.player) then
      PlayerBlackjackValid(t);
      PlayerBlackjack(t)
    else
      DealerPeekValid(t);
      DealerPeek(t)
  }

  /** The blackjack check when the player has one: a push against a dealer
      blackjack, 3:2 otherwise. */
  function PlayerBlackjack(t: Table): (r: Reply)
    requires IsBlackjack(t.player)
    ensures Funded(t) ==> !r.IsFailure() && Settled(Insured(t), r, BlackjackOutcome(t))
    ensures r.table.player == t.player && r.table.shoe == t.shoe && r.table.retired == t.retired
    ensures Funded(t) ==>
      r.table.dealer == (if DealerShowsBlackjackPossibility(t.dealer) then RevealHoleCard(t.dealer) else t.dealer)
  {
    DealerBlackjackShows(t.dealer);
    if DealerShowsBlackjackPossibility(t.dealer) then
      var dealerHasBlackjack := IsBlackjack(t.dealer);
      var t1 :- SettleInsurance(t, dealerHasBlackjack);
      var t2 := RevealDealer(t1);
      HandlePayout(t2.(phase := ResolvingBets), if dealerHasBlackjack then Push else Blackjack)
    else
      HandlePayout(t.(phase := ResolvingBets), Blackjack)
  }

  lemma PlayerBlackjackValid(t: Table)
    requires IsBlackjack(t.player)
    ensures Valid(t) ==> Valid(PlayerBlackjack(t).table)
  {
    if Valid(t) {
      if DealerShowsBlackjackPossibility(t.dealer) {
        var settled := SettleInsurance(t, IsBlackjack(t.dealer));
        if !settled.IsFailure() {
          var t1 := settled.table;
          var t2 := RevealDealer(t1);
          CardsKeepValid(t1, t2);
          PhaseKeepsValid(t2, ResolvingBets);
        }
      } else {
        PhaseKeepsValid(t, ResolvingBets);
      }
    }
  }

  /** The blackjack check when the player has none: the dealer peeks when
      the up-card allows a blackjack; one ends the round as a loss. */
  function DealerPeek(t: Table): (r: Reply)
    requires !IsBlackjack(t.player)
    ensures Funded(t) ==> !r.IsFailure()
    ensures Funded(t) && IsBlackjack(t.dealer) ==>
      Settled(Insured(t), r, Loss) && r.table.dealer == RevealHoleCard(t.dealer)
    ensures !IsBlackjack(t.dealer) ==>
      && r.raised.None? && r.banner.None? && r.table.phase == PlayerTurn
      && r.table.bank == t.bank && r.table.currentBet == t.currentBet && r.table.lastBet == t.lastBet
      && r.table.dealer == t.dealer
    ensures r.table.player == t.player && r.table.shoe == t.shoe && r.table.retired == t.retired
  {
    DealerBlackjackShows(t.dealer);
    if DealerShowsBlackjackPossibility(t.dealer) then
      var dealerHasBlackjack := IsBlackjack(t.dealer);
      var t1 :- SettleInsurance(t, dealerHasBlackjack);
      if dealerHasBlackjack then HandlePayout(RevealDealer(t1).(phase := ResolvingBets), Loss)
      else Done(t1.(phase := PlayerTurn))
    else
      Done(t.(phase := PlayerTurn))
  }

  lemma DealerPeekValid(t: Table)
    requires !IsBlackjack(t.player)
    ensures Valid(t) ==> Valid(DealerPeek(t).table)
  {
    if Valid(t) {
      if DealerShowsBlackjackPossibility(t.dealer) {
        var settled := SettleInsurance(t, IsBlackjack(t.dealer));
        if !settled.IsFailure() {
          var t1 := settled.table;
          if IsBlackjack(t.dealer) {
            var t2 := RevealDealer(t1);
            CardsKeepValid(t1, t2);
            PhaseKeepsValid(t2, ResolvingBets);
          } else {
            PhaseKeepsValid(t1, PlayerTurn);
          }
        }
      } else {
        PhaseKeepsValid(t, PlayerTurn);
      }
    }
  }


  // ----- Insurance -----

  /** Offers insurance when the balance covers half the bet, leaving the
      offer open; otherwise skips straight to the blackjack check, uninsured. */
  function HandleInsuranceOffer(t: Table): (r: Reply)
    ensures t.bank.balance >= t.currentBet / 2.0 ==> r == Done(t)
    ensures Funded(t) && t.bank.balance < t.currentBet / 2.0 ==>
      && !r.IsFailure() && !r.table.hasInsurance
      && (r.banner.None? <==> !IsBlackjack(t.player) && !IsBlackjack(t.dealer))
      && (r.banner.None? ==> r.table.phase == PlayerTurn && r.table.bank == t.bank)
      && (r.banner.Some? ==>
            r.banner == Some(BlackjackOutcome(t)) && r.table.bank.balance == t.bank.balance + Credited(r.banner.value, t.currentBet))
    ensures r.table.player == t.player && r.table.bank.totalBetsPlaced == t.bank.totalBetsPlaced
    ensures Valid(t) ==> Valid(r.table)
  {
    if t.bank.balance >= t.currentBet / 2.0 then Done(t)
    else HandleCheckingBlackjack(t.(hasInsurance := false, phase := CheckingBlackjack))
  }

  /** Takes the insurance: half the bet is debited, then the blackjack check
      runs insured. The amount is recorded before the debit, so a refused
      debit leaves it set. */
  function Insure(t: Table): (r: Reply)
    ensures !(0.0 < t.currentBet / 2.0 <= t.bank.balance) ==>
      r.IsFailure() && r.table == t.(insuranceBet := t.currentBet / 2.0)
    ensures Funded(t) && 0.0 < t.currentBet / 2.0 <= t.bank.balance ==> !r.IsFailure()
  {
    var t1 := t.(insuranceBet := t.currentBet / 2.0);
    var t2 :- Debit(t1, t1.insuranceBet);
    HandleCheckingBlackjack(t2.(hasInsurance := true, phase := CheckingBlackjack))
  }

  lemma InsureValid(t: Table)
    ensures Valid(t) ==> Valid(Insure(t).table)
  {
    if Valid(t) && 0.0 < t.currentBet / 2.0 <= t.bank.balance {
      var t1 := t.(insuranceBet := t.currentBet / 2.0);
      var t2 := Debit(t1, t1.insuranceBet).table;
      assert Valid(t2.(hasInsurance := true, phase := CheckingBlackjack));
    }
  }

  /** Insured, the balance pays half the bet up front and gets three times
      that back on a dealer blackjack, on top of what the round itself pays;
      the round goes exactly as it would uninsured. */
  lemma InsuredBalance(t: Table)
    ensures Funded(t) && 0.0 < t.currentBet / 2.0 <= t.bank.balance ==>
      var r := Insure(t);
      && r.banner == (if IsBlackjack(t.player) || IsBlackjack(t.dealer) then Some(BlackjackOutcome(t)) else None)
      && r.table.bank.balance == t.bank.balance - t.currentBet / 2.0
           + (if IsBlackjack(t.dealer) then t.currentBet / 2.0 * 3.0 else 0.0)
           + (if r.banner.Some? then Credited(r.banner.value, t.currentBet) else 0.0)
  {
    if Funded(t) && 0.0 < t.currentBet / 2.0 <= t.bank.balance {
      var t1 := t.(insuranceBet := t.currentBet / 2.0);
      var t2 := Debit(t1, t1.insuranceBet).table.(hasInsurance := true, phase := CheckingBlackjack);
      assert Funded(t2);
      assert BlackjackOutcome(t2) == BlackjackOutcome(t);
    }
  }

  /** The player's answer to the insurance offer; ignored unless an offer is
      pending. Either answer closes the offer and runs the blackjack check:
      the player's turn follows, or the round is settled. */
  function OnInsuranceDecision(t: Table, take: bool): (r: Reply)
    ensures t.phase != OfferingInsurance ==> r == Done(t)
    ensures t.phase == OfferingInsurance && Funded(t) && (take ==> 0.0 < t.currentBet / 2.0 <= t.bank.balance) ==>
      && !r.IsFailure()
      && (r.banner.None? <==> !IsBlackjack(t.player) && !IsBlackjack(t.dealer))
      && (r.banner.None? ==> r.table.phase == PlayerTurn)
      && (r.banner.Some? ==> r.table.phase != PlayerTurn && r.banner == Some(BlackjackOutcome(t)))
  {
    if t.phase != OfferingInsurance then Done(t)
    else if take then (InsuredBalance(t); Insure(t))
    else HandleCheckingBlackjack(t.(hasInsurance := false, phase := CheckingBlackjack))
  }

  lemma OnInsuranceDecisionValid(t: Table, take: bool)
    ensures Valid(t) ==> Valid(OnInsuranceDecision(t, take).table)
  {
    if Valid(t) && t.phase == OfferingInsurance {
      if take {
        InsureValid(t);
      } else {
        assert Valid(t.(hasInsurance := false, phase := CheckingBlackjack));
      }
    }
  }

  /** Even money: a player without blackjack who insures half the bet
      against a dealer blackjack gets both stakes back, so the balance ends
      where it stood before the bet was placed. */
  lemma InsuranceEvenMoney(t: Table)
    requires t.phase == OfferingInsurance && Funded(t) && 0.0 < t.currentBet <= 2.0 * t.bank.balance
    requires !IsBlackjack(t.player) && IsBlackjack(t.dealer)
    ensures OnInsuranceDecision(t, true).table.bank.balance == t.bank.balance + t.currentBet
    ensures OnInsuranceDecision(t, true).banner == Some(Loss)
  {
    var t1 := t.(insuranceBet := t.currentBet / 2.0);
    var t2 := Debit(t1, t1.insuranceBet).table.(hasInsurance := true, phase := CheckingBlackjack);
    assert InsurancePaid(t2) == t.currentBet / 2.0 * 3.0;
  }

  /** Declining insurance against a dealer blackjack loses the bet and
      nothing more. */
  lemma DeclinedInsuranceLosesBet(t: Table)
    requires t.phase == OfferingInsurance && Funded(t)
    requires !IsBlackjack(t.player) && IsBlackjack(t.dealer)
    ensures OnInsuranceDecision(t, false).table.bank.balance == t.bank.balance
    ensures OnInsuranceDecision(t, false).banner == Some(Loss)
  {
  }

  /** Turning the hole card up does not change whether a hand is a
      blackjack. */
  lemma RevealKeepsBlackjack(h: Hand)
    ensures IsBlackjack(RevealHoleCard(h)) == IsBlackjack(h)
  {
    BlackjackShape(h);
    BlackjackShape(RevealHoleCard(h));
  }

  // ----- Dealing -----

  /** Moving cards without touching the money keeps the invariant as soon
      as the cards are still accounted for. */
  lemma CardsKeepValid(a: Table, b: Table)
    requires SameMoney(a, b) && (Conserved(a) ==> Conserved(b))
    ensures Valid(a) ==> Valid(b)
  {
  }

  /** A non-negative bet keeps the invariant. */
  lemma BetKeepsValid(t: Table, bet: real)
    requires bet >= 0.0
    ensures Valid(t) ==> Valid(t.(currentBet := bet))
  {
  }

  /** The phase takes no part in the invariant. */
  lemma PhaseKeepsValid(t: Table, p: Phase)
    ensures Valid(t) ==> Valid(t.(phase := p))
  {
  }

  /** The deal takes the shoe's last four cards, from the end: player,
      dealer, player, dealer, the last one face down. This is the order
      whenever no reshuffle falls inside the deal, that is when the shoe
      holds four cards and one less than that needs no reshuffle. */
  predicate DealtFromEnd(s: Shoe, t: Table)
    requires |s.cards| >= 4
  {
    var c := s.cards;
    var n := |c|;
    && t.player == [c[n - 1], c[n - 3]] && t.dealer == [c[n - 2], Hide(c[n - 4])]
    && t.shoe == s.(cards := c[..n - 4])
  }

  /** One card to the player, then one to the dealer (face down when
      `hidden`): half of the deal. */
  method DealPair(t: Table, rand: Source, hidden: bool) returns (r: Reply)
    ensures r.banner.None?
    ensures r.IsFailure() ==> r.raised == Some(EmptyShoe)
    ensures r.table.phase == t.phase && SameMoney(r.table, t) && r.table.retired == t.retired
    ensures r.table.shoe.decks == t.shoe.decks
    ensures !r.IsFailure() ==>
      && |r.table.player| == |t.player| + 1 && r.table.player[..|t.player|] == t.player
      && |r.table.dealer| == |t.dealer| + 1 && r.table.dealer[..|t.dealer|] == t.dealer
    ensures Conserved(t) ==> Conserved(r.table)
    ensures Conserved(t) && !r.IsFailure() ==>
      !r.table.player[|t.player|].faceDown && r.table.dealer[|t.dealer|].faceDown == hidden
    ensures |t.shoe.cards| >= 2 && !NeedsReshuffle(t.shoe) && !NeedsReshuffle(Rest(t.shoe)) ==>
      && !r.IsFailure() && r.table.shoe == Rest(Rest(t.shoe))
      && r.table.player == t.player + [Top(t.shoe)]
      && r.table.dealer == t.dealer + [if hidden then Hide(Top(Rest(t.shoe))) else Top(Rest(t.shoe))]
  {
    var t1 :- DealPlayer(t, rand);
    r := DealDealer(t1, rand, hidden);
  }

  /** The four-card deal: player, dealer, player, then the dealer's hole
      card face down. The previous round's hands are retired first. */
  method Deal(t: Table, rand: Source) returns (r: Reply)
    ensures r.banner.None?
    ensures r.IsFailure() ==> r.raised == Some(EmptyShoe)
    ensures r.table.phase == t.phase && SameMoney(r.table, t)
    ensures r.table.shoe.decks == t.shoe.decks
    ensures r.table.retired == t.retired + t.player + t.dealer
    ensures !r.IsFailure() ==> |r.table.player| == 2 && |r.table.dealer| == 2
    ensures Conserved(t) && !r.IsFailure() ==>
      && !r.table.player[0].faceDown && !r.table.player[1].faceDown
      && !r.table.dealer[0].faceDown && r.table.dealer[1].faceDown
    ensures Conserved(t) ==> Conserved(r.table)
    ensures |t.shoe.cards| >= 4 && !NeedsReshuffle(t.shoe.(cards := t.shoe.cards[..|t.shoe.cards| - 3])) ==>
      !r.IsFailure() && DealtFromEnd(t.shoe, r.table)
  {
    ghost var c := t.shoe.cards;
    ghost var clear := |c| >= 4 && !NeedsReshuffle(t.shoe.(cards := c[..|c| - 3]));
    if clear {
      NoReshuffleInDeal(t.shoe);
    }
    var t0 := Retire(t);
    var t1 :- DealPair(t0, rand, false);
    r := DealPair(t1, rand, true);
    if clear {
      DealtFromEndShape(t.shoe, t1.player, t1.dealer, r.table);
    }
  }

  /** Two cards each, appended one at a time from the end of the shoe, give
      the deal order. */
  lemma DealtFromEndShape(s: Shoe, p: Hand, d: Hand, t: Table)
    requires |s.cards| >= 4
    requires p == [] + [Top(s)] && d == [] + [Top(Rest(s))]
    requires t.player == p + [Top(Rest(Rest(s)))] && t.dealer == d + [Hide(Top(Rest(Rest(Rest(s)))))]
    requires t.shoe == Rest(Rest(Rest(Rest(s))))
    ensures DealtFromEnd(s, t)
  {
    var n := |s.cards|;
    assert Rest(Rest(Rest(Rest(s)))).cards == s.cards[..n - 4];
  }

  /** What the blackjack check leaves behind when run on `t` (phase aside):
      without a blackjack the player's turn begins with the money as it
      was; with one the round is settled with the outcome the two flags
      decide, after any insurance payout. The player's hand is kept and the
      dealer's, revealed or not, keeps its blackjack status and up-card. */
  predicate CheckedBlackjack(t: Table, r: Reply) {
    && r.raised.None? && r.table.phase != OfferingInsurance
    && r.table.player == t.player && |r.table.dealer| == |t.dealer|
    && IsBlackjack(r.table.dealer) == IsBlackjack(t.dealer)
    && (|t.dealer| > 0 ==> IsAce(r.table.dealer[0]) == IsAce(t.dealer[0]))
    && (r.banner.None? <==> !IsBlackjack(t.player) && !IsBlackjack(t.dealer))
    && (r.banner.None? ==>
          r.table.phase == PlayerTurn && r.table.bank == t.bank && r.table.currentBet == t.currentBet)
    && (r.banner.Some? ==> Settled(Insured(t), r, BlackjackOutcome(t)))
  }

  /** Whether a reply meets the blackjack check's specification depends on
      the table only through the player's hand, the dealer's blackjack
      status and up-card, the money and the insurance fields. */
  lemma CheckedAlike(a: Table, b: Table, r: Reply)
    requires a.player == b.player && |a.dealer| == |b.dealer| && IsBlackjack(a.dealer) == IsBlackjack(b.dealer)
    requires |a.dealer| > 0 ==> IsAce(a.dealer[0]) == IsAce(b.dealer[0])
    requires a.bank == b.bank && a.currentBet == b.currentBet
    requires a.hasInsurance == b.hasInsurance && a.insuranceBet == b.insuranceBet
    ensures CheckedBlackjack(a, r) ==> CheckedBlackjack(b, r)
  {
  }

  /** The blackjack check run on any table without negative money. */
  lemma HandleCheckingBlackjackChecks(t: Table)
    requires Funded(t)
    ensures CheckedBlackjack(t, HandleCheckingBlackjack(t))
  {
    var r := HandleCheckingBlackjack(t);
    RevealKeepsBlackjack(t.dealer);
    if |t.dealer| > 0 {
      assert IsAce(r.table.dealer[0]) == IsAce(t.dealer[0]);
    }
  }

  /** After a deal showing an Ace: the offer stays open when the balance
      covers half the bet; otherwise the check runs uninsured. */
  method OfferInsuranceAfterDeal(dealt: Table) returns (r: Reply)
    requires |dealt.dealer| > 0 && IsAce(dealt.dealer[0])
    ensures r.table.retired == dealt.retired && r.table.player == dealt.player
    ensures |r.table.dealer| == |dealt.dealer|
    ensures r.table.bank.totalBetsPlaced == dealt.bank.totalBetsPlaced
    ensures dealt.bank.balance >= dealt.currentBet / 2.0 ==> r == Done(dealt.(phase := OfferingInsurance))
    ensures Funded(dealt) && dealt.bank.balance < dealt.currentBet / 2.0 ==>
      CheckedBlackjack(dealt.(hasInsurance := false), r)
    ensures Valid(dealt) ==> Valid(r.table)
  {
    var next := dealt.(phase := OfferingInsurance);
    PhaseKeepsValid(dealt, next.phase);
    if Funded(dealt) && dealt.bank.balance < dealt.currentBet / 2.0 {
      var checked := next.(hasInsurance := false, phase := CheckingBlackjack);
      HandleCheckingBlackjackChecks(checked);
      CheckedAlike(checked, dealt.(hasInsurance := false), HandleCheckingBlackjack(checked));
    }
    r := HandleInsuranceOffer(next);
  }

  /** After a deal showing no Ace: the blackjack check. */
  method CheckBlackjackAfterDeal(dealt: Table) returns (r: Reply)
    ensures r.table.retired == dealt.retired && r.table.player == dealt.player
    ensures |r.table.dealer| == |dealt.dealer|
    ensures r.table.bank.totalBetsPlaced == dealt.bank.totalBetsPlaced
    ensures Funded(dealt) ==> CheckedBlackjack(dealt, r)
    ensures Valid(dealt) ==> Valid(r.table)
  {
    var next := dealt.(phase := CheckingBlackjack);
    PhaseKeepsValid(dealt, next.phase);
    if Funded(dealt) {
      HandleCheckingBlackjackChecks(next);
      CheckedAlike(next, dealt, HandleCheckingBlackjack(next));
    }
    r := HandleCheckingBlackjack(next);
  }

  /** Deals a round, then offers insurance when the up-card is an Ace and
      the balance covers half the bet, and runs the blackjack check
      otherwise: the check settles a blackjack at once and begins the
      player's turn without one. Skipping the offer for want of money also
      closes any insurance. */
  method HandleDealing(t: Table, rand: Source) returns (r: Reply)
    ensures r.table.retired == t.retired + t.player + t.dealer
    ensures Funded(t) && r.IsFailure() ==> r.raised == Some(EmptyShoe)
    ensures !r.IsFailure() ==> |r.table.player| == 2 && |r.table.dealer| == 2
    ensures r.table.bank.totalBetsPlaced == t.bank.totalBetsPlaced
    ensures Funded(t) && !r.IsFailure() ==>
      (r.table.phase == OfferingInsurance <==> IsAce(r.table.dealer[0]) && t.bank.balance >= t.currentBet / 2.0)
    ensures Funded(t) && !r.IsFailure() && r.table.phase == OfferingInsurance ==>
      && r.banner.None? && SameMoney(r.table, t)
    ensures Funded(t) && !r.IsFailure() && r.table.phase != OfferingInsurance ==>
      CheckedBlackjack(t.(player := r.table.player, dealer := r.table.dealer,
                          hasInsurance := t.hasInsurance && !IsAce(r.table.dealer[0])), r)
    ensures Valid(t) ==> Valid(r.table)
  {
    var dealt :- Deal(t, rand);
    var before := t.(player := dealt.player, dealer := dealt.dealer,
                     hasInsurance := t.hasInsurance && !IsAce(dealt.dealer[0]));
    if IsAce(dealt.dealer[0]) {
      r := OfferInsuranceAfterDeal(dealt);
      if Funded(t) && t.bank.balance < t.currentBet / 2.0 {
        CheckedAlike(dealt.(hasInsurance := false), before, r);
      }
    } else {
      r := CheckBlackjackAfterDeal(dealt);
      if Funded(t) {
        CheckedAlike(dealt, before, r);
      }
    }
    if Funded(t) && r.table.phase != OfferingInsurance {
      RevealKeepsBlackjack(dealt.dealer);
      CheckedAlike(before, t.(player := r.table.player, dealer := r.table.dealer,
                              hasInsurance := t.hasInsurance && !IsAce(r.table.dealer[0])), r);
    }
  }

  /** The deal button: deals only when the table waits for a bet and a bet
      was placed. */
  method OnDealButtonClick(t: Table, rand: Source) returns (r: Reply)
    ensures t.phase != WaitingForBet || t.currentBet == 0.0 ==> r == Done(t)
    ensures t.phase == WaitingForBet && t.currentBet != 0.0 ==>
      && r.table.retired == t.retired + t.player + t.dealer
      && r.table.bank.totalBetsPlaced == t.bank.totalBetsPlaced
      && (Funded(t) && r.IsFailure() ==> r.raised == Some(EmptyShoe))
      && (!r.IsFailure() ==> |r.table.player| == 2 && |r.table.dealer| == 2)
    ensures t.phase == WaitingForBet && t.currentBet != 0.0 && Funded(t) && !r.IsFailure() ==>
      (r.table.phase == OfferingInsurance <==> IsAce(r.table.dealer[0]) && t.bank.balance >= t.currentBet / 2.0)
    ensures Valid(t) ==> Valid(r.table)
  {
    if t.phase != WaitingForBet || t.currentBet == 0.0 {
      r := Done(t);
    } else {
      r := HandleDealing(t.(phase := DealingCards), rand);
    }
  }

  /** Places the previous round's bet again and deals. Quietly does nothing
      without a previous bet, outside the betting phase, or when the balance
      does not cover it; a previous bet outside the table limits raises. */
  method RepeatLastBet(t: Table, rand: Source) returns (r: Reply)
    ensures !CanRepeatBet(t) ==> r == Done(t)
    ensures CanRepeatBet(t) && t.lastBet < MinimumBet ==> r == Raised(t, BelowTableMinimum)
    ensures CanRepeatBet(t) && MinimumBet <= t.lastBet && t.lastBet > MaximumBet ==> r == Raised(t, AboveTableMaximum)
    ensures CanRepeatBet(t) && MinimumBet <= t.lastBet <= MaximumBet ==>
      && r.table.retired == t.retired + t.player + t.dealer
      && r.table.bank.totalBetsPlaced == t.bank.totalBetsPlaced + t.lastBet
      && (Funded(t) && r.IsFailure() ==> r.raised == Some(EmptyShoe))
      && (!r.IsFailure() ==> |r.table.player| == 2 && |r.table.dealer| == 2)
    ensures CanRepeatBet(t) && MinimumBet <= t.lastBet <= MaximumBet && Funded(t) && !r.IsFailure() ==>
      (r.table.phase == OfferingInsurance <==>
        IsAce(r.table.dealer[0]) && t.bank.balance - t.lastBet >= t.lastBet / 2.0)
    ensures Valid(t) ==> Valid(r.table)
  {
    if t.lastBet == 0.0 || t.phase != WaitingForBet || t.lastBet > t.bank.balance {
      r := Done(t);
    } else {
      var t1 :- HandleBetting(t, t.lastBet);
      r := OnDealButtonClick(t1, rand);
    }
  }

  // ----- The player's turn -----

  /** A player action; ignored outside the player's turn. Split is not
      implemented and changes nothing. */
  method OnPlayerAction(t: Table, action: Action, rand: Source) returns (r: Reply)
    ensures t.phase != PlayerTurn || action == SplitPair ==> r == Done(t)
    ensures Valid(t) ==> Valid(r.table)
  {
    if t.phase != PlayerTurn {
      r := Done(t);
    } else {
      match action
      case Hit => r := HandleHit(t, rand);
      case Stand => r := HandleStand(t, rand);
      case Double => r := HandleDouble(t, rand);
      case SplitPair => r := Done(t);
    }
  }

  /** Draws a card for the player: over 21 loses at once, exactly 21 stands,
      anything else keeps the turn. */
  method HandleHit(t: Table, rand: Source) returns (r: Reply)
    ensures r.raised == Some(EmptyShoe) && r.table.player == t.player ==> r.table == t
    ensures |r.table.player| == |t.player| + 1 || r.table == t
    ensures |r.table.player| == |t.player| + 1 ==>
      && r.table.player[..|t.player|] == t.player
      && (BestTotal(r.table.player) > 21 ==> Funded(t) ==> Settled(t, r, Bust))
      && (BestTotal(r.table.player) > 21 ==> r.table.dealer == t.dealer)
      && (BestTotal(r.table.player) < 21 ==> r == Done(r.table) && r.table.phase == t.phase && r.table.bank == t.bank)
      && (BestTotal(r.table.player) == 21 && !r.IsFailure() ==> r.table.phase != PlayerTurn)
      && (BestTotal(r.table.player) == 21 ==> DealerPlayed(t.(player := r.table.player), r))
    ensures Valid(t) ==> Valid(r.table)
  {
    var t1 :- DealPlayer(t, rand);
    var total := BestTotal(t1.player);
    PhaseKeepsValid(t1, ResolvingBets);
    if total > 21 {
      r := HandlePayout(t1.(phase := ResolvingBets), Bust);
    } else if total == 21 {
      r := HandleStand(t1, rand);
    } else {
      r := Done(t1);
    }
  }

  /** Stands: the dealer plays. */
  method HandleStand(t: Table, rand: Source) returns (r: Reply)
    ensures DealerPlayed(t, r)
    ensures Valid(t) ==> Valid(r.table)
  {
    PhaseKeepsValid(t, DealerTurn);
    r := HandleDealerTurn(t.(phase := DealerTurn), rand);
  }

  /** Doubles the bet, draws exactly one card and then either busts or
      stands. A refused debit raises before anything changes; an empty shoe
      raises with the bet already doubled. */
  method HandleDouble(t: Table, rand: Source) returns (r: Reply)
    ensures !(0.0 < t.currentBet <= t.bank.balance) ==> r.IsFailure() && r.table == t
    ensures 0.0 < t.currentBet <= t.bank.balance ==>
      var doubled := t.(bank := t.bank.(balance := t.bank.balance - t.currentBet,
                                         totalBetsPlaced := t.bank.totalBetsPlaced + t.currentBet),
                        currentBet := t.currentBet * 2.0);
      || (r.raised == Some(EmptyShoe) && r.table == doubled)
      || (|r.table.player| == |t.player| + 1 && r.table.player[..|t.player|] == t.player
          && (BestTotal(r.table.player) > 21 ==> Settled(doubled, r, Bust) && r.table.dealer == t.dealer)
          && (BestTotal(r.table.player) <= 21 ==> DealerPlayed(doubled.(player := r.table.player), r)))
    ensures 0.0 < t.currentBet <= t.bank.balance && r.raised.None? ==> r.table.lastBet == 2.0 * t.currentBet
    ensures Valid(t) ==> Valid(r.table)
  {
    var t1 :- Debit(t, t.currentBet);
    var t2 := t1.(currentBet := t1.currentBet * 2.0);
    BetKeepsValid(t1, t2.currentBet);
    r := DrawDoubled(t2, rand);
  }

  /** The one card a doubled hand gets, then a bust or the dealer's turn. */
  method DrawDoubled(t: Table, rand: Source) returns (r: Reply)
    ensures
      || (r.raised == Some(EmptyShoe) && r.table == t)
      || (|r.table.player| == |t.player| + 1 && r.table.player[..|t.player|] == t.player
          && (BestTotal(r.table.player) > 21 ==> Settled(t, r, Bust) && r.table.dealer == t.dealer)
          && (BestTotal(r.table.player) <= 21 ==> DealerPlayed(t.(player := r.table.player), r)))
    ensures Valid(t) ==> Valid(r.table)
  {
    var t1 :- DealPlayer(t, rand);
    PhaseKeepsValid(t1, ResolvingBets);
    PhaseKeepsValid(t1, DealerTurn);
    if BestTotal(t1.player) > 21 {
      r := HandlePayout(t1.(phase := ResolvingBets), Bust);
    } else {
      r := HandleDealerTurn(t1.(phase := DealerTurn), rand);
    }
  }

  // ----- The dealer's turn -----

  /** What the dealer's turn leaves behind, compared with the table `t` it
      started from: the player's hand untouched; the dealer's hand revealed
      and extended only by cards drawn while its total was below 17; then
      either a settled comparison at 17 or more, or an empty shoe below 17. */
  predicate DealerPlayed(t: Table, r: Reply) {
    && r.table.player == t.player && r.table.retired == t.retired
    && |r.table.dealer| >= |t.dealer| && r.table.dealer[..|t.dealer|] == RevealHoleCard(t.dealer)
    && (forall k :: |t.dealer| <= k < |r.table.dealer| ==> BestTotal(r.table.dealer[..k]) < DealerStandValue)
    && (r.raised == Some(EmptyShoe) ==> BestTotal(r.table.dealer) < DealerStandValue && r.banner.None?)
    && (r.raised.None? ==>
          BestTotal(r.table.dealer) >= DealerStandValue
          && Settled(t, r, Compare(BestTotal(t.player), BestTotal(r.table.dealer))))
    && (t.currentBet >= 0.0 ==> r.raised.None? || r.raised == Some(EmptyShoe))
  }

  /** Reveals the hole card, then draws to 17. */
  method HandleDealerTurn(t: Table, rand: Source) returns (r: Reply)
    ensures DealerPlayed(t, r)
    ensures Valid(t) ==> Valid(r.table)
  {
    var shown := RevealDealer(t);
    r := DealerDrawCards(shown, rand);
  }

  /** The dealer's hand and the shoe after the dealer's draws, and the error
      that stopped them, if any. */
  datatype DealerRun = DealerRun(hand: Hand, shoe: Shoe, raised: Option<Error>)

  /** `hand` is `dealer` extended by cards taken from `shoe`, leaving `rest`,
      each drawn while the hand stood below 17. */
  ghost predicate DrawnFrom(dealer: Hand, shoe: Shoe, hand: Hand, rest: Shoe) {
    DrawnBelow(dealer, hand) && DrawnMoved(dealer, shoe, hand, rest)
  }

  /** `hand` extends `dealer`, and every card beyond it was drawn while the
      hand stood below 17. */
  predicate DrawnBelow(dealer: Hand, hand: Hand) {
    && |hand| >= |dealer| && hand[..|dealer|] == dealer
    && forall k :: |dealer| <= k < |hand| ==> BestTotal(hand[..k]) < DealerStandValue
  }

  /** The cards `hand` gained over `dealer` came out of `shoe`, leaving
      `rest`, and are face up when the shoe was. */
  ghost predicate DrawnMoved(dealer: Hand, shoe: Shoe, hand: Hand, rest: Shoe)
    requires |hand| >= |dealer|
  {
    && Pool(shoe) == Pool(rest) + multiset(hand[|dealer|..]) && rest.decks == shoe.decks
    && (FaceUp(shoe) ==> FaceUp(rest) && forall i :: |dealer| <= i < |hand| ==> !hand[i].faceDown)
  }

  /** One more draw below 17 keeps `DrawnFrom`. */
  lemma DrawOneMore(dealer: Hand, shoe: Shoe, hand: Hand, rest: Shoe, d: Drawn)
    requires DrawnFrom(dealer, shoe, hand, rest) && BestTotal(hand) < DealerStandValue
    requires Pool(rest) == Pool(d.shoe) + multiset{d.card} && d.shoe.decks == rest.decks
    requires FaceUp(rest) ==> FaceUp(d.shoe) && !d.card.faceDown
    ensures DrawnFrom(dealer, shoe, hand + [d.card], d.shoe)
  {
    DrawBelowMore(dealer, hand, d.card);
    DrawMovedMore(dealer, shoe, hand, rest, d);
  }

  lemma DrawBelowMore(dealer: Hand, hand: Hand, c: Card)
    requires DrawnBelow(dealer, hand) && BestTotal(hand) < DealerStandValue
    ensures DrawnBelow(dealer, hand + [c])
  {
    var next := hand + [c];
    assert next[..|hand|] == hand;
    assert next[..|dealer|] == hand[..|dealer|];
    forall k | |dealer| <= k < |next|
      ensures BestTotal(next[..k]) < DealerStandValue
    {
      assert next[..k] == hand[..k];
    }
  }

  lemma DrawMovedMore(dealer: Hand, shoe: Shoe, hand: Hand, rest: Shoe, d: Drawn)
    requires |hand| >= |dealer| && DrawnMoved(dealer, shoe, hand, rest)
    requires Pool(rest) == Pool(d.shoe) + multiset{d.card} && d.shoe.decks == rest.decks
    requires FaceUp(rest) ==> FaceUp(d.shoe) && !d.card.faceDown
    ensures DrawnMoved(dealer, shoe, hand + [d.card], d.shoe)
  {
    var next := hand + [d.card];
    assert next[|dealer|..] == hand[|dealer|..] + [d.card];
    if FaceUp(shoe) {
      forall i | |dealer| <= i < |next|
        ensures !next[i].faceDown
      {
        if i < |hand| {
          assert next[i] == hand[i];
        }
      }
    }
  }

  /** Draws to the dealer's hand while its best total is below 17; a soft 17
      stands. Each card raises the hard total by at least one, which bounds
      the loop. An empty shoe stops the draws. */
  method DrawToSeventeen(dealer: Hand, shoe: Shoe, rand: Source) returns (run: DealerRun)
    ensures DrawnFrom(dealer, shoe, run.hand, run.shoe)
    ensures run.raised.None? ==> BestTotal(run.hand) >= DealerStandValue
    ensures run.raised.Some? ==> run.raised == Some(EmptyShoe) && BestTotal(run.hand) < DealerStandValue
    ensures BestTotal(dealer) >= DealerStandValue ==> run == DealerRun(dealer, shoe, None)
  {
    var hand := dealer;
    var rest := shoe;
    while BestTotal(hand) < DealerStandValue
      invariant DrawnFrom(dealer, shoe, hand, rest)
      invariant BestTotal(dealer) >= DealerStandValue ==> hand == dealer && rest == shoe
      decreases DealerStandValue - HardTotal(hand)
    {
      var drawn := Draw(rest, rand);
      if drawn.Err? {
        return DealerRun(hand, rest, Some(drawn.error));
      }
      var d := drawn.value;
      AddCardRaisesHard(hand, d.card);
      DrawOneMore(dealer, shoe, hand, rest, d);
      hand := hand + [d.card];
      rest := d.shoe;
    }
    run := DealerRun(hand, rest, None);
  }

  /** Runs the dealer's draws, then compares the hands. An empty shoe stops
      the draws and raises. */
  method DealerDrawCards(t: Table, rand: Source) returns (r: Reply)
    ensures r.table.player == t.player && r.table.retired == t.retired
    ensures |r.table.dealer| >= |t.dealer| && r.table.dealer[..|t.dealer|] == t.dealer
    ensures forall k :: |t.dealer| <= k < |r.table.dealer| ==> BestTotal(r.table.dealer[..k]) < DealerStandValue
    ensures r.raised == Some(EmptyShoe) ==> BestTotal(r.table.dealer) < DealerStandValue && r.banner.None?
    ensures r.raised.None? ==>
      BestTotal(r.table.dealer) >= DealerStandValue
      && Settled(t, r, Compare(BestTotal(t.player), BestTotal(r.table.dealer)))
    ensures t.currentBet >= 0.0 ==> r.raised.None? || r.raised == Some(EmptyShoe)
    ensures Valid(t) ==> Valid(r.table)
  {
    var run := DrawToSeventeen(t.dealer, t.shoe, rand);
    var t1 := t.(dealer := run.hand, shoe := run.shoe);
    DealerKeepsConserved(t, run.hand, run.shoe);
    CardsKeepValid(t, t1);
    if run.raised.Some? {
      r := Raised(t1, run.raised.value);
    } else {
      PhaseKeepsValid(t1, ResolvingBets);
      r := CompareHands(t1.(phase := ResolvingBets));
    }
  }

  /** The dealer's draws move cards from the shoe to the dealer's hand, face
      up, so every card stays accounted for. */
  lemma DealerKeepsConserved(t: Table, dealer: Hand, shoe: Shoe)
    requires DrawnFrom(t.dealer, t.shoe, dealer, shoe)
    ensures Conserved(t) ==> Conserved(t.(dealer := dealer, shoe := shoe))
  {
    if Conserved(t) {
      DrawsAccounted(t.shoe, t.retired, t.player, t.dealer, shoe, dealer);
    }
  }

  /** The same, stated on the parts of the table the draws touch. */
  lemma DrawsAccounted(shoe: Shoe, retired: seq<Card>, player: Hand, dealer: Hand, rest: Shoe, hand: Hand)
    requires Accounted(shoe, retired, player, dealer)
    requires |hand| >= |dealer| && hand[..|dealer|] == dealer && DrawnMoved(dealer, shoe, hand, rest)
    ensures Accounted(rest, retired, player, hand)
  {
    var drawn := hand[|dealer|..];
    MovedFaceUp(dealer, shoe, hand, rest);
    assert hand == dealer + drawn;
    UncoverConcat(dealer, drawn);
    Shift(Pool(shoe), Pool(rest), multiset(RevealHoleCard(retired)), multiset(RevealHoleCard(player)),
          multiset(RevealHoleCard(dealer)), multiset(RevealHoleCard(hand)), multiset(drawn),
          multiset(Decks(shoe.decks)));
  }

  /** Cards drawn from a face-up shoe are face up, so revealing them changes
      nothing, and what is left of the shoe is face up. */
  lemma MovedFaceUp(dealer: Hand, shoe: Shoe, hand: Hand, rest: Shoe)
    requires |hand| >= |dealer| && DrawnMoved(dealer, shoe, hand, rest) && FaceUp(shoe)
    ensures FaceUp(rest) && RevealHoleCard(hand[|dealer|..]) == hand[|dealer|..]
  {
    var drawn := hand[|dealer|..];
    forall i | 0 <= i < |drawn|
      ensures !drawn[i].faceDown
    {
      assert drawn[i] == hand[|dealer| + i];
    }
    FaceUpUncovered(drawn);
  }

  /** Moving `moved` from the shoe's pool to a hand keeps the total. */
  lemma Shift<T>(pool: multiset<T>, rest: multiset<T>, retired: multiset<T>, player: multiset<T>,
                 hand: multiset<T>, grown: multiset<T>, moved: multiset<T>, total: multiset<T>)
    requires pool + retired + player + hand == total
    requires pool == rest + moved && grown == hand + moved
    ensures rest + retired + player + grown == total
  {
  }

  /** A hand with no face-down card is its own reveal. */
  lemma FaceUpUncovered(h: Hand)
    requires forall i :: 0 <= i < |h| ==> !h[i].faceDown
    ensures RevealHoleCard(h) == h
  {
    var r := RevealHoleCard(h);
    forall i | 0 <= i < |h|
      ensures r[i] == h[i]
    {
    }
  }
}
