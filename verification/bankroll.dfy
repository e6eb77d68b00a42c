/** The player's bankroll: guarded debits and credits, and the win/loss/push
    statistics. Money is exact (`real`); every amount the game produces is a
    multiple of one half. */
module Bankroll {
  import opened Results

  const DefaultBalance: real := 1000.0

  datatype Ledger = Ledger(
    balance: real,
    initialBalance: real,
    totalBetsPlaced: real,
    totalWinnings: real,
    totalLosses: real,
    handsPlayed: nat,
    handsWon: nat,
    handsLost: nat,
    handsPushed: nat)

  /** A fresh ledger: the balance is the initial balance, every counter 0. */
  function NewLedger(initial: real): (l: Ledger)
    ensures l.balance == l.initialBalance == initial
    ensures Zeroed(l)
  {
    Ledger(initial, initial, 0.0, 0.0, 0.0, 0, 0, 0, 0)
  }

  /** A ledger with every counter zero has recorded no hand at all, so it is
      trivially tallied. */
  lemma ZeroedIsTallied(l: Ledger)
    ensures Zeroed(l) ==> Tallied(l)
  {
  }

  /** All seven counters are zero. */
  predicate Zeroed(l: Ledger) {
    && l.totalBetsPlaced == 0.0 && l.totalWinnings == 0.0 && l.totalLosses == 0.0
    && l.handsPlayed == 0 && l.handsWon == 0 && l.handsLost == 0 && l.handsPushed == 0
  }

  /** Every hand played was recorded as exactly one of won, lost, pushed. */
  predicate Tallied(l: Ledger) {
    l.handsPlayed == l.handsWon + l.handsLost + l.handsPushed
  }

  /** The hand counters and money totals other than the balance agree. */
  predicate SameStats(a: Ledger, b: Ledger) {
    && a.initialBalance == b.initialBalance
    && a.totalWinnings == b.totalWinnings && a.totalLosses == b.totalLosses
    && a.handsPlayed == b.handsPlayed && a.handsWon == b.handsWon
    && a.handsLost == b.handsLost && a.handsPushed == b.handsPushed
  }

  /** Debits a bet. Refuses a non-positive amount or one above the balance. */
  function PlaceBet(l: Ledger, amount: real): (r: Result<Ledger>)
    ensures r.Ok? <==> 0.0 < amount <= l.balance
    ensures amount <= 0.0 ==> r == Err(InvalidAmount)
    ensures amount > 0.0 && amount > l.balance ==> r == Err(InsufficientFunds)
    ensures r.Ok? ==> r.value.balance == l.balance - amount && r.value.balance >= 0.0
    ensures r.Ok? ==> r.value.balance + r.value.totalBetsPlaced == l.balance + l.totalBetsPlaced
    ensures r.Ok? ==> SameStats(r.value, l)
  {
    if amount <= 0.0 then Err(InvalidAmount)
    else if amount > l.balance then Err(InsufficientFunds)
    else Ok(l.(balance := l.balance - amount, totalBetsPlaced := l.totalBetsPlaced + amount))
  }

  /** Credits a payout. Refuses a negative amount; zero is allowed. */
  function AddToBankroll(l: Ledger, amount: real): (r: Result<Ledger>)
    ensures r.Ok? <==> amount >= 0.0
    ensures r.Err? ==> r.error == InvalidAmount
    ensures r.Ok? ==> r.value.balance == l.balance + amount && r.value.balance >= l.balance
    ensures r.Ok? ==> SameStats(r.value, l) && r.value.totalBetsPlaced == l.totalBetsPlaced
  {
    if amount < 0.0 then Err(InvalidAmount) else Ok(l.(balance := l.balance + amount))
  }

  function RecordWin(l: Ledger, amount: real): (r: Ledger)
    ensures r.handsPlayed == l.handsPlayed + 1 && r.handsWon == l.handsWon + 1
    ensures r.handsLost == l.handsLost && r.handsPushed == l.handsPushed
    ensures r.totalWinnings == l.totalWinnings + amount && r.totalLosses == l.totalLosses
    ensures r.balance == l.balance && r.initialBalance == l.initialBalance
    ensures Tallied(l) ==> Tallied(r)
  {
    l.(totalWinnings := l.totalWinnings + amount, handsWon := l.handsWon + 1, handsPlayed := l.handsPlayed + 1)
  }

  function RecordLoss(l: Ledger, amount: real): (r: Ledger)
    ensures r.handsPlayed == l.handsPlayed + 1 && r.handsLost == l.handsLost + 1
    ensures r.handsWon == l.handsWon && r.handsPushed == l.handsPushed
    ensures r.totalLosses == l.totalLosses + amount && r.totalWinnings == l.totalWinnings
    ensures r.balance == l.balance && r.initialBalance == l.initialBalance
    ensures Tallied(l) ==> Tallied(r)
  {
    l.(totalLosses := l.totalLosses + amount, handsLost := l.handsLost + 1, handsPlayed := l.handsPlayed + 1)
  }

  function RecordPush(l: Ledger): (r: Ledger)
    ensures r.handsPlayed == l.handsPlayed + 1 && r.handsPushed == l.handsPushed + 1
    ensures r.handsWon == l.handsWon && r.handsLost == l.handsLost
    ensures r.totalWinnings == l.totalWinnings && r.totalLosses == l.totalLosses
    ensures r.balance == l.balance && r.initialBalance == l.initialBalance
    ensures Tallied(l) ==> Tallied(r)
  {
    l.(handsPushed := l.handsPushed + 1, handsPlayed := l.handsPlayed + 1)
  }

  function NetProfit(l: Ledger): real {
    l.balance - l.initialBalance
  }

  /** Restores the given balance, or the initial balance when none is given,
      and zeroes every counter. The initial balance itself is kept. */
  function Reset(l: Ledger, newBalance: Option<real>): (r: Ledger)
    ensures r.balance == (if newBalance.Some? then newBalance.value else l.initialBalance)
    ensures r.initialBalance == l.initialBalance
    ensures Zeroed(r)
    ensures newBalance.None? ==> NetProfit(r) == 0.0
  {
    Ledger(if newBalance.Some? then newBalance.value else l.initialBalance, l.initialBalance,
           0.0, 0.0, 0.0, 0, 0, 0, 0)
  }

  predicate CanAffordBet(l: Ledger, amount: real) {
    l.balance >= amount
  }

  predicate IsBroke(l: Ledger) {
    l.balance <= 0.0
  }

  /** Deposits money. Refuses a non-positive amount. A deposit is not profit:
      the initial balance rises with the balance. */
  function AddFunds(l: Ledger, amount: real): (r: Result<Ledger>)
    ensures r.Ok? <==> amount > 0.0
    ensures r.Err? ==> r.error == InvalidAmount
    ensures r.Ok? ==> r.value.balance == l.balance + amount
    ensures r.Ok? ==> NetProfit(r.value) == NetProfit(l)
    ensures r.Ok? ==> r.value.totalBetsPlaced == l.totalBetsPlaced && r.value.handsPlayed == l.handsPlayed
  {
    if amount <= 0.0 then Err(InvalidAmount)
    else Ok(l.(balance := l.balance + amount, initialBalance := l.initialBalance + amount))
  }

  /** A bet that is placed and then paid back in full leaves the balance as
      it was; only the bets-placed total remembers it. */
  lemma BetThenRefund(l: Ledger, amount: real)
    requires PlaceBet(l, amount).Ok?
    ensures AddToBankroll(PlaceBet(l, amount).value, amount).Ok?
    ensures AddToBankroll(PlaceBet(l, amount).value, amount).value.balance == l.balance
    ensures AddToBankroll(PlaceBet(l, amount).value, amount).value == l.(totalBetsPlaced := l.totalBetsPlaced + amount)
  {
  }

  /** No successful debit or credit takes a non-negative balance below zero. */
  lemma BalanceStaysNonNegative(l: Ledger, amount: real)
    requires l.balance >= 0.0
    ensures PlaceBet(l, amount).Ok? ==> PlaceBet(l, amount).value.balance >= 0.0
    ensures AddToBankroll(l, amount).Ok? ==> AddToBankroll(l, amount).value.balance >= 0.0
    ensures AddFunds(l, amount).Ok? ==> AddFunds(l, amount).value.balance >= 0.0
  {
  }

  /** A refused debit can be retried only with a different amount or after a
      credit: it is refused exactly when the amount is not affordable or not
      positive. */
  lemma RefusedBetIsUnaffordable(l: Ledger, amount: real)
    ensures PlaceBet(l, amount).Err? <==> amount <= 0.0 || !CanAffordBet(l, amount)
  {
  }
}
