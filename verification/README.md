# Blackjack engine, modelled in Dafny

This project models the game engine of a single-player browser Blackjack
game and proves properties of it. The engine has five parts:

- **Cards.** The rank values, the face-down flag, the 52-card deck and the Fisher–Yates shuffle.
- **Hand evaluator.** Soft-Ace totals, the bust, blackjack, soft and pair predicates, the face-up total, the hole-card reveal, and the registry of hands that `splitHand` works on.
- **Shoe.** A six-deck shoe. Cards are drawn from its end. When the fraction of cards left reaches the threshold, the shoe reshuffles at draw time, merging the discard pile back in.
- **Bankroll ledger.** Guarded debits and credits, plus the win, loss and push statistics.
- **Round state machine.** Betting within the table limits of 1 to 1000, the four-card deal, the insurance offer, the immediate-blackjack check, hit, stand and double, the dealer's draw to 17, the comparison, the payout table and the round reset.

A thin page layer sits on top: the deal button, the new-game reset, and a whole session of button presses.

Modules, one file each:

| module | file | models |
|---|---|---|
| `Random` | random.dfy | the stream of `Math.random` results, as a parameter |
| `Results` | results.dfy | the thrown errors, `Option`, `Result` |
| `Cards` | cards.dfy | `CardDesign/deckGeneration.js` |
| `Hands` | hands.dfy | `GameState/handManager.js` |
| `Shoes` | shoes.dfy | `GameState/deckManager.js` |
| `Bankroll` | bankroll.dfy | `GameState/bankrollManager.js` |
| `Rounds` | rounds.dfy | the data of `GameState/gameStateManager.js`: phases, the table record, its invariant, and the pure rules |
| `Play` | play.dfy | the transitions of `GameState/gameStateManager.js` |
| `Session` | session.dfy | the engine-facing parts of `GameState/game.js` |

Modelling choices:

- **Money is `real`.** Every amount the game produces is a multiple of one half: whole chips, insurance at half the bet, blackjack at one and a half bets. Exact rationals therefore agree with the JavaScript numbers.
- **Randomness is a parameter.** `Random.Source` gives the k-th `Math.random` result. The shoe carries a cursor counting how many results it has consumed, so shuffles are deterministic functions of their inputs.
- **Thrown errors are values.** Every transition returns a `Reply`: the table as it stood when the call returned or threw, the error thrown, if any, and the outcome banner shown, if any.
  - A throw keeps the changes made before it, as the JavaScript does.
  - `Reply` and `Result` support Dafny's `:-`, so a chain of steps stops at the first throw.
- **Retired hands stay in the registry.** The hand registry keeps every hand it ever created, and no state-machine step discards a card. The table therefore keeps the cards of earlier rounds in `retired`. The invariant `Rounds.Valid` says:
  - shoe + discard pile + every card held in a hand = exactly the decks the shoe was built from, compared by suit and rank;
  - the shoe holds only face-up cards;
  - no amount of money is negative;
  - every hand played was counted once as won, lost or pushed.
  Every transition preserves `Valid`, and `Session.Run` proves it for any sequence of button presses.
- **Delays are plain sequencing.** The `async` dealer turn, its delays and the payout banner's timer become sequential steps. After a payout the round-complete step follows at once.

## Model

| member | source | states |
|---|---|---|
| Random.ScaleBelow | CardDesign/deckGeneration.js:79 | a random number in [0, 1) scaled by a positive bound stays in [0, bound) |
| Random.Pick | CardDesign/deckGeneration.js:79 | the index chosen from one random number is below the bound, so the swap partner is always in range |
| Cards.NewCard | CardDesign/deckGeneration.js:13-17 | a new card has the given suit and rank and is face up |
| Cards.Value | CardDesign/deckGeneration.js:19-39 | the value is 11 exactly for an Ace, 10 exactly for the ten-valued ranks, and the pip count for numerals, so it lies in [2, 11] |
| Cards.Flip | CardDesign/deckGeneration.js:41-44 | flipping inverts the face-down flag and keeps suit and rank |
| Cards.Reveal | CardDesign/deckGeneration.js:46-49 | a revealed card is face up, with suit and rank kept |
| Cards.Hide | CardDesign/deckGeneration.js:51-54 | a hidden card is face down, with suit and rank kept |
| Cards.FlipTwice | CardDesign/deckGeneration.js:41-44 | flipping twice is the identity |
| Cards.RevealForgetsHide | CardDesign/deckGeneration.js:41-54 | after a reveal, a card is the same whether it was hidden or flipped before, and a face-up card is its own reveal |
| Cards.MakeDeck | CardDesign/deckGeneration.js:62-73 | a deck has 52 cards |
| Cards.DeckComplete | CardDesign/deckGeneration.js:62-73 | every (suit, rank) pair occurs exactly once in a deck, face up |
| Cards.Swap | CardDesign/deckGeneration.js:80 | a swap exchanges the two positions, keeps every other one, and keeps the multiset |
| Cards.ShuffleFrom | CardDesign/deckGeneration.js:77-81 | the remaining Fisher–Yates passes keep length and multiset and consume one random number each |
| Cards.Shuffle | CardDesign/deckGeneration.js:75-83 | a shuffle is a permutation of its input: same length, same multiset |
| Cards.ShuffleKeepsMembers | CardDesign/deckGeneration.js:75-83 | a card is in the shuffled deck exactly when it was in the input |
| Hands.HardPoints | GameState/handManager.js:26-32 | with Aces counted as 1, every card counts 1 to 10, and 1 exactly for an Ace |
| Hands.HardTotal | GameState/handManager.js:22-33 | the first pass counts at least one point per card |
| Hands.AceCount | GameState/handManager.js:23-33 | there are no more Aces than cards |
| Hands.Promote | GameState/handManager.js:35-39 | the promotion loop adds 10 at most once: exactly when an Ace is left and 10 more stays within 21 |
| Hands.BestTotal | GameState/handManager.js:18-42 | the best total is the hard total or the hard total + 10, and + 10 exactly when there is an Ace and the hard total + 10 ≤ 21 |
| Hands.CountAsSplits | GameState/handManager.js:18-42 | counting chosen Aces as 11 adds 10 per chosen Ace to the hard total |
| Hands.Choose | GameState/handManager.js:18-42 | for any k up to the number of Aces, some choice counts exactly k Aces as 11 |
| Hands.NoChoiceBeatsBest | GameState/handManager.js:18-42 | no choice of Ace values gives a total ≤ 21 above the best total, and when the best total busts every choice does |
| Hands.BestTotalIsOptimal | GameState/handManager.js:18-42 | the best total is reachable by some choice of Ace values; it is the largest reachable total ≤ 21, or the all-ones total when none exists |
| Hands.BlackjackShape | GameState/handManager.js:48-57 | a blackjack is exactly two cards, one an Ace and the other ten-valued |
| Hands.BlackjackIs21 | GameState/handManager.js:48-57 | a blackjack totals 21, hard 11 with one Ace |
| Hands.SoftMeansPromoted | GameState/handManager.js:59-79 | a soft hand's best total is the hard total + 10 and within 21; a hand that is not soft totals its hard total |
| Hands.RevealHoleCard | GameState/handManager.js:94-101 | after the reveal no card is face down, and the length, suits and ranks are unchanged |
| Hands.RevealKeepsTotals | GameState/handManager.js:94-101 | the reveal changes neither the hard total, nor the Ace count, nor the best total |
| Hands.AddCardRaisesHard | GameState/handManager.js:6-8 | adding a card raises the hard total by its points and the Ace count by one exactly for an Ace |
| Hands.FaceUpCards | GameState/handManager.js:108-109 | the face-up cards are cards of the hand, and all of it when nothing is face down |
| Hands.VisibleHard | GameState/handManager.js:105-117 | the visible first pass is the hard total of the face-up cards |
| Hands.VisibleAces | GameState/handManager.js:105-117 | the visible Ace count is the Ace count of the face-up cards |
| Hands.VisibleTotal | GameState/handManager.js:103-126 | the visible total is the best total of the face-up cards, and the best total when nothing is face down |
| Hands.CreateHand | GameState/handManager.js:139-143 | a new empty hand is appended and every earlier hand is kept |
| Hands.IndexOf | GameState/handManager.js:146 | the index found is -1 exactly for an unregistered hand; otherwise it holds that hand and no earlier position does |
| Hands.RemoveHand | GameState/handManager.js:145-150 | removing a registered hand shortens the registry by one and takes exactly one copy of that hand out of its multiset; an unregistered hand changes nothing |
| Hands.RemoveKeepsOrder | GameState/handManager.js:145-150 | the removal splices out the first position holding the hand and keeps the others in order |
| Hands.SplitRegistry | GameState/handManager.js:170-177 | two creates and a remove exchange a registered original hand for the two new ones; an unregistered original only adds them |
| Hands.SplitHand | GameState/handManager.js:160-183 | the split fails exactly for a hand that is not a pair; otherwise it yields the original's first and second card as one-card hands and exchanges the original for them in the registry |
| Shoes.Decks | GameState/deckManager.js:16-19 | n decks hold 52·n cards |
| Shoes.DecksComposition | GameState/deckManager.js:16-36 | n decks hold every (suit, rank) pair exactly n times, all face up |
| Shoes.ShuffleShoe | GameState/deckManager.js:38-48 | the shoe shuffle keeps length, multiset and discard pile |
| Shoes.InitializeShoe | GameState/deckManager.js:11-23 | a refill empties the discard pile and leaves 52·n cards with every (suit, rank) pair n times, face up |
| Shoes.NewShoe | GameState/deckManager.js:2-9 | a new shoe has the given number of decks, the 25% threshold and a full face-up shoe |
| Shoes.NeedsReshuffleCount | GameState/deckManager.js:65-71 | the fraction test equals the card-count test `cards ≤ threshold · 52 · decks`, and never holds with no decks |
| Shoes.OneDeckReshufflesAt13 | GameState/deckManager.js:65-71 | with one deck at 25%, a reshuffle is due exactly when at most 13 cards remain |
| Shoes.ReshuffleShoe | GameState/deckManager.js:73-80 | the reshuffle keeps shoe + discard as a multiset and empties the discard pile |
| Shoes.Draw | GameState/deckManager.js:50-63 | a draw fails with an empty shoe exactly when no card is left after the reshuffle; otherwise it takes the last card of the shoe, or of the reshuffled shoe when a reshuffle is due, and leaves the rest; one card leaves the pool, and a face-up pool stays face up |
| Shoes.Pop | GameState/deckManager.js:61 | popping takes the last card, leaves the shoe without it, moves exactly that card out of the pool, and keeps a face-up pool face up |
| Shoes.PopLast | GameState/deckManager.js:61 | popping the last card moves exactly that card out of the pool |
| Shoes.DiscardCard | GameState/deckManager.js:82-85 | a discard appends the card to the pile and leaves the shoe unchanged |
| Shoes.DiscardHand | GameState/deckManager.js:87-92 | discarding a hand appends its cards in order and leaves the shoe unchanged |
| Shoes.SetReshuffleThreshold | GameState/deckManager.js:106-112 | the threshold is refused exactly outside [0, 1], and otherwise stored with the cards untouched |
| Shoes.AccountsKept | GameState/deckManager.js:11-85 | shoe + discard + cards given out = the decks built: true after a refill, and kept by draw, discard and reshuffle |
| Shoes.DrawAccounts | GameState/deckManager.js:50-63 | a successful draw moves exactly the drawn card from the pool to the cards given out, so the decks stay accounted for |
| Shoes.DiscardAccounts | GameState/deckManager.js:82-85 | discarding a card that was given out moves it back into the pool, so the decks stay accounted for |
| Bankroll.NewLedger | GameState/bankrollManager.js:2-12 | a new ledger's balance is its initial balance, with every counter zero |
| Bankroll.ZeroedIsTallied | GameState/bankrollManager.js:5-11 | a ledger with zero counters counts every hand played once |
| Bankroll.PlaceBet | GameState/bankrollManager.js:18-31 | a debit is refused exactly for a non-positive or unaffordable amount, with the right error; otherwise the balance drops and the bets-placed total rises by the amount |
| Bankroll.AddToBankroll | GameState/bankrollManager.js:33-40 | a credit is refused exactly for a negative amount; otherwise the balance rises by exactly the amount |
| Bankroll.RecordWin | GameState/bankrollManager.js:42-46 | one more hand played and won, winnings up by the amount, balance unchanged, tally kept |
| Bankroll.RecordLoss | GameState/bankrollManager.js:48-52 | one more hand played and lost, losses up by the amount, balance unchanged, tally kept |
| Bankroll.RecordPush | GameState/bankrollManager.js:54-57 | one more hand played and pushed, money unchanged, tally kept |
| Bankroll.Reset | GameState/bankrollManager.js:86-96 | the balance becomes the given value or the initial balance, and all seven counters are zero |
| Bankroll.AddFunds | GameState/bankrollManager.js:106-114 | a deposit is refused exactly for a non-positive amount; otherwise it raises the balance and keeps the net profit |
| Bankroll.BetThenRefund | GameState/bankrollManager.js:18-40 | a debit followed by a credit of the same amount restores the balance |
| Bankroll.BalanceStaysNonNegative | GameState/bankrollManager.js:18-40 | no successful debit, credit or deposit takes a non-negative balance below zero |
| Bankroll.RefusedBetIsUnaffordable | GameState/bankrollManager.js:18-31 | a debit is refused exactly when the amount is not positive or not affordable |
| Rounds.NewTable | GameState/game.js:2-4 | the start-up shoe has six decks, the 25% threshold and no discards |
| Rounds.OpenTable | GameState/gameStateManager.js:15-28 | a new table waits for a bet with no hands, a fresh 1000 ledger and no money on the table |
| Rounds.OpenTableValid | GameState/gameStateManager.js:15-28 | a table opened around a full face-up shoe keeps the invariant |
| Rounds.NewTableValid | GameState/game.js:1-4 | the start-up table keeps the invariant |
| Rounds.NothingHeld | GameState/gameStateManager.js:15-28 | a table with no hands, a full shoe, no negative money and zero counters is valid |
| Rounds.DealerBlackjackShows | GameState/gameStateManager.js:269-273 | a dealer blackjack always shows an Ace or ten-valued up-card, so the peek never misses one |
| Rounds.Compare | GameState/gameStateManager.js:443-465 | win exactly when the dealer busts or the player is higher; push exactly on equal totals with no dealer bust; loss exactly when the dealer is higher without busting |
| Rounds.Credited | GameState/gameStateManager.js:478-533 | the credit is 2.5 bets for blackjack, 2 for a win, 1 for a push and 0 for bust and loss |
| Rounds.NetGain | GameState/gameStateManager.js:480-531 | counted against the stake, the player gains 1.5 bets, 1 bet, nothing, or loses the stake |
| Rounds.AvailableActions | GameState/gameStateManager.js:296-311 | hit and stand exactly when not busted; double exactly with two cards, an affordable bet and no bust; split exactly for an affordable pair, which is never busted |
| Rounds.TwoCardsNeverBust | GameState/handManager.js:44-46 | no two-card hand is busted |
| Play.Retire | GameState/gameStateManager.js:120-122 | new empty hands; the old ones stay registered and every card stays accounted for |
| Play.GiveKeepsConserved | GameState/gameStateManager.js:124-132 | handing out a drawn card, face down or not, keeps every card accounted for |
| Play.DealPlayer | GameState/gameStateManager.js:124-125 | the player gains exactly one card, face up, unless the shoe is exhausted, which raises and changes nothing; without a reshuffle the card is the shoe's last; the invariant is kept |
| Play.DealDealer | GameState/gameStateManager.js:127-132 | the dealer gains exactly one card, face down exactly when asked, unless the shoe is exhausted; without a reshuffle the card is the shoe's last; the invariant is kept |
| Play.RevealDealer | GameState/gameStateManager.js:405-409 | the dealer's cards are all face up and its totals and blackjack flag are unchanged |
| Play.Debit | GameState/gameStateManager.js:367-371 | the table's debit fails exactly when the ledger refuses it, and then changes nothing; the invariant is kept |
| Play.Credit | GameState/gameStateManager.js:478-512 | the table's credit fails exactly for a negative amount; otherwise the balance rises by it |
| Play.HandleBetting | GameState/gameStateManager.js:32-54 | a bet is refused exactly below 1, above 1000 or above the balance, with the matching error and nothing changed; otherwise the balance drops by the bet and the current bet is set |
| Play.HandleRoundComplete | GameState/gameStateManager.js:549-578 | the last bet becomes the current bet, the round's money is cleared, and betting reopens only with a positive balance |
| Play.Record | GameState/gameStateManager.js:489-531 | exactly one hand is recorded under the right counter, and the net winnings move by the player's net gain |
| Play.HandlePayout | GameState/gameStateManager.js:467-547 | the payout credits the table amount for the outcome, records exactly one hand, shows the banner and completes the round; it fails only on a negative bet with a credit due |
| Play.PayAndComplete | GameState/gameStateManager.js:478-547 | for blackjack, win or push the credit fails exactly on a negative bet; otherwise the round settles with the table amount credited and the hand recorded |
| Play.Complete | GameState/gameStateManager.js:478-547 | after the credit, the payout records the hand under the outcome's counter, shows the banner, remembers the bet, clears the round's money and leaves the cards alone |
| Play.CompareHands | GameState/gameStateManager.js:443-465 | the round settles with the outcome the comparison of best totals gives |
| Play.ResolveInsurance | GameState/gameStateManager.js:275-289 | three insurance bets are credited exactly when the dealer has blackjack, and the insurance fields are cleared |
| Play.SettleInsurance | GameState/gameStateManager.js:199-202 | without insurance nothing changes; with it the balance rises by three insurance bets exactly when the dealer has blackjack, the insurance is cleared, and nothing else about the round changes; only a negative insurance bet due a credit raises |
| Play.HandleCheckingBlackjackChecks | GameState/gameStateManager.js:188-255 | the blackjack check, on a table without negative money, either begins the player's turn with the money untouched when nobody has blackjack, or settles the round with the outcome the two blackjack flags decide |
| Play.CheckedAlike | GameState/gameStateManager.js:188-255 | whether a reply meets the blackjack check's specification depends only on the player's hand, the dealer's blackjack status and up-card, the money and the insurance fields |
| Play.HandleCheckingBlackjack | GameState/gameStateManager.js:188-255 | both blackjacks push, the player's alone pays 3:2, the dealer's alone loses, neither starts the player's turn with the money untouched; the hole card is turned up exactly when the peek happens and a blackjack ends the round |
| Play.PlayerBlackjack | GameState/gameStateManager.js:194-225 | with a player blackjack the round settles as a push or a 3:2 win |
| Play.DealerPeek | GameState/gameStateManager.js:227-254 | without a player blackjack, a dealer blackjack ends the round as a loss and otherwise the player's turn begins |
| Play.HandleInsuranceOffer | GameState/gameStateManager.js:153-166 | the offer stays open when the balance covers half the bet; otherwise the blackjack check runs uninsured |
| Play.Insure | GameState/gameStateManager.js:174-180 | taking insurance fails exactly when half the bet cannot be debited, leaving the insurance amount set |
| Play.InsuredBalance | GameState/gameStateManager.js:174-180 | insured, the balance pays half the bet and gets three halves back on a dealer blackjack, on top of what the round pays |
| Play.OnInsuranceDecision | GameState/gameStateManager.js:168-185 | ignored unless an offer is open; either answer closes it and the round goes to the player's turn exactly when nobody has blackjack |
| Play.InsuranceEvenMoney | GameState/gameStateManager.js:168-289 | insuring against a dealer blackjack gives back both stakes: the balance rises by exactly the bet |
| Play.DeclinedInsuranceLosesBet | GameState/gameStateManager.js:227-243 | declining against a dealer blackjack loses the bet and nothing more |
| Play.RevealKeepsBlackjack | GameState/handManager.js:94-101 | the reveal does not change whether a hand is a blackjack |
| Shoes.ReshuffleMonotone | GameState/deckManager.js:65-71 | a shoe with more cards than one that needs no reshuffle needs none either |
| Shoes.NoReshuffleInDeal | GameState/deckManager.js:50-71 | a shoe that needs no reshuffle with three cards fewer needs none at any of the deal's four draws |
| Play.DealPair | GameState/gameStateManager.js:124-129 | one card to the player, then one to the dealer: without a reshuffle they are the shoe's last and second-to-last cards |
| Play.DealtFromEndShape | GameState/gameStateManager.js:124-132 | four cards taken one at a time from the end of the shoe land in the deal order |
| Play.Deal | GameState/gameStateManager.js:118-132 | two cards each, only the dealer's second face down, money untouched, every card accounted for; when no reshuffle falls inside the deal the player holds the shoe's last and third-to-last cards and the dealer the second-to-last and, face down, the fourth-to-last, with the rest of the shoe left |
| Play.HandleDealing | GameState/gameStateManager.js:118-150 | after the deal the offer opens exactly when the up-card is an Ace and the balance covers half the bet, with the money untouched; otherwise a blackjack settles the round with the outcome the two blackjack flags decide, insurance kept only without an Ace up, and without one the player's turn begins |
| Play.OfferInsuranceAfterDeal | GameState/gameStateManager.js:142-145 | with an Ace up, the offer opens when the balance covers half the bet; otherwise the check runs with the insurance cleared and settles a blackjack or begins the player's turn |
| Play.CheckBlackjackAfterDeal | GameState/gameStateManager.js:146-148 | without an Ace up, the check settles a blackjack at once with the outcome the two flags decide, or begins the player's turn, with the hands as dealt |
| Play.OnDealButtonClick | GameState/gameStateManager.js:103-150 | nothing happens unless the table waits for a bet and a bet was placed; otherwise the old hands are retired and, unless the shoe runs out, two cards each are dealt and the insurance offer opens exactly for an Ace up-card with half the bet affordable |
| Play.RepeatLastBet | GameState/gameStateManager.js:56-81 | quietly nothing when the repeat is not available; a remembered bet outside the limits raises; otherwise it is placed again and two cards each are dealt, with the insurance offer open exactly for an Ace up-card when the balance left covers half the bet |
| Play.OnPlayerAction | GameState/gameStateManager.js:313-333 | ignored outside the player's turn; split changes nothing |
| Play.HandleHit | GameState/gameStateManager.js:335-358 | one more card: over 21 busts with the dealer's hand untouched, exactly 21 hands over to the dealer, who plays out the round, below 21 keeps the turn |
| Play.HandleStand | GameState/gameStateManager.js:360-365 | standing hands over to the dealer |
| Play.HandleDouble | GameState/gameStateManager.js:367-395 | a refused debit changes nothing; otherwise the bet is doubled, exactly one card is drawn, and the round busts with the dealer's hand untouched or the dealer plays; a round that settles remembers twice the original bet |
| Play.DrawDoubled | GameState/gameStateManager.js:374-394 | the doubled hand gets exactly one card; over 21 settles as a bust with the dealer's hand untouched, otherwise the dealer plays against it; an empty shoe changes nothing |
| Play.HandleDealerTurn | GameState/gameStateManager.js:405-416 | the hole card is turned up, the dealer draws below 17 only, and the round settles by comparison |
| Play.DrawOneMore | GameState/gameStateManager.js:426-436 | one more draw below 17 keeps the drawn cards accounted for and face up |
| Play.DrawToSeventeen | GameState/gameStateManager.js:418-436 | the loop ends; every card was drawn below 17 and none at 17 or more, soft 17 included; it ends at 17 or more unless the shoe runs out |
| Play.DealerDrawCards | GameState/gameStateManager.js:418-440 | the dealer's draws are followed by the comparison and the payout |
| Play.DealerKeepsConserved | GameState/gameStateManager.js:430-431 | the dealer's draws keep every card accounted for |
| Session.PressDeal | GameState/game.js:65-78 | no chips shows a message only; a refused bet raises before the deal; otherwise, when betting is open, the bet is placed and two cards each are dealt, with the insurance offer open exactly for an Ace up-card when the balance left covers half the bet |
| Session.ResetGame | GameState/game.js:124-137 | a fresh full shoe, no hands, the bankroll at its initial balance with zero counters, and betting open |
| Session.ResetGameValid | GameState/game.js:124-137 | a reset yields a valid table from any table without negative money |
| Session.ResetGameSettles | GameState/game.js:124-137 | a second reset changes no money, and the net profit after a reset is zero |
| Session.RepeatButtonOverLimit | GameState/gameStateManager.js:83-101 | the repeat button as written is enabled for a remembered bet of 1200, which the table then refuses |
| Session.DoubledBetIsRemembered | GameState/gameStateManager.js:549-553 | a lost round remembers the bet exactly as it stood at the payout, with no adjustment for a double; the doubling itself is stated by `Play.HandleDouble` |
| Session.RepeatWithinLimitsSucceeds | GameState/gameStateManager.js:83-101 | with the limits consulted, the button is enabled exactly when placing the remembered bet succeeds |
| Session.PressRepeatWithinLimits | GameState/gameStateManager.js:56-101 | the repeat button gated by the limits as well: nothing happens unless it is available, and it never raises a table-limit error |
| Session.Step | GameState/game.js:65-121 | the action and insurance inputs are ignored outside their phases and a zero-chip deal press does nothing; a new game resets; the repeat button does nothing when unavailable and, as written, raises the table maximum for a remembered bet above 1000; the invariant is kept |
| Session.Start | GameState/game.js:1-4 | the page opens on a valid table waiting for a bet with 1000 and six decks |
| Session.Run | GameState/game.js:1-143 | after any sequence of button presses every card is accounted for, no money is negative, and every hand played is counted once |

## Left out

- Presentation. The UI manager, card rendering, messages, overlays and the `toFixed` formatting are left out. Every UI call is an ignored effect.
- Pacing. The `delay`, `setTimeout` and `async`/`await` pacing are left out. The dealer turn and the payout's round-complete step run as plain sequential steps.
- Randomness. `Math.random` becomes the `Random.Source` parameter. `Random.Pick` floors the exact product `u·(i+1)`. JavaScript floors the product rounded to a double, which for some `u` is one higher: with `i + 1 = 7` and `u = 2573485501354569·2⁻⁵²`, just below 4/7, the rounded product is 4.0 and the exact one just below 4. Every index in range is reached by some `u`, so the set of possible shuffles is the same.
- `getWinRate` and `getStatistics` are left out. They only compute a floating-point percentage and a report object. `getBalance`, `getCardCount`, `getCardsRemaining`, `getTotalCards` and `getPercentageRemaining` are plain field reads.
- `toString` of cards and hands, and the `DOMContentLoaded` listener of the deck file, are left out. That listener refers to a function that does not exist.
- Page wiring. The chip buttons only add up the amount the deal button passes, and `Session.Input.DealButton` takes that amount directly. The `confirm` dialog is assumed answered yes.
- Hand identity. Hands are compared by value, not by object identity. `Hands.IndexOf` finds the first equal hand. Removing it leaves the same multiset of hands as removing the identical object would.
- Hand objects after a reset. `resetGame` empties the hand registry but leaves the state machine's two hand references pointing at the old hands. The model empties both. Nothing reads those hands before the next deal replaces them.
- Dealer up-card on an empty hand. `Rounds.DealerShowsBlackjackPossibility` answers false for an empty dealer hand, where the JavaScript would fail. Only a table that was never dealt has one.
- Split. `handleSplit` is a placeholder that shows a message, and `Play.OnPlayerAction` treats split as a no-op. One could expect an unimplemented action to raise an error; the code changes nothing, and the model follows the code.
- Partial mutation. One could expect a failed operation to leave the state untouched. The code does mutate before some throws, and the model follows the code:
  - a double whose draw finds an empty shoe keeps the doubled bet;
  - taking insurance records the insurance amount before the debit that may refuse it.
- Game over. `GAME_OVER` is declared but never entered. With the balance gone the table stays in `RoundComplete`, the state the source enters without declaring it.
- Deal button outside betting. The page disables the deal button and the chips from the deal on, and enables them again only when betting reopens (`UIManager/uiManager.js:182-197` and `UIManager/uiManager.js:239-250`). Neither the deal-button handler nor `handleBetting` checks the phase itself. The model accepts a deal press in any phase, so `Session.Run` covers more press sequences than the page allows.
- Rounds.NewTable: states only the shoe's shape. Validity of the start-up table is the separate lemma `Rounds.NewTableValid`.
- Play.HandleDealing: the next phase and the settlement are stated only for a table without negative money. A negative bet cannot arise from the betting steps.
- Play.Deal: the card order is pinned only for a deal with no reshuffle inside it. After a mid-deal reshuffle the next card comes from the freshly shuffled shoe, and only its count and face are stated.
- Unwired buttons. `game.js` wires neither the repeat-bet button nor the insurance answers; `UIManager/uiManager.js:226` leaves the insurance buttons to be wired in `game.js`. `Session.Input.RepeatBet` and `Session.Input.InsuranceAnswer` stand for those buttons as `gameStateManager.js` would receive them.
- Play.CompareHands: failure is excluded only for a non-negative bet, which every reachable table has.
- Play.HandleInsuranceOffer: the outcome is stated only for a table without negative money.
- Play.OnInsuranceDecision: the outcome is stated only when the insurance, if taken, is affordable. Otherwise it raises, as `Play.Insure` states.
- Play.DealerDrawCards: the error is pinned to an empty shoe only for a non-negative bet.
- Random.Pick: the index is the floor of the exact product, not of the double-rounded product, which can be one higher (see Randomness above).
- Session.Run: states the invariant only. No per-round outcome is traced across a whole session.

## Findings

| source | as written | input that shows it | evidently intended | confidence | as-written member | corrected member |
|---|---|---|---|---|---|---|
| GameState/gameStateManager.js:83-101 | `canRepeatBet` enables the repeat button without checking the table limits, while `repeatLastBet` places the remembered bet through `handleBetting`, which enforces them | a bet of 600 doubled is remembered as 1200; with a balance of 1500 the button is enabled, and pressing it raises "Bet exceeds table maximum" | the button is enabled only for a bet the table accepts | medium, not executed | Session.RepeatButtonOverLimit | Session.RepeatWithinLimitsSucceeds |

`Session.Step` gates the repeat button as written, with `Rounds.CanRepeatBet`, and states that a remembered bet above 1000 raises the table-maximum error. `Play.HandleDouble` states that a settled doubled round remembers twice the bet, which is how 600 becomes 1200. The corrected test `Rounds.CanRepeatBetWithinLimits` adds the limits. `Session.PressRepeatWithinLimits` gates the button with it and proves that the press never raises a table-limit error.
