# A verified model of the poker engine and its table

The project models the No-Limit Hold'em hand engine, a second implementation of its rules that
works from events alone, the chip accounting of a table around the engine, and two smaller
cores: the exhaustive equity calculation and the rate limiter.

## How it is built

A hand is specified as a state value and functions on it: `HandModel` (players, positions, the
start of a hand) and `HandRules` (the commands). The class `HandEngine.Hand` in `Hand.dfy` has
the fields and loops of the engine; each method ends in `View() == ...` the specification. The
theorems are about the specification, over every start and every sequence of commands:

- `HandChips`, `HandInvariant`, `HandStart`, `HandRuns`: the invariant, conservation, termination.
- `HandMoves`, `HandActions`, `HandOpenings`: what every command and the start leave on the table,
  in numbers, and whose turn is next.
- `HandOptions`, `HandRaises`, `HandTurns`: what is offered is what is accepted; when raising is
  reopened; who opens a street.
- `Pots`, `Payout`, `HandEven`, `HandStakes`, `HandPayout`: the layout of the pots, who is paid,
  table stakes. `HandGaps` plays three hands in which the source goes wrong, and `HandCalls` lets
  everybody check or call, which decides exactly which hands do.
- `HandShowdown`, `HandShows`, `HandDealing`: mucking is safe; who shows, in which order; cards are
  dealt once.
- `Eval`, `EvalMeaning`, `Evaluator`: the grade of five cards, what it means, and the loops.
- `Replay`, `ReplayRuns`, `ReplayCards`, `ReplayChecks`, `EventObserver`: the state told from
  events, what is objected to, and the class that tells it.

`TableRules` says on values what happens to the chairs of a table and `TableSteps` what every
command makes of the whole table, and `TableMeans` what that means for a player; the class `TableLedger.Table` in `Table.dfy` does it, with a
ghost ledger of chips bought in and carried away. `Equity` and `RateLimit` stand alone; `Cards` and `Sorting` are shared. `HandLoops` holds
the steps that the loops of the class need.

## Findings

- **Dead blinds and side pots.** A dead blind goes into the contribution of the player who owes
  it and so raises the largest live contribution. Live players who merely call then fall short
  of the last level and are not eligible for that pot, not even for their own chips:
  `HandGaps.DeadBlindGap` plays such a hand from its start. The rules in docs/rules.md sections
  7.6 and "Additions" describe a dead blind as extra money in the pot that is not a bet.
  `Pots.LayersFairIff` gives the exact condition on the contributions under which the layout is
  the chip-by-chip one, `HandEven.FairIffLevel` the one under which a street closes fairly, and
  `HandEven.PotsAlwaysFair` shows that hands whose posting leaves the players level always meet
  them, in particular hands without dead blinds. Where all stacks are deep enough to call the
  blinds, no others do (`HandCalls.AlwaysFairIff`).
- **The straddle.** `NewHand` does not check that a straddle is at least the big blind. One that
  is posted in full below a blind pulls the price under that bet. If the owner of that blind has
  chips left, they may check but never match the price, and once everybody has checked or called
  the engine runs into its panic "no player to act although the round is not complete":
  `HandGaps.ShortStraddlePanics` plays it, and `HandCalls.PanicsIff` shows that this is exactly
  when some run of the hand can panic. `HandStart.SaneConfig` is the condition, on settings,
  seats and stacks; it is also exactly when the invariant is in place at the start
  (`HandStart.StartsSanelyIff`). A blind who is all-in above the straddle does no such harm, but
  when both are, the straddler can be left out of every pot (`HandGaps.BlindsOverStraddle`). The
  table always passes twice the big blind (`TableLedger.Table.Setup`).
- **Eviction.** The limiter forgets a key after ten idle minutes. That changes no answer exactly
  when ten minutes refill a bucket (`RateLimit.EvictionUnseenIff`); with a slower rate some run
  of calls sees it.

## Model

| member | source | states |
|---|---|---|
| HandRuns.ChipsConserved | backend/internal/poker/hand.go:737-1373 | For every sane start and every sequence of commands, accepted or refused, stacks, bets and pots add up to what the players brought; at the result bets and contributions are zero, all chips are in the stacks and the nets sum to zero |
| HandRuns.EveryHandEnds | backend/internal/poker/hand.go:751-1444 | Whatever is chosen at every turn, the hand reaches its result with all chips back in the stacks |
| HandRuns.StepShrinks | backend/internal/poker/hand.go:751-1444 | Every accepted command strictly lowers a lexicographic measure: streets left, phase, run-twice unused, chips in stacks, players unfolded or still to act, hands to show; even though uncalled bets go back to stacks |
| HandRuns.NeverStuck | backend/internal/poker/hand.go:751-1444 | A hand that is not over always accepts some command |
| HandInvariant.StepKeeps | backend/internal/poker/hand.go:751-1444 | Every command keeps the invariant: the bets of all who can act within the price, all-in exactly with an empty stack, a player to act who needs to, unique seats, and the seats and start stacks of the hand |
| HandInvariant.SomebodyIsFound | backend/internal/poker/hand.go:885-930 | While nobody who can act has bet more than the price, a round that is not complete has a player who needs to act, and the scan finds one |
| HandInvariant.SettleKeeps | backend/internal/poker/hand.go:885-909 | Handing the turn on keeps the invariant, from any player and inclusive or not |
| HandInvariant.ForfeitKeeps | backend/internal/poker/hand.go:1410-1444 | A forfeit keeps the invariant in every phase, out of turn too |
| HandInvariant.AdvanceKeeps | backend/internal/poker/hand.go:988-1028 | Dealing the next street keeps the invariant |
| HandInvariant.RevealNextKeeps | backend/internal/poker/hand.go:1226-1246 | Showing or mucking the next hand keeps the invariant |
| HandStart.NewHandStarts | backend/internal/poker/hand.go:232-365 | Whatever the start, it is refused exactly for what the source checks; otherwise the invariant is in place, unless a straddle was posted in full below a blind who has chips left |
| HandStart.OpenedPrice | backend/internal/poker/hand.go:292-340 | After posting, the price covers the bets of all who can still act if and only if no straddle was posted in full below a blind whose owner has chips left, as told from settings, seats and stacks alone |
| HandStart.StartsSanelyIff | backend/internal/poker/hand.go:232-365 | A hand starts with the invariant in place if and only if no such straddle was posted |
| HandCalls.PanicsIff | backend/internal/poker/hand.go:885-909 | Of an accepted start, some run reaches the panic "no player to act although the round is not complete" if and only if such a straddle was posted |
| HandCalls.StrandedPanics | backend/internal/poker/hand.go:885-909 | From any state with somebody on turn and a bet above the price by a player who can act, checking when free and calling otherwise ends in the panic |
| HandStart.AntedExactly | backend/internal/poker/hand.go:292-315 | What ante and dead blind leave of each stack, and what they put into the pot |
| HandGaps.ShortStraddlePanics | backend/internal/poker/hand.go:885-909 | For every deck and all amounts with straddle < small blind <= big blind < stack: three checks after the start nobody is left who needs to act and the round is not complete, which is the panic of the source |
| HandStart.NewHandChips | backend/internal/poker/hand.go:232-365 | Antes, dead blinds, blinds and the straddle take no chips out of the hand: the start stacks are those of the seats given |
| HandActions.ActionMoves | backend/internal/poker/hand.go:751-909 | Every accepted action is that of the player on turn and moves their chips as its name and amount say: a bet or raise to its amount, a call what was offered, an all-in the whole stack, a check or fold nothing; price, full level, least raise and aggressor follow, the report carries what it came to, nobody else changes, and the turn passes on or the street closes |
| HandActions.TurnPasses | backend/internal/poker/hand.go:410-425 | In every run, when betting goes on after an action, a timeout or a forfeit on turn, the next turn is that of the first player clockwise who needs to act |
| HandActions.OptionsMean | backend/internal/poker/hand.go:682-717 | What is offered in numbers: a check exactly at the price, the call of what is missing or of the rest of the stack, raises from the least raise to everything |
| HandActions.RefusedFor | backend/internal/poker/hand.go:751-874 | Why an action is refused: no such seat, not their turn, an amount out of range where raising is possible, or an action that is not legal |
| HandActions.TimeoutMoves | backend/internal/poker/hand.go:781-799 | Time can run out exactly for the player on turn; they check or fold, no chips move, and the turn passes on or the street closes |
| HandActions.TimeoutFoldsIff | backend/internal/poker/hand.go:781-799 | Whatever follows, the player who timed out is folded exactly when a check was not offered, and the event says which it was |
| HandActions.ForfeitMoves | backend/internal/poker/hand.go:1410-1444 | A forfeit is accepted exactly from a live hand before the showdown and folds it alone; out of turn the turn stays where it is unless the street closes |
| HandActions.AdvanceMoves | backend/internal/poker/hand.go:988-1028 | A street is dealt exactly when one is awaited: with fresh bets and turns from left of the button, or in a run-out to the next street or the pay-out |
| HandActions.StreetReported | backend/internal/poker/hand.go:988-1012 | What the events of a street name goes onto the boards: three cards or one, for each board |
| HandActions.TwiceMoves | backend/internal/poker/hand.go:454-470 | A second board starts as a copy of the first, in a run-out with enough cards for both |
| HandMoves.SettleFollows | backend/internal/poker/hand.go:876-986 | After any change the hand goes on exactly while two players are in and somebody owes an action; the turn is the first needy player clockwise. Otherwise the street closes as below |
| HandMoves.StreetCloses | backend/internal/poker/hand.go:932-986 | A street closes: every bet goes into the pots as far as somebody else matched it and the rest goes back; after the river the showdown is staged exactly when a live hand is hidden; before it the hand becomes a run-out with open hands exactly when fewer than two can bet |
| HandOpenings.NewHandRefuses | backend/internal/poker/hand.go:232-288 | A start is refused exactly for too few players, bad blinds, a bad or repeated seat, an empty stack, a button without a player, too few cards or a deck of the wrong size |
| HandOpenings.SeatedAre | backend/internal/poker/hand.go:240-262 | The players are those given, in ascending seats, with their stacks and the dead blinds they owe |
| HandOpenings.PostedExactly | backend/internal/poker/hand.go:292-340 | Each player after posting in numbers: what ante and dead blind took, the blind or straddle in front, all-in exactly when nothing is left; and the price, level and least raise that sets |
| HandOpenings.HandOpens | backend/internal/poker/hand.go:232-365 | The hand starts from that table with two rounds of cards from left of the button, and its first turn is that of the first player who needs to act after the straddler or the big blind |
| HandOpenings.PlaceMeans | backend/internal/poker/hand.go:396-396 | The places of the deal, by which turns are counted too, go once round clockwise from left of the button |
| HandShows.RevealMoves | backend/internal/poker/hand.go:1226-1284 | In every run, the next hand of a staged showdown is shown exactly when the policy asks: always; or when it is best for some pot; or when no shown hand beats it in some pot it can win. Otherwise it is mucked, and after the last exactly the winners are shown besides |
| HandShows.ShowOrder | backend/internal/poker/hand.go:1163-1183 | In a staged showdown everybody still in shows once, clockwise from the last aggressor, or without one from the first player in left of the button |
| HandShows.AwardShows | backend/internal/poker/hand.go:1286-1352 | When the pots are awarded, exactly those are shown who had been or who hold the best hand for some pot |
| HandShows.OpenedAreNamed | backend/internal/poker/hand.go:1030-1042 | When all hands are opened the event names exactly the live ones not yet shown |
| ReplayRuns.ReplayAgrees | backend/cmd/simulate/hand.go:104-157 | In every run, replaying the events from the starting stacks objects to nothing and yields every stack, bet, contribution, folded and all-in flag; while betting also the price, least raise, full-bet level, who may raise and the options of the player on turn |
| ReplayCards.EventsNameCardsOnce | backend/cmd/simulate/hand.go:206-219 | In every run from a shuffled deck the events name cards of the variant only, and none twice |
| HandTurns.FirstTurn | backend/cmd/simulate/hand.go:277-300 | Before the flop the first turn is that of the first player who can act, left of the straddler or the big blind |
| HandTurns.NextTurn | backend/cmd/simulate/hand.go:277-300 | In every run, the first turn of a later street is that of the first player left of the button who can act |
| ReplayRuns.StepFits | backend/cmd/simulate/hand.go:91-173 | One more command and its events keep the replay in step with the engine |
| ReplayRuns.NewHandFits | backend/cmd/simulate/hand.go:54-76 | The events of the start alone give the state the engine starts in |
| Replay.PerformSeen | backend/cmd/simulate/hand.go:236-272 | The event of any accepted action tells the observer the chips, the price and the level that reopens raising |
| Replay.LayoutAgrees | backend/cmd/simulate/hand.go:416-509 | Pots rebuilt from observed contributions are the pots the engine publishes |
| EventObserver.HandState.constructor | backend/cmd/simulate/hand.go:54-76 | A fresh observer knows the seats, in order, and the price the blinds set |
| EventObserver.HandState.Consume | backend/cmd/simulate/hand.go:91-173 | A batch of events changes the observer exactly as the replay function says |
| EventObserver.HandState.HandStarts | backend/cmd/simulate/hand.go:175-203 | The blinds are checked to sit clockwise from the button, heads-up with the button as small blind |
| EventObserver.HandState.Act | backend/cmd/simulate/hand.go:236-267 | An action event moves the chips it stands for; bets and raises carry totals |
| EventObserver.HandState.Collect | backend/cmd/simulate/hand.go:407-412 | Moving the bets seat by seat, in whatever order, adds each to its seat's contribution once and leaves none in front |
| EventObserver.HandState.Rebuild | backend/cmd/simulate/hand.go:416-487 | The observer's own loops over its seats lay out the pots as the engine does |
| EventObserver.HandState.CheckPots | backend/cmd/simulate/hand.go:416-509 | The flag stays up exactly when no contribution is negative and the published pots are those the contributions give, list no folded seat and sum to what was put in |
| EventObserver.HandState.CheckOptions | backend/cmd/simulate/hand.go:322-367 | The flag stays up exactly when the player on turn can act, the price and least raise are those derived, and so are the options |
| EventObserver.ReadLog | backend/cmd/simulate/hand.go:54-173 | Reading the log of any run never raises an objection and ends knowing whether the hand is over |
| ReplayChecks.BlindsChecked | backend/cmd/simulate/hand.go:175-203 | The observer accepts a start exactly with the right button and the blinds next to it |
| ReplayChecks.PotsChecked | backend/cmd/simulate/hand.go:407-509 | The observer accepts published pots exactly when they are those of the contributions with the bets in front added |
| ReplayChecks.TurnChecked | backend/cmd/simulate/hand.go:322-367 | The observer accepts a turn exactly when its player can act, the price and least raise are those followed and the options those of the rules for them |
| ReplayChecks.LateEventsFail | backend/cmd/simulate/hand.go:91-110 | A second start and anything after the end is objected to, for good |
| HandOptions.OptionsExact | backend/internal/poker/hand.go:682-874 | Sound and complete in every reachable state, for every seat and action: accepted exactly when offered, a bet or raise exactly when in the offered range or the offered all-in above the price |
| HandOptions.PreActionAccepted | backend/internal/table/table.go:1157-1190 | An armed action is always accepted on turn, so the fall-back to a timeout is never taken |
| HandOptions.DecisionAccepted | backend/internal/botplay/strategy.go:308-456 | Whatever the bot reads, estimates and flips, its move is accepted, also when it cannot read the table or has no opponent |
| HandOptions.RaiseToAllowed | backend/internal/botplay/strategy.go:324-456 | The clamped raise of the bot, or its replacement by a shove, is within what was offered |
| HandActions.ArmedActs | backend/internal/table/table.go:1157-1190 | An armed fold folds, an armed check-fold folds exactly when a check is not free, an armed call-any checks or calls and never folds; the event says so |
| HandOptions.RaiseToMeans | backend/internal/botplay/strategy.go:343-372 | The raise of the bot is the price plus its part of the pot after a call, rounded down to whole big blinds and clamped to the offered range; without a range it shoves or stays in |
| HandOptions.BolderWithMore | backend/internal/botplay/strategy.go:324-456 | In the same spot with the same flips, a better estimate never makes the bot give up where it stayed in nor merely stay in where it raised |
| HandOptions.NoFreeFold | backend/internal/botplay/strategy.go:384-456 | Where checking is free the bot does not fold, except before the flop facing a raise |
| HandRaises.RaiseRule | backend/internal/poker/hand.go:423-425 | In every run, the level comparison says exactly the history rule: a player may raise when they have not acted on this street or a full bet or raise came after their last turn |
| HandRaises.ReopenedMeans | backend/internal/poker/hand.go:423-425 | The history rule read place by place in the list of turns |
| HandRaises.RaisesBounded | backend/internal/poker/hand.go:801-874 | In every run, after the flop and before it unless a straddle set a smaller raise: the least raise is at least a big blind, and k full bets or raises force a price of k big blinds, paid by a player who bought in for that much |
| HandRaises.RaiseSizeHolds | backend/internal/poker/hand.go:801-874 | Within a street the least raise never shrinks |
| Pots.BuildPots | backend/internal/poker/pots.go:21-89 | The loops over levels and players compute the layout of the specification |
| Pots.Dedupe | backend/internal/poker/pots.go:43-49 | The in-place pass that writes into the slice it reads leaves in its first entries what dropping repeated neighbours leaves |
| Pots.DedupedMeans | backend/internal/poker/pots.go:39-49 | Of sorted levels exactly each level remains, once |
| Pots.Survey | backend/internal/poker/pots.go:22-38 | The levels are exactly the positive totals of live all-in players; the largest live total and the sum are found |
| Pots.LayoutSums | backend/internal/poker/pots.go:21-89 | The pots hold exactly what was put in, also when a folded player put in the most |
| Pots.PotsWinnable | backend/internal/poker/pots.go:39-88 | With somebody live every pot has chips and an eligible seat, and no eligible seat is folded |
| Pots.PotsShrink | backend/internal/poker/pots.go:39-88 | From one pot to the next the eligible seats strictly shrink |
| Pots.LayersFairIff | backend/internal/poker/pots.go:21-89 | The layout agrees with the chip-by-chip view on every layer if and only if every live player with chips in sits at an all-in level or at the largest live total |
| Pots.PotIsLayers | backend/internal/poker/pots.go:50-61 | A pot between two levels is the sum of the single-chip layers between them |
| Pots.TableStakes | backend/internal/poker/pots.go:21-89 | The pots that list a seat with c in hold at most c from everyone, plus the dead money when nobody still in put in more |
| HandEven.PotsAlwaysFair | backend/internal/poker/pots.go:21-89 | When antes and dead blinds leave everybody with chips equally far in, and not both blinds have posted more than a straddle posted in full: at every moment of every run before the result: those who can still bet have put in the same and nobody more, and each layer of the pots is contested by exactly the live players who reached it |
| HandEven.NoDeadBlindsIsLevel | backend/internal/poker/hand.go:292-315 | It is so whenever nobody owes a dead blind |
| HandEven.FairIffLevel | backend/internal/poker/hand.go:965-985 | With nobody all-in, a street that closes at a positive price gives fair pots if and only if the live players had put in the same before it |
| HandCalls.AlwaysFairIff | backend/internal/poker/pots.go:21-89 | When everybody can call blinds and straddle with chips to spare, the pots are the chip-by-chip ones at every moment of every run before the result if and only if antes and dead blinds leave everybody equally far in |
| HandGaps.BlindsOverStraddle | backend/internal/poker/pots.go:21-89 | For every deck and a family of amounts without dead blinds: both blinds all-in above a full straddle, the street is over at once and the straddler is eligible for no pot |
| HandEven.RunEven | backend/internal/poker/hand.go:751-1444 | Every sequence of commands keeps the contributions level |
| HandGaps.DeadBlindGap | backend/internal/poker/hand.go:303-315 | For every deck, any blinds and any dead blind: heads-up, a call and a check later the caller is not eligible for the only pot, the poster alone is, and the layers are not fair |
| HandStakes.TableStakesHold | backend/internal/poker/hand.go:1113-1352 | In every run: before the result each player's chips add up to the buy-in; at the result nobody has won more than table stakes allow, contested or not, run once or twice, and the report says what was paid |
| HandStakes.FoldedWinsNothing | backend/internal/poker/hand.go:1130-1158 | A folded player is paid from no pot on any board |
| HandPayout.BestHandsArePaid | backend/internal/poker/hand.go:1113-1352 | In every run, at the result: every pot goes whole to the one player left, or every award goes to exactly the eligible players with the best five of their cards and its board, from left of the button, in even shares with the odd chips first, the first board with the odd chip of the pot; all awards together are all pots |
| Payout.WinnersAreBest | backend/internal/poker/hand.go:1130-1158 | The seats paid from a pot are exactly the eligible seats of maximal rank, and there is one |
| Payout.SharesAreFair | backend/internal/poker/hand.go:1286-1352 | Shares sum to the pot, differ by at most one chip, and the odd chips go to the first winners in order |
| Payout.HalvesMakeThePot | backend/internal/poker/hand.go:1286-1352 | The awards of a pot sum to it; run twice, the halves differ by at most the odd chip, which goes to board one |
| Payout.AwardsSum | backend/internal/poker/hand.go:1286-1352 | All awards together are all pots together |
| Payout.WonAtMostWinnable | backend/internal/poker/hand.go:1286-1352 | A seat wins at most the pots that list it, and nothing when it is among the winners of none |
| Payout.ClockwiseGoesRound | backend/internal/poker/hand.go:1100-1111 | Sorting by the key orders seats as the deal goes round while every seat right of the button is less than 2^20 above every one left of it, and does not once one is more than that above |
| Payout.FindWinners | backend/internal/poker/hand.go:1135-1158 | The scan for the best hands finds them in clockwise order |
| HandShowdown.MuckingIsSafe | backend/internal/poker/hand.go:1185-1352 | In every run and under every policy: the winners found at the start of a staged showdown stay the winners, whoever mucks is not among them, is beaten in every pot under the in-order policy and has won nothing at the result; a hand run twice is never staged |
| HandShowdown.MuckInOrder | backend/internal/poker/hand.go:1249-1281 | Under the in-order policy a hand allowed to muck is beaten in every pot it could win by a shown hand, and wins nowhere |
| HandShowdown.RefusalMayMuck | backend/internal/poker/hand.go:1249-1281 | Whoever need not show is safe to muck under each policy |
| HandShowdown.PaidHaveShown | backend/internal/poker/hand.go:1286-1352 | Whoever is paid at a showdown has shown |
| HandShowdown.SamePots | backend/internal/poker/hand.go:519-525 | Showing and mucking changes neither pots nor their contenders |
| HandDealing.DealingIsFair | backend/internal/poker/hand.go:381-385 | In every run from a shuffled deck of the variant: the deck never runs out, all cards dealt are different cards of the variant, the board has the size of the street, and two boards have equal length and share exactly what was out when the second was agreed |
| HandDealing.SecondBoardOffered | backend/internal/poker/hand.go:454-458 | In every run a second board is offered in a run-out, once, exactly when the deck holds two cards a player, the first board and what is still to come again |
| HandDealing.RunDealt | backend/internal/poker/hand.go:988-1028 | Every sequence of commands keeps every card at the place of the deck the rules give it |
| HandDealing.TwiceBoards | backend/internal/poker/hand.go:988-1010 | On each street the two boards take consecutive disjoint stretches of the deck |
| Cards.DeckIsComplete | backend/internal/poker/card.go:178-197 | The deck of a variant holds every card of rank at least its lowest, once |
| Cards.BuildDeck | backend/internal/poker/card.go:189-197 | The loop over all cards keeps exactly that deck |
| Cards.Shuffle | backend/internal/poker/card.go:208-213 | Whatever the draws, the swaps lose and repeat no card |
| Cards.MakeCard | backend/internal/poker/card.go:70-76 | Rank and suit can be read back from the card |
| Cards.DistinctUnderShuffle | backend/internal/poker/card.go:208-213 | A rearranged deck still has no card twice |
| HandEngine.Hand.NewHand | backend/internal/poker/hand.go:232-365 | Any start gives the new hand or the refusal of the specification, and a valid hand exactly when no blind with chips left stands above a full straddle |
| HandEngine.Hand.TakePositions | backend/internal/poker/hand.go:268-276 | Button, small and big blind are placed; heads-up the button is the small blind |
| HandEngine.Hand.PostAntes | backend/internal/poker/hand.go:292-302 | The antes go into the pot clockwise, short stacks all-in |
| HandEngine.Hand.PostDeads | backend/internal/poker/hand.go:303-315 | Dead blinds go into the pot without being a bet |
| HandEngine.Hand.PostBlinds | backend/internal/poker/hand.go:316-321 | The blinds are bet and set the price |
| HandEngine.Hand.PostStraddle | backend/internal/poker/hand.go:322-340 | A straddle by the seat after the big blind sets the price when posted in full |
| HandEngine.Hand.DealHoles | backend/internal/poker/hand.go:342-351 | Two rounds of one card each from the seat left of the button |
| HandEngine.Hand.FirstActor | backend/internal/poker/hand.go:353-363 | Left of the straddler or the big blind, heads-up the button |
| HandEngine.Hand.Index | backend/internal/poker/hand.go:387-394 | The position of a seat, or none |
| HandEngine.Hand.FindActor | backend/internal/poker/hand.go:410-421 | The first player clockwise who needs to act |
| HandEngine.Hand.RunItTwice | backend/internal/poker/hand.go:462-469 | The second board starts as a copy of the first |
| HandEngine.Hand.BuildPots | backend/internal/poker/hand.go:519-525 | The pots of the completed streets |
| HandEngine.Hand.Options | backend/internal/poker/hand.go:682-715 | The options offered to a seat are those the exactness theorem is about |
| HandEngine.Hand.TotalChips | backend/internal/poker/hand.go:737-743 | The sum over stacks, bets and contributions that conservation is about |
| HandEngine.Hand.Apply | backend/internal/poker/hand.go:751-777 | An action is refused with the state unchanged, or leaves the state of the specification and a valid hand |
| HandEngine.Hand.Timeout | backend/internal/poker/hand.go:781-797 | A check when free, else a fold, for the player on turn only |
| HandEngine.Hand.Perform | backend/internal/poker/hand.go:801-874 | Each kind of action with its refusals, the chips it moves and the price it sets |
| HandEngine.Hand.Settle | backend/internal/poker/hand.go:885-909 | The turn, the street or the hand moves on |
| HandEngine.Hand.RoundComplete | backend/internal/poker/hand.go:911-930 | Whether anybody still needs to act |
| HandEngine.Hand.ReturnUncalled | backend/internal/poker/hand.go:933-956 | The part of the highest bet nobody matched goes back |
| HandEngine.Hand.Collect | backend/internal/poker/hand.go:958-963 | The bets become contributions |
| HandEngine.Hand.EndStreet | backend/internal/poker/hand.go:965-985 | Bets are closed and the next phase is chosen |
| HandEngine.Hand.Advance | backend/internal/poker/hand.go:988-1028 | The next street on one or two boards, and betting again unless run out |
| HandEngine.Hand.RevealAll | backend/internal/poker/hand.go:1030-1042 | Every live hand is shown once |
| HandEngine.Hand.FinishUncontested | backend/internal/poker/hand.go:1113-1126 | The last player standing takes every pot |
| HandEngine.Hand.PotWinnersOn | backend/internal/poker/hand.go:1135-1158 | Per pot the best eligible hands on a board, clockwise |
| HandEngine.Hand.OrderOfShowing | backend/internal/poker/hand.go:1163-1180 | From the last aggressor, or left of the button, round the live players |
| HandEngine.Hand.ToShowdown | backend/internal/poker/hand.go:1185-1208 | Paid at once when all hands are open or run twice, else staged |
| HandEngine.Hand.RevealNext | backend/internal/poker/hand.go:1226-1246 | The next player shows or mucks; after the last the pots are awarded |
| HandEngine.Hand.MustShow | backend/internal/poker/hand.go:1249-1281 | When the policy makes a player show |
| HandEngine.Hand.AwardPots | backend/internal/poker/hand.go:1286-1352 | Winners are shown and every pot is paid on one or two boards |
| HandEngine.Hand.Finish | backend/internal/poker/hand.go:1354-1373 | Contributions are cleared and the results reported |
| HandEngine.Hand.Forfeit | backend/internal/poker/hand.go:1410-1444 | A fold whoever is on turn, ending the hand when one player is left and moving the turn when it was theirs |
| HandEngine.Hand.Do | backend/internal/poker/hand.go:751-1444 | Any command leaves the state of the specification |
| HandEngine.Hand.Play | backend/internal/poker/hand.go:751-1444 | A whole run of commands, refused ones included, leaves the state of the specified run |
| Evaluator.Evaluate | backend/internal/poker/eval.go:105-146 | The best of five, six or seven distinct cards: five of the cards themselves, with a rank no five of them exceed |
| Evaluator.Evaluate5 | backend/internal/poker/eval.go:153-253 | Category, packed rank and the arranged cards of five cards |
| Evaluator.SortByRank | backend/internal/poker/eval.go:153-159 | The insertion sort puts the highest rank first and keeps the cards |
| Evaluator.SortGroups | backend/internal/poker/eval.go:171-193 | The groups end up by falling size and then rank |
| Evaluator.StraightHigh | backend/internal/poker/eval.go:257-270 | A straight is found exactly when there is one, with its top; the ace also counts low |
| Evaluator.EvaluateSix | backend/internal/poker/eval.go:105-146 | The best of the six ways to leave one card out |
| Evaluator.EvaluateSeven | backend/internal/poker/eval.go:105-146 | The best of the twenty-one ways to leave two cards out |
| EvalMeaning.BestIsMaximal | backend/internal/poker/eval.go:105-146 | The best rank is made by five of the cards, beaten by no five of them, and above the zero start value |
| EvalMeaning.BestInAnyOrder | backend/internal/poker/eval.go:105-146 | The best rank does not depend on the order of the cards |
| EvalMeaning.OrderIsIrrelevant | backend/internal/poker/eval.go:153-253 | Five cards grade alike in every order |
| EvalMeaning.CategoryIsRight | backend/internal/poker/eval.go:153-253 | The switch over groups finds exactly the category the rules of poker name |
| EvalMeaning.RanksCompareGrades | backend/internal/poker/eval.go:39-59 | Comparing packed ranks is comparing category and then tie-break ranks, in both directions |
| EvalMeaning.GradeValid | backend/internal/poker/eval.go:148-150 | Every five distinct cards fit the packed format and rank above zero |
| EvalMeaning.GroupsMean | backend/internal/poker/eval.go:171-193 | The groups are the ranks that occur, each once, by falling frequency and then rank |
| Evaluator.EveryFiveIsADrop | backend/internal/poker/eval.go:105-146 | Every five of the cards are reached by leaving out one or two |
| Equity.ExactEquity | backend/internal/poker/equity.go:11-110 | Where the boards are enumerated, for a variant, a board and hands: no shares for no hands, else each hand's exact share over every completion of the board with cards of the variant neither held nor on it, each taken once; the shares sum to one |
| Equity.ExactShares | backend/internal/poker/equity.go:58-110 | The exhaustive branch stops after every completion of the board with the deck once; each share is that hand's winnings over their number, and the shares sum to one |
| Equity.CardsAreLeft | backend/internal/poker/equity.go:23-33 | Every hand takes at most two cards out of the deck, and the board its own |
| Equity.NextCombination | backend/internal/poker/equity.go:76-91 | The places are moved on to the next combination, or there is none |
| Equity.AdvancedIsNext | backend/internal/poker/equity.go:76-91 | The next combination is later, and none lies between |
| Equity.SharesAreExact | backend/internal/poker/equity.go:64-92 | Any list holding every completion once gives the same shares |
| Equity.SharesAreOne | backend/internal/poker/equity.go:38-110 | The shares of all hands sum to one |
| Equity.SharesAreEven | backend/internal/poker/equity.go:44-57 | The hands nobody beats share the pot evenly, and no other hand gets anything |
| Equity.SharesMakeOne | backend/internal/poker/equity.go:53-56 | On one board the winners share exactly one pot |
| Equity.FindBest | backend/internal/poker/equity.go:38-52 | The running best ends as exactly the hands nobody beats |
| Equity.Score | backend/internal/poker/equity.go:38-57 | A board adds to each hand its share and nothing else |
| Equity.RemainingDeck | backend/internal/poker/equity.go:13-34 | The cards of the variant neither on the board nor held, each once |
| RateLimit.RateBucket.constructor | backend/internal/server/ratelimit.go:66-68 | A new bucket is full |
| RateLimit.RateBucket.Allow | backend/internal/server/ratelimit.go:70-78 | A call is answered and charged as the bucket specification says |
| RateLimit.Limiter.Allow | backend/internal/server/ratelimit.go:30-48 | A call makes its key a bucket when needed, sweeps, and is answered by that bucket |
| RateLimit.Limiter.Sweep | backend/internal/server/ratelimit.go:50-56 | Exactly the buckets idle for too long are deleted |
| RateLimit.AcceptedIff | backend/internal/server/ratelimit.go:70-78 | A call is accepted if and only if every window ending with it stays within burst plus what was earned |
| RateLimit.WindowBound | backend/internal/server/ratelimit.go:70-78 | Over any window at most burst + rate * length calls are accepted |
| RateLimit.AnsweredByOwnBucket | backend/internal/server/ratelimit.go:38-47 | While nothing is evicted, a call is answered as its own key's calls alone would have it |
| RateLimit.LimiterBound | backend/internal/server/ratelimit.go:30-56 | With eviction: when the idle time refills a bucket, at most burst + rate * length of a key's calls get through in any window, whatever the other keys do |
| RateLimit.EvictionUnseen | backend/internal/server/ratelimit.go:50-56 | When the idle time refills a bucket, eviction changes no answer of any call sequence |
| RateLimit.EvictionUnseenIff | backend/internal/server/ratelimit.go:30-56 | Eviction goes unnoticed in every run if and only if the idle time refills a bucket |
| TableLedger.Table.constructor | backend/internal/table/table.go:340-360 | An empty table with empty books |
| TableLedger.Table.Run | backend/internal/table/table.go:615-1744 | Every sequence of commands leaves the table of the specified run, with the hand and the chairs fitting together; the chips in the stacks are what the commands have brought in less what they have carried away, summed command by command since the last new round, and the conservation alarm stays silent |
| TableSteps.StepMoney | backend/internal/table/table.go:615-1744 | What each command brings in and carries away: the start money of whoever joins or rebuys, changes by the host when they take effect, and the stacks of those who leave, at once, at the end of their hand or when it is voided |
| TableSteps.RunMoney | backend/internal/table/table.go:615-1744 | The chips bought in and carried away after a run are those sums |
| TableSteps.HandConfigMeans | backend/internal/table/hand.go:84-130 | The hand is dealt to exactly the active players with chips, the button goes to the first of them clockwise, and exactly those who owe a dead blind post one |
| TableLedger.Table.Engine | backend/internal/table/hand.go:237-239 | A command to the engine moves no chips between chairs until the hand is over, which is then settled at once |
| TableLedger.Table.Play | backend/internal/table/table.go:807-831 | An action counts exactly when the player is in the hand and the engine accepts it; it clears missed turns |
| TableLedger.Table.TurnOver | backend/internal/table/hand.go:414-427 | A timeout acts for the player on turn and counts a missed turn, after too many of which they sit out from the next hand |
| TableLedger.Table.FinishHand | backend/internal/table/hand.go:432-535 | Chairs get the end stacks, statuses settle, leavers go, queued chip changes are made in order, and the round is marked over when one player has all chips |
| TableLedger.Table.PayStacks | backend/internal/table/hand.go:432-462 | The end stacks are written and the sums compared, without alarm |
| TableLedger.Table.SettleHand | backend/internal/table/hand.go:432-520 | Every chair is as the end of the hand makes it |
| TableLedger.Table.ApplyPending | backend/internal/table/hand.go:521-529 | The queued changes are made in order, impossible ones dropped |
| TableLedger.Table.CheckLast | backend/internal/table/hand.go:530-534 | The table ends when rebuys are off and at most one of two or more players has chips |
| TableLedger.Table.StartHand | backend/internal/table/hand.go:84-161 | The loops find whom to deal in, the button, the debts and the straddler of the specification; the hand is the engine's for them, or the table pauses |
| TableLedger.Table.NextButton | backend/internal/table/hand.go:84-97 | The first eligible seat clockwise from the last button |
| TableLedger.Table.Eligible | backend/internal/table/table.go:427-435 | Exactly the active players with chips, by seat |
| TableLedger.Table.FindStraddler | backend/internal/table/hand.go:123-130 | The third eligible seat from the button, when armed and with more than the straddle |
| TableLedger.Table.ClearDebts | backend/internal/table/hand.go:111-117 | Each dead blind owed is charged once |
| TableLedger.Table.ClearHand | backend/internal/table/hand.go:569-588 | Nobody is in a hand any more; the round ends when marked so, else waiting players move |
| TableLedger.Table.VoidHand | backend/internal/table/hand.go:591-615 | Writing back the start stacks changes no stack: only who is in a hand, and leavers go |
| TableLedger.Table.EndTable | backend/internal/table/hand.go:621-645 | The stacks are frozen as they are |
| TableLedger.Table.End | backend/internal/table/table.go:1609-1625 | After the hand, or at once by voiding it |
| TableLedger.Table.Restart | backend/internal/table/table.go:1632-1680 | Everybody keeps the seat and starts over with the start money and the starting blinds |
| TableLedger.Table.Join | backend/internal/table/table.go:615-669 | Accepted exactly when the table is open and the wanted or some seat is free; takes the wanted or else the lowest free seat, with the start money |
| TableLedger.Table.Rebuy | backend/internal/table/table.go:1241-1264 | Accepted exactly for busted players between hands when rebuys are on |
| TableLedger.Table.AdjustChips | backend/internal/table/table.go:1698-1723 | At once between hands, queued during one, refused exactly as the source does |
| TableLedger.Table.ApplyChips | backend/internal/table/table.go:1725-1744 | Refused exactly when the stack would fall below zero; status follows the stack |
| TableLedger.Table.Remove | backend/internal/table/table.go:1281-1297 | Folded and kept until the hand is over when in it, else gone with their chips at once |
| TableLedger.Table.FreeSeat | backend/internal/table/table.go:1301-1328 | The chair is empty and its chips are carried away |
| TableLedger.Table.SitOut | backend/internal/table/table.go:1195-1216 | The status changes and a live hand that can still act is folded |
| TableLedger.Table.SitIn | backend/internal/table/table.go:1219-1238 | Active again, or busted without chips |
| TableLedger.Table.SetStraddle | backend/internal/table/table.go:917-930 | Armed only where straddles are allowed |
| TableLedger.Table.ChangeSeat | backend/internal/table/table.go:1043-1078 | Accepted exactly under the cooldown, lock and reservation rules; moves at once only when not in a running hand |
| TableLedger.Table.SeatReserved | backend/internal/table/table.go:1081-1088 | Whether somebody waits for the seat |
| TableLedger.Table.ApplySeatChange | backend/internal/table/table.go:1091-1104 | The move happens when the seat is still free |
| TableLedger.Table.ApplyPendingSeatChanges | backend/internal/table/table.go:1107-1113 | Everybody waiting tries to move, chair by chair |
| TableRules.SettledMeans | backend/internal/table/hand.go:432-520 | Everybody dealt in holds their end stack or has left with it, and no other chair has changed |
| TableRules.NetsBalance | backend/internal/table/hand.go:432-468 | A finished hand has moved chips among its players only, so the alarm has no cause |
| TableRules.HandUnmoved | backend/internal/table/table.go:1091-1104 | In the middle of a hand no change to a chair but one of its players' own chips or seat can disturb it |
| TableRules.StartIsStack | backend/internal/table/hand.go:591-606 | During a hand the start stacks kept for a void are the stacks on the table |
| TableSteps.LeaverGone | backend/internal/table/table.go:1281-1297 | Whoever left during a hand is at the table no more once it is over |
| TableRules.NobodyLost | backend/internal/table/table.go:1107-1113 | Pending moves lose nobody, even when two want to swap |
| TableRules.NobodyWaits | backend/internal/table/table.go:1107-1113 | After the pending moves nobody waits any longer |
| TableRules.MoveFine | backend/internal/table/table.go:1091-1104 | A move by somebody in no running hand keeps chairs, chips and the hand |
| TableRules.ClockwiseIsTheDeal | backend/internal/table/hand.go:165-175 | The table's clockwise order from the button is the order in which the engine goes round |
| TableRules.StraddlerFollowsBigBlind | backend/internal/table/hand.go:123-130 | The straddler the table names sits where the engine looks for one |
| TableMeans.HandEndStanding | backend/internal/table/hand.go:463-520 | After a hand a player of it without chips is busted, one who asked to sit out does so with a clean record, and everybody else stands as before, all with their end stacks |
| TableMeans.StandingAfter | backend/internal/table/hand.go:463-520 | The same for every chair, with leavers gone and chairs outside the hand unchanged |
| TableMeans.BustedMayRebuy | backend/internal/table/table.go:1241-1264 | A busted player may buy in again between hands when rebuys are on, and is back with the start money |
| TableMeans.ChangeMeans | backend/internal/table/table.go:1725-1744 | A change of chips by the host in numbers, with who is busted by it and who is back |
| TableMeans.HandEndMarks | backend/internal/table/hand.go:521-535 | With the hand over the round is marked to end when it was or one player has all chips |
| TableMeans.RoundOverMeans | backend/internal/table/hand.go:530-534 | No two of two or more seated players have chips, and rebuys are off |
| TableMeans.MissedCounts | backend/internal/table/hand.go:414-427 | A missed turn adds one, and from the limit on the player sits out after the hand |
| TableMeans.ActCounts | backend/internal/table/table.go:807-831 | An action counts exactly when the engine accepts it from a player in the hand |
| TableMeans.ActMeans | backend/internal/table/table.go:807-831 | An action that counts goes to the engine and clears the missed turns of its player |
| TableMeans.RestMeans | backend/internal/table/table.go:1195-1216 | Sitting out is for active players, and a hand of theirs that could still act is forfeited |
| TableMeans.NewcomerSits | backend/internal/table/table.go:615-669 | The wanted or else the lowest free seat, with the start money and a clean record |
| TableMeans.MoverMoves | backend/internal/table/table.go:1043-1104 | Who may move and what a mover owes; in a hand of theirs they wait, else they sit in the new seat at once |
| TableMeans.DealtMeans | backend/internal/table/hand.go:111-161 | Exactly the active players with chips are put into the hand, without debts |
| TableMeans.ConfigMeans | backend/internal/table/hand.go:104-130 | The hand is played with the settings of the table; a straddle is twice the big blind, of the third player clockwise who armed it and has more |
| TableMeans.ClearMeans | backend/internal/table/hand.go:569-588 | A finished hand leaves nobody in a hand; the round ends when marked so, else waiting players try to move |
| TableMeans.VoidMeans | backend/internal/table/hand.go:591-615 | A hand called off leaves everybody their chips, and leavers are gone |
| TableMeans.EndMeans | backend/internal/table/table.go:1609-1625 | Ending waits for the hand in play unless it is to be at once |
| TableMeans.RestartMeans | backend/internal/table/table.go:1632-1680 | Everybody starts over in their seat with the start money, under the starting blinds |

## Left out

- Players are values in a sequence: the aliasing of the same player through `bySeat` and the showdown order is not modelled, positions are looked up instead.
- The fields of a hand are grouped into records (deal, round, showdown); the sharing of pot slices with callers is not modelled.
- Integers are mathematical: overflow of 64-bit chip counts is not modelled.
- Floating point is replaced by reals: shares of the equity and tokens of the limiter are exact.
- Time of the limiter is a whole number of ticks and the earned tokens are computed as a repeated sum of the rate (RateLimit.EarnedIsProduct); keys are integers.
- Equity.ExactEquity: leaves out the Monte Carlo branch, which samples boards when there are too many to enumerate.
- All sources of randomness: the shuffle is any permutation, the bot's estimates and flips are any values.
- Voluntary showing of cards after a hand, descriptions of hands, snapshots, notes and card text.
- EventObserver.HandState.Consume: does not model sequence numbers, which are the places in the log, nor the sets and anchors behind the checks of cards, first turns, chips and results; what they check is proved of the engine and its log (ReplayCards.EventsNameCardsOnce, HandTurns.FirstTurn, HandTurns.NextTurn, HandRuns.ChipsConserved, HandPayout.BestHandsArePaid).
- EventObserver.HandState.HandStarts: does not compare with the blind seats the engine reports besides the event.
- Timers, voting on a second board, the time bank, pre-selected actions as a table field, the blind schedule: the table takes the engine's commands and any change of settings as steps of their own.
- A run-it-twice answer that arrives after the hand ended; whether a finished hand is ever cleared is not claimed.
- Names, passwords, join policies and spectators: a join is open or not.
- Placements, statistics, persistence, chat, voice and drawings.
- Stopping and pausing: any switch between running and paused is allowed while the table is not ended; the pause after a violated chip sum is not modelled since the alarm is shown silent.
- Seating of a player who is already seated is not a step; the source gives every join a new identity.
- TableLedger.Table.Restart: does not claim that the starting blinds are valid, because a patch of one blind alone can leave the starting small blind above the big one.
- HandEven.PotsAlwaysFair: asks for a start that leaves the players level and no two blinds above the straddle. Without that a run is fair at a moment exactly under Pots.LayersFairIff; HandCalls.AlwaysFairIff decides the start when stacks are deep. With short stacks it depends on who is all-in at which level later on.
- TableLedger.Table.Engine: calls the engine through its specification rather than through a Hand object held by the table; armed actions are further commands.
- TableLedger.Table.TurnOver: leaves out the time bank that can put the timeout off.
- TableLedger.Table.StartHand: leaves out the scheduled blind raise, which is a change of settings before it.
