# Blue Marble rule engine, modelled and verified in Dafny

This project models the rule engine inside `GameManager` of the Blue Marble board game, a
Monopoly-style game on a 40-space board. It covers:

- the turn order and the dice;
- the Golden Key deck of 30 cards, drawn from the front and put back at the end;
- what a landing on each space offers the player, and what each popup button does;
- the effect of every Golden Key card, including the building fees and the most-expensive-holding scan;
- bankruptcy and elimination, with the debt owed to the bank or to another player (the "shark");
- the end of the game once one player is left;
- the parsing of the destination the player picks at the space station.

Files and modules:

- `board.dfy` (`Board`): money, players, properties and the special spaces.
- `rotation.dfy` (`Rotation`): the turn arithmetic and removal from the turn list.
- `fees.dfy` (`Fees`): the building fees of cards 17, 20 and 25, and the scan of cards 22 and 23.
- `golden_keys.dfy` (`GoldenKeys`): the deck as a cyclic queue, and the card id → effect table.
- `landing.dfy` (`Landing`): the decision for each space.
- `station.dfy` (`Station`): the space-station destination parser.
- `game_manager.dfy` (`Game`): the `GameManager` class, whose methods update its fields in place.

Modelling choices:

- **Money** is an integer count of thousandths of $1M. Every constant of the game in `GameManager.java` is a
  whole number of these units. Half a property price (cards 22 and 23) is taken in whole units, so an odd
  price is halved rounding down (see "Left out").
- **Players and properties** are known by identity: a `PlayerId`, and the space a property sits on.
  - `accounts` maps each player to the Player fields the engine reads and writes.
  - `spaceToProperty` maps each space to its Property.
- **`Player` methods.** `Player.java` and `Property.java` are not part of this model. Their methods are given
  the smallest contracts the engine relies on:
  - `changeMoney` refuses a change that would make the balance negative (NotEnoughMoneyException);
  - `payOther` is refused, with nothing paid, when the payer's money is below the amount (BankruptcyException);
  - `takeOver` appends the loser's holdings to the shark's and makes the shark their owner;
  - `purchase` pays the list price, or is refused without the money;
  - `sell` removes the holding, returns it to the bank and credits proceeds, which the model takes as an input;
  - `directlyMove` sets the space; with its second argument `true`, passed only at the station exit (line 250), it also takes the player off the space station;
  - `move` steps around the 40 spaces modulo 40.
- **The turn index.** `eliminate` does not adjust `turn`, so `turn < |players|` is not an invariant of the class.
  - Each handler that reads `players.get(turn)` requires it.
  - `NextTurn` returns `None` where `players.get(turn)` would throw.
- **Handler outcomes.** A handler that ends with an exception returns `Aborted(reason)`; the popup then stays open.

## Model

| member | source | states |
|---|---|---|
| Board.Released | BlueMarbleGame/src/sample/GameManager.java:867-872 | a property handed back to the bank has no owner and, when it is a RegularProperty, no buildings; price, rent and kind are kept |
| Rotation.EveryPlayerGetsTheTurn | BlueMarbleGame/src/sample/GameManager.java:261-272 | without doubles, nextTurn reaches every seat from any seat within fewer than n changes, and n changes bring the turn back round |
| Rotation.AdvanceCompose | BlueMarbleGame/src/sample/GameManager.java:261-272 | k turn changes followed by m more are k + m changes |
| Rotation.AdvanceWithoutWrap | BlueMarbleGame/src/sample/GameManager.java:261-272 | before the wrap, each turn change moves the index one seat on |
| Rotation.WrapToFirst | BlueMarbleGame/src/sample/GameManager.java:264 | from the last seat the turn wraps to index 0 |
| Rotation.RemoveFirst | BlueMarbleGame/src/sample/GameManager.java:899 | players.remove(loser) drops the first occurrence of the loser, so the list is one shorter, and keeps only elements of the old list |
| Rotation.RemoveFirstSplices | BlueMarbleGame/src/sample/GameManager.java:899 | the list after removal is the part before the loser followed by the part after it |
| Rotation.RemoveFirstShifts | BlueMarbleGame/src/sample/GameManager.java:899 | after players.remove(loser), the players before the loser keep their index and the later ones move one index down |
| Rotation.RemovedStaysDistinct | BlueMarbleGame/src/sample/GameManager.java:899 | removing a player from a list without repeats leaves a list without repeats that no longer holds that player |
| Rotation.RemovedKeepsOthers | BlueMarbleGame/src/sample/GameManager.java:899 | removing a player keeps every other player of the list |
| Rotation.RemoveFromDistinct | BlueMarbleGame/src/sample/GameManager.java:899 | removing a player from a list without repeats leaves a list without repeats and without that player; everybody else stays, in the same relative order, with later players one index earlier |
| Rotation.SourceSkipsSuccessor | BlueMarbleGame/src/sample/GameManager.java:865-899 | as written: eliminating the current player 0 of [0, 1, 2] gives the next turn to player 2, not player 1; and with a double pending for player 2, the last of [0, 1, 2], eliminating that player leaves two players, so the game goes on, and the kept turn index 2 is outside the list |
| Rotation.EliminationKeepsRotation | BlueMarbleGame/src/sample/GameManager.java:865-899 | corrected: with the turn index adjusted on removal (AdjustedTurn), the next turn goes to the player the old order names next, and the index is inside the shorter list |
| Fees.ComputeFee | BlueMarbleGame/src/sample/GameManager.java:471-501 | the accumulator loop over the holdings returns BuildingFee: the sum, over RegularProperty holdings, of the weight of each building tier times its count |
| Fees.FeeNonNegative | BlueMarbleGame/src/sample/GameManager.java:471-501 | with non-negative weights the fee is never negative |
| Fees.FeeWithoutBuildings | BlueMarbleGame/src/sample/GameManager.java:471-501 | a player without buildings pays no fee |
| Fees.FeeMonotone | BlueMarbleGame/src/sample/GameManager.java:471-501 | larger weights never give a smaller fee |
| Fees.CardFeesOrdered | BlueMarbleGame/src/sample/GameManager.java:471-501 | for the same holdings, card 17 costs at most card 20, which costs at most card 25 |
| Fees.FeeAppend | BlueMarbleGame/src/sample/GameManager.java:471-501 | the fee of two lists of holdings put together is the sum of their fees |
| Fees.MostExpensive | BlueMarbleGame/src/sample/GameManager.java:459-468 | None exactly when the player holds nothing; otherwise an index whose price no holding exceeds, and before which every price is strictly lower (the first maximum wins) |
| GoldenKeys.Ordered | BlueMarbleGame/src/sample/GameManager.java:124-128 | the constructor adds the ids 0 to 29 in order |
| GoldenKeys.DeckHasThirtyCards | BlueMarbleGame/src/sample/GameManager.java:124-129 | any shuffle of the thirty ids has thirty cards |
| GoldenKeys.Rotate | BlueMarbleGame/src/sample/GameManager.java:852-856 | a draw keeps the deck's length |
| GoldenKeys.RotateKeepsCards | BlueMarbleGame/src/sample/GameManager.java:852-856 | a draw neither loses nor adds a card: the old head goes to the back and the other cards move one place up |
| GoldenKeys.RotateNCuts | BlueMarbleGame/src/sample/GameManager.java:852-856 | k draws cut the deck after its k-th card |
| GoldenKeys.DrawsArePrefix | BlueMarbleGame/src/sample/GameManager.java:852-856 | the first k draws return the first k cards, in order |
| GoldenKeys.FullCycle | BlueMarbleGame/src/sample/GameManager.java:852-856 | drawing the whole deck returns every card in deck order and restores the deck; the next draw is the first card again |
| GoldenKeys.OrderedHasEachOnce | BlueMarbleGame/src/sample/GameManager.java:124-128 | each id below n appears once among the ids the constructor adds |
| GoldenKeys.DeckCycleDrawsEachIdOnce | BlueMarbleGame/src/sample/GameManager.java:124-129 | whatever the shuffle, thirty draws return each id 0 to 29 exactly once |
| GoldenKeys.CardEffect | BlueMarbleGame/src/sample/GameManager.java:503-633 | the switch on the card id: an id outside 0 to 29 does nothing, and every teleport lands on the board |
| GoldenKeys.EliminatingCards | BlueMarbleGame/src/sample/GameManager.java:503-633 | only cards 0, 16 and 29 can eliminate a player; cards 1, 8, 9, 17, 20 and 25 charge the bank and only print a bankruptcy |
| GoldenKeys.AmountsPositive | BlueMarbleGame/src/sample/GameManager.java:503-633 | every amount the table moves is positive, and every fee weight is non-negative |
| GoldenKeys.OnDrawer | BlueMarbleGame/src/sample/GameManager.java:517-621 | a card that touches only the drawer keeps the drawer's holdings and never makes a non-negative balance negative; a bank-debt card takes its fee exactly when the balance covers it, never more, and otherwise changes nothing; a Receive card adds its amount (never lowering the balance for a positive amount); the world tour adds the pool; every other card leaves the money alone |
| Landing.PropertyDecision | BlueMarbleGame/src/sample/GameManager.java:639-832 | an unowned property is offered for sale, another player's property owes rent, and the player's own property offers building or nothing |
| Landing.Dispatch | BlueMarbleGame/src/sample/GameManager.java:353-834 | the switch on the space, each case in both directions: payday exactly on GO, stranded exactly on the deserted island, a Golden Key popup exactly on spaces 2, 7, 12, 17, 22 and 35, the whole pool exactly on 20, the welfare tax exactly on 38, free entry at 30 exactly when the pass is held, else an offer at the entry fee to the owner of 32, and no property exactly for a space missing from the map |
| Landing.CompleteBoardAlwaysDecides | BlueMarbleGame/src/sample/GameManager.java:353-834 | on a complete board, every space 0 to 39 leads to a popup |
| Landing.OwnershipDecides | BlueMarbleGame/src/sample/GameManager.java:639-832 | on an ordinary space, the decision follows the owner: buy at the price, rent to the owner (with the ticket offered exactly when the player holds one), build on one's own RegularProperty |
| Station.ParseInt | BlueMarbleGame/src/sample/GameManager.java:248 | Integer.parseInt succeeds exactly when, after one optional sign, the rest is a non-empty string of decimal digits whose value fits in 32 bits, and then returns that value, negated after a minus sign; otherwise NumberFormatException |
| Station.DecimalValue | BlueMarbleGame/src/sample/GameManager.java:248 | the digits of an index read back as that index |
| Station.DestinationRoundTrip | BlueMarbleGame/src/sample/GameManager.java:240-250 | a line "index: name" gives back that index, whatever the name, unless it is the space station's own line |
| Station.OnlyTheExactLineIsRefused | BlueMarbleGame/src/sample/GameManager.java:240-250 | only the exact line "30: Space Station" is refused; "30: Space station" leads back to space 30 |
| Game.WithMoney | BlueMarbleGame/src/sample/GameManager.java:382 | changeMoney changes one balance by the amount and leaves every other account alone |
| Game.Paid | BlueMarbleGame/src/sample/GameManager.java:437-441 | a payment moves the amount from payer to payee, or to the bank; holdings and every other account are unchanged |
| Game.ReleaseAll | BlueMarbleGame/src/sample/GameManager.java:866-873 | every holding of the loser goes back to the bank, unowned and without buildings; other spaces are unchanged |
| Game.Transfer | BlueMarbleGame/src/sample/GameManager.java:874-876 | every holding of the loser gets the shark as its owner; other spaces are unchanged |
| Game.TakenOver | BlueMarbleGame/src/sample/GameManager.java:874-876 | the shark's holdings grow by the loser's, and the shark gains the loser's money; other accounts are unchanged |
| Game.ReleaseOneMore | BlueMarbleGame/src/sample/GameManager.java:867-872 | handing one more holding back to the bank is one more update of the board map |
| Game.Collected | BlueMarbleGame/src/sample/GameManager.java:506-516 | card 0 on the accounts keeps every account and every holding list |
| Game.CollectedSkipsOthers | BlueMarbleGame/src/sample/GameManager.java:506-516 | a player not yet reached by card 0 has not paid |
| Game.CollectedByDrawer | BlueMarbleGame/src/sample/GameManager.java:506-516 | when every opponent can pay, the drawer gains the amount once per opponent |
| Game.CollectedFromEach | BlueMarbleGame/src/sample/GameManager.java:506-516 | when every opponent can pay, each of them pays the amount exactly once |
| Game.Bought | BlueMarbleGame/src/sample/GameManager.java:653 | a purchase takes the price from the buyer and appends the space to the buyer's holdings; every other account is unchanged |
| Game.Boarded | BlueMarbleGame/src/sample/GameManager.java:413 | enterSpaceStation puts the player on the station and changes nothing else |
| Game.CardAmounts | BlueMarbleGame/src/sample/GameManager.java:459-501 | showPopup computes the building fee only for cards 17, 20 and 25, with their own weights, and the first most expensive holding only for cards 22 and 23 |
| Game.Moved | BlueMarbleGame/src/sample/GameManager.java:539-541 | Player.directlyMove on the accounts: only the player's space changes, to the destination; every other account is unchanged |
| Game.Departed | BlueMarbleGame/src/sample/GameManager.java:250 | Player.directlyMove(dest, true) on the accounts: the player is on the destination and no longer on the space station; nothing else about the player or any other account changes |
| Game.Sold | BlueMarbleGame/src/sample/GameManager.java:607 | Player.sell on the accounts: the space leaves the player's holdings, the proceeds are credited, nothing else about the player or any other account changes |
| Game.FirstShort | BlueMarbleGame/src/sample/GameManager.java:506-516 | the index at which card 0's walk stops: an opponent there cannot pay, or it is the length of the list |
| Game.FirstShortBefore | BlueMarbleGame/src/sample/GameManager.java:506-516 | every opponent before the one where card 0's walk stops can pay |
| Game.FirstShortSnoc | BlueMarbleGame/src/sample/GameManager.java:506-516 | one more player at the end of the list leaves an earlier stop where it was, stops at the new player when that one cannot pay, and otherwise moves past it |
| Game.FirstShortStep | BlueMarbleGame/src/sample/GameManager.java:506-516 | the stop of card 0's walk over the first i + 1 players, from the stop over the first i |
| Game.FirstShortAt | BlueMarbleGame/src/sample/GameManager.java:506-516 | nobody short among the first i players and the player at i short (or none left): card 0's walk over the whole list stops at i |
| Game.CardZero | BlueMarbleGame/src/sample/GameManager.java:506-516 | card 0: with every opponent able to pay, the game goes on with the same players and board; otherwise exactly one player leaves and the handler closes exactly when the first short opponent was second to last, and aborts with ConcurrentModificationException otherwise |
| Game.PrefixPaid | BlueMarbleGame/src/sample/GameManager.java:506-515 | card 0's walk over players none of whom is short: each opponent among them has paid the amount once, the drawer has gained it once per opponent, and the players not yet reached are unchanged |
| Game.CardZeroRemovesFirstShort | BlueMarbleGame/src/sample/GameManager.java:506-516 | when the opponent at k is the first who cannot pay: that opponent is not the drawer, leaves the turn list, and the others keep their order (earlier ones their index, later ones one index down); the handler closes exactly when k is second to last |
| Game.CardZeroChargesBeforeFirstShort | BlueMarbleGame/src/sample/GameManager.java:506-516 | when the opponent at k is the first who cannot pay: every opponent before k has paid the amount, every one after k is untouched, and the drawer gains one amount per opponent before k plus the loser's money, and the loser's holdings |
| Game.CardZeroHandsOverFirstShort | BlueMarbleGame/src/sample/GameManager.java:506-516 | when the opponent at k is the first who cannot pay: the drawer owns every space the loser held, and every other space is unchanged |
| Game.CardZeroEveryonePays | BlueMarbleGame/src/sample/GameManager.java:506-516 | when every opponent can pay: the handler closes, nobody leaves, the board is unchanged, each opponent pays the amount once and keeps the holdings, and the drawer gains the amount once per opponent |
| Game.CardZeroAllPay | BlueMarbleGame/src/sample/GameManager.java:506-516 | card 0 closes with everyone paying and nobody eliminated exactly when every opponent's money covers the amount |
| Game.PayOwnerThenMove | BlueMarbleGame/src/sample/GameManager.java:572-581 | cards 16 and 29: without an owner, or with the money, the game goes on with the same players and board and the drawer on the destination; a drawer who cannot pay leaves the list, and the handler closes exactly when someone still sits at the drawer's index |
| Game.OwnerPaid | BlueMarbleGame/src/sample/GameManager.java:573-579 | the payment of cards 16 and 29: nothing changes without an owner; with the money, the payer loses the amount, the owner gains it, holdings and other accounts are unchanged; without it, the payer leaves the turn list, the owner gains the payer's money and holdings and owns the payer's spaces, and every other account and space is unchanged. When the drawer owns the space, paying changes nothing, and a drawer who cannot pay is eliminated in their own favour: their money and holding list are doubled before they leave the list |
| Game.MovedAt | BlueMarbleGame/src/sample/GameManager.java:580 | players.get(turn).directlyMove: only the space of the player at the index changes, to the destination, with the turn list and board unchanged; past the end of the list, IndexOutOfBoundsException with nothing changed |
| Game.InsolventDrawerMovesNext | BlueMarbleGame/src/sample/GameManager.java:572-581 | when the drawer of card 16 or 29 cannot pay and is not last in the list, the handler closes and the player after the drawer is moved to the destination |
| Game.SellHalf | BlueMarbleGame/src/sample/GameManager.java:602-609 | cards 22 and 23 for a given holding: the holding leaves the drawer's list and the bank owns it, the proceeds are credited, and half the price is charged exactly when the balance then covers it, else NotEnoughMoneyException; nobody leaves and every other account is unchanged |
| Game.GameManager.WalkOpponents | BlueMarbleGame/src/sample/GameManager.java:506-515 | the for-each loop of card 0 stops at FirstShort and leaves the accounts as Collected of the opponents before it |
| Game.GameManager.PayAt | BlueMarbleGame/src/sample/GameManager.java:507-514 | one pass of card 0's loop: the opponent pays the drawer exactly when able, moving the accounts one Collected step on; a short one changes nothing and stops the walk |
| Game.GameManager.PayOwner | BlueMarbleGame/src/sample/GameManager.java:573-579 | the payment of cards 16 and 29 on the game state is OwnerPaid of the state before |
| Game.GameManager.MoveAtTurn | BlueMarbleGame/src/sample/GameManager.java:580 | the move of cards 16 and 29 on the game state is MovedAt of the state before |
| Game.GameManager.ApplyTableCard | BlueMarbleGame/src/sample/GameManager.java:503-633 | cards 0, 16, 22, 23 and 29, and an id without a card, on the game state: CardZero, PayOwnerThenMove or SellHalf of the state before, or nothing at all |
| Station.ParseDestination | BlueMarbleGame/src/sample/GameManager.java:241-248 | the station's own line is refused, a line without a colon throws, and otherwise the result is ParseInt of the text before the first colon |
| Station.IndexOfChar | BlueMarbleGame/src/sample/GameManager.java:248 | String.indexOf: the first index of the character, or -1 exactly when it does not occur |
| Station.Unsigned | BlueMarbleGame/src/sample/GameManager.java:248 | the digits part after at most one leading sign |
| Station.ParseIntRoundTrip | BlueMarbleGame/src/sample/GameManager.java:248 | every 32-bit integer, written in decimal with a minus sign when negative, parses back to itself |
| Rotation.NextIndex | BlueMarbleGame/src/sample/GameManager.java:262-266 | a double keeps the index; otherwise the index moves one seat on and wraps to 0; the index stays inside a list it started inside |
| Game.GameManager.constructor | BlueMarbleGame/src/sample/GameManager.java:124-129 | a new game: every player on GO with the starting money, every property unowned, the deck some shuffle of the thirty ids, and an empty welfare pool |
| Game.GameManager.NextTurn | BlueMarbleGame/src/sample/GameManager.java:261-272 | a double keeps the turn and is used up; otherwise the turn moves on and wraps to 0; the player at the new index is returned, or none where players.get(turn) throws |
| Game.GameManager.BeginGame | BlueMarbleGame/src/sample/GameManager.java:138-192 | the game starts at the drawn seat and passes the turn once |
| Game.GameManager.RollDice | BlueMarbleGame/src/sample/GameManager.java:280-288 | the sum of two dice is 2 to 12, and a double is recorded exactly when the dice agree |
| Game.GameManager.DrawGoldenKeyCard | BlueMarbleGame/src/sample/GameManager.java:852-856 | the old head is returned, is an id 0 to 29, and goes to the back; the deck stays a deck |
| Game.GameManager.ChangeMoney | BlueMarbleGame/src/sample/GameManager.java:382 | a change is applied exactly when the balance stays non-negative |
| Game.GameManager.PayOther | BlueMarbleGame/src/sample/GameManager.java:437-441 | bankruptcy exactly when the payer's money is below the amount, with nothing paid; otherwise Paid |
| Game.GameManager.DirectlyMove | BlueMarbleGame/src/sample/GameManager.java:539-541 | the accounts become Moved (only the player's space changes); with the station-exit argument they become Departed, so the player is also off the space station |
| Game.GameManager.Eliminate | BlueMarbleGame/src/sample/GameManager.java:865-899 | to the bank: each of the loser's holdings reverts, unowned and unbuilt; to a shark: the holdings and the money go to the shark; the loser leaves the turn list, the others keep their order, and turn is not adjusted; the state stays consistent |
| Game.GameManager.ReturnToBank | BlueMarbleGame/src/sample/GameManager.java:866-872 | the loop over the loser's holdings leaves the board as ReleaseAll of them: each holding unowned and unbuilt, every other space as it was |
| Game.GameManager.HandOver | BlueMarbleGame/src/sample/GameManager.java:873-876 | the board is Transfer of the loser's holdings to the shark and the accounts are TakenOver |
| Game.GameManager.RemovePlayer | BlueMarbleGame/src/sample/GameManager.java:899 | the turn list loses the first occurrence of the loser and stays without repeats |
| Game.GameManager.ShowPopup | BlueMarbleGame/src/sample/GameManager.java:296-470 | a pending world tour is cleared and passes the turn with nothing else changed; otherwise the landing is decided as Land states |
| Game.GameManager.Land | BlueMarbleGame/src/sample/GameManager.java:353-470 | the station pass is used up and passes the turn; a Golden Key space draws the head card and prepares its fee and most expensive holding; any other space offers Dispatch's decision and changes nothing |
| Game.GameManager.UseStationPass | BlueMarbleGame/src/sample/GameManager.java:390-395 | the pass is spent and the player is on the station; no other account changes |
| Game.GameManager.DrawCardFor | BlueMarbleGame/src/sample/GameManager.java:449-501 | the head card is drawn and goes to the back, and the fee and the most expensive holding are those the card needs |
| Game.GameManager.LandOnDesertedIsland | BlueMarbleGame/src/sample/GameManager.java:364-375 | the double is forfeited and the player is held for three turns |
| Game.GameManager.CollectWelfare | BlueMarbleGame/src/sample/GameManager.java:376-388 | the player receives the whole pool and the pool is empty |
| Game.GameManager.EnterSpaceStation | BlueMarbleGame/src/sample/GameManager.java:405-419 | with the entry fee, the player pays it to the owner of space 32 (or the bank) and boards; without it nothing changes |
| Game.GameManager.PayEntryFee | BlueMarbleGame/src/sample/GameManager.java:408-411 | the fee is taken exactly when the balance covers it and goes to the owner of space 32, or to the bank; otherwise nothing changes |
| Game.GameManager.EnterStation | BlueMarbleGame/src/sample/GameManager.java:413 | the player is on the space station |
| Game.GameManager.DonateWelfareTax | BlueMarbleGame/src/sample/GameManager.java:432-448 | the donation goes to the bank, a player who cannot pay is eliminated to the bank, and the pool grows by 1.50 either way |
| Game.GameManager.Purchase | BlueMarbleGame/src/sample/GameManager.java:646-656 | the player buys at the list price and becomes the owner exactly when the money covers it; otherwise nothing changes |
| Game.GameManager.PayRent | BlueMarbleGame/src/sample/GameManager.java:666-682 | the rent goes to the owner, or a player who cannot pay is eliminated with the owner as shark |
| Game.GameManager.UseComplimentaryTicket | BlueMarbleGame/src/sample/GameManager.java:684-690 | one ticket is spent instead of the rent |
| Game.GameManager.CollectFromEach | BlueMarbleGame/src/sample/GameManager.java:506-516 | card 0 on the game state is CardZero of the state before: the accounts, the turn list, the board and the outcome, with the drawer still in the game |
| Game.GameManager.PayOwnerThenTeleport | BlueMarbleGame/src/sample/GameManager.java:572-581 | cards 16 and 29 on the game state are PayOwnerThenMove of the state before: accounts, turn list, board and outcome |
| Game.GameManager.SellMostExpensive | BlueMarbleGame/src/sample/GameManager.java:602-609 | cards 22 and 23 on the game state are SellHalf of the state before: the drawer's holdings and money, every other account, the board and the outcome |
| Game.GameManager.Sell | BlueMarbleGame/src/sample/GameManager.java:607 | the accounts become Sold (the space leaves the player's holdings, the proceeds are credited, nothing else about the player changes) and the property has no owner; every other space is unchanged |
| Game.GameManager.ApplyOnDrawer | BlueMarbleGame/src/sample/GameManager.java:517-621 | a card that touches only the drawer changes the drawer's account as OnDrawer says |
| Game.GameManager.ApplyDrawerCard | BlueMarbleGame/src/sample/GameManager.java:517-621 | a drawer-only card changes the drawer's account as OnDrawer says; card 5 forfeits the double, cards 11 and 12 empty the close handler, card 19 starts a world tour and empties the pool, cards 27 and 28 set the station pass |
| Game.GameManager.ApplyGoldenKey | BlueMarbleGame/src/sample/GameManager.java:503-633 | the switch on the card id: card 0 acts as CardZero, cards 16 and 29 as PayOwnerThenMove, cards 22 and 23 as SellHalf of the holding given, or change nothing without one; the drawer-only cards act as OnDrawer and leave the board alone; an id without a card changes no account; only cards 0, 16 and 29 change the turn list; card 5 forfeits the double, cards 11 and 12 empty the close handler, card 19 starts a world tour and empties the pool, cards 27 and 28 set the station pass |
| Game.GameManager.PopupClosed | BlueMarbleGame/src/sample/GameManager.java:333-343 | the game ends exactly when one player is left; otherwise the turn moves on unless a world tour is under way; an emptied handler does nothing |
| Game.GameManager.MoveFromSpaceStation | BlueMarbleGame/src/sample/GameManager.java:221-250 | the roll is skipped; the station's own line is refused; otherwise the player moves to the index at the head of the line and leaves the space station, and nothing else changes |

## Left out

- The JavaFX presentation (stages, labels, buttons, grid placement, animations, sounds) is left out. So is the bankrupt window, which names the current player rather than the loser.
- Reading images and `SpaceIndices.txt` is left out, because it is file I/O. The lines of the space list are an input of `MoveFromSpaceStation`.
- `Random` is left out. The dice values, the first seat of `beginGame` and the shuffled deck are inputs.
- Money is exact. The `double` rounding of the source is not modelled.
- `Player.java`, `Property.java`, `RegularProperty.java`, `ColumbiaSpaceShuttle.java` and `FillSpaceToPropertyMap.java` are not part of this model.
  - Their methods carry the assumed contracts listed above.
  - The board is any map that has every ordinary space of 0 to 39.
  - The space station's entry fee is taken to be $2.00M, as its button says.
- `Player.build` and the +/− building counters (lines 709-831) are left out. Building is decided by `Player.build`, which is not part of this model.
- The roll handler's movement and the deserted-island escape prompt (lines 100-116 and 153-180) are left out. They happen in Player code and in the UI.
- The popups' close request (lines 637 and 682) only fetches the button's handler and never runs it. Closing a card or rent popup with the window's close button skips its effect.
  - The model captures this only through the `Aborted`/`Closed` outcomes.
  - It has no separate method for closing a window.
- The rent button disables itself after one press (lines 673-674). This is not modelled.
- `Game.SellHalf`: half the price is `price / 2` in whole thousandths, rounding an odd count down, while the source halves a `double` exactly. The two agree whenever prices are whole even numbers of thousandths. The prices come from `FillSpaceToPropertyMap.java`, which is not part of this model, so this is assumed rather than shown.
- `Game.GameManager.SellMostExpensive`: what `Player.sell` credits is an input (`proceeds`). It is not derived from the property's price.
- `Station.ParseInt`: only ASCII digits are accepted. `Integer.parseInt` also accepts other Unicode decimal digits.
- `Game.GameManager.MoveFromSpaceStation`: a combo box with nothing chosen (`getValue()` null) is not modelled.
- `Game.GameManager.BeginGame`: the placement of the planes and the registration of handlers are left out. Only the turn state is modelled.

## Findings

| source | as written | input that shows it | evidently intended | confidence | as-written member | corrected member |
|---|---|---|---|---|---|---|
| BlueMarbleGame/src/sample/GameManager.java:899 | `eliminate` removes the loser from `players` but leaves `turn` and `gotDouble` as they were | players [0, 1, 2], turn 0, player 0 eliminated: the next `nextTurn` picks player 2. Players [0, 1, 2], turn 2 with a double pending, player 2 eliminated by rent: two players are left, so the check at lines 334-336 lets the game go on, and `nextTurn` keeps the index 2, outside the list, for `players.get(2)`. Cards 16 and 29 hit the same index at once: their move at line 580 reads `players.get(turn)` right after the elimination | the next turn goes to the player after the eliminated one, and the turn index stays inside the list | high (not executed) | Rotation.SourceSkipsSuccessor | Rotation.EliminationKeepsRotation |
