# Property Tycoon turn engine in Dafny

Property Tycoon is a small property-trading board game for two to four
players. Its core is a reducer. It takes the current game state and one of
five actions and returns the next state:

- ROLL moves the current player by two dice and settles the landed square.
- BUY buys the offered property.
- SKIP_BUY declines it.
- END_TURN hands play to the next solvent player.
- RESET starts a new game with the same names.

The reducer is built on a few helpers: the turn-rotation scan, the move
round the ring, paying and crediting, sending to jail, and the capped log.
There is also the landing resolver, which handles property offers, rent,
tax and go-to-jail, followed by the bankruptcy check. Next to the reducer
sits the fixed twelve-square board.

The project has eight modules:

- `Types` holds the vocabulary: tiles, players, phases, dice, log events,
  the game state and actions.
- `Tiles` holds the board.
- `Rules` is the pure meaning of every helper and of the reducer.
  `Transition` is the reducer as a function.
- `Engine` is the reducer as written. It makes a working copy (`class
  Game`), then changes that copy step by step through mutating helpers
  that each match their pure counterpart. `Reducer` is proved equal to
  `Rules.Transition`, and the `for` loop of the rotation scan is proved
  equal to `Rules.NextAlive`.
- `Invariants` holds what every reachable state satisfies, and the proofs
  that the initial state has it and every action keeps it.
- `Landing` describes landing on each kind of square, in terms of money
  moved and ownership released.
- `Turns` describes what each action does to a whole state.
- `Scenarios` holds short concrete games on the stock board.

The dice and the board generated on a reset are parameters of the reducer
(`d1`, `d2`, `board`). A log line is kept as an event that carries the
values its text is formatted from. A tile's optional, nullable owner is
`OwnerField` (`Absent`, `NoOwner` or `OwnedBy(id)`). The loose comparison
with null (`== null`) is true for the first two. The strict comparison
with a player id (`=== p.id`) holds only for `OwnedBy(p.id)`. JavaScript's
`%` keeps the dividend's sign and is modelled by `Rules.JsRem`.

What the code does, stated plainly where it is easy to assume otherwise:

- The jail sentence is one turn (src/games/engine.ts:37).
- A jailed player's ROLL only takes a turn off the sentence and ends the
  turn (src/games/engine.ts:137-143); there is no other way out of jail.
- The stock board's rents are a tenth of the prices (src/games/tiles.ts:5-15).
- RESET starts over with the names alone, so colours and bot flags are
  cleared (src/games/engine.ts:198). The restart dialog describes this
  reset as keeping the players and their colours
  (src/components/restartDialog.tsx:37); the model follows the engine.
- RESET, like every action, only rotates the turn while the current player
  is bankrupt (src/games/engine.ts:127-132).
- The default argument `['You', 'Bot']` is a list of bare names, so neither
  default player is a bot. The built-in pair whose second player is a bot
  is used only when an empty list is passed (src/games/engine.ts:44, 62-65).

## Model

| member | source | states |
|---|---|---|
| Tiles.MakeTiles | src/games/tiles.ts:3-16 | Twelve squares numbered by position. GO is at 0, jail at 4, free parking at 6, go-to-jail at 8, and the two taxes at 2 and 10. Every other square is an unowned property with a positive price and a rent of a tenth of it. Non-properties carry no price, rent or owner. |
| Invariants.MakeTilesIsFresh | src/games/tiles.ts:3-16 | The stock board is a valid board for a new game: non-empty, nothing owned, no negative rent. |
| Rules.ScanAlive | src/games/engine.ts:9-16 | The scan of offsets `i..n` after `idx` returns the seat of the first solvent player at one of those offsets. It returns `idx` when all of them are bankrupt. |
| Rules.SeatCovers | src/games/engine.ts:11-12 | Every seat is reached by some offset `1..n` of the scan. |
| Rules.SolventSeat | src/games/engine.ts:11-13 | If any player is solvent, the scan meets a solvent seat. |
| Rules.NextAlive | src/games/engine.ts:9-16 | The result is a seat. If any player is solvent, it is a solvent player and the first one round the table after `idx`. If all are bankrupt, it is `idx`. |
| Engine.FindNextAlive | src/games/engine.ts:9-16 | The loop returns exactly `NextAlive`. |
| Rules.MovePlayer | src/games/engine.ts:18-29 | GO is passed exactly when the raw sum reaches the board length. The new square always differs from the raw sum by whole laps and is less than one lap from 0. From a square on the board it is on the board. |
| Turns.MoveSingleLap | src/games/engine.ts:23-27 | A move of at most one lap lands on the raw sum, less one lap exactly when GO was passed. |
| Rules.IndexOfKind | src/games/engine.ts:35 | The result is -1 exactly when no square has the kind. Otherwise it is the first square of that kind. |
| Rules.AddLog | src/games/engine.ts:40-42 | The new entry comes first, followed by the newest older entries, capped at 50. |
| Rules.JsRem | src/games/engine.ts:26 | JavaScript's remainder: less than the divisor in size, equal to the Euclidean remainder for a non-negative dividend, never positive for a negative one, and differing from the dividend by a multiple of the divisor. |
| Rules.JsRemUnique | src/games/engine.ts:26 | Those properties fix the remainder: any value with the dividend's sign, a magnitude below the divisor and a difference from the dividend that the divisor divides is `JsRem`. |
| Rules.Pay | src/games/engine.ts:31 | The amount leaves the player's cash; crediting it back restores the player exactly. |
| Rules.Credit | src/games/engine.ts:32 | The amount is added to the player's cash and nothing else changes. |
| Rules.SendToJail | src/games/engine.ts:34-38 | The player gets a one-turn sentence and stands on the board's first jail square, or where it stood when the board has none. Nothing else about it changes. |
| Rules.Log | src/games/engine.ts:40-42 | Only the log changes: the entry comes first, then the newest older entries, at most 50 in all. |
| Rules.DefaultArgumentHasNoBot | src/games/engine.ts:44-65 | The default argument seats "You" and "Bot", neither of them a bot, which is not the built-in pair used for an empty list. |
| Rules.InitialState | src/games/engine.ts:44-72 | Each seat `i` has id `i`, its own name, position 0, 1500 in cash, no sentence and is solvent. An empty list gives the two default players. The game starts on seat 0, in phase idle, with no dice, a one-entry log and board size 6. |
| Rules.LandingEffect | src/games/engine.ts:74-107 | The board, seat, dice and roster size are kept, and the mover keeps its id and solvency flag. The phase becomes the buy prompt exactly on an unowned property. Every other player is unchanged or credited the square's rent. The exact amounts are in Landing.EffectSummary. |
| Rules.Release | src/games/engine.ts:111 | Afterwards the player owns nothing; exactly its squares become unowned and every other square is unchanged. |
| Rules.SettleDebt | src/games/engine.ts:109-113 | The mover is bankrupt afterwards exactly when it was or is in debt, and a mover in debt owns no square afterwards. A mover not in debt changes nothing. Landing.SettleSummary adds the log entry and the released squares. |
| Rules.ResolveLanding | src/games/engine.ts:74-114 | Roster and board sizes, seat and dice are kept, and the mover is bankrupt exactly when it already was or is left in debt. The whole outcome is in Landing.LandingSummary and the per-square Landing lemmas. |
| Rules.Rotate | src/games/engine.ts:127-132 | Only the seat, the phase (idle) and the dice (cleared) change. The new seat is on the table, solvent if anyone is, and unchanged when everyone is bankrupt. The seat is `NextAlive`, as Turns.TurnPasses states. |
| Rules.RollDice | src/games/engine.ts:135-162 | Outside the idle phase nothing changes. Otherwise the turn ends or waits on the buy prompt, and the roster, board size and seat are kept. A jailed roll shows no dice and leaves the board alone; a free roll shows the dice thrown. The full effect is in Turns.JailedRoll and Turns.FreeRoll. |
| Rules.BuyTile | src/games/engine.ts:164-181 | Outside the buy prompt nothing changes; on it the turn ends. The buyer's cash is either unchanged or still non-negative. Turns.BuyOutcome gives the exact purchase. |
| Rules.SkipBuying | src/games/engine.ts:183-188 | Outside the buy prompt nothing changes. On it the turn ends and the decision is logged, nothing else. |
| Rules.ResetGame | src/games/engine.ts:197-199 | A fresh game on the new board in the idle phase, with no dice and seat 0 to play. The same names sit in the same seats, each player back at GO with 1500, no sentence, no colour and no bot flag. |
| Rules.Transition | src/games/engine.ts:116-204 | There is always a current player, and every action except RESET keeps the number of players and squares. The actions are stated by Turns.TurnPasses, OutOfPhaseIsNoOp, JailedRoll, FreeRoll, BuyOutcome, SkipOutcome, ResetOutcome and RosterAndBoardKept; Invariants.TransitionKeepsWf and TransitionKeepsConsistent show it keeps every invariant. |
| Rules.Advance | src/games/engine.ts:145-154 | The mover ends on the new square that `MovePlayer` computes. The board, the current seat and the number of players are kept. |
| Turns.AdvanceSummary | src/games/engine.ts:145-154 | The move changes only the mover's cash and position: +200 exactly when a lap is completed, and the square `(position + dice) mod board length`. The dice shown are the roll, and the total cash grows by the bonus. |
| Engine.Game.Copy | src/games/engine.ts:117-123 | The working copy holds the incoming state. |
| Engine.Game.Pay | src/games/engine.ts:31 | Only the player's cash changes, down by the amount. |
| Engine.Game.Credit | src/games/engine.ts:32 | Only the player's cash changes, up by the amount. |
| Engine.Game.SendToJail | src/games/engine.ts:34-38 | The player moves to the first jail square (or stays if there is none) and gets a one-turn sentence. Nothing else changes. |
| Engine.Game.Log | src/games/engine.ts:40-42 | Only the log changes, to `AddLog` of the entry. |
| Engine.Game.Land | src/games/engine.ts:74-107 | The in-place landing effect leaves the copy equal to `Rules.LandingEffect` of the old state. |
| Engine.Game.Settle | src/games/engine.ts:109-113 | The in-place debt check leaves the copy equal to `Rules.SettleDebt` of the old state. |
| Engine.Game.ResolveLanding | src/games/engine.ts:74-114 | Landing then the debt check, in place, leave the copy equal to `Rules.ResolveLanding` of the old state. |
| Engine.Game.Roll | src/games/engine.ts:135-162 | The in-place ROLL branch leaves the copy equal to `Rules.RollDice` of the old state with the same dice. |
| Engine.Game.Buy | src/games/engine.ts:164-181 | The in-place BUY branch leaves the copy equal to `Rules.BuyTile` of the old state. |
| Engine.Reducer | src/games/engine.ts:116-204 | The copying, mutating reducer returns exactly `Rules.Transition`. |
| Landing.TotalCashUpdate | src/games/engine.ts:31-32 | Changing one player's cash changes the total by exactly that change. |
| Landing.EffectSummary | src/games/engine.ts:74-107 | Before the debt check, the mover pays what is due: the rent to a solvent other owner, or the tax. That owner receives exactly the rent and nobody else's record changes. Total cash drops only by the tax. An unowned property opens the buy prompt, and the board is untouched. |
| Landing.RentEffect | src/games/engine.ts:83-89 | Rent owed to a solvent other owner is taken from the mover and credited to that owner, and total cash is unchanged. |
| Landing.SettleSummary | src/games/engine.ts:109-113 | A mover in debt becomes bankrupt and owns nothing afterwards. Exactly its squares become unowned and the bankruptcy is logged. A mover not in debt changes nothing. |
| Landing.LandingSummary | src/games/engine.ts:74-113 | Landing and the debt check together: the mover's cash, the bankrupt flag exactly when the payment leaves it in debt, the other players, the total cash, the phase and the released squares. |
| Landing.LandingOnRentedProperty | src/games/engine.ts:83-89 | The rent moves from mover to owner. Their joint cash and the total are unchanged, everyone else is untouched and there is no buy prompt. |
| Landing.LandingOnTax | src/games/engine.ts:94-97 | The tax takes exactly 100 from the mover and from no one else. The mover goes bankrupt exactly when it had less than 100. |
| Landing.LandingOnGoToJail | src/games/engine.ts:34-38 | The mover ends on the board's first jail square, with a one-turn sentence and its cash kept. It stays where it is when the board has no jail. |
| Landing.LandingWithoutEffect | src/games/engine.ts:76-106 | GO (line 77), one's own property (the owner test at line 83 fails), jail and free parking (lines 104-106) move no money. For a mover not in debt they change nothing. |
| Turns.TurnPasses | src/games/engine.ts:127-132 | END_TURN, and any action while the current player is bankrupt, moves play to `NextAlive` (a solvent player if there is one), reopens the turn, clears the dice and changes nothing else. |
| Turns.OutOfPhaseIsNoOp | src/games/engine.ts:136-184 | ROLL outside idle (line 136), and BUY (line 165) or SKIP_BUY (line 184) outside the buy prompt, return the state unchanged. |
| Turns.JailedRoll | src/games/engine.ts:137-143 | A jailed player's roll takes one turn off the sentence and logs it. The turn ends with no dice, and nothing else changes. |
| Turns.RollUnfold | src/games/engine.ts:145-161 | A free roll is the move, then the landing on `(position + dice) mod board length`, then the end of the turn unless a buy prompt is open. |
| Turns.LandingAfterChange | src/games/engine.ts:74-113 | When only the mover's record changed before a landing, the dues and the collecting owner are those of the earlier state. |
| Turns.LandingAfterMove | src/games/engine.ts:145-157 | The landing after the move, in terms of the state before the roll: cash, total, bankruptcy, position, sentence, other players and phase. |
| Turns.FreeRoll | src/games/engine.ts:145-161 | A free roll sets the dice and moves the token `(position + dice) mod board length`. A lap pays exactly 200, and the landed square takes what is due and pays it to the owner alone. The total cash changes only by bonus and tax, and a debt bankrupts the mover. The turn waits for a decision exactly on an unowned property and ends otherwise. |
| Turns.BuyOutcome | src/games/engine.ts:164-181 | With an unowned priced property and enough cash, exactly the price is paid and the square becomes the buyer's, leaving its cash non-negative. Otherwise only the log changes. Either way the turn ends. |
| Turns.SkipOutcome | src/games/engine.ts:183-188 | SKIP_BUY logs the decision and ends the turn, nothing else. |
| Turns.ResetOutcome | src/games/engine.ts:197-199 | RESET is a fresh game on the new board. The names stay in the same seats and every player is back at GO with 1500. Colours and bot flags are cleared. |
| Turns.RosterTrans | src/games/engine.ts:116-204 | Keeping the roster and the squares (up to owners) composes across steps. |
| Turns.LandingKeepsRoster | src/games/engine.ts:74-114 | Landing never renames or renumbers a player, never revives a bankrupt one, and changes squares only in their owner. |
| Turns.RollKeepsRoster | src/games/engine.ts:135-162 | The same for a whole ROLL. |
| Turns.RosterAndBoardKept | src/games/engine.ts:116-204 | Every action except RESET keeps the players (ids, names, bankruptcy) and the squares up to their owners. |
| Invariants.InitialStateIsConsistent | src/games/engine.ts:44-72 | A new game on a valid board satisfies every invariant. |
| Invariants.RotateKeeps | src/games/engine.ts:127-132 | Rotation keeps the invariants. |
| Invariants.ResetKeeps | src/games/engine.ts:197-199 | Reset yields a state with every invariant. |
| Invariants.SkipKeeps | src/games/engine.ts:183-188 | SKIP_BUY keeps the invariants. |
| Invariants.BuyKeeps | src/games/engine.ts:164-181 | BUY keeps the invariants, because the buyer never goes below zero. |
| Invariants.ReleaseShape | src/games/engine.ts:111 | Releasing a bankrupt player's squares only clears that player's ownership. |
| Invariants.EffectKeeps | src/games/engine.ts:74-107 | A landing effect keeps the structure. Every solvent player other than the mover stays out of debt. |
| Invariants.SettleKeeps | src/games/engine.ts:109-113 | After the debt check, no solvent player is in debt and no bankrupt player owns a square. |
| Invariants.LandingKeeps | src/games/engine.ts:74-114 | Landing keeps every invariant. |
| Invariants.AdvanceKeeps | src/games/engine.ts:145-154 | The move keeps every invariant. |
| Invariants.RollKeeps | src/games/engine.ts:135-162 | ROLL keeps every invariant. |
| Invariants.TransitionKeepsWf | src/games/engine.ts:116-204 | Every action keeps the structure. Ids are seats, tokens are on the board, owners are players, the log holds at most 50 entries and the dice show faces. |
| Invariants.TransitionKeepsConsistent | src/games/engine.ts:116-204 | Every action also keeps solvency: sentences are at most one turn, only bankrupt players are in debt, and bankrupt players own nothing. |
| Invariants.Play | src/games/engine.ts:116-204 | Any sequence of actions from a consistent state ends in a consistent state. |
| Invariants.GamesStayConsistent | src/games/engine.ts:44-72 | Every game started on a valid board stays consistent however it is played. |
| Scenarios.FirstPurchase | src/games/engine.ts:145-181 | From GO, a roll of 1 and 2 offers Oak Street. Buying it costs 60 and makes seat 0 the owner. |
| Scenarios.RentToOwner | src/games/engine.ts:83-89 | With Oak Street held by seat 0, seat 1 rolling 1 and 2 from GO pays the rent of 6 to seat 0 and logs the payment. |
| Scenarios.IncomeTax | src/games/engine.ts:94-97 | From GO, a roll of 1 and 1 costs 100 in tax. |
| Scenarios.StockJail | src/games/tiles.ts:8 | The stock board's jail is square 4. |
| Scenarios.GoingToJail | src/games/engine.ts:99-102 | From GO, a roll of 4 and 4 ends on square 4 with a one-turn sentence. |
| Scenarios.ServingTheSentence | src/games/engine.ts:137-143 | A jailed player's roll clears the sentence and leaves the token in jail. |
| Scenarios.PassingGo | src/games/engine.ts:149-154 | From Luxury Tax, a roll of 2 and 3 passes GO, pays 200 and reaches Oak Street. |
| Scenarios.TaxBankrupts | src/games/engine.ts:109-113 | A player with 50 who lands on tax goes bankrupt and loses Oak Street. Play then skips that player. |

## Left out

- The random dice throw (`Math.random`) is replaced by the parameters `d1` and `d2`, which are required to be faces 1 to 6.
- `makeSquareBoard`, which generates the board used by a new game and by RESET, is not part of this model. Its result is the `board` parameter. The invariants require only that this board is non-empty, unowned and free of negative rents.
- Tile layout coordinates (`row`, `col`) are left out. They never affect the rules.
- The rendered text of the log lines is left out. Each line is an event that carries the values it is formatted from.
- The reducer's `default` branch for unknown action kinds is left out, since `Action` is closed.
- Rules.Transition and Engine.Reducer require `Playable`: a current seat, a non-empty board, the current player on the board and owners that are players. `Playable` holds in every state reached from a new game when that board and every board a RESET brings are non-empty, unowned and free of negative rents (Invariants.TransitionKeepsWf, Invariants.GamesStayConsistent). The model says nothing about what the source does on other states.
- Engine.Reducer: the source mutates player objects that it reaches through both `current` and `gs.players`. The model addresses players by seat instead, so that sharing is expressed as indexing and is not modelled as aliasing.
- The user-interface components, the bot's timer-driven play and the restart dialog are outside the turn engine and are left out.
