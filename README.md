# Open Hand History builder and settlement, in Dafny

This project models the `OpenHandHistory` class of the `ohh` library. The
class builds a record of one poker hand in the Open Hand History format. It
holds the hand-level configuration (blinds, dealer seat, …) and three
append-only lists: players, rounds (streets) with their actions, and pots.
On top of the builder sits a chip-settlement routine, `calculateWinningAmount`.
Adding a pot runs it for every player named in the pot.

The model has four modules, one per concern of the source:

- `Types` (`types.dfy`): the data shapes of `src/types.ts` as datatypes. Action
  kinds and positions are closed variants. `KindOfLabel` reads an `action`
  label into a kind by exact comparison, as the source's `===` does. A label
  outside the format (such as the upper-case `"RAISE"`) becomes
  `Unrecognized(text)` and matches no named kind. `WellFormedKind` keeps
  `Unrecognized` to such other text, so each label has exactly one kind. The
  field names follow `src/types.ts` in camelCase (`playerId`, `playerWins`,
  `winAmount`).
- `Positions` (`positions.dfy`): `getPlayerPosition`, with `findIndex` as
  `FindIndex` (−1 when nothing matches). The model keeps the source's fixed
  comparison order: Button, then SB, then BB, then Other. When the player is
  at the table, the position is proved equal to a reference classification
  by clockwise distance from the dealer, both with the dealer seat occupied
  and with it empty. A player who is not at the table is characterised by
  a separate lemma.
- `Settlement` (`settlement.dfy`): `calculatePotContribution` and
  `calculateWinningAmount` as pure functions over a `HandRecord`. Each
  left fold of the source is written as recursion on the last element. The
  fold over a round's actions is tied by lemmas to an independent "filter,
  then sum" reference. The folds over rounds and over pots are
  characterised by lemmas about idle players and about appending a pot.
- `Builder` (`builder.dfy`): the class `OpenHandHistory`. Its one field `ohh`
  is the record, and its methods replace it. `CalculateWinningAmount` is the
  nested loop of the source, proved equal to `Settlement.WinningAmount`.
  `AddPot` appends the pot and then rewrites its win shares. The client
  method `ComplexHandScenario` replays the source's "complex hand history"
  test against the contracts alone.

What the code does, in the cases a reader might not expect:

- Bet, Raise and Call amounts are all plain increments
  (src/index.ts:97-102, 154-160). No amount is read as a "raise to" total.
- A player id that is not at the table is not an error. `findIndex` gives −1
  for it, so the player is the Button when the dealer seat is empty as well,
  and Other otherwise (`MissingPlayerPosition`).
- A player who never acted and won no pot does not necessarily settle to 0.
  Every other player's Fold is credited to them (src/index.ts:104-110).
  `BystandersCollectFolds` exhibits this: player 2 bets 10 and then folds.
  Player 1, on the Button, who never acted, settles to 10. Player 3, on BB,
  settles to 10 minus the big blind. So the settlements of a hand need not
  sum to zero. A player settles to minus the blind of their position when
  all three of these hold (`IdleSettlement`): they place no Bet, Raise or
  Call; no other player folds; and no pot names them. The lemma states only
  this direction.
- Heads-up, BB is never returned while the dealer seat is occupied
  (`HeadsUpHasNoBigBlind`). With an empty dealer seat, the second of two
  players is BB (`HeadsUpWithoutDealerHasBigBlind`).

With no players at all, both lookups give −1, so src/index.ts:144 returns
Button before any modulo is taken (`NoPlayersIsButton`). The guard `n != 0`
in the model only keeps Dafny's `%` defined on that path. Elsewhere the
modulo is only taken of `dealerIndex + 1` and `dealerIndex + 2`, which are
never negative, so Dafny's `%` agrees with the source's there.

## Model

| member | source | states |
|---|---|---|
| `Positions.FindIndex` | src/index.ts:137-142 | the result is the first index whose element satisfies the predicate, or −1 exactly when no element does |
| `Positions.PositionByOffset` | src/index.ts:134-150 | with both the player and the dealer seat found, the position is Button, SB, BB or Other as the clockwise distance `(player − dealer) mod n` is 0, 1, 2 or more |
| `Positions.MissingPlayerPosition` | src/index.ts:137-149 | an absent player is the Button exactly when the dealer seat is also empty, and Other otherwise |
| `Positions.MissingDealerPosition` | src/index.ts:140-149 | with the dealer seat empty, the first player is SB, the second BB, and every later one Other |
| `Positions.HeadsUpHasNoBigBlind` | src/index.ts:144-148 | with two players and an occupied dealer seat, no one is BB, because `(d + 2) mod 2 = d` is caught by the Button check first |
| `Positions.HeadsUpWithoutDealerHasBigBlind` | src/index.ts:140-148 | with two players and an empty dealer seat, the second player is BB |
| `Positions.NoPlayersIsButton` | src/index.ts:137-144 | with no players both lookups give −1, so every player id is the Button |
| `Positions.ThreeSeatTable` | src/index.ts:144-149 | on seats 1, 2, 3 with the dealer on seat 1, seats 2 and 3 are SB and BB; with the dealer on seat 3, seat 1 wraps round to SB |
| `Settlement.Wagers` | src/index.ts:154-158 | every selected action is a Bet, Raise or Call action of the given player, drawn from the round |
| `Settlement.WagersKeepsEveryWager` | src/index.ts:153-163 | each Bet, Raise or Call action of the player is selected exactly as often as it occurs in the round, and no other action is selected |
| `Settlement.WagersAppend` | src/index.ts:153-163 | the selection keeps the round's order: extending the log by one action extends the selection by that action exactly when it is one of the player's wagers |
| `Types.KindOfLabel` | src/types.ts:12 | every label reads to a well-formed kind whose label is the text read |
| `Types.KindOfLabelOf` | src/types.ts:12 | a well-formed kind reads back from its own label, so each label has exactly one kind |
| `Settlement.LabelComparisons` | src/index.ts:97-105 | a label reads to a wager exactly when it is "Bet", "Raise" or "Call", and to Fold exactly when it is "Fold", as the source's string comparisons decide |
| `Settlement.ContributionIsSumOfWagers` | src/index.ts:152-164 | a round contribution equals the sum of the amounts (a missing amount is 0) of the player's Bet, Raise and Call actions; other kinds and other players add nothing |
| `Settlement.ContributionNonNegative` | src/index.ts:152-164 | a contribution is non-negative when every amount is |
| `Settlement.ContributionAppend` | src/index.ts:153-163 | folding two consecutive pieces of an action log adds their contributions |
| `Settlement.ContributionGrowsWithLog` | src/index.ts:152-164 | appending actions with non-negative amounts never lowers a contribution |
| `Settlement.OthersFolds` | src/index.ts:104-105 | every selected action is a Fold action of a player other than the given one, drawn from the round |
| `Settlement.OthersFoldsKeepsEveryFold` | src/index.ts:95-111 | each Fold action by another player is selected exactly as often as it occurs in the round, so each one is credited once, and no other action is selected |
| `Settlement.OthersFoldsAppend` | src/index.ts:95-111 | the selection keeps the round's order: extending the log by one action extends the selection by that action exactly when it is another player's Fold |
| `Settlement.RoundNetOverSplits` | src/index.ts:94-112 | after any prefix of a round's actions, the running round total is the folders' whole-round contributions (once per Fold action by another player) minus the player's own Bet, Raise and Call amounts in that prefix |
| `Settlement.RoundNetSplits` | src/index.ts:93-114 | a round's net for the player is the fold credit of the whole round minus the player's own contribution to it |
| `Settlement.FirstWinAmount` | src/index.ts:117-122 | the pot term is the win amount of the player's first entry in the pot, and 0 when the pot has no entry for the player |
| `Settlement.PotWinningsWithoutEntry` | src/index.ts:116-122 | if no pot names the player, the pot term is 0 |
| `Settlement.QuietRoundsNetZero` | src/index.ts:93-114 | if the player never wagers and no other player folds, the rounds add nothing |
| `Settlement.IdleSettlement` | src/index.ts:89-131 | if the player never wagers, no other player folds and no pot names the player, the player settles to 0 on the Button or Other, to minus the small blind on SB and to minus the big blind on BB |
| `Settlement.WinningAmountAfterPot` | src/index.ts:116-122 | appending a pot changes a settlement by exactly the player's first win share in that pot |
| `Settlement.BystandersCollectFolds` | src/index.ts:104-113 | player 2 bets 10 and folds: player 1 on the Button, who never acted, settles to 10; player 3 on BB settles to 10 minus the big blind; player 2 settles to −10 minus the small blind |
| `Builder.OpenHandHistory.constructor` | src/index.ts:7-50 | a new record holds the given configuration and no players, rounds or pots |
| `Builder.OpenHandHistory.AddPlayer` | src/index.ts:52-54 | the player is appended at the end; earlier players, the rounds, the pots and the configuration are unchanged |
| `Builder.OpenHandHistory.AddRound` | src/index.ts:56-58 | the round is appended at the end; everything else is unchanged |
| `Builder.OpenHandHistory.AddActionToRound` | src/index.ts:60-65 | the action is appended to the first round with the id and to no other; with no such round the record is unchanged |
| `Builder.OpenHandHistory.CalculateWinningAmount` | src/index.ts:89-132 | the nested loops compute `WinningAmount`: the rounds' nets, plus the pot term, minus the blind of the position |
| `Builder.OpenHandHistory.SettleWins` | src/index.ts:73-76 | each win share keeps its player id, in order, and its amount becomes that player's settlement against the current record |
| `Builder.OpenHandHistory.AddPot` | src/index.ts:67-78 | the pots grow by exactly one and the earlier pots are unchanged. The new pot keeps its number, amount, rake, and the length, order and player ids of its shares. Each share becomes the settlement computed with the supplied pot already in the list. That equals the player's settlement before the pot plus the player's first share in the supplied pot |

## Left out

- `saveToFile` (src/index.ts:84-87) writes JSON to a file. File I/O and JSON encoding are outside the model.
- `toJSON` (src/index.ts:80-82) only returns the record, which is the field `ohh` here. Serialisation and parsing are not modelled.
- The constructor's default values (src/index.ts:8-24) are not modelled, including the start date taken from the clock. The constructor takes the whole configuration as a parameter.
- The model treats players, rounds and actions as values, so it does not capture aliasing. In the source, `addPlayer`, `addRound` and `addActionToRound` (src/index.ts:52-65) store the caller's own objects. A caller who later changes a stored player's `id` or `seat` changes what `getPlayerPosition` returns. A caller who changes a stored action changes the settlement. `addActionToRound` mutates the round object in place, so the same round added twice would receive the action in both places.
- Amounts, seats and indices are unbounded integers. Floating-point behaviour, and `NaN` from a missing `win_amount`, are not modelled.
- `src/types.ts` spells fields in camelCase (`playerWins`, `winAmount`), but `src/index.ts` reads snake_case (`player_wins`, `win_amount`). At run time that mismatch would make `addPot` fail. The model uses one consistent naming and does not model that failure.
